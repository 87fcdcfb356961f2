# libnavajo WebServer: configuration object, service flag and base64 classifier

This project models the parts of libnavajo's `WebServer` class whose
behaviour is written out in its header, `include/libnavajo/WebServer.hh`.
libnavajo is an embeddable HTTP/HTTPS server. The modelled parts are:

- **The configuration object.** The public setters write the server's
  scalar settings: port, thread-pool size, bind device, TLS flag, certificate,
  CA and password paths, peer-certificate flag, IPv4/IPv6 disable flags,
  multipart upload directory and buffer cap, and server name. The adders
  append to three ordered lists: Basic-auth `login:password` entries, allowed
  certificate DNs and allowed IP networks. They also append to the list of
  repositories, in registration order. `addWebSocket` binds an endpoint path
  to its handler in a map.
- **The service flag.** `isRunning` holds exactly when the thread handle
  `threadWebServer` is non-zero. `stopService` clears that handle.
- **`is_base64`.** This classifies the characters of the base64 alphabet. The
  `=` padding character is not one of them.

Modules:

- `Wrappers` (wrappers.dfy): `Option`.
- `Base64Chars` (base64_chars.dfy): `is_base64` over an `unsigned char`, and
  the base64 alphabet of RFC 4648, section 4, table 1. The alphabet is given
  as digit-to-character and character-to-digit functions.
- `Credentials` (credentials.dfy): the entry `addLoginPass` stores. It also
  defines `SplitCredential`, a reference split at the first `:`, which the
  stored form is judged against.
- `ServerConfig` (server_config.dfy): the configuration as a value
  (`Config`) and one `Setter` per public setter or adder. `Apply` gives the
  effect of one call and `Run` the effect of a sequence of calls. `Writes`
  gives each setter's field footprint. Lemmas cover sequences of calls:
  registration order, last-wins endpoints, and disable flags that are never
  cleared.
- `WebServerObject` (web_server.dfy): the class `WebServer`, with the
  source's fields and one method per setter. Each method is proved to leave
  `Config()` equal to `Apply(old(Config()), …)` of its own call, and to leave
  the thread handle alone. It also has `StartService`, `StopService` and
  `IsRunning`.

Repositories, WebSocket handlers and IP networks are type parameters. The
server only stores them, in order or by key, and never inspects them.

## Model

| member | source | states |
|---|---|---|
| `Base64Chars.IsBase64` | include/libnavajo/WebServer.hh:119-120 | `is_base64(c)`: `isalnum(c)` (modelled by `IsAlnum` as an ASCII letter or digit, the "C" locale) or `+` or `/`; any byte it accepts is 7-bit ASCII and is not the `=` padding |
| `Base64Chars.IsBase64IsAlphabet` | include/libnavajo/WebServer.hh:119-120 | `is_base64(c)` holds exactly when `c` is one of the 64 digits of the base64 alphabet (a letter, a digit, `+`, `/`) |
| `Base64Chars.Base64Index` | include/libnavajo/WebServer.hh:119-120 | every character `is_base64` accepts has a position below 64 in the alphabet, and that digit is the character itself |
| `Base64Chars.DigitIsBase64` | include/libnavajo/WebServer.hh:119-120 | every alphabet digit is accepted by `is_base64`, and its position is recovered from it |
| `Base64Chars.DigitsDistinct` | include/libnavajo/WebServer.hh:119-120 | the reference alphabet table `Base64Digit` is injective, so the set `is_base64` accepts (by `IsBase64IsAlphabet`) has 64 distinct members |
| `Base64Chars.PaddingAndSpaceRejected` | include/libnavajo/WebServer.hh:119-120 | the padding `=` and the "C" locale white-space characters (space, `\t`, `\n`, `\v`, `\f`, `\r`) are rejected |
| `Base64Chars.IsBase64IsAscii` | include/libnavajo/WebServer.hh:119-120 | no byte of 128 or more is accepted |
| `Credentials.LoginEntry` | include/libnavajo/WebServer.hh:185 | the stored entry is the login, then one `:` at position `|login|`, then the password |
| `Credentials.SplitCredential` | include/libnavajo/WebServer.hh:185 | splitting at the first `:` fails exactly when there is no `:`; otherwise the first part is colon-free and rejoined with `:` gives back the input |
| `Credentials.LoginEntryRoundTrip` | include/libnavajo/WebServer.hh:185 | splitting a stored entry at its first `:` recovers the login and password exactly when the login contains no `:` (both directions) |
| `Credentials.LoginsDistinguishEntries` | include/libnavajo/WebServer.hh:185 | distinct colon-free logins always give distinct stored entries |
| `ServerConfig.Apply` | include/libnavajo/WebServer.hh:138-232 | the effect of one setter or adder call, against which every setter method is proved; it leaves every configuration field outside the call's footprint (`Writes`) unchanged |
| `ServerConfig.SameFieldsSameConfig` | include/libnavajo/WebServer.hh:104-125 | the field enumeration covers the whole configuration: agreeing on every field means being equal |
| `ServerConfig.ApplyLists` | include/libnavajo/WebServer.hh:178-232 | a call changes one of the four lists only if it is that list's adder, and then appends exactly its argument |
| `ServerConfig.RunAppendsInOrder` | include/libnavajo/WebServer.hh:178-232 | after any call sequence, each list holds its earlier contents followed by exactly the added elements in call order; for repositories this is registration order |
| `ServerConfig.ApplyEndpointsAndFlags` | include/libnavajo/WebServer.hh:216-226 | only `addWebSocket` changes the endpoint map (by binding its path); only `listenIpV4only`/`listenIpV6only` change the disable flags, and only by setting them |
| `ServerConfig.RunEndpointLastWins` | include/libnavajo/WebServer.hh:216 | after any call sequence, a path is bound to the handler of its last `addWebSocket`; a path never added keeps its earlier binding or stays unbound |
| `ServerConfig.RunDisableFlags` | include/libnavajo/WebServer.hh:221-226 | after any call sequence, IPv6 is disabled exactly when it was before or `listenIpV4only` was called; IPv4 is disabled exactly when it was before or `listenIpV6only` was called |
| `ServerConfig.ListenIpOnlyIdempotent` | include/libnavajo/WebServer.hh:221-226 | `listenIpV4only` and `listenIpV6only` are idempotent and commute, and calling both disables both families |
| `ServerConfig.AddLoginPassRecoverable` | include/libnavajo/WebServer.hh:185 | `addLoginPass` appends exactly one entry and keeps the earlier ones; for a colon-free login the new entry splits back into the login and password |
| `WebServerObject.WebServer.constructor` | include/libnavajo/WebServer.hh:132-150 | assumed defaults: port 8080, pool size 5, empty lists and endpoint map, not running |
| `WebServerObject.WebServer.IsRunning` | include/libnavajo/WebServer.hh:276-279 | `isRunning`: true exactly when a non-zero thread handle is recorded; `StartService` and `StopService` state how it changes |
| `WebServerObject.WebServer.StartService` | include/libnavajo/WebServer.hh:249-253 | records the thread handle; the server reports running exactly when the handle is non-zero; the configuration is unchanged |
| `WebServerObject.WebServer.StopService` | include/libnavajo/WebServer.hh:258-279 | the handle becomes 0, so `isRunning` is false afterwards; the configuration is unchanged |
| `WebServerObject.WebServer.SetWebServerName` | include/libnavajo/WebServer.hh:138 | sets the server name and nothing else |
| `WebServerObject.WebServer.SetThreadsPoolSize` | include/libnavajo/WebServer.hh:144 | sets the pool size and nothing else |
| `WebServerObject.WebServer.ListenTo` | include/libnavajo/WebServer.hh:150 | sets the port and nothing else |
| `WebServerObject.WebServer.SetDevice` | include/libnavajo/WebServer.hh:156 | sets the device and nothing else |
| `WebServerObject.WebServer.SetUseSSL` | include/libnavajo/WebServer.hh:164-165 | sets the TLS flag, cert file and cert password together (both paths default to `""`) and nothing else |
| `WebServerObject.WebServer.SetAuthPeerSSL` | include/libnavajo/WebServer.hh:172 | sets the peer-certificate flag (default true) and CA file (default `""`) and nothing else |
| `WebServerObject.WebServer.AddAuthPeerDN` | include/libnavajo/WebServer.hh:178 | appends the DN to the DN list and changes nothing else |
| `WebServerObject.WebServer.AddLoginPass` | include/libnavajo/WebServer.hh:185 | appends `login + ":" + pass` at the end of the credential list and changes nothing else |
| `WebServerObject.WebServer.SetMutipartTempDirForFileUpload` | include/libnavajo/WebServer.hh:191 | sets the upload directory and nothing else |
| `WebServerObject.WebServer.SetMutipartMaxCollectedDataLength` | include/libnavajo/WebServer.hh:203 | sets the multipart buffer cap and nothing else |
| `WebServerObject.WebServer.AddRepository` | include/libnavajo/WebServer.hh:209 | appends the repository at the end of the repository list and changes nothing else |
| `WebServerObject.WebServer.AddWebSocket` | include/libnavajo/WebServer.hh:216 | binds the path to the handler, replacing any earlier handler; other paths keep their handlers; no other field changes |
| `WebServerObject.WebServer.ListenIpV4Only` | include/libnavajo/WebServer.hh:221 | sets `disableIpV6` and nothing else |
| `WebServerObject.WebServer.ListenIpV6Only` | include/libnavajo/WebServer.hh:226 | sets `disableIpV4` and nothing else |
| `WebServerObject.WebServer.AddHostsAllowed` | include/libnavajo/WebServer.hh:232 | appends the network to the allow-list and changes nothing else |
| `WebServerObject.ConfigureAndStop` | include/libnavajo/WebServer.hh:209-279 | usage example, not a source member: a host that adds two repositories, restricts both families, binds `/ws`, starts and then stops the server ends with the repositories in order, both families disabled, `/ws` bound, and the server not running |

## Left out

- WebServer.constructor: the constructor's body is not in the header. Its contract states only what the doc comments claim (port 8080 at line 148, pool size 5 at line 142). It also assumes that the containers start empty and that no thread handle is recorded. These are assumptions, not facts drawn from code. The other fields get arbitrary initial values.
- StartService: `create_thread` is opaque. The handle it stores is a parameter, and the `NVJ_LOG` line is not modelled. The contract's "configuration unchanged" assumes that the started service thread writes no configuration field; its body is not in the header.
- StopService: the body of `exit()` is not in the header. Its effects on the worker pool, the sockets and the `exiting` flag are not modelled. Only `threadWebServer = 0` is. The contract's "configuration unchanged" assumes that `exit()` writes no configuration field.
- SetWebServerName: `webServerName` is a `static` member, shared by every `WebServer` in the process. The model keeps it as a field of the one object. So the method's `modifies this` frame claims that other `WebServer` objects keep their name, whereas in the source setting the name on one instance changes it for all of them.
- `const char*` arguments (`setDevice`, `setUseSSL`, `setAuthPeerSSL`, `addAuthPeerDN`, `addLoginPass`) are modelled as the text they point to. A null pointer is not modelled. Dafny's `string` is a sequence of Unicode characters and may contain `'\0'`. The source's strings are bytes, and `string(login)` stops at the first NUL. The model does not constrain its strings to be NUL-free or byte-valued. No proved property depends on this, since `:` is a single byte.
- Integer widths: `ushort`, `size_t`, `long` and `pthread_t` are the ranges they have on 64-bit Linux. The setters take arguments already in range, so any conversion at the call site is the caller's.
- `isalnum` is modelled in the "C" locale. Other locales may classify bytes of 128 or more differently.
- The value of `base64_chars` is defined outside the header. The alphabet used here is the standard one of RFC 4648.
- `SplitCredential` is a reference definition, not a source operation. The body of `isUserAllowed`, which consumes the entries, is not in the header.
- `getPeerIpHistory` and `getPeerDnHistory` (lines 238, 244) return mutable references to the history maps. The code that fills those maps is not in the header, so they are not modelled.
- `wait()`, `startPoolThread`, `poolThreadProcessing`, `initPoolThreads`, the client queue and its mutex/condition variable, and the `exiting`/`exitedThread` flags are left out. They are thread creation and concurrency, and their bodies are not in the header.
- `freeClientSockData`, `closeSocket`, `httpSend`, `recvLine`, `init` and `server_sock` are left out. They are socket and memory resource handling, and `closeSocket`/`free` are not visible.
- `initialize_ctx`, `password_cb`, `verify_callback`, `verify_depth`, `sslCtx` and `certpass` are left out. They are OpenSSL calls.
- Also left out, because only their declarations are in the header: `base64_decode`, `base64_encode`, `SHA1_encode`, `generateWebSocketServerKey`, `isUserAllowed`, `isAuthorizedDN`, `get_mime_type`, `getHttpHeader`, `getHttpWebSocketHeader`, `accept_request`, the canned error messages, `updatePeerIpHistory` and `updatePeerDnHistory`.
