/**
 * The configuration state of a WebServer as a value, and the effect of each
 * public setter and adder on it. `Apply` is the specification the methods of
 * the WebServer class are proved against; `Run` replays a sequence of such
 * calls, so that properties relating several calls can be stated.
 *
 * Repositories, WebSocket endpoints and IP networks are type parameters: the
 * server only stores them and never looks inside.
 */
module ServerConfig {
  import opened Wrappers
  import Credentials

  /** `ushort`, `size_t`, `long` and `pthread_t` on a 64-bit Linux target. */
  type UInt16 = x: int | 0 <= x < 0x1_0000
  type UInt64 = x: int | 0 <= x < 0x1_0000_0000_0000_0000
  type Int64 = x: int | -0x8000_0000_0000_0000 <= x < 0x8000_0000_0000_0000

  /** The configuration fields of a WebServer (all but the thread handle). */
  datatype Config<Repository, Endpoint, Network> = Config(
    webServerName: string,
    threadsPoolSize: UInt64,
    tcpPort: UInt16,
    device: string,
    sslEnabled: bool,
    sslCertFile: string,
    sslCertPwd: string,
    authPeerSsl: bool,
    sslCaFile: string,
    authDnList: seq<string>,
    authLoginPwdList: seq<string>,
    mutipartTempDirForFileUpload: string,
    mutipartMaxCollectedDataLength: Int64,
    webRepositories: seq<Repository>,
    webSocketEndPoints: map<string, Endpoint>,
    disableIpV4: bool,
    disableIpV6: bool,
    hostsAllowed: seq<Network>)

  /** One call of a public setter or adder, with its arguments. */
  datatype Setter<Repository, Endpoint, Network> =
    | SetWebServerName(name: string)
    | SetThreadsPoolSize(nbThread: UInt64)
    | ListenTo(p: UInt16)
    | SetDevice(d: string)
    | SetUseSSL(ssl: bool, certFile: string, certPwd: string)
    | SetAuthPeerSSL(a: bool, caFile: string)
    | AddAuthPeerDN(dn: string)
    | AddLoginPass(login: string, pass: string)
    | SetMutipartTempDirForFileUpload(pathdir: string)
    | SetMutipartMaxCollectedDataLength(max: Int64)
    | AddRepository(repo: Repository)
    | AddWebSocket(endPoint: string, websocket: Endpoint)
    | ListenIpV4Only
    | ListenIpV6Only
    | AddHostsAllowed(ipnet: Network)

  /**
   * The configuration after one setter call. A setter leaves every field
   * outside its footprint `Writes(op)` as it was.
   */
  function Apply<R, W, N>(c: Config<R, W, N>, op: Setter<R, W, N>): (r: Config<R, W, N>)
    ensures forall f: Field :: f !in Writes(op) ==> SameField(c, r, f)
  {
    match op
    case SetWebServerName(name) => c.(webServerName := name)
    case SetThreadsPoolSize(n) => c.(threadsPoolSize := n)
    case ListenTo(p) => c.(tcpPort := p)
    case SetDevice(d) => c.(device := d)
    case SetUseSSL(ssl, certFile, certPwd) => c.(sslEnabled := ssl, sslCertFile := certFile, sslCertPwd := certPwd)
    case SetAuthPeerSSL(a, caFile) => c.(authPeerSsl := a, sslCaFile := caFile)
    case AddAuthPeerDN(dn) => c.(authDnList := c.authDnList + [dn])
    case AddLoginPass(login, pass) => c.(authLoginPwdList := c.authLoginPwdList + [Credentials.LoginEntry(login, pass)])
    case SetMutipartTempDirForFileUpload(pathdir) => c.(mutipartTempDirForFileUpload := pathdir)
    case SetMutipartMaxCollectedDataLength(max) => c.(mutipartMaxCollectedDataLength := max)
    case AddRepository(repo) => c.(webRepositories := c.webRepositories + [repo])
    case AddWebSocket(endPoint, ws) => c.(webSocketEndPoints := c.webSocketEndPoints[endPoint := ws])
    case ListenIpV4Only => c.(disableIpV6 := true)
    case ListenIpV6Only => c.(disableIpV4 := true)
    case AddHostsAllowed(ipnet) => c.(hostsAllowed := c.hostsAllowed + [ipnet])
  }

  /** The configuration after a sequence of setter calls, in order. */
  function Run<R, W, N>(c: Config<R, W, N>, ops: seq<Setter<R, W, N>>): Config<R, W, N>
  {
    if ops == [] then c else Apply(Run(c, ops[..|ops| - 1]), ops[|ops| - 1])
  }

  // ---------------------------------------------------------------------
  // Frames: each setter writes its own fields and no other.

  /** The names of the configuration fields. */
  datatype Field =
    | WebServerNameField | ThreadsPoolSizeField | TcpPortField | DeviceField
    | SslEnabledField | SslCertFileField | SslCertPwdField | AuthPeerSslField | SslCaFileField
    | AuthDnListField | AuthLoginPwdListField | MultipartDirField | MultipartMaxField
    | RepositoriesField | EndPointsField | DisableIpV4Field | DisableIpV6Field | HostsAllowedField

  /** The fields a setter writes, as the header's inline bodies assign them. */
  function Writes<R, W, N>(op: Setter<R, W, N>): set<Field>
  {
    match op
    case SetWebServerName(_) => {WebServerNameField}
    case SetThreadsPoolSize(_) => {ThreadsPoolSizeField}
    case ListenTo(_) => {TcpPortField}
    case SetDevice(_) => {DeviceField}
    case SetUseSSL(_, _, _) => {SslEnabledField, SslCertFileField, SslCertPwdField}
    case SetAuthPeerSSL(_, _) => {AuthPeerSslField, SslCaFileField}
    case AddAuthPeerDN(_) => {AuthDnListField}
    case AddLoginPass(_, _) => {AuthLoginPwdListField}
    case SetMutipartTempDirForFileUpload(_) => {MultipartDirField}
    case SetMutipartMaxCollectedDataLength(_) => {MultipartMaxField}
    case AddRepository(_) => {RepositoriesField}
    case AddWebSocket(_, _) => {EndPointsField}
    case ListenIpV4Only => {DisableIpV6Field}
    case ListenIpV6Only => {DisableIpV4Field}
    case AddHostsAllowed(_) => {HostsAllowedField}
  }

  /** Two configurations hold the same value in field `f`. */
  ghost predicate SameField<R, W, N>(c: Config<R, W, N>, d: Config<R, W, N>, f: Field)
  {
    match f
    case WebServerNameField => c.webServerName == d.webServerName
    case ThreadsPoolSizeField => c.threadsPoolSize == d.threadsPoolSize
    case TcpPortField => c.tcpPort == d.tcpPort
    case DeviceField => c.device == d.device
    case SslEnabledField => c.sslEnabled == d.sslEnabled
    case SslCertFileField => c.sslCertFile == d.sslCertFile
    case SslCertPwdField => c.sslCertPwd == d.sslCertPwd
    case AuthPeerSslField => c.authPeerSsl == d.authPeerSsl
    case SslCaFileField => c.sslCaFile == d.sslCaFile
    case AuthDnListField => c.authDnList == d.authDnList
    case AuthLoginPwdListField => c.authLoginPwdList == d.authLoginPwdList
    case MultipartDirField => c.mutipartTempDirForFileUpload == d.mutipartTempDirForFileUpload
    case MultipartMaxField => c.mutipartMaxCollectedDataLength == d.mutipartMaxCollectedDataLength
    case RepositoriesField => c.webRepositories == d.webRepositories
    case EndPointsField => c.webSocketEndPoints == d.webSocketEndPoints
    case DisableIpV4Field => c.disableIpV4 == d.disableIpV4
    case DisableIpV6Field => c.disableIpV6 == d.disableIpV6
    case HostsAllowedField => c.hostsAllowed == d.hostsAllowed
  }

  /** Two configurations that agree on every field are the same configuration. */
  lemma SameFieldsSameConfig<R, W, N>(c: Config<R, W, N>, d: Config<R, W, N>)
    requires forall f: Field :: SameField(c, d, f)
    ensures c == d
  {
    assert SameField(c, d, WebServerNameField) && SameField(c, d, ThreadsPoolSizeField);
    assert SameField(c, d, TcpPortField) && SameField(c, d, DeviceField);
    assert SameField(c, d, SslEnabledField) && SameField(c, d, SslCertFileField);
    assert SameField(c, d, SslCertPwdField) && SameField(c, d, AuthPeerSslField);
    assert SameField(c, d, SslCaFileField) && SameField(c, d, AuthDnListField);
    assert SameField(c, d, AuthLoginPwdListField) && SameField(c, d, MultipartDirField);
    assert SameField(c, d, MultipartMaxField) && SameField(c, d, RepositoriesField);
    assert SameField(c, d, EndPointsField) && SameField(c, d, DisableIpV4Field);
    assert SameField(c, d, DisableIpV6Field) && SameField(c, d, HostsAllowedField);
  }

  // ---------------------------------------------------------------------
  // The lists: each adder appends one element to its own list.

  /** The repositories registered by a call sequence, in call order. */
  function AddedRepositories<R, W, N>(ops: seq<Setter<R, W, N>>): seq<R>
  {
    if ops == [] then []
    else AddedRepositories(ops[..|ops| - 1]) + (if ops[|ops| - 1].AddRepository? then [ops[|ops| - 1].repo] else [])
  }

  /** The entries stored by the addLoginPass calls of a sequence, in call order. */
  function AddedLoginEntries<R, W, N>(ops: seq<Setter<R, W, N>>): seq<string>
  {
    if ops == [] then []
    else
      var op := ops[|ops| - 1];
      AddedLoginEntries(ops[..|ops| - 1]) + (if op.AddLoginPass? then [Credentials.LoginEntry(op.login, op.pass)] else [])
  }

  /** The DNs added by a call sequence, in call order. */
  function AddedDns<R, W, N>(ops: seq<Setter<R, W, N>>): seq<string>
  {
    if ops == [] then []
    else AddedDns(ops[..|ops| - 1]) + (if ops[|ops| - 1].AddAuthPeerDN? then [ops[|ops| - 1].dn] else [])
  }

  /** The networks allowed by a call sequence, in call order. */
  function AddedHosts<R, W, N>(ops: seq<Setter<R, W, N>>): seq<N>
  {
    if ops == [] then []
    else AddedHosts(ops[..|ops| - 1]) + (if ops[|ops| - 1].AddHostsAllowed? then [ops[|ops| - 1].ipnet] else [])
  }

  /** One call changes a list only when it is that list's adder, and then appends its argument. */
  lemma ApplyLists<R, W, N>(c: Config<R, W, N>, op: Setter<R, W, N>)
    ensures Apply(c, op).webRepositories == c.webRepositories + (if op.AddRepository? then [op.repo] else [])
    ensures Apply(c, op).authLoginPwdList ==
              c.authLoginPwdList + (if op.AddLoginPass? then [Credentials.LoginEntry(op.login, op.pass)] else [])
    ensures Apply(c, op).authDnList == c.authDnList + (if op.AddAuthPeerDN? then [op.dn] else [])
    ensures Apply(c, op).hostsAllowed == c.hostsAllowed + (if op.AddHostsAllowed? then [op.ipnet] else [])
  {
    match op
    case AddAuthPeerDN(_) =>
    case AddLoginPass(_, _) =>
    case AddRepository(_) =>
    case AddHostsAllowed(_) =>
    case _ =>
      assert c.webRepositories + [] == c.webRepositories;
      assert c.authLoginPwdList + [] == c.authLoginPwdList;
      assert c.authDnList + [] == c.authDnList;
      assert c.hostsAllowed + [] == c.hostsAllowed;
  }

  /**
   * After any sequence of calls, each list holds its earlier elements
   * followed by exactly the elements added, in the order they were added:
   * repositories stay in registration order.
   */
  lemma {:induction false} RunAppendsInOrder<R, W, N>(c: Config<R, W, N>, ops: seq<Setter<R, W, N>>)
    ensures Run(c, ops).webRepositories == c.webRepositories + AddedRepositories(ops)
    ensures Run(c, ops).authLoginPwdList == c.authLoginPwdList + AddedLoginEntries(ops)
    ensures Run(c, ops).authDnList == c.authDnList + AddedDns(ops)
    ensures Run(c, ops).hostsAllowed == c.hostsAllowed + AddedHosts(ops)
  {
    if ops != [] {
      var init, op := ops[..|ops| - 1], ops[|ops| - 1];
      RunAppendsInOrder(c, init);
      var d := Run(c, init);
      assert Run(c, ops) == Apply(d, op);
      ApplyLists(d, op);
      var repo := if op.AddRepository? then [op.repo] else [];
      var login := if op.AddLoginPass? then [Credentials.LoginEntry(op.login, op.pass)] else [];
      var dn := if op.AddAuthPeerDN? then [op.dn] else [];
      var host := if op.AddHostsAllowed? then [op.ipnet] else [];
      assert (c.webRepositories + AddedRepositories(init)) + repo == c.webRepositories + (AddedRepositories(init) + repo);
      assert (c.authLoginPwdList + AddedLoginEntries(init)) + login == c.authLoginPwdList + (AddedLoginEntries(init) + login);
      assert (c.authDnList + AddedDns(init)) + dn == c.authDnList + (AddedDns(init) + dn);
      assert (c.hostsAllowed + AddedHosts(init)) + host == c.hostsAllowed + (AddedHosts(init) + host);
    }
  }

  // ---------------------------------------------------------------------
  // The endpoint map: the last addWebSocket for a path wins.

  /**
   * One call changes the endpoint map only if it is addWebSocket, and sets a
   * disable flag only if it is the matching listen-only call; no call clears one.
   */
  lemma ApplyEndpointsAndFlags<R, W, N>(c: Config<R, W, N>, op: Setter<R, W, N>)
    ensures Apply(c, op).webSocketEndPoints ==
              if op.AddWebSocket? then c.webSocketEndPoints[op.endPoint := op.websocket] else c.webSocketEndPoints
    ensures Apply(c, op).disableIpV6 == (c.disableIpV6 || op.ListenIpV4Only?)
    ensures Apply(c, op).disableIpV4 == (c.disableIpV4 || op.ListenIpV6Only?)
  {
    match op
    case AddWebSocket(_, _) =>
    case ListenIpV4Only =>
    case ListenIpV6Only =>
    case _ =>
  }

  /** The handler of the last addWebSocket call for `path` in a sequence, if any. */
  function LastHandler<R, W, N>(ops: seq<Setter<R, W, N>>, path: string): Option<W>
  {
    if ops == [] then None
    else
      var op := ops[|ops| - 1];
      if op.AddWebSocket? && op.endPoint == path then Some(op.websocket)
      else LastHandler(ops[..|ops| - 1], path)
  }

  /**
   * A path is bound to the handler most recently added for it; a path never
   * passed to addWebSocket keeps its earlier binding, or stays unbound.
   */
  lemma {:induction false} RunEndpointLastWins<R, W, N>(c: Config<R, W, N>, ops: seq<Setter<R, W, N>>, path: string)
    ensures LastHandler(ops, path).Some? ==>
              path in Run(c, ops).webSocketEndPoints && Run(c, ops).webSocketEndPoints[path] == LastHandler(ops, path).value
    ensures LastHandler(ops, path).None? ==>
              (path in Run(c, ops).webSocketEndPoints <==> path in c.webSocketEndPoints) &&
              (path in c.webSocketEndPoints ==> Run(c, ops).webSocketEndPoints[path] == c.webSocketEndPoints[path])
  {
    if ops != [] {
      var init := ops[..|ops| - 1];
      RunEndpointLastWins(c, init, path);
      assert Run(c, ops) == Apply(Run(c, init), ops[|ops| - 1]);
      ApplyEndpointsAndFlags(Run(c, init), ops[|ops| - 1]);
    }
  }

  // ---------------------------------------------------------------------
  // The address-family flags.

  /**
   * No setter clears a disable flag: after any sequence of calls IPv6 is
   * disabled exactly when it was before or listenIpV4only was called, and
   * symmetrically for IPv4 and listenIpV6only.
   */
  lemma {:induction false} RunDisableFlags<R, W, N>(c: Config<R, W, N>, ops: seq<Setter<R, W, N>>)
    ensures Run(c, ops).disableIpV6 <==> c.disableIpV6 || ListenIpV4Only in ops
    ensures Run(c, ops).disableIpV4 <==> c.disableIpV4 || ListenIpV6Only in ops
  {
    if ops != [] {
      var init := ops[..|ops| - 1];
      RunDisableFlags(c, init);
      assert ops == init + [ops[|ops| - 1]];
      assert Run(c, ops) == Apply(Run(c, init), ops[|ops| - 1]);
      ApplyEndpointsAndFlags(Run(c, init), ops[|ops| - 1]);
    }
  }

  /** listenIpV4only and listenIpV6only are idempotent, and together disable both families. */
  lemma ListenIpOnlyIdempotent<R, W, N>(c: Config<R, W, N>)
    ensures Apply(Apply(c, ListenIpV4Only), ListenIpV4Only) == Apply(c, ListenIpV4Only)
    ensures Apply(Apply(c, ListenIpV6Only), ListenIpV6Only) == Apply(c, ListenIpV6Only)
    ensures Apply(Apply(c, ListenIpV4Only), ListenIpV6Only) == Apply(Apply(c, ListenIpV6Only), ListenIpV4Only)
    ensures Apply(Apply(c, ListenIpV4Only), ListenIpV6Only).disableIpV4
    ensures Apply(Apply(c, ListenIpV4Only), ListenIpV6Only).disableIpV6
  {
  }

  /** A stored login entry splits back into its login and password when the login has no ':'. */
  lemma AddLoginPassRecoverable<R, W, N>(c: Config<R, W, N>, login: string, pass: string)
    requires ':' !in login
    ensures var d := Apply(c, AddLoginPass(login, pass));
            |d.authLoginPwdList| == |c.authLoginPwdList| + 1 &&
            d.authLoginPwdList[..|c.authLoginPwdList|] == c.authLoginPwdList &&
            Credentials.SplitCredential(d.authLoginPwdList[|c.authLoginPwdList|]) == Some((login, pass))
  {
    Credentials.LoginEntryRoundTrip(login, pass);
  }
}
