/**
 * The WebServer object: its configuration fields, the public setters and
 * adders that overwrite or extend them, and the service handle that
 * startService sets, stopService clears and isRunning tests.
 */
module WebServerObject {
  import opened ServerConfig
  import Credentials

  class WebServer<Repository, Endpoint, Network> {
    /** `pthread_t threadWebServer`: 0 when no service thread is recorded. */
    var threadWebServer: UInt64

    var webServerName: string
    var disableIpV4: bool
    var disableIpV6: bool
    var tcpPort: UInt16
    var threadsPoolSize: UInt64
    var device: string
    var mutipartTempDirForFileUpload: string
    var mutipartMaxCollectedDataLength: Int64
    var sslEnabled: bool
    var sslCertFile: string
    var sslCaFile: string
    var sslCertPwd: string
    var authLoginPwdList: seq<string>
    var authPeerSsl: bool
    var authDnList: seq<string>
    var hostsAllowed: seq<Network>
    var webRepositories: seq<Repository>
    var webSocketEndPoints: map<string, Endpoint>

    /** The configuration fields as one value. */
    function Config(): Config<Repository, Endpoint, Network>
      reads this
    {
      ServerConfig.Config(
        webServerName, threadsPoolSize, tcpPort, device,
        sslEnabled, sslCertFile, sslCertPwd, authPeerSsl, sslCaFile,
        authDnList, authLoginPwdList,
        mutipartTempDirForFileUpload, mutipartMaxCollectedDataLength,
        webRepositories, webSocketEndPoints, disableIpV4, disableIpV6, hostsAllowed)
    }

    /**
     * The documented defaults: port 8080 and a pool of 5 threads; containers
     * start empty and no service thread is recorded.
     */
    constructor ()
      ensures tcpPort == 8080 && threadsPoolSize == 5
      ensures authLoginPwdList == [] && authDnList == [] && hostsAllowed == []
      ensures webRepositories == [] && webSocketEndPoints == map[]
      ensures !IsRunning()
    {
      threadWebServer := 0;
      tcpPort := 8080;
      threadsPoolSize := 5;
      authLoginPwdList, authDnList, hostsAllowed := [], [], [];
      webRepositories, webSocketEndPoints := [], map[];
    }

    /** `isRunning`: a service thread is recorded. */
    predicate IsRunning()
      reads this
      ensures IsRunning() <==> threadWebServer != 0
    {
      threadWebServer != 0
    }

    /**
     * `startService`: records the handle that thread creation stored in
     * `threadWebServer`; the thread and its log line are outside the model.
     */
    method StartService(handle: UInt64)
      modifies this
      ensures threadWebServer == handle
      ensures IsRunning() <==> handle != 0
      ensures Config() == old(Config())
    {
      threadWebServer := handle;
    }

    /** `stopService`: clears the thread handle, so the server no longer reports running. */
    method StopService()
      modifies this
      ensures threadWebServer == 0 && !IsRunning()
      ensures Config() == old(Config())
    {
      threadWebServer := 0;
    }

    method SetWebServerName(name: string)
      modifies this
      ensures webServerName == name
      ensures Config() == Apply(old(Config()), Setter.SetWebServerName(name))
      ensures threadWebServer == old(threadWebServer)
    {
      webServerName := name;
    }

    method SetThreadsPoolSize(nbThread: UInt64)
      modifies this
      ensures threadsPoolSize == nbThread
      ensures Config() == Apply(old(Config()), Setter.SetThreadsPoolSize(nbThread))
      ensures threadWebServer == old(threadWebServer)
    {
      threadsPoolSize := nbThread;
    }

    /** `listenTo`: the port to listen on (not range-checked by the setter). */
    method ListenTo(p: UInt16)
      modifies this
      ensures tcpPort == p
      ensures Config() == Apply(old(Config()), Setter.ListenTo(p))
      ensures threadWebServer == old(threadWebServer)
    {
      tcpPort := p;
    }

    method SetDevice(d: string)
      modifies this
      ensures device == d
      ensures Config() == Apply(old(Config()), Setter.SetDevice(d))
      ensures threadWebServer == old(threadWebServer)
    {
      device := d;
    }

    /** `setUseSSL`: the three TLS fields are set together; cert and password default to "". */
    method SetUseSSL(ssl: bool, certFile: string := "", certPwd: string := "")
      modifies this
      ensures sslEnabled == ssl && sslCertFile == certFile && sslCertPwd == certPwd
      ensures Config() == Apply(old(Config()), Setter.SetUseSSL(ssl, certFile, certPwd))
      ensures threadWebServer == old(threadWebServer)
    {
      sslEnabled := ssl;
      sslCertFile := certFile;
      sslCertPwd := certPwd;
    }

    /** `setAuthPeerSSL`: peer-certificate authentication (default on) and its CA file (default ""). */
    method SetAuthPeerSSL(a: bool := true, caFile: string := "")
      modifies this
      ensures authPeerSsl == a && sslCaFile == caFile
      ensures Config() == Apply(old(Config()), Setter.SetAuthPeerSSL(a, caFile))
      ensures threadWebServer == old(threadWebServer)
    {
      authPeerSsl := a;
      sslCaFile := caFile;
    }

    method AddAuthPeerDN(dn: string)
      modifies this
      ensures authDnList == old(authDnList) + [dn]
      ensures Config() == Apply(old(Config()), Setter.AddAuthPeerDN(dn))
      ensures threadWebServer == old(threadWebServer)
    {
      authDnList := authDnList + [dn];
    }

    /** `addLoginPass`: appends the entry `login:pass` to the credential list. */
    method AddLoginPass(login: string, pass: string)
      modifies this
      ensures authLoginPwdList == old(authLoginPwdList) + [login + ":" + pass]
      ensures Config() == Apply(old(Config()), Setter.AddLoginPass(login, pass))
      ensures threadWebServer == old(threadWebServer)
    {
      authLoginPwdList := authLoginPwdList + [Credentials.LoginEntry(login, pass)];
    }

    method SetMutipartTempDirForFileUpload(pathdir: string)
      modifies this
      ensures mutipartTempDirForFileUpload == pathdir
      ensures Config() == Apply(old(Config()), Setter.SetMutipartTempDirForFileUpload(pathdir))
      ensures threadWebServer == old(threadWebServer)
    {
      mutipartTempDirForFileUpload := pathdir;
    }

    method SetMutipartMaxCollectedDataLength(max: Int64)
      modifies this
      ensures mutipartMaxCollectedDataLength == max
      ensures Config() == Apply(old(Config()), Setter.SetMutipartMaxCollectedDataLength(max))
      ensures threadWebServer == old(threadWebServer)
    {
      mutipartMaxCollectedDataLength := max;
    }

    method AddRepository(repo: Repository)
      modifies this
      ensures webRepositories == old(webRepositories) + [repo]
      ensures Config() == Apply(old(Config()), Setter.AddRepository(repo))
      ensures threadWebServer == old(threadWebServer)
    {
      webRepositories := webRepositories + [repo];
    }

    /** `addWebSocket`: binds the endpoint path to the handler, replacing an earlier binding. */
    method AddWebSocket(endPoint: string, websocket: Endpoint)
      modifies this
      ensures endPoint in webSocketEndPoints && webSocketEndPoints[endPoint] == websocket
      ensures webSocketEndPoints.Keys == old(webSocketEndPoints).Keys + {endPoint}
      ensures forall p :: p in old(webSocketEndPoints) && p != endPoint ==>
                webSocketEndPoints[p] == old(webSocketEndPoints)[p]
      ensures Config() == Apply(old(Config()), Setter.AddWebSocket(endPoint, websocket))
      ensures threadWebServer == old(threadWebServer)
    {
      webSocketEndPoints := webSocketEndPoints[endPoint := websocket];
    }

    /** `listenIpV4only`: disables IPv6 and nothing else. */
    method ListenIpV4Only()
      modifies this
      ensures disableIpV6
      ensures Config() == Apply(old(Config()), Setter.ListenIpV4Only)
      ensures threadWebServer == old(threadWebServer)
    {
      disableIpV6 := true;
    }

    /** `listenIpV6only`: disables IPv4 and nothing else. */
    method ListenIpV6Only()
      modifies this
      ensures disableIpV4
      ensures Config() == Apply(old(Config()), Setter.ListenIpV6Only)
      ensures threadWebServer == old(threadWebServer)
    {
      disableIpV4 := true;
    }

    method AddHostsAllowed(ipnet: Network)
      modifies this
      ensures hostsAllowed == old(hostsAllowed) + [ipnet]
      ensures Config() == Apply(old(Config()), Setter.AddHostsAllowed(ipnet))
      ensures threadWebServer == old(threadWebServer)
    {
      hostsAllowed := hostsAllowed + [ipnet];
    }
  }

  /**
   * A usage example, not a member of the source: what a host application
   * configuring a server can conclude from the method contracts alone.
   */
  method ConfigureAndStop<R, W, N>(s: WebServer<R, W, N>, repo1: R, repo2: R, ws: W, handle: UInt64)
    modifies s
    ensures s.webRepositories == old(s.webRepositories) + [repo1, repo2]
    ensures s.disableIpV4 && s.disableIpV6
    ensures "/ws" in s.webSocketEndPoints && s.webSocketEndPoints["/ws"] == ws
    ensures !s.IsRunning()
  {
    s.AddRepository(repo1);
    s.AddRepository(repo2);
    s.ListenIpV4Only();
    s.ListenIpV6Only();
    s.AddWebSocket("/ws", ws);
    s.StartService(handle);
    s.StopService();
  }
}
