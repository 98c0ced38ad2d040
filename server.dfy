/**
 * Listener planning and lifecycle bookkeeping (internal/server).
 *
 * NewServer decides from the configuration which HTTP servers exist, with which
 * timeouts and addresses; Start binds their listeners one after another and gives up
 * at the first failure; Stop raises the `stopped` flag and asks every server to shut
 * down. Sockets, goroutines and the serve loops are not modelled: the outcome of each
 * bind and of each shutdown is an input.
 */
module Server {
  import opened Wrappers
  import Config
  import Format

  /** time.Duration, in nanoseconds. */
  type Duration = int

  const Second: Duration := 1_000_000_000

  /** defTimeout: the read-header timeout of every server, and the default write timeout. */
  const DefTimeout: Duration := 5 * Second

  /** The write timeout used when the profiling server is enabled. */
  const PProfWriteTimeout: Duration := 60 * Second

  /** The three HTTP servers, which also name the router each one serves. */
  datatype Listener = Main | Metrics | PProf

  /** The parts of an http.Server that NewServer sets. */
  datatype HttpServer = HttpServer(addr: string, readHeaderTimeout: Duration, writeTimeout: Duration, router: Listener)

  /** The three server pointers of a Server; None is a nil pointer. */
  datatype ServerSet = ServerSet(server: Option<HttpServer>, metricsServer: Option<HttpServer>, pprofServer: Option<HttpServer>)

  function Get(s: ServerSet, l: Listener): Option<HttpServer> {
    match l
    case Main => s.server
    case Metrics => s.metricsServer
    case PProf => s.pprofServer
  }

  /** The non-nil servers, in the order main, metrics, pprof. */
  function Configured(s: ServerSet): (ls: seq<Listener>)
    ensures forall l :: l in ls <==> Get(s, l).Some?
    ensures forall i, j :: 0 <= i < j < |ls| ==> ls[i] != ls[j]
  {
    (if s.server.Some? then [Main] else [])
    + (if s.metricsServer.Some? then [Metrics] else [])
    + (if s.pprofServer.Some? then [PProf] else [])
  }

  /** The servers a configuration enables, in the order main, metrics, pprof. */
  function Enabled(c: Config.Config): seq<Listener> {
    [Main] + (if c.metrics.enabled then [Metrics] else []) + (if c.pprof.enabled then [PProf] else [])
  }

  /** The bind and port of the configuration section that belongs to a server. */
  function Section(c: Config.Config, l: Listener): (string, int) {
    match l
    case Main => (c.http.bind, c.http.port)
    case Metrics => (c.metrics.bind, c.metrics.port)
    case PProf => (c.pprof.bind, c.pprof.port)
  }

  /** The write timeout of every server: 60 s with profiling enabled, 5 s otherwise. */
  function WriteTimeout(c: Config.Config): Duration {
    if c.pprof.enabled then 60 * Second else DefTimeout
  }

  /**
   * The http.Server NewServer builds for one listener: the 5 s read-header timeout, the
   * write timeout shared by all servers (60 s with profiling enabled, 5 s otherwise), the
   * listener's own router, and an address from which the section's bind and port are
   * read back unchanged.
   */
  function ServerFor(c: Config.Config, l: Listener): (h: HttpServer)
    ensures h.readHeaderTimeout == DefTimeout && h.router == l
    ensures h.writeTimeout == (if c.pprof.enabled then PProfWriteTimeout else DefTimeout)
    ensures Format.SplitAddr(h.addr) == Some(Section(c, l))
  {
    var (bind, port) := Section(c, l);
    Format.AddrRoundTrip(bind, port);
    HttpServer(Format.Addr(bind, port), DefTimeout, WriteTimeout(c), l)
  }

  /**
   * The servers NewServer builds: the main server always, the metrics and profiling
   * servers exactly when enabled, in the order main, metrics, pprof.
   */
  function NewServers(c: Config.Config): (s: ServerSet)
    ensures s.server.Some?
    ensures s.metricsServer.Some? <==> c.metrics.enabled
    ensures s.pprofServer.Some? <==> c.pprof.enabled
    ensures Configured(s) == Enabled(c)
  {
    ServerSet(Some(ServerFor(c, Main)),
              if c.metrics.enabled then Some(ServerFor(c, Metrics)) else None,
              if c.pprof.enabled then Some(ServerFor(c, PProf)) else None)
  }

  /**
   * Every server NewServer builds has the 5 s read-header timeout and the write timeout
   * shared by all of them, serves its own router, and listens on an address from which
   * its section's bind and port are read back unchanged.
   */
  lemma NewServersTimeoutsAndAddresses(c: Config.Config, l: Listener)
    requires Get(NewServers(c), l).Some?
    ensures Get(NewServers(c), l).value.readHeaderTimeout == DefTimeout
    ensures Get(NewServers(c), l).value.writeTimeout == (if c.pprof.enabled then PProfWriteTimeout else DefTimeout)
    ensures Get(NewServers(c), l).value.router == l
    ensures Format.SplitAddr(Get(NewServers(c), l).value.addr) == Some(Section(c, l))
  {
  }

  class Server {
    const server: Option<HttpServer>
    const metricsServer: Option<HttpServer>
    const pprofServer: Option<HttpServer>
    var stopped: bool
    const config: Config.Config

    /** NewServer. */
    constructor (config: Config.Config)
      ensures this.config == config
      ensures Servers() == NewServers(config)
      ensures !stopped
    {
      var s := NewServers(config);
      this.server := s.server;
      this.metricsServer := s.metricsServer;
      this.pprofServer := s.pprofServer;
      this.config := config;
      this.stopped := false;
    }

    function Servers(): ServerSet {
      ServerSet(server, metricsServer, pprofServer)
    }

    /**
     * The listeners Start binds, in order: the main one when its server is set, then the
     * metrics and profiling ones when their section is enabled and their server is set.
     */
    function BindOrder(): (order: seq<Listener>)
      ensures forall l :: l in order ==> Get(Servers(), l).Some?
    {
      (if server.Some? then [Main] else [])
      + (if config.metrics.enabled && metricsServer.Some? then [Metrics] else [])
      + (if config.pprof.enabled && pprofServer.Some? then [PProf] else [])
    }

    /**
     * Start. canBind(l) is the outcome of binding l's address. The result is the
     * listener whose bind failed (None for a nil error) and the listeners left serving.
     * Binding stops at the first failure: the listeners before it stay bound and serving,
     * none after it is bound, and the error is None exactly when every listener bound.
     */
    method Start(canBind: Listener -> bool) returns (err: Option<Listener>, serving: seq<Listener>)
      ensures forall l :: l in serving ==> canBind(l)
      ensures err.None? <==> forall l :: l in BindOrder() ==> canBind(l)
      ensures err.None? ==> serving == BindOrder()
      ensures err.Some? ==>
        |serving| < |BindOrder()| && BindOrder()[|serving|] == err.value && !canBind(err.value)
        && serving == BindOrder()[..|serving|]
    {
      ghost var order := BindOrder();
      serving := [];
      if server.Some? {
        if !canBind(Main) {
          assert order[0] == Main;
          return Some(Main), serving;
        }
        serving := serving + [Main];
      }
      if config.metrics.enabled {
        if metricsServer.Some? {
          if !canBind(Metrics) {
            assert order[|serving|] == Metrics && serving == order[..|serving|];
            return Some(Metrics), serving;
          }
          serving := serving + [Metrics];
        }
      }
      if config.pprof.enabled {
        if pprofServer.Some? {
          if !canBind(PProf) {
            assert order[|serving|] == PProf && serving == order[..|serving|];
            return Some(PProf), serving;
          }
          serving := serving + [PProf];
        }
      }
      err := None;
    }

    /** Whether a serve loop that ends with an error logs it: only while not stopped. */
    predicate LogsServeError(serveFailed: bool)
      reads this
    {
      serveFailed && !stopped
    }

    /**
     * Stop. shutdownOk(l) is the outcome of shutting l down. Stop sets `stopped`, then asks
     * every non-nil server to shut down, without stopping at a failure; it returns None
     * exactly when every shutdown succeeded, and otherwise the listener of one that failed.
     */
    method Stop(shutdownOk: Listener -> bool) returns (err: Option<Listener>, attempted: seq<Listener>)
      modifies this
      ensures stopped && !LogsServeError(true)
      ensures attempted == Configured(Servers())
      ensures err.None? <==> forall l :: l in attempted ==> shutdownOk(l)
      ensures err.Some? ==> err.value in attempted && !shutdownOk(err.value)
    {
      stopped := true;
      var targets := Configured(Servers());
      attempted, err := [], None;
      var i := 0;
      while i < |targets|
        invariant 0 <= i <= |targets|
        invariant attempted == targets[..i]
        invariant err.None? <==> forall l :: l in attempted ==> shutdownOk(l)
        invariant err.Some? ==> err.value in attempted && !shutdownOk(err.value)
      {
        var l := targets[i];
        if !shutdownOk(l) && err.None? {
          err := Some(l);
        }
        attempted := attempted + [l];
        i := i + 1;
      }
      assert targets[..i] == targets;
    }
  }

  /**
   * On a Server built by NewServer, Start binds exactly the enabled servers and Stop
   * shuts down exactly the same ones, both in the order main, metrics, pprof.
   */
  lemma NewServerBindsAndStopsEnabled(s: Server)
    requires s.Servers() == NewServers(s.config)
    ensures s.BindOrder() == Configured(s.Servers()) == Enabled(s.config)
  {
  }
}
