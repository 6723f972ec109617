/**
 * The per-connection routing decision of LightSwordX/Socks5/Socks5Server.swift:
 * the `connectLocal` test, the dispatch on the request's command, and the
 * proxy-mode switch at the head of `connectToServer`.
 */
module Routing {
  import opened Wrappers
  import opened Sinq
  import opened StringExt

  datatype ProxyMode = Global | Black | White

  /** `REQUEST_CMD`, the command field of a SOCKS5 request. */
  datatype Command = Connect | Bind | UdpAssociate

  /** What `Socks5Helper.refineDestination` extracts from a request buffer. */
  datatype Request = Request(cmd: Command, addr: string, port: int, headerSize: int)

  /**
   * The server's configuration. `blackList` and `whiteList` are implicitly
   * unwrapped optionals in the source, so they may be nil.
   */
  datatype Settings = Settings(
    serverAddr: string,
    serverPort: int,
    listenAddr: string,
    listenPort: int,
    cipherAlgorithm: string,
    password: string,
    timeout: int,
    bypassLocal: bool,
    blackList: Option<seq<string>>,
    whiteList: Option<seq<string>>,
    proxyMode: ProxyMode)
  {
    /**
     * The `==` operator on servers: relay endpoint, listen endpoint, cipher
     * and password agree; timeout, bypass flag, lists and mode are ignored.
     */
    predicate SameServer(other: Settings)
    {
      serverAddr == other.serverAddr && serverPort == other.serverPort
      && listenAddr == other.listenAddr && listenPort == other.listenPort
      && cipherAlgorithm == other.cipherAlgorithm && password == other.password
    }
  }

  /** Destinations treated as local when `bypassLocal` is set (plain substrings, not CIDR). */
  const LocalAreas: seq<string> := ["10.", "192.168.", "localhost", "127.0.0.1", "172.16.", "::1", "169.254.0.0"]

  /** Relay addresses that mean the relay runs on this machine. */
  const LocalServers: seq<string> := ["127.0.0.1", "localhost", "::1"]

  /** The two ways a CONNECT can be served. */
  datatype Path = Direct | Relay

  /**
   * What the connection handler does once the request is read: close the
   * client, do nothing at all (BIND, UDP ASSOCIATE), or open a tunnel.
   */
  datatype Action = CloseClient | Idle | Tunnel(path: Path)

  ghost predicate RelayIsLocal(s: Settings)
  {
    exists i :: 0 <= i < |LocalServers| && ContainsString(s.serverAddr, LocalServers[i])
  }

  ghost predicate DestinationIsLocal(dest: string)
  {
    exists i :: 0 <= i < |LocalAreas| && ContainsString(dest, LocalAreas[i])
  }

  /** The `connectLocal` flag. */
  function ConnectLocal(s: Settings, dest: string): (r: bool)
    ensures r <==> RelayIsLocal(s) || (s.bypassLocal && DestinationIsLocal(dest))
  {
    Any(LocalServers, (l: string) => ContainsString(s.serverAddr, l))
    || (s.bypassLocal && Any(LocalAreas, (a: string) => ContainsString(dest, a)))
  }

  /** Some entry of a non-nil list is a suffix of `dest`. */
  ghost predicate Listed(list: Option<seq<string>>, dest: string)
  {
    list.Some? && exists i :: 0 <= i < |list.value| && EndsWith(dest, list.value[i])
  }

  /** `list != nil && sinq(list).any { dest.endsWith($0) }`. */
  function ListMatches(list: Option<seq<string>>, dest: string): (r: bool)
    ensures r <==> Listed(list, dest)
  {
    list.Some? && Any(list.value, (l: string) => EndsWith(dest, l))
  }

  /**
   * The mode switch of `connectToServer`: BLACK relays listed destinations
   * and connects the rest directly; WHITE connects listed destinations
   * directly and relays the rest; GLOBAL relays everything.
   */
  function ModeRoute(s: Settings, dest: string): (p: Path)
    ensures s.proxyMode == Global ==> p == Relay
    ensures s.proxyMode == Black ==> (p == Relay <==> Listed(s.blackList, dest))
    ensures s.proxyMode == White ==> (p == Direct <==> Listed(s.whiteList, dest))
  {
    match s.proxyMode
    case Black => if ListMatches(s.blackList, dest) then Relay else Direct
    case White => if ListMatches(s.whiteList, dest) then Direct else Relay
    case Global => Relay
  }

  /**
   * The handler's reaction to the parsed request: an unparseable buffer closes
   * the client, BIND and UDP ASSOCIATE do nothing and leave the client open,
   * CONNECT opens a tunnel.
   */
  function Dispatch(s: Settings, request: Option<Request>): (a: Action)
    ensures a == CloseClient <==> request.None?
    ensures a == Idle <==> request.Some? && request.value.cmd != Connect
    ensures a.Tunnel? <==> request.Some? && request.value.cmd == Connect
  {
    match request
    case None => CloseClient
    case Some(req) =>
      match req.cmd
      case Bind => Idle
      case UdpAssociate => Idle
      case Connect => Tunnel(if ConnectLocal(s, req.addr) then Direct else ModeRoute(s, req.addr))
  }

  /** A local relay or a local destination (with bypass on) is always served directly. */
  lemma LocalConnectGoesDirect(s: Settings, req: Request)
    requires req.cmd == Connect
    requires RelayIsLocal(s) || (s.bypassLocal && DestinationIsLocal(req.addr))
    ensures Dispatch(s, Some(req)) == Tunnel(Direct)
  {
  }

  /** For a non-local CONNECT the proxy mode alone decides the path, as follows. */
  lemma NonLocalConnectFollowsMode(s: Settings, req: Request)
    requires req.cmd == Connect
    requires !RelayIsLocal(s) && !(s.bypassLocal && DestinationIsLocal(req.addr))
    ensures s.proxyMode == Global ==> Dispatch(s, Some(req)) == Tunnel(Relay)
    ensures s.proxyMode == Black ==> (Dispatch(s, Some(req)) == Tunnel(Relay) <==> Listed(s.blackList, req.addr))
    ensures s.proxyMode == White ==> (Dispatch(s, Some(req)) == Tunnel(Direct) <==> Listed(s.whiteList, req.addr))
  {
  }

  /** A nil list routes exactly like an empty one. */
  lemma MissingListActsAsEmpty(s: Settings, dest: string)
    ensures ModeRoute(s.(blackList := None), dest) == ModeRoute(s.(blackList := Some([])), dest)
    ensures ModeRoute(s.(whiteList := None), dest) == ModeRoute(s.(whiteList := Some([])), dest)
    ensures ModeRoute(s.(blackList := None, proxyMode := Black), dest) == Direct
    ensures ModeRoute(s.(whiteList := None, proxyMode := White), dest) == Relay
  {
  }

  /**
   * Locality is substring containment: with bypass on, the public address
   * `210.1.1.1` counts as local because it contains `10.`.
   */
  lemma SubstringLocalityIsLoose(s: Settings)
    requires s.bypassLocal
    ensures Dispatch(s, Some(Request(Connect, "210.1.1.1", 443, 10))) == Tunnel(Direct)
  {
    var dest := "210.1.1.1";
    assert LocalAreas[0] == "10.";
    assert dest[1] == '1' && dest[2] == '0' && dest[3] == '.';
    assert dest[1..4] == "10.";
    assert OccursAt(dest, LocalAreas[0], 1);
  }

  /** Containment needs the whole entry: `172.16.` (with its dot) does not occur in `172.160.1.1`. */
  lemma PrivatePrefixNeedsItsDot()
    ensures !ContainsString("172.160.1.1", "172.16.")
  {
    var dest := "172.160.1.1";
    assert dest[0] == '1' && dest[1] == '7' && dest[2] == '2' && dest[3] == '.' && dest[4] == '1'
        && dest[6] == '0' && dest[7] == '.' && dest[8] == '1' && dest[9] == '.' && dest[10] == '1';
    forall i | 0 <= i <= |dest| - 7
      ensures !OccursAt(dest, "172.16.", i)
    {
      assert dest[i..i + 7][0] == dest[i] && dest[i..i + 7][6] == dest[i + 6];
    }
  }

  /** The `==` operator is an equivalence that ignores the routing settings. */
  lemma SameServerIsEquivalence(a: Settings, b: Settings, c: Settings)
    ensures a.SameServer(a)
    ensures a.SameServer(b) ==> b.SameServer(a)
    ensures a.SameServer(b) && b.SameServer(c) ==> a.SameServer(c)
    ensures a.SameServer(a.(timeout := b.timeout, bypassLocal := b.bypassLocal,
                            blackList := b.blackList, whiteList := b.whiteList, proxyMode := b.proxyMode))
  {
  }
}
