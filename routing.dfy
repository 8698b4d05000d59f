/**
 * Request routing. The timeout server (`src/server.js`) and the static
 * server (`server.js`) decide by method and pathname, in a fixed order,
 * what answers a request; the main server's route handlers (`src/index.js`)
 * each build one JSON answer. What the probes, the file system and the
 * companion API would find is an input.
 */
module Routing {
  import opened Wrappers
  import opened Text
  import opened Json
  import opened JsObject
  import opened Http
  import opened PosixPath
  import opened StaticFiles
  import opened Probes
  import opened Events
  import Snmp
  import Poller
  import Soundtrack

  /** A request as the routers read it. */
  datatype Request = Request(verb: string, pathname: string, query: Query)

  /**
   * What a request's probes and reads would find: how a `ping` of each
   * address ends, which ports of each address accept a connection, how an
   * SNMP walk of an address with a community ends, what `fs.readFile` and
   * `fs.stat` find at a path, and how the companion API answers for a host.
   */
  datatype World = World(
    platform: Platform,
    ping: string -> PingRun,
    openPorts: string -> set<nat>,
    walk: (string, string) -> Snmp.WalkOutcome,
    readFile: string -> Option<string>,
    stat: string -> FileKind,
    api: string -> ApiOutcome)

  // ----- what the probing endpoints answer -----

  /** `searchParams.get('ip') || ''`. */
  function IpParam(q: Query): string {
    ParamOr(q, "ip", "")
  }

  /** `searchParams.get('community') || 'netlink'`. */
  function CommunityParam(q: Query): string {
    ParamOr(q, "community", Snmp.DefaultCommunity)
  }

  /** The query's parameters as the endpoints use them. */
  lemma QueryDefaults(q: Query)
    ensures QueryGet(q, "ip").None? ==> IpParam(q) == ""
    ensures QueryGet(q, "ip").Some? ==> IpParam(q) == QueryGet(q, "ip").value
    ensures QueryGet(q, "community").None? || QueryGet(q, "community") == Some("") ==> CommunityParam(q) == "netlink"
    ensures QueryGet(q, "community").Some? && QueryGet(q, "community").value != "" ==> CommunityParam(q) == QueryGet(q, "community").value
  {
  }

  /** `{ ip, up }`. */
  function ProbeJson(ip: string, up: bool): Json {
    JObject([("ip", JString(ip)), ("up", JBool(up))])
  }

  /** The `pingHost(ip)` of the two plain servers: whether the run exited with 0. */
  function Pinged(w: World, ip: string): (up: bool)
    ensures up <==> ip != "" && w.ping(ip).Exited? && w.ping(ip).code == 0
  {
    PingHost(w.platform, ip, w.ping(ip)).up
  }

  /** `checkPort(ip, port)`. */
  function PortOpen(w: World, ip: string, port: nat): (up: bool)
    ensures up <==> ip != "" && port != 0 && port in w.openPorts(ip)
  {
    Poller.PortUp(ip, port, w.openPorts(ip))
  }

  /** `GET /health` of the plain servers: `{ ip, up }` from a ping. */
  function HealthAnswer(q: Query, w: World): Response {
    var ip := IpParam(q);
    JsonResponse(200, ProbeJson(ip, Pinged(w, ip)))
  }

  /** `GET /proxmox-health` of the plain servers: `{ ip, up }` from a check of port 8006. */
  function ProxmoxHealthAnswer(q: Query, w: World): Response {
    var ip := IpParam(q);
    JsonResponse(200, ProbeJson(ip, PortOpen(w, ip, Poller.ProxmoxUiPort)))
  }

  /** `GET /connection-count`: `{ ip, count }` from a walk with the given or default community. */
  function ConnectionCountAnswer(q: Query, w: World): Response {
    var ip := IpParam(q);
    var count := Snmp.ConnectionCount(ip, w.walk(ip, CommunityParam(q)));
    JsonResponse(200, JObject([("ip", JString(ip)), ("count", JNumber(count))]))
  }

  // ----- the timeout server -----

  const NoContent: Response := Response(204, None, NoBody)
  const EventStreamOpened: Response := Response(200, Some("text/event-stream"), EventStream)
  const ConfigPrefix: string := "/config/"

  /** `path.join(__dirname, '..', 'config', configFile)`. */
  function ConfigPath(dirname: string, file: string): string {
    JoinAll([dirname, "..", "config", file])
  }

  /** A configuration file, passed on as read, or the 404 when it cannot be read. */
  function ConfigAnswer(dirname: string, file: string, w: World): (r: Response)
    ensures w.readFile(ConfigPath(dirname, file)).None? ==> r == JsonResponse(404, ErrorJson("Config file not found"))
    ensures w.readFile(ConfigPath(dirname, file)).Some? ==> r == Response(200, Some(JsonType), RawText(w.readFile(ConfigPath(dirname, file)).value))
  {
    match w.readFile(ConfigPath(dirname, file))
    case None => JsonResponse(404, ErrorJson("Config file not found"))
    case Some(data) => Response(200, Some(JsonType), RawText(data))
  }

  /** The routes themselves, in the order the timeout server tries them. */
  datatype TimeoutRoute =
    | Preflight | Health | ProxmoxHealth | ConnectionCount | TimeoutEvents | Config | Static | Unsupported

  function TimeoutRouteOf(verb: string, pathname: string): TimeoutRoute {
    if verb == "OPTIONS" then Preflight
    else if verb == "GET" && pathname == "/health" then Health
    else if verb == "GET" && pathname == "/proxmox-health" then ProxmoxHealth
    else if verb == "GET" && pathname == "/connection-count" then ConnectionCount
    else if verb == "GET" && pathname == "/timeout-events" then TimeoutEvents
    else if verb == "GET" && StartsWith(pathname, ConfigPrefix) then Config
    else if verb == "GET" || verb == "HEAD" then Static
    else Unsupported
  }

  /**
   * The timeout server's `createServer` handler, with `dirname` its
   * directory and `publicDir` the `public` directory in it.
   */
  function TimeoutServerRoute(dirname: string, publicDir: string, req: Request, w: World): (r: Response)
    ensures r.status == 204 <==> req.verb == "OPTIONS"
    ensures r.status in {200, 204, 403, 404}
    ensures r.status == 403 ==> req.verb in {"GET", "HEAD"} && !StartsWith(FullPath(publicDir, req.pathname), publicDir)
  {
    match TimeoutRouteOf(req.verb, req.pathname)
    case Preflight => NoContent
    case Health => HealthAnswer(req.query, w)
    case ProxmoxHealth => ProxmoxHealthAnswer(req.query, w)
    case ConnectionCount => ConnectionCountAnswer(req.query, w)
    case TimeoutEvents => EventStreamOpened
    case Config => ConfigAnswer(dirname, ReplaceFirst(req.pathname, ConfigPrefix, ""), w)
    case Static => ServeStatic(publicDir, req.verb, req.pathname, w.stat)
    case Unsupported => JsonResponse(404, ErrorJson("Not found"))
  }

  /** A preflight is answered with 204 and nothing else, whatever its path. */
  lemma TimeoutPreflightFirst(dirname: string, publicDir: string, req: Request, w: World)
    requires req.verb == "OPTIONS"
    ensures TimeoutServerRoute(dirname, publicDir, req, w) == NoContent
  {
  }

  /** `/config/<f>` reads the file named by the path without its `/config/` prefix. */
  lemma ConfigReadsNamedFile(dirname: string, publicDir: string, f: string, q: Query, w: World)
    ensures TimeoutServerRoute(dirname, publicDir, Request("GET", ConfigPrefix + f, q), w) == ConfigAnswer(dirname, f, w)
  {
    var p := ConfigPrefix + f;
    assert p[..|ConfigPrefix|] == ConfigPrefix;
    assert p != "/health" && p != "/proxmox-health" && p != "/connection-count" && p != "/timeout-events" by {
      assert p[1] == 'c' && p[2] == 'o' && p[3] == 'n' && p[4] == 'f';
    }
    ReplacePrefix(p, ConfigPrefix);
    assert p[|ConfigPrefix|..] == f;
  }

  /** Any method but GET, HEAD and OPTIONS is refused with the JSON 404. */
  lemma TimeoutOtherMethods(dirname: string, publicDir: string, req: Request, w: World)
    requires req.verb != "GET" && req.verb != "HEAD" && req.verb != "OPTIONS"
    ensures TimeoutServerRoute(dirname, publicDir, req, w) == JsonResponse(404, ErrorJson("Not found"))
  {
  }

  /**
   * A GET or HEAD that names no endpoint (and no configuration file, for a
   * GET) is served from the public directory.
   */
  lemma TimeoutStaticFallback(dirname: string, publicDir: string, req: Request, w: World)
    requires req.verb == "GET" || req.verb == "HEAD"
    requires req.verb == "HEAD" || (req.pathname !in ["/health", "/proxmox-health", "/connection-count", "/timeout-events"]
                                    && !StartsWith(req.pathname, ConfigPrefix))
    ensures TimeoutServerRoute(dirname, publicDir, req, w) == ServeStatic(publicDir, req.verb, req.pathname, w.stat)
  {
    TimeoutStaticRoute(req.verb, req.pathname);
  }

  lemma TimeoutStaticRoute(verb: string, pathname: string)
    requires verb == "GET" || verb == "HEAD"
    requires verb == "HEAD" || (pathname !in ["/health", "/proxmox-health", "/connection-count", "/timeout-events"]
                                && !StartsWith(pathname, ConfigPrefix))
    ensures TimeoutRouteOf(verb, pathname) == Static
  {
    if verb == "HEAD" {
      assert verb != "OPTIONS" && verb != "GET";
    } else {
      assert verb != "OPTIONS";
      assert pathname != "/health" && pathname != "/proxmox-health";
      assert pathname != "/connection-count" && pathname != "/timeout-events";
    }
  }

  // ----- the static server -----

  datatype StaticRoute = StaticPreflight | StaticHealth | StaticProxmoxHealth | StaticFile | StaticUnsupported

  function StaticRouteOf(verb: string, pathname: string): StaticRoute {
    if verb == "OPTIONS" then StaticPreflight
    else if verb == "GET" && pathname == "/health" then StaticHealth
    else if verb == "GET" && pathname == "/proxmox-health" then StaticProxmoxHealth
    else if verb == "GET" || verb == "HEAD" then StaticFile
    else StaticUnsupported
  }

  /** The static server's `createServer` handler; its public directory is its own directory. */
  function StaticServerRoute(dirname: string, req: Request, w: World): (r: Response)
    ensures r.status == 204 <==> req.verb == "OPTIONS"
    ensures r.status in {200, 204, 403, 404}
    ensures r.status == 403 ==> req.verb in {"GET", "HEAD"} && !StartsWith(FullPath(dirname, req.pathname), dirname)
  {
    match StaticRouteOf(req.verb, req.pathname)
    case StaticPreflight => NoContent
    case StaticHealth => HealthAnswer(req.query, w)
    case StaticProxmoxHealth => ProxmoxHealthAnswer(req.query, w)
    case StaticFile => ServeStatic(dirname, req.verb, req.pathname, w.stat)
    case StaticUnsupported => JsonResponse(404, ErrorJson("Not found"))
  }

  /** A preflight is answered with 204 and nothing else, whatever its path. */
  lemma StaticPreflightFirst(dirname: string, req: Request, w: World)
    requires req.verb == "OPTIONS"
    ensures StaticServerRoute(dirname, req, w) == NoContent
  {
  }

  /**
   * The health endpoints are answered before static serving is tried: a
   * file of that name would not be looked at, and `/proxmox-health`
   * reports whether port 8006 accepts a connection.
   */
  lemma StaticHealthFirst(dirname: string, q: Query, w: World, other: string -> FileKind)
    ensures var world' := w.(stat := other);
      && StaticServerRoute(dirname, Request("GET", "/health", q), w) == StaticServerRoute(dirname, Request("GET", "/health", q), world')
      && StaticServerRoute(dirname, Request("GET", "/health", q), w) == JsonResponse(200, ProbeJson(IpParam(q), Pinged(w, IpParam(q))))
    ensures StaticServerRoute(dirname, Request("GET", "/proxmox-health", q), w)
      == JsonResponse(200, ProbeJson(IpParam(q), IpParam(q) != "" && 8006 in w.openPorts(IpParam(q))))
  {
  }

  /** A HEAD of a health endpoint is not one: it is served from the directory. */
  lemma StaticHeadIsFile(dirname: string, pathname: string, q: Query, w: World)
    ensures StaticServerRoute(dirname, Request("HEAD", pathname, q), w) == ServeStatic(dirname, "HEAD", pathname, w.stat)
  {
  }

  /** Any method but GET, HEAD and OPTIONS is refused with the JSON 404. */
  lemma StaticOtherMethods(dirname: string, req: Request, w: World)
    requires req.verb != "GET" && req.verb != "HEAD" && req.verb != "OPTIONS"
    ensures StaticServerRoute(dirname, req, w) == JsonResponse(404, ErrorJson("Not found"))
  {
  }

  // ----- the main server's handlers -----

  /**
   * The `latency` a ping run reports: `null` unless the run exited with 0
   * for a non-empty address, then the Windows `time=` figure or the rounded
   * wall-clock time.
   */
  function RunLatency(platform: Platform, ip: string, run: PingRun): Json {
    if !(ip != "" && run.Exited? && run.code == 0) then JNull
    else if platform == Windows then LatencyJson(WindowsLatency(run.output))
    else LatencyJson(run.roundedTime)
  }

  /**
   * `GET /health`: `{ ip, up, latency }`, `up` exactly when the ping of the
   * `ip` parameter exited with 0, and `latency` null when it is not up.
   */
  function MainHealth(q: Query, w: World): (r: Response)
    ensures var ip := IpParam(q); var run := w.ping(ip);
      r == JsonResponse(200, JObject([("ip", JString(ip)), ("up", JBool(ip != "" && run.Exited? && run.code == 0)),
                                      ("latency", RunLatency(w.platform, ip, run))]))
  {
    var ip := IpParam(q);
    var p := PingHost(w.platform, ip, w.ping(ip));
    JsonResponse(200, JObject([("ip", JString(ip)), ("up", JBool(p.up)), ("latency", LatencyJson(p.latency))]))
  }

  /**
   * `GET /proxmox-health`: `{ ip, up, latency, pingUp }`, `up` from port
   * 8006 and the rest from the ping. Neither probe rejects, so the `catch`
   * is never taken.
   */
  function MainProxmoxHealth(q: Query, w: World): (r: Response)
    ensures var ip := IpParam(q); var run := w.ping(ip);
      r == JsonResponse(200, JObject([("ip", JString(ip)), ("up", JBool(ip != "" && 8006 in w.openPorts(ip))),
                                      ("latency", RunLatency(w.platform, ip, run)),
                                      ("pingUp", JBool(ip != "" && run.Exited? && run.code == 0))]))
  {
    var ip := IpParam(q);
    var p := PingHost(w.platform, ip, w.ping(ip));
    JsonResponse(200, JObject([("ip", JString(ip)), ("up", JBool(PortOpen(w, ip, Poller.ProxmoxUiPort))),
                               ("latency", LatencyJson(p.latency)), ("pingUp", JBool(p.up))]))
  }

  /**
   * `{ ip, ...data }`: `ip` first, then the own properties of an object
   * `data` written over it in order; a value that is not an object adds
   * nothing here.
   */
  function Spread(ip: string, data: Json): Object<Json> {
    var head := [("ip", JString(ip))];
    if data.JObject? then Assign(head, data.fields) else head
  }

  const MissingIp: Response := Response(400, Some(JsonType), JsonText(JObject([("error", JString("Missing ip parameter"))])))

  /**
   * `GET /proxmox-connection-count`: 400 without a non-empty `ip`, otherwise
   * the companion API's answer for the host `fetchProxmoxConnectionCount`
   * asks, with `ip` in front. That call never rejects, so the `catch` is
   * never taken.
   */
  function MainProxmoxConnectionCount(q: Query, w: World): (r: Response)
    ensures QueryGet(q, "ip").None? || QueryGet(q, "ip") == Some("") <==> r == MissingIp
    ensures r != MissingIp ==> var ip := QueryGet(q, "ip").value;
      r == JsonResponse(200, JObject(Spread(ip, FetchConnectionCount(w.api(ApiHost(JString(ip)))))))
  {
    match QueryGet(q, "ip")
    case None => MissingIp
    case Some(ip) =>
      if ip == "" then MissingIp
      else JsonResponse(200, JObject(Spread(ip, FetchConnectionCount(w.api(ApiHost(JString(ip)))))))
  }

  /**
   * The answer always leads with `ip`; every property of the API's object
   * reads as it came, an `ip` of its own included, and `ip` reads the
   * query's value otherwise.
   */
  lemma SpreadFields(ip: string, fields: Object<Json>, k: string)
    requires UniqueKeys(fields)
    ensures |Spread(ip, JObject(fields))| > 0 && Keys(Spread(ip, JObject(fields)))[0] == "ip"
    ensures Get(Spread(ip, JObject(fields)), k) ==
      if Get(fields, k).Some? then Get(fields, k) else if k == "ip" then Some(JString(ip)) else None
  {
    var head := [("ip", JString(ip))];
    AssignGet(head, fields, k);
    AssignKeys(head, fields);
    assert Keys(head) == ["ip"];
  }

  /** When the API cannot be reached the answer is `{ ip, established_connections: 0, port: 8006 }`. */
  lemma ProxmoxCountFallback(ip: string, q: Query, w: World)
    requires QueryGet(q, "ip") == Some(ip) && ip != ""
    requires !(w.api(ApiHost(JString(ip))).Answered? && w.api(ApiHost(JString(ip))).body.Some?)
    ensures MainProxmoxConnectionCount(q, w)
      == JsonResponse(200, JObject([("ip", JString(ip)), ("established_connections", JNumber(0)), ("port", JNumber(8006))]))
  {
    var head: Object<Json> := [("ip", JString(ip))];
    var e := ("established_connections", JNumber(0));
    var pt := ("port", JNumber(8006));
    var fb := ApiFallback.fields;
    assert fb == [e, pt];
    assert |e.0| != |"ip"| && |pt.0| != |"ip"| && |pt.0| != |e.0|;
    var one := Put(head, e.0, e.1);
    PutNew(head, e.0, e.1);
    var two := Put(one, pt.0, pt.1);
    PutNew(one, pt.0, pt.1);
    assert fb[1..] == [pt];
    assert Assign(head, fb) == Assign(one, fb[1..]);
    assert Assign(one, fb[1..]) == Assign(two, fb[1..][1..]);
    assert |fb[1..][1..]| == 0;
    assert Spread(ip, ApiFallback) == two;
    assert two == [("ip", JString(ip)), e, pt];
    assert MainProxmoxConnectionCount(q, w) == JsonResponse(200, JObject(Spread(ip, FetchConnectionCount(w.api(ApiHost(JString(ip)))))));
    assert FetchConnectionCount(w.api(ApiHost(JString(ip)))) == ApiFallback;
  }

  /** `GET /connection-count` of the main server: `{ ip, count }`, as in the timeout server. */
  function MainConnectionCount(q: Query, w: World): Response {
    ConnectionCountAnswer(q, w)
  }

  function TrackJson(t: Soundtrack.Track): Json {
    JObject([("file", JString(t.file)), ("title", JString(t.title)), ("url", JString(t.url))])
  }

  /** `GET /soundtracks`: `{ tracks }`, one object per audio file. */
  function MainSoundtracks(listing: Soundtrack.Listing, encode: string -> string): (r: Response)
    ensures r.status == 200 && r.body.JsonText? && r.body.value.JObject?
    ensures var fields := r.body.value.fields; |fields| == 1 && fields[0].0 == "tracks" && fields[0].1.JArray?
    ensures var items := r.body.value.fields[0].1.items; var tracks := Soundtrack.SoundtrackList(listing, encode);
      |items| == |tracks| && forall i :: 0 <= i < |items| ==> items[i] == TrackJson(tracks[i])
  {
    var tracks := Soundtrack.SoundtrackList(listing, encode);
    JsonResponse(200, JObject([("tracks", JArray(seq(|tracks|, i requires 0 <= i < |tracks| => TrackJson(tracks[i]))))]))
  }

  /** How reading a configuration file by name ends: no such file, a read or parse failure, or its JSON. */
  datatype ConfigRead = NoSuchFile | Unparsable | ParsedConfig(value: Json)

  /** `GET /config/:file` of the main server: 404, 500, or the parsed file. */
  function MainConfig(dirname: string, file: string, read: string -> ConfigRead): (r: Response)
    ensures read(ConfigPath(dirname, file)).NoSuchFile? <==> r == JsonResponse(404, ErrorJson("Config file not found"))
    ensures read(ConfigPath(dirname, file)).Unparsable? <==> r == JsonResponse(500, ErrorJson("Error reading config file"))
    ensures read(ConfigPath(dirname, file)).ParsedConfig? ==> r == JsonResponse(200, read(ConfigPath(dirname, file)).value)
    ensures r.status == 200 ==> read(ConfigPath(dirname, file)).ParsedConfig?
  {
    match read(ConfigPath(dirname, file))
    case NoSuchFile => JsonResponse(404, ErrorJson("Config file not found"))
    case Unparsable => JsonResponse(500, ErrorJson("Error reading config file"))
    case ParsedConfig(v) => JsonResponse(200, v)
  }
}
