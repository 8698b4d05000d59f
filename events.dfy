/**
 * The health record a poll cycle derives for each host, the events pushed
 * to subscribers, and the exact frames those events travel in.
 */
module Events {
  import opened Wrappers
  import opened Json
  import opened EventStream
  import JsObject

  /**
   * `{ ip, online, latency, connCount }` as written by the poll cycle. The
   * session count is a JSON value because the Proxmox companion API's
   * `established_connections` is passed on as it arrives when it is truthy.
   */
  datatype HealthRecord = HealthRecord(ip: string, online: bool, latency: Option<int>, connCount: Json)

  function LatencyJson(latency: Option<int>): Json {
    match latency
    case None => JNull
    case Some(ms) => JNumber(ms)
  }

  /** The record's own properties, in the order the object literal lists them. */
  function RecordFields(r: HealthRecord): JsObject.Object<Json> {
    [("ip", JString(r.ip)), ("online", JBool(r.online)), ("latency", LatencyJson(r.latency)), ("connCount", r.connCount)]
  }

  /** The messages of the `/events` stream, one per `type`. */
  datatype Event =
    | Connected
    | FullState(devices: seq<HealthRecord>, proxmox: seq<HealthRecord>)
    | DeviceUpdate(record: HealthRecord)
    | ProxmoxUpdate(record: HealthRecord)
    | Timeout(shouldPlay: bool)

  function TypeName(e: Event): string {
    match e
    case Connected => "connected"
    case FullState(_, _) => "full_state"
    case DeviceUpdate(_) => "device_update"
    case ProxmoxUpdate(_) => "proxmox_update"
    case Timeout(_) => "timeout"
  }

  function RecordsJson(rs: seq<HealthRecord>): Json {
    JArray(seq(|rs|, i requires 0 <= i < |rs| => JObject(RecordFields(rs[i]))))
  }

  function DataJson(e: Event): Json {
    match e
    case Connected => JBool(true)
    case FullState(ds, ps) => JObject([("devices", RecordsJson(ds)), ("proxmox", RecordsJson(ps))])
    case DeviceUpdate(r) => JObject(RecordFields(r))
    case ProxmoxUpdate(r) => JObject(RecordFields(r))
    case Timeout(play) => JObject([("shouldPlay", JBool(play))])
  }

  /** `{ type, data }`, the value `broadcast` serialises. */
  function EventJson(e: Event): Json {
    JObject([("type", JString(TypeName(e))), ("data", DataJson(e))])
  }

  /**
   * The frame an event travels in. `broadcast` and the `full_state` write
   * serialise `{ type, data }`; the greeting is a fixed text that has a space
   * after its first comma.
   */
  function EventFrame(e: Event): (f: Frame)
    ensures f.DataLine? && f.WellFormed()
  {
    match e
    case Connected =>
      var p := "{\"type\":\"connected\", \"data\":true}";
      assert NoControl(p);
      NoControlNoLineBreak(p);
      DataLine(p)
    case _ =>
      var p := Stringify(EventJson(e));
      NoControlNoLineBreak(p);
      DataLine(p)
  }

  /** The payload a subscriber's `EventSource` hands to `onmessage` for `e`. */
  function Payload(e: Event): string {
    EventFrame(e).payload
  }

  /** The greeting of the timeout-only server's `/timeout-events` stream. */
  const TimeoutStreamGreeting: Frame := DataLine("{\"connected\":true}")

  /** The alert frame of the timeout-only server. */
  const TimeoutAlert: Frame := DataLine("{\"shouldPlay\":true}")

  lemma NoControlNoLineBreak(s: string)
    requires NoControl(s)
    ensures NoLineBreak(s)
  {
  }

  /**
   * Every frame the servers write is well formed, so a subscriber receives
   * each event as exactly one `message` whose data is its JSON text.
   */
  lemma EventFrameWellFormed(e: Event)
    ensures EventFrame(e).WellFormed()
    ensures Parse(EventFrame(e).Text()) == [Dispatched("message", Payload(e))]
  {
    DataFrameRoundTrip(Payload(e));
  }
}
