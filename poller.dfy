/**
 * The centralised poll cycle of the dashboard server: one pass over the
 * terminal servers, then one over the Proxmox hosts, deriving a health
 * record per host from its probes, upserting it into the state map keyed by
 * IP and appending the matching update event.
 */
module Poller {
  import opened Wrappers
  import opened Json
  import opened JsObject
  import opened Events
  import opened Probes
  import Snmp

  /** The Proxmox web interface port, probed on every host. */
  const ProxmoxUiPort: nat := 8006

  /** A terminal server from `devices.json`: its address and its `protocol` as given. */
  datatype DeviceConfig = DeviceConfig(ip: string, protocol: Json)

  /** A Proxmox host from `proxmox.json`. */
  datatype HostConfig = HostConfig(ip: string)

  /**
   * What the probes of one terminal server find: the ports that accept a
   * connection, how its `ping` ended, and how its SNMP walk ended.
   */
  datatype DeviceProbe = DeviceProbe(openPorts: set<nat>, ping: PingRun, walk: Snmp.WalkOutcome)

  /** What the probes of one Proxmox host find, with the companion API's answer. */
  datatype HostProbe = HostProbe(openPorts: set<nat>, ping: PingRun, api: ApiOutcome)

  /**
   * The service port of a terminal server: Telnet's 23 exactly when
   * `protocol` is `'telnet'`, SSH's 22 otherwise, including when it is
   * missing (which counts as `'ssh'`).
   */
  function TargetPort(protocol: Json): (port: nat)
    ensures port == 23 <==> protocol == JString("telnet")
    ensures port == 22 || port == 23
  {
    var p := if Truthy(protocol) then protocol else JString("ssh");
    if p == JString("telnet") then 23 else 22
  }

  /** `checkPort(ip, port)`: false without an address or a port, otherwise whether it connects. */
  function PortUp(ip: string, port: nat, openPorts: set<nat>): (up: bool)
    ensures up <==> ip != "" && port != 0 && port in openPorts
  {
    ip != "" && port != 0 && port in openPorts
  }

  /**
   * The record of a terminal server: online is the service port's check
   * alone, the latency is the ping's, and the SNMP count is taken only when
   * the port or the ping is up, 0 otherwise.
   */
  function DeviceRecord(platform: Platform, d: DeviceConfig, p: DeviceProbe): (r: HealthRecord)
    ensures r.ip == d.ip
    ensures r.online <==> d.ip != "" && TargetPort(d.protocol) in p.openPorts
    ensures r.latency == PingHost(platform, d.ip, p.ping).latency
    ensures r.online || PingHost(platform, d.ip, p.ping).up ==> r.connCount == JNumber(Snmp.ConnectionCount(d.ip, p.walk))
    ensures !(r.online || PingHost(platform, d.ip, p.ping).up) ==> r.connCount == JNumber(0)
  {
    var portUp := PortUp(d.ip, TargetPort(d.protocol), p.openPorts);
    var ping := PingHost(platform, d.ip, p.ping);
    var count := if portUp || ping.up then Snmp.ConnectionCount(d.ip, p.walk) else 0;
    HealthRecord(d.ip, portUp, ping.latency, JNumber(count))
  }

  /**
   * The record of a Proxmox host: online is the 8006 check, the API is asked
   * only when it is up, and a falsy `established_connections` counts as 0.
   * `None` when the API's body is `null`: reading its property throws.
   */
  function HostRecord(platform: Platform, h: HostConfig, p: HostProbe): (r: Option<HealthRecord>)
    ensures r.None? <==> PortUp(h.ip, ProxmoxUiPort, p.openPorts) && FetchConnectionCount(p.api) == JNull
    ensures r.Some? ==> r.value.ip == h.ip && r.value.latency == PingHost(platform, h.ip, p.ping).latency
    ensures r.Some? ==> (r.value.online <==> h.ip != "" && ProxmoxUiPort in p.openPorts)
    ensures r.Some? && !r.value.online ==> r.value.connCount == JNumber(0)
    ensures r.Some? ==> Truthy(r.value.connCount) || r.value.connCount == JNumber(0)
    ensures r.Some? && r.value.online ==> Some(r.value.connCount) == EstablishedConnections(FetchConnectionCount(p.api))
  {
    var up := PortUp(h.ip, ProxmoxUiPort, p.openPorts);
    var ping := PingHost(platform, h.ip, p.ping);
    if !up then Some(HealthRecord(h.ip, false, ping.latency, JNumber(0)))
    else match EstablishedConnections(FetchConnectionCount(p.api))
      case None => None
      case Some(count) => Some(HealthRecord(h.ip, true, ping.latency, count))
  }

  /** Whatever the ping finds, it never changes whether a terminal server is online. */
  lemma OnlineIgnoresPing(platform: Platform, d: DeviceConfig, p: DeviceProbe, other: PingRun)
    ensures DeviceRecord(platform, d, p).online == DeviceRecord(platform, d, p.(ping := other)).online
  {
  }

  // ----- the cycle as a function of its inputs -----

  /** The state one cycle works on; `aborted` once an exception has ended the cycle. */
  datatype Cycle = Cycle(
    deviceStates: Object<HealthRecord>,
    proxmoxStates: Object<HealthRecord>,
    log: seq<Event>,
    aborted: bool)

  function DeviceStep(platform: Platform, c: Cycle, entry: Option<DeviceConfig>, p: DeviceProbe): Cycle {
    if c.aborted then c
    else match entry
      case None => c.(aborted := true)
      case Some(d) =>
        var r := DeviceRecord(platform, d, p);
        c.(deviceStates := Put(c.deviceStates, d.ip, r), log := c.log + [DeviceUpdate(r)])
  }

  /**
   * The `for…of` over the terminal servers: the Proxmox states are not
   * touched, the log only grows, by at most one event per entry, and the
   * pass ends aborted exactly when it started so or met a `null` entry.
   */
  function DevicePass(platform: Platform, c: Cycle, entries: seq<Option<DeviceConfig>>, probes: seq<DeviceProbe>): (r: Cycle)
    requires |entries| == |probes|
    ensures r.proxmoxStates == c.proxmoxStates
    ensures c.log <= r.log && |r.log| <= |c.log| + |entries|
    ensures r.aborted <==> c.aborted || None in entries
    decreases |entries|
  {
    if |entries| == 0 then c
    else
      assert None in entries <==> entries[0].None? || None in entries[1..];
      DevicePass(platform, DeviceStep(platform, c, entries[0], probes[0]), entries[1..], probes[1..])
  }

  function HostStep(platform: Platform, c: Cycle, entry: Option<HostConfig>, p: HostProbe): Cycle {
    if c.aborted then c
    else match entry
      case None => c.(aborted := true)
      case Some(h) =>
        match HostRecord(platform, h, p)
        case None => c.(aborted := true)
        case Some(r) => c.(proxmoxStates := Put(c.proxmoxStates, h.ip, r), log := c.log + [ProxmoxUpdate(r)])
  }

  /**
   * The `for…of` over the Proxmox hosts: the terminal-server states are not
   * touched, the log only grows, by at most one event per entry, and a
   * `null` entry (or a cycle already aborted) leaves it aborted.
   */
  function HostPass(platform: Platform, c: Cycle, entries: seq<Option<HostConfig>>, probes: seq<HostProbe>): (r: Cycle)
    requires |entries| == |probes|
    ensures r.deviceStates == c.deviceStates
    ensures c.log <= r.log && |r.log| <= |c.log| + |entries|
    ensures c.aborted || None in entries ==> r.aborted
    decreases |entries|
  {
    if |entries| == 0 then c
    else
      assert None in entries <==> entries[0].None? || None in entries[1..];
      HostPass(platform, HostStep(platform, c, entries[0], probes[0]), entries[1..], probes[1..])
  }

  /**
   * One whole cycle: the terminal servers, then the Proxmox hosts. The log
   * only grows, by at most one event per entry of either list, and a `null`
   * entry in either list leaves the cycle aborted.
   */
  function PollCycle(
    platform: Platform, c: Cycle,
    devices: seq<Option<DeviceConfig>>, deviceProbes: seq<DeviceProbe>,
    hosts: seq<Option<HostConfig>>, hostProbes: seq<HostProbe>): (r: Cycle)
    requires |devices| == |deviceProbes| && |hosts| == |hostProbes|
    ensures c.log <= r.log && |r.log| <= |c.log| + |devices| + |hosts|
    ensures c.aborted || None in devices || None in hosts ==> r.aborted
  {
    HostPass(platform, DevicePass(platform, c, devices, deviceProbes), hosts, hostProbes)
  }

  // ----- what a cycle produces -----

  /**
   * The records of the terminal servers processed before any `null` entry
   * ends the pass, one per entry and in list order.
   */
  function DeviceRecords(platform: Platform, entries: seq<Option<DeviceConfig>>, probes: seq<DeviceProbe>): (rs: seq<HealthRecord>)
    requires |entries| == |probes|
    ensures |rs| <= |entries|
    ensures forall i :: 0 <= i < |rs| ==> entries[i].Some? && rs[i] == DeviceRecord(platform, entries[i].value, probes[i])
    ensures |rs| < |entries| ==> entries[|rs|].None?
    decreases |entries|
  {
    if |entries| == 0 then []
    else match entries[0]
      case None => []
      case Some(d) => [DeviceRecord(platform, d, probes[0])] + DeviceRecords(platform, entries[1..], probes[1..])
  }

  /**
   * The records of the Proxmox hosts processed before a `null` entry or a
   * `null` API body ends the pass, one per host and in list order.
   */
  function HostRecords(platform: Platform, entries: seq<Option<HostConfig>>, probes: seq<HostProbe>): (rs: seq<HealthRecord>)
    requires |entries| == |probes|
    ensures |rs| <= |entries|
    ensures forall i :: 0 <= i < |rs| ==> entries[i].Some? && Some(rs[i]) == HostRecord(platform, entries[i].value, probes[i])
    ensures |rs| < |entries| ==> entries[|rs|].None? || HostRecord(platform, entries[|rs|].value, probes[|rs|]).None?
    decreases |entries|
  {
    if |entries| == 0 then []
    else match entries[0]
      case None => []
      case Some(h) =>
        match HostRecord(platform, h, probes[0])
        case None => []
        case Some(r) => [r] + HostRecords(platform, entries[1..], probes[1..])
  }

  /**
   * `state[r.ip] = r` for each record in turn: no key is removed and the
   * old keys keep their order at the front.
   */
  function Upsert(o: Object<HealthRecord>, rs: seq<HealthRecord>): (r: Object<HealthRecord>)
    ensures |o| <= |r| && Keys(r)[..|o|] == Keys(o)
    decreases |rs|
  {
    if |rs| == 0 then
      assert Keys(o)[..|o|] == Keys(o);
      o
    else
      var t := Put(o, rs[0].ip, rs[0]);
      PutKeys(o, rs[0].ip, rs[0]);
      var r := Upsert(t, rs[1..]);
      assert Keys(t)[..|o|] == Keys(o);
      PrefixOfPrefix(Keys(r), Keys(t), Keys(o));
      r
  }

  function DeviceEvents(rs: seq<HealthRecord>): (es: seq<Event>)
    ensures |es| == |rs| && forall i :: 0 <= i < |rs| ==> es[i] == DeviceUpdate(rs[i])
  {
    seq(|rs|, i requires 0 <= i < |rs| => DeviceUpdate(rs[i]))
  }

  function ProxmoxEvents(rs: seq<HealthRecord>): (es: seq<Event>)
    ensures |es| == |rs| && forall i :: 0 <= i < |rs| ==> es[i] == ProxmoxUpdate(rs[i])
  {
    seq(|rs|, i requires 0 <= i < |rs| => ProxmoxUpdate(rs[i]))
  }

  /** Once aborted, a pass changes nothing. */
  lemma {:induction false} DevicePassAborted(platform: Platform, c: Cycle, entries: seq<Option<DeviceConfig>>, probes: seq<DeviceProbe>)
    requires |entries| == |probes| && c.aborted
    ensures DevicePass(platform, c, entries, probes) == c
    decreases |entries|
  {
    if |entries| > 0 {
      DevicePassAborted(platform, c, entries[1..], probes[1..]);
    }
  }

  lemma {:induction false} HostPassAborted(platform: Platform, c: Cycle, entries: seq<Option<HostConfig>>, probes: seq<HostProbe>)
    requires |entries| == |probes| && c.aborted
    ensures HostPass(platform, c, entries, probes) == c
    decreases |entries|
  {
    if |entries| > 0 {
      HostPassAborted(platform, c, entries[1..], probes[1..]);
    }
  }

  lemma UpsertCons(o: Object<HealthRecord>, r: HealthRecord, rest: seq<HealthRecord>)
    ensures Upsert(o, [r] + rest) == Upsert(Put(o, r.ip, r), rest)
  {
    assert ([r] + rest)[1..] == rest;
  }

  lemma DeviceEventsCons(log: seq<Event>, r: HealthRecord, rest: seq<HealthRecord>)
    ensures log + [DeviceUpdate(r)] + DeviceEvents(rest) == log + DeviceEvents([r] + rest)
  {
    assert DeviceEvents([r] + rest) == [DeviceUpdate(r)] + DeviceEvents(rest);
  }

  lemma ProxmoxEventsCons(log: seq<Event>, r: HealthRecord, rest: seq<HealthRecord>)
    ensures log + [ProxmoxUpdate(r)] + ProxmoxEvents(rest) == log + ProxmoxEvents([r] + rest)
  {
    assert ProxmoxEvents([r] + rest) == [ProxmoxUpdate(r)] + ProxmoxEvents(rest);
  }

  /**
   * The terminal-server pass upserts and announces exactly the records of
   * the servers it processed, in order, leaves the Proxmox states alone,
   * and is aborted exactly when the list holds a `null` entry.
   */
  lemma {:induction false} DevicePassResult(platform: Platform, c: Cycle, entries: seq<Option<DeviceConfig>>, probes: seq<DeviceProbe>)
    requires |entries| == |probes| && !c.aborted
    ensures var rs := DeviceRecords(platform, entries, probes);
      DevicePass(platform, c, entries, probes)
        == Cycle(Upsert(c.deviceStates, rs), c.proxmoxStates, c.log + DeviceEvents(rs), None in entries)
    decreases |entries|
  {
    if |entries| > 0 {
      assert entries == [entries[0]] + entries[1..];
      var c' := DeviceStep(platform, c, entries[0], probes[0]);
      assert DevicePass(platform, c, entries, probes) == DevicePass(platform, c', entries[1..], probes[1..]);
      if entries[0].None? {
        DevicePassAborted(platform, c', entries[1..], probes[1..]);
        assert DeviceRecords(platform, entries, probes) == [];
        assert c.log + [] == c.log;
      } else {
        var d := entries[0].value;
        var r := DeviceRecord(platform, d, probes[0]);
        var rest := DeviceRecords(platform, entries[1..], probes[1..]);
        assert c' == Cycle(Put(c.deviceStates, r.ip, r), c.proxmoxStates, c.log + [DeviceUpdate(r)], false);
        DevicePassResult(platform, c', entries[1..], probes[1..]);
        assert DeviceRecords(platform, entries, probes) == [r] + rest;
        UpsertCons(c.deviceStates, r, rest);
        DeviceEventsCons(c.log, r, rest);
        assert None in entries <==> None in entries[1..];
      }
    }
  }

  /** The same for the Proxmox pass, which also aborts at a host whose API body is `null`. */
  lemma {:induction false} HostPassResult(platform: Platform, c: Cycle, entries: seq<Option<HostConfig>>, probes: seq<HostProbe>)
    requires |entries| == |probes| && !c.aborted
    ensures var rs := HostRecords(platform, entries, probes);
      HostPass(platform, c, entries, probes)
        == Cycle(c.deviceStates, Upsert(c.proxmoxStates, rs), c.log + ProxmoxEvents(rs), |rs| < |entries|)
    decreases |entries|
  {
    if |entries| > 0 {
      var c' := HostStep(platform, c, entries[0], probes[0]);
      assert HostPass(platform, c, entries, probes) == HostPass(platform, c', entries[1..], probes[1..]);
      if entries[0].None? || HostRecord(platform, entries[0].value, probes[0]).None? {
        assert c'.aborted;
        HostPassAborted(platform, c', entries[1..], probes[1..]);
        assert HostRecords(platform, entries, probes) == [];
        assert c.log + [] == c.log;
      } else {
        var h := entries[0].value;
        var r := HostRecord(platform, h, probes[0]).value;
        var rest := HostRecords(platform, entries[1..], probes[1..]);
        assert c' == Cycle(c.deviceStates, Put(c.proxmoxStates, r.ip, r), c.log + [ProxmoxUpdate(r)], false);
        HostPassResult(platform, c', entries[1..], probes[1..]);
        assert HostRecords(platform, entries, probes) == [r] + rest;
        UpsertCons(c.proxmoxStates, r, rest);
        ProxmoxEventsCons(c.log, r, rest);
      }
    }
  }

  /**
   * A whole cycle: the terminal-server records are upserted and announced
   * first, then (unless a `null` terminal-server entry ended the cycle) the
   * Proxmox records; the cycle is aborted exactly when some entry could not
   * be processed, and the hosts after that point get neither a record nor
   * an event.
   */
  lemma PollCycleResult(
    platform: Platform, c: Cycle,
    devices: seq<Option<DeviceConfig>>, deviceProbes: seq<DeviceProbe>,
    hosts: seq<Option<HostConfig>>, hostProbes: seq<HostProbe>)
    requires |devices| == |deviceProbes| && |hosts| == |hostProbes| && !c.aborted
    ensures var ds := DeviceRecords(platform, devices, deviceProbes);
      var hs := if None in devices then [] else HostRecords(platform, hosts, hostProbes);
      var r := PollCycle(platform, c, devices, deviceProbes, hosts, hostProbes);
      && r.deviceStates == Upsert(c.deviceStates, ds)
      && r.proxmoxStates == Upsert(c.proxmoxStates, hs)
      && r.log == c.log + DeviceEvents(ds) + ProxmoxEvents(hs)
      && (r.aborted <==> None in devices || |hs| < |hosts|)
  {
    var c1 := DevicePass(platform, c, devices, deviceProbes);
    DevicePassResult(platform, c, devices, deviceProbes);
    if None in devices {
      HostPassAborted(platform, c1, hosts, hostProbes);
      assert ProxmoxEvents([]) == [];
      assert c1.log + [] == c1.log;
    } else {
      HostPassResult(platform, c1, hosts, hostProbes);
    }
  }

  /**
   * In what a cycle appends, every `device_update` comes before every
   * `proxmox_update`, and there is exactly one event per processed host.
   */
  lemma UpdatesOrdered(ds: seq<HealthRecord>, hs: seq<HealthRecord>)
    ensures var added := DeviceEvents(ds) + ProxmoxEvents(hs);
      && |added| == |ds| + |hs|
      && (forall i, j :: 0 <= i < j < |added| && added[i].ProxmoxUpdate? ==> added[j].ProxmoxUpdate?)
      && (forall i :: 0 <= i < |added| ==> (added[i].DeviceUpdate? <==> i < |ds|))
  {
  }

  // ----- the state maps -----

  /** The last record in `rs` for address `ip`. */
  function LastFor(rs: seq<HealthRecord>, ip: string): (r: Option<HealthRecord>)
    ensures r.None? <==> forall i :: 0 <= i < |rs| ==> rs[i].ip != ip
    ensures r.Some? ==> exists i :: 0 <= i < |rs| && rs[i] == r.value && rs[i].ip == ip
                          && forall j :: i < j < |rs| ==> rs[j].ip != ip
    decreases |rs|
  {
    if |rs| == 0 then None
    else
      var n := |rs| - 1;
      if rs[n].ip == ip then Some(rs[n])
      else
        var r := LastFor(rs[..n], ip);
        LastForPrefix(rs, ip, r);
        r
  }

  /** What `LastFor` says of all but the last record carries over when the last one is for another address. */
  lemma LastForPrefix(rs: seq<HealthRecord>, ip: string, r: Option<HealthRecord>)
    requires |rs| > 0 && rs[|rs| - 1].ip != ip
    requires var n := |rs| - 1; r.None? <==> forall i :: 0 <= i < n ==> rs[..n][i].ip != ip
    requires var n := |rs| - 1;
      r.Some? ==> exists i :: 0 <= i < n && rs[..n][i] == r.value && rs[..n][i].ip == ip
                              && forall j :: i < j < n ==> rs[..n][j].ip != ip
    ensures r.None? <==> forall i :: 0 <= i < |rs| ==> rs[i].ip != ip
    ensures r.Some? ==> exists i :: 0 <= i < |rs| && rs[i] == r.value && rs[i].ip == ip
                          && forall j :: i < j < |rs| ==> rs[j].ip != ip
  {
    var n := |rs| - 1;
    assert forall i :: 0 <= i < n ==> rs[..n][i] == rs[i];
    if r.Some? {
      var i :| 0 <= i < n && rs[..n][i] == r.value && rs[..n][i].ip == ip
                          && forall j :: i < j < n ==> rs[..n][j].ip != ip;
      assert rs[i] == r.value && forall j :: i < j < |rs| ==> rs[j].ip != ip;
    }
  }

  /**
   * After the upserts an address reads its last record in the cycle, so a
   * later duplicate overwrites an earlier one, and an address the cycle did
   * not process reads what it read before.
   */
  lemma {:induction false} UpsertGet(o: Object<HealthRecord>, rs: seq<HealthRecord>, ip: string)
    ensures Get(Upsert(o, rs), ip) == if LastFor(rs, ip).Some? then LastFor(rs, ip) else Get(o, ip)
    decreases |rs|
  {
    if |rs| > 0 {
      var t := Put(o, rs[0].ip, rs[0]);
      UpsertGet(t, rs[1..], ip);
      PutGet(o, rs[0].ip, rs[0], ip);
      LastForCons(rs[0], rs[1..], ip);
      assert [rs[0]] + rs[1..] == rs;
    }
  }

  lemma {:induction false} LastForCons(r: HealthRecord, rs: seq<HealthRecord>, ip: string)
    ensures LastFor([r] + rs, ip) == if LastFor(rs, ip).Some? then LastFor(rs, ip) else if r.ip == ip then Some(r) else None
    decreases |rs|
  {
    var s := [r] + rs;
    if |rs| > 0 {
      var n := |rs| - 1;
      assert s[|s| - 1] == rs[n];
      assert s[..|s| - 1] == [r] + rs[..n];
      if rs[n].ip != ip {
        LastForCons(r, rs[..n], ip);
      }
    } else {
      assert s == [r];
      assert s[..0] == [];
    }
  }

  /**
   * No key is ever removed: the keys there were stay at the front in their
   * order, and a map without duplicate keys keeps none.
   */
  /** Keys stay unique through the upserts. */
  lemma {:induction false} UpsertKeys(o: Object<HealthRecord>, rs: seq<HealthRecord>)
    ensures UniqueKeys(o) ==> UniqueKeys(Upsert(o, rs))
    decreases |rs|
  {
    if |rs| > 0 {
      var t := Put(o, rs[0].ip, rs[0]);
      PutKeys(o, rs[0].ip, rs[0]);
      UpsertKeys(t, rs[1..]);
    }
  }

  /** The keys after the upserts are the keys before and the addresses of the records. */
  lemma {:induction false} UpsertKeySet(o: Object<HealthRecord>, rs: seq<HealthRecord>, k: string)
    ensures k in Keys(Upsert(o, rs)) <==> k in Keys(o) || exists i :: 0 <= i < |rs| && rs[i].ip == k
    decreases |rs|
  {
    if |rs| > 0 {
      var t := Put(o, rs[0].ip, rs[0]);
      PutKeys(o, rs[0].ip, rs[0]);
      UpsertKeySet(t, rs[1..], k);
      assert k in Keys(t) <==> k in Keys(o) || k == rs[0].ip;
      if exists i :: 0 <= i < |rs[1..]| && rs[1..][i].ip == k {
        var i :| 0 <= i < |rs[1..]| && rs[1..][i].ip == k;
        assert rs[i + 1].ip == k;
      }
      if exists i :: 0 <= i < |rs| && rs[i].ip == k {
        var i :| 0 <= i < |rs| && rs[i].ip == k;
        if i > 0 { assert rs[1..][i - 1].ip == k; }
      }
    }
  }

  // ----- the server's state -----

  /** A configuration file as `loadConfigs` finds it. */
  datatype ConfigFile<T> = Missing | Unreadable | Parsed(entries: seq<T>)

  class PollState {
    const platform: Platform
    var devices: seq<Option<DeviceConfig>>
    var proxmoxHosts: seq<Option<HostConfig>>
    var deviceStates: Object<HealthRecord>
    var proxmoxStates: Object<HealthRecord>
    /** Every event broadcast by the polls so far. */
    var log: seq<Event>

    constructor(platform: Platform)
      ensures this.platform == platform
      ensures devices == [] && proxmoxHosts == [] && deviceStates == [] && proxmoxStates == [] && log == []
    {
      this.platform := platform;
      devices := [];
      proxmoxHosts := [];
      deviceStates := [];
      proxmoxStates := [];
      log := [];
    }

    /**
     * `loadConfigs`: each list is replaced by its file's contents when the
     * file exists; a file that cannot be read or parsed ends the load, so the
     * Proxmox list is then left as it was. No state record is ever dropped.
     */
    method LoadConfigs(devicesFile: ConfigFile<Option<DeviceConfig>>, proxmoxFile: ConfigFile<Option<HostConfig>>)
      modifies this
      ensures devices == if devicesFile.Parsed? then devicesFile.entries else old(devices)
      ensures proxmoxHosts == if !devicesFile.Unreadable? && proxmoxFile.Parsed? then proxmoxFile.entries else old(proxmoxHosts)
      ensures deviceStates == old(deviceStates) && proxmoxStates == old(proxmoxStates) && log == old(log)
    {
      if devicesFile.Unreadable? {
        return;
      }
      if devicesFile.Parsed? {
        devices := devicesFile.entries;
      }
      if proxmoxFile.Parsed? {
        proxmoxHosts := proxmoxFile.entries;
      }
    }

    /**
     * `pollDevices`, one cycle: the terminal servers in list order, then the
     * Proxmox hosts, each upserted by IP and announced; an exception ends
     * the cycle where it happens. The probes' outcomes are given per list
     * position.
     */
    method PollDevices(deviceProbes: seq<DeviceProbe>, hostProbes: seq<HostProbe>) returns (aborted: bool)
      requires |deviceProbes| == |devices| && |hostProbes| == |proxmoxHosts|
      modifies this
      ensures var r := PollCycle(platform, Cycle(old(deviceStates), old(proxmoxStates), old(log), false),
                                 old(devices), deviceProbes, old(proxmoxHosts), hostProbes);
        deviceStates == r.deviceStates && proxmoxStates == r.proxmoxStates && log == r.log && aborted == r.aborted
      ensures devices == old(devices) && proxmoxHosts == old(proxmoxHosts)
    {
      ghost var start := Cycle(deviceStates, proxmoxStates, log, false);
      ghost var afterDevices := DevicePass(platform, start, devices, deviceProbes);
      aborted := false;
      var i := 0;
      while i < |devices|
        invariant 0 <= i <= |devices|
        invariant !aborted
        invariant devices == old(devices) && proxmoxHosts == old(proxmoxHosts)
        invariant DevicePass(platform, Cycle(deviceStates, proxmoxStates, log, false), devices[i..], deviceProbes[i..]) == afterDevices
      {
        var here := Cycle(deviceStates, proxmoxStates, log, false);
        assert devices[i..][1..] == devices[i + 1..] && deviceProbes[i..][1..] == deviceProbes[i + 1..];
        match devices[i]
        case None =>
          aborted := true;
          DevicePassAborted(platform, here.(aborted := true), devices[i + 1..], deviceProbes[i + 1..]);
          assert HostPass(platform, afterDevices, proxmoxHosts, hostProbes) == afterDevices by {
            HostPassAborted(platform, afterDevices, proxmoxHosts, hostProbes);
          }
          return;
        case Some(d) =>
          var record := DeviceRecord(platform, d, deviceProbes[i]);
          deviceStates := Put(deviceStates, d.ip, record);
          log := log + [DeviceUpdate(record)];
        i := i + 1;
      }
      assert devices[i..] == [];
      var j := 0;
      while j < |proxmoxHosts|
        invariant 0 <= j <= |proxmoxHosts|
        invariant !aborted
        invariant devices == old(devices) && proxmoxHosts == old(proxmoxHosts)
        invariant HostPass(platform, Cycle(deviceStates, proxmoxStates, log, false), proxmoxHosts[j..], hostProbes[j..])
                  == HostPass(platform, afterDevices, proxmoxHosts, hostProbes)
      {
        var here := Cycle(deviceStates, proxmoxStates, log, false);
        assert proxmoxHosts[j..][1..] == proxmoxHosts[j + 1..] && hostProbes[j..][1..] == hostProbes[j + 1..];
        if proxmoxHosts[j].None? {
          aborted := true;
          HostPassAborted(platform, here.(aborted := true), proxmoxHosts[j + 1..], hostProbes[j + 1..]);
          return;
        }
        var h := proxmoxHosts[j].value;
        var record := HostRecord(platform, h, hostProbes[j]);
        if record.None? {
          aborted := true;
          HostPassAborted(platform, here.(aborted := true), proxmoxHosts[j + 1..], hostProbes[j + 1..]);
          return;
        }
        proxmoxStates := Put(proxmoxStates, h.ip, record.value);
        log := log + [ProxmoxUpdate(record.value)];
        j := j + 1;
      }
      assert proxmoxHosts[j..] == [];
    }
  }
}
