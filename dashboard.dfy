/**
 * The browser dashboard's component state: the device and Proxmox lists it
 * shows, the loading banner, the overlays, the scanning animation and the
 * alarm debounce flag, and how each message of the `/events` stream changes
 * them. A list element is the plain object the page renders, so merging a
 * record into it is `Object.assign` on that object.
 */
module Dashboard {
  import opened Wrappers
  import opened Json
  import opened JsObject
  import opened Events

  /** One element of `devices` or `proxmoxHosts`. */
  type Entry = Object<Json>

  // ---------------------------------------------------------------------
  // The ping icon

  /** The bucket `getPingImage` picks: 5 for an unknown latency, else by 50 ms steps. */
  function PingIndex(latency: Option<int>): nat {
    match latency
    case None => 5
    case Some(ms) =>
      if ms >= 200 then 5
      else if ms >= 150 then 4
      else if ms >= 100 then 3
      else if ms >= 50 then 2
      else 1
  }

  /** `img/ping/ping-<n>.png` for a bucket `n`. */
  function PingImagePath(n: nat): (path: string)
    requires 1 <= n <= 5
    ensures |path| == 19 && path[..14] == "img/ping/ping-" && path[15..] == ".png"
    ensures '1' <= path[14] <= '5' && path[14] as int - '0' as int == n
  {
    "img/ping/ping-" + [('0' as int + n) as char] + ".png"
  }

  /** `getPingImage(latency)`: one of the five icons, by 50 ms steps, the last for no answer. */
  function PingImage(latency: Option<int>): (img: string)
    ensures latency.None? ==> img == "img/ping/ping-5.png"
    ensures latency.Some? && latency.value >= 200 ==> img == "img/ping/ping-5.png"
    ensures latency.Some? && 150 <= latency.value < 200 ==> img == "img/ping/ping-4.png"
    ensures latency.Some? && 100 <= latency.value < 150 ==> img == "img/ping/ping-3.png"
    ensures latency.Some? && 50 <= latency.value < 100 ==> img == "img/ping/ping-2.png"
    ensures latency.Some? && latency.value < 50 ==> img == "img/ping/ping-1.png"
  {
    PingIndexRange(latency);
    PingImagePath(PingIndex(latency))
  }

  /** The bucket is always one of the five icons. */
  lemma PingIndexRange(latency: Option<int>)
    ensures 1 <= PingIndex(latency) <= 5
  {
  }

  /** The bucket boundaries, both ways. */
  lemma PingBuckets(ms: int)
    ensures PingIndex(Some(ms)) == 5 <==> ms >= 200
    ensures PingIndex(Some(ms)) == 4 <==> 150 <= ms < 200
    ensures PingIndex(Some(ms)) == 3 <==> 100 <= ms < 150
    ensures PingIndex(Some(ms)) == 2 <==> 50 <= ms < 100
    ensures PingIndex(Some(ms)) == 1 <==> ms < 50
  {
  }

  /** A slower answer never shows a better icon, and no answer shows the worst. */
  lemma PingIndexMonotone(a: int, b: int)
    requires a <= b
    ensures PingIndex(Some(a)) <= PingIndex(Some(b)) <= PingIndex(None)
  {
  }

  /** Different buckets show different icons. */
  lemma PingImageDistinct(a: Option<int>, b: Option<int>)
    ensures PingImage(a) == PingImage(b) <==> PingIndex(a) == PingIndex(b)
  {
    PingIndexRange(a);
    PingIndexRange(b);
    if PingImage(a) == PingImage(b) {
      assert PingImage(a)[14] == PingImage(b)[14];
    }
  }

  /** The latency a list element shows: a number, otherwise unknown. */
  function LatencyOf(e: Entry): Option<int> {
    var v := Get(e, "latency");
    if v.Some? && v.value.JNumber? then Some(v.value.n) else None
  }

  // ---------------------------------------------------------------------
  // Initial lists

  /** The status fields every loaded element starts with. */
  const Defaults: Entry := [("online", JBool(false)), ("latency", JNull), ("connCount", JNumber(0))]

  /** The own properties `{ ...d }` copies: an object's fields (a repeated key reads its last value), nothing otherwise. */
  function Spread(d: Json): Entry {
    if d.JObject? then Assign([], d.fields) else []
  }

  /** `{ ...d, online: false, latency: null, connCount: 0 }`. */
  function Defaulted(d: Json): Entry {
    Assign(Spread(d), Defaults)
  }

  /** `raw.map(d => ({ ...d, online: false, latency: null, connCount: 0 }))`. */
  function DefaultAll(raw: seq<Json>): (entries: seq<Entry>)
    ensures |entries| == |raw|
    ensures forall i :: 0 <= i < |raw| ==> entries[i] == Defaulted(raw[i])
  {
    seq(|raw|, i requires 0 <= i < |raw| => Defaulted(raw[i]))
  }

  lemma DefaultsUnique()
    ensures UniqueKeys(Defaults)
    ensures Keys(Defaults) == ["online", "latency", "connCount"]
  {
  }

  /**
   * The three status fields read their defaults whatever the configuration
   * said; every other property reads what the configuration entry had.
   */
  lemma DefaultedFields(d: Json, k: string)
    ensures k == "online" ==> Get(Defaulted(d), k) == Some(JBool(false))
    ensures k == "latency" ==> Get(Defaulted(d), k) == Some(JNull)
    ensures k == "connCount" ==> Get(Defaulted(d), k) == Some(JNumber(0))
    ensures k !in ["online", "latency", "connCount"] ==> Get(Defaulted(d), k) == Get(Spread(d), k)
  {
    DefaultsUnique();
    AssignGet(Spread(d), Defaults, k);
    assert Get(Defaults, "online") == Some(JBool(false));
    assert Get(Defaults, "latency") == Some(JNull);
    assert Get(Defaults, "connCount") == Some(JNumber(0));
  }

  /** A freshly loaded element shows the worst ping icon until its first record arrives. */
  lemma FreshEntryShowsWorstPing(d: Json)
    ensures LatencyOf(Defaulted(d)) == None
    ensures PingImage(LatencyOf(Defaulted(d))) == PingImagePath(5)
  {
    DefaultedFields(d, "latency");
  }

  // ---------------------------------------------------------------------
  // Merging records by ip

  predicate HasIp(e: Entry, ip: string) {
    Get(e, "ip") == Some(JString(ip))
  }

  /** The `ip` property of each element, `None` where there is none. */
  function IpsOf(list: seq<Entry>): (ips: seq<Option<Json>>)
    ensures |ips| == |list| && forall j :: 0 <= j < |list| ==> ips[j] == Get(list[j], "ip")
  {
    seq(|list|, j requires 0 <= j < |list| => Get(list[j], "ip"))
  }

  /** The first position holding the string `ip`. */
  function FirstIp(ips: seq<Option<Json>>, ip: string): (r: Option<nat>)
    ensures r.None? <==> forall j :: 0 <= j < |ips| ==> ips[j] != Some(JString(ip))
    ensures r.Some? ==> r.value < |ips| && ips[r.value] == Some(JString(ip)) && forall j :: 0 <= j < r.value ==> ips[j] != Some(JString(ip))
    decreases |ips|
  {
    if |ips| == 0 then None
    else if ips[0] == Some(JString(ip)) then Some(0)
    else
      var rest := FirstIp(ips[1..], ip);
      FirstIpTail(ips, ip, rest);
      if rest.None? then None else Some(rest.value + 1)
  }

  lemma FirstIpTail(ips: seq<Option<Json>>, ip: string, rest: Option<nat>)
    requires |ips| > 0 && ips[0] != Some(JString(ip))
    requires rest.None? <==> forall j :: 0 <= j < |ips[1..]| ==> ips[1..][j] != Some(JString(ip))
    requires rest.Some? ==> rest.value < |ips[1..]| && ips[1..][rest.value] == Some(JString(ip)) && forall j :: 0 <= j < rest.value ==> ips[1..][j] != Some(JString(ip))
    ensures rest.None? <==> forall j :: 0 <= j < |ips| ==> ips[j] != Some(JString(ip))
    ensures rest.Some? ==> rest.value + 1 < |ips| && ips[rest.value + 1] == Some(JString(ip)) && forall j :: 0 <= j < rest.value + 1 ==> ips[j] != Some(JString(ip))
  {
    assert forall j :: 1 <= j < |ips| ==> ips[j] == ips[1..][j - 1];
  }

  /**
   * `list.find(d => d.ip === ip)`, as the index of the element found: the
   * first element whose ip is the string `ip`, if there is one. It depends
   * on the ips alone.
   */
  function FindIp(list: seq<Entry>, ip: string): (r: Option<nat>)
    ensures r.None? <==> forall j :: 0 <= j < |list| ==> !HasIp(list[j], ip)
    ensures r.Some? ==> r.value < |list| && HasIp(list[r.value], ip) && forall j :: 0 <= j < r.value ==> !HasIp(list[j], ip)
  {
    FirstIp(IpsOf(list), ip)
  }

  /** `Object.assign(list.find(d => d.ip === r.ip), r)` when an element is found. */
  function MergeRecord(list: seq<Entry>, r: HealthRecord): (merged: seq<Entry>)
    ensures |merged| == |list|
  {
    match FindIp(list, r.ip)
    case None => list
    case Some(i) => list[i := Assign(list[i], RecordFields(r))]
  }

  /** `records.forEach(...)` of `updateDevices`/`updateProxmox`, record by record. */
  function MergeAll(list: seq<Entry>, records: seq<HealthRecord>): (merged: seq<Entry>)
    ensures |merged| == |list|
    decreases |records|
  {
    if |records| == 0 then list
    else MergeRecord(MergeAll(list, records[..|records| - 1]), records[|records| - 1])
  }

  lemma RecordFieldsUnique(r: HealthRecord)
    ensures UniqueKeys(RecordFields(r))
    ensures Keys(RecordFields(r)) == ["ip", "online", "latency", "connCount"]
  {
  }

  /**
   * Merging a record changes only the first element with its ip: every
   * property the record carries is overwritten there and every other
   * property is kept. No element is added or removed.
   */
  lemma MergeRecordFields(list: seq<Entry>, r: HealthRecord, k: string)
    ensures |MergeRecord(list, r)| == |list|
    ensures FindIp(list, r.ip).None? ==> MergeRecord(list, r) == list
    ensures FindIp(list, r.ip).Some? ==>
      var i := FindIp(list, r.ip).value;
      (forall j :: 0 <= j < |list| && j != i ==> MergeRecord(list, r)[j] == list[j]) &&
      Get(MergeRecord(list, r)[i], k) ==
        if k in Keys(RecordFields(r)) then Get(RecordFields(r), k) else Get(list[i], k)
  {
    RecordFieldsUnique(r);
    if FindIp(list, r.ip).Some? {
      AssignGet(list[FindIp(list, r.ip).value], RecordFields(r), k);
    }
  }

  /** The element a record merges into already had the record's ip, so every ip stays where it was. */
  lemma MergeRecordKeepsIps(list: seq<Entry>, r: HealthRecord)
    ensures IpsOf(MergeRecord(list, r)) == IpsOf(list)
  {
    MergeRecordFields(list, r, "ip");
    assert Get(RecordFields(r), "ip") == Some(JString(r.ip));
    var a, b := IpsOf(MergeRecord(list, r)), IpsOf(list);
    assert forall j :: 0 <= j < |list| ==> a[j] == b[j];
  }

  /** Merging any records keeps the list's ips, so an ip nobody configured never appears. */
  lemma {:induction false} MergeAllKeepsIps(list: seq<Entry>, records: seq<HealthRecord>)
    ensures IpsOf(MergeAll(list, records)) == IpsOf(list)
    decreases |records|
  {
    if |records| > 0 {
      var prefix := records[..|records| - 1];
      MergeAllKeepsIps(list, prefix);
      MergeRecordKeepsIps(MergeAll(list, prefix), records[|records| - 1]);
    }
  }

  /** An element whose ip no record carries is left exactly as it was. */
  lemma {:induction false} MergeAllUntouched(list: seq<Entry>, records: seq<HealthRecord>, j: nat)
    requires j < |list|
    requires forall q :: 0 <= q < |records| ==> !HasIp(list[j], records[q].ip)
    ensures MergeAll(list, records)[j] == list[j]
    decreases |records|
  {
    if |records| > 0 {
      var prefix := records[..|records| - 1];
      var last := records[|records| - 1];
      MergeAllUntouched(list, prefix, j);
      var before := MergeAll(list, prefix);
      MergeRecordFields(before, last, "ip");
      assert !HasIp(before[j], last.ip);
    }
  }

  /**
   * The element first found for an ip ends up with the fields of the last
   * record for that ip: a later record for another host does not touch it.
   */
  lemma {:induction false} LatestRecordWins(list: seq<Entry>, records: seq<HealthRecord>, i: nat, p: nat, k: string)
    requires p < |records|
    requires FindIp(list, records[p].ip) == Some(i)
    requires forall q :: p < q < |records| ==> records[q].ip != records[p].ip
    requires k in Keys(RecordFields(records[p]))
    ensures i < |list|
    ensures Get(MergeAll(list, records)[i], k) == Get(RecordFields(records[p]), k)
    decreases |records|
  {
    var prefix := records[..|records| - 1];
    var last := records[|records| - 1];
    var before := MergeAll(list, prefix);
    MergeAllKeepsIps(list, prefix);
    if p == |records| - 1 {
      MergeRecordFields(before, last, k);
    } else {
      assert prefix[p] == records[p];
      LatestRecordWins(list, prefix, i, p, k);
      MergeRecordFields(before, last, "ip");
      assert HasIp(before[i], records[p].ip);
      assert !HasIp(before[i], last.ip);
      if FindIp(before, last.ip).Some? {
        assert FindIp(before, last.ip).value != i;
      }
    }
  }

  // ---------------------------------------------------------------------
  // The component

  /** A config file as fetched and parsed; `FetchFailed` when the request or its JSON fails. */
  datatype Fetched = FetchFailed | Fetched(value: Json)

  const ScanStates: seq<string> := ["O o O", "o O o"]

  const LoadingBanner: string := "Building Terrain"
  const CheckingBanner: string := "Checking devices..."
  const LoadErrorBanner: string := "Error loading data!"
  const OnlineBanner: string := "System Online"

  /** The animation frame `n` ticks after the start. */
  function ScanDotsAfter(ticks: nat): string {
    ScanStates[ticks % 2]
  }

  /** The animation shows the two frames in strict alternation. */
  lemma ScanAlternates(ticks: nat)
    ensures ScanDotsAfter(ticks + 1) != ScanDotsAfter(ticks)
    ensures ScanDotsAfter(ticks + 2) == ScanDotsAfter(ticks)
  {
    assert (ticks + 2) % 2 == ticks % 2;
    if ticks % 2 == 0 {
      assert (ticks + 1) % 2 == 1;
    } else {
      assert (ticks + 1) % 2 == 0;
    }
  }

  /** The state of the `netherlinkApp` component that the modelled handlers touch. */
  class App {
    var page: string
    var devices: seq<Entry>
    var proxmoxHosts: seq<Entry>
    var loading: bool
    var loadingMessage: string
    var showOptions: bool
    var showQuit: bool
    var tipsOpen: bool
    var activeTipIp: Option<string>
    var sshCmd: string
    var telnetCmd: string
    var scanDots: string
    /** The `idx` of the running `startScanDots` interval. */
    var scanIndex: nat
    var timeoutPlayed: bool

    /** The animation index and the frame shown agree. */
    predicate ScanInSync()
      reads this
    {
      scanIndex < 2 && scanDots == ScanStates[scanIndex]
    }

    constructor ()
      ensures page == "main" && devices == [] && proxmoxHosts == []
      ensures loading && loadingMessage == LoadingBanner
      ensures !showOptions && !showQuit && !tipsOpen && activeTipIp == None
      ensures sshCmd == "" && telnetCmd == ""
      ensures scanDots == ScanStates[0] && scanIndex == 0 && ScanInSync()
      ensures !timeoutPlayed
    {
      page := "main";
      devices := [];
      proxmoxHosts := [];
      loading := true;
      loadingMessage := LoadingBanner;
      showOptions := false;
      showQuit := false;
      tipsOpen := false;
      activeTipIp := None;
      sshCmd := "";
      telnetCmd := "";
      scanDots := ScanStates[0];
      scanIndex := 0;
      timeoutPlayed := false;
    }

    /**
     * `loadData`: both config files are fetched and parsed first, then each
     * list is replaced by its defaulted copy. A failure leaves the lists
     * that were not yet replaced as they were and shows the error banner.
     */
    method LoadData(rawDevices: Fetched, rawProxmox: Fetched)
      modifies this`devices, this`proxmoxHosts, this`loadingMessage
      ensures rawDevices.FetchFailed? || rawProxmox.FetchFailed? ==>
        devices == old(devices) && proxmoxHosts == old(proxmoxHosts) && loadingMessage == LoadErrorBanner
      ensures rawDevices.Fetched? && rawProxmox.Fetched? && !rawDevices.value.JArray? ==>
        devices == old(devices) && proxmoxHosts == old(proxmoxHosts) && loadingMessage == LoadErrorBanner
      ensures rawDevices.Fetched? && rawProxmox.Fetched? && rawDevices.value.JArray? ==>
        devices == DefaultAll(rawDevices.value.items) &&
        (rawProxmox.value.JArray? ==> proxmoxHosts == DefaultAll(rawProxmox.value.items) && loadingMessage == CheckingBanner) &&
        (!rawProxmox.value.JArray? ==> proxmoxHosts == old(proxmoxHosts) && loadingMessage == LoadErrorBanner)
    {
      loadingMessage := CheckingBanner;
      if rawDevices.FetchFailed? || rawProxmox.FetchFailed? {
        loadingMessage := LoadErrorBanner;
        return;
      }
      if !rawDevices.value.JArray? {
        loadingMessage := LoadErrorBanner;
        return;
      }
      devices := DefaultAll(rawDevices.value.items);
      if !rawProxmox.value.JArray? {
        loadingMessage := LoadErrorBanner;
        return;
      }
      proxmoxHosts := DefaultAll(rawProxmox.value.items);
    }

    /** `updateDevices(records)`. */
    method UpdateDevices(records: seq<HealthRecord>)
      modifies this`devices
      ensures devices == MergeAll(old(devices), records)
    {
      devices := Merged(devices, records);
    }

    /** `updateProxmox(records)`. */
    method UpdateProxmox(records: seq<HealthRecord>)
      modifies this`proxmoxHosts
      ensures proxmoxHosts == MergeAll(old(proxmoxHosts), records)
    {
      proxmoxHosts := Merged(proxmoxHosts, records);
    }

    /**
     * `onmessage` for one event of the `/events` stream; `played` says
     * whether the alarm sound starts.
     */
    method OnMessage(e: Event) returns (played: bool)
      modifies this`devices, this`proxmoxHosts, this`loading, this`loadingMessage, this`timeoutPlayed
      ensures played <==> e.Timeout? && e.shouldPlay && !old(timeoutPlayed)
      ensures timeoutPlayed == (old(timeoutPlayed) || (e.Timeout? && e.shouldPlay))
      ensures e.FullState? ==>
        devices == MergeAll(old(devices), e.devices) && proxmoxHosts == MergeAll(old(proxmoxHosts), e.proxmox) &&
        !loading && loadingMessage == OnlineBanner
      ensures e.DeviceUpdate? ==> devices == MergeRecord(old(devices), e.record) && proxmoxHosts == old(proxmoxHosts)
      ensures e.ProxmoxUpdate? ==> proxmoxHosts == MergeRecord(old(proxmoxHosts), e.record) && devices == old(devices)
      ensures e.Connected? || e.Timeout? ==> devices == old(devices) && proxmoxHosts == old(proxmoxHosts)
      ensures !e.FullState? ==> loading == old(loading) && loadingMessage == old(loadingMessage)
    {
      played := false;
      match e
      case FullState(ds, ps) =>
        UpdateDevices(ds);
        UpdateProxmox(ps);
        loading := false;
        loadingMessage := OnlineBanner;
      case DeviceUpdate(r) =>
        devices := MergeRecord(devices, r);
      case ProxmoxUpdate(r) =>
        proxmoxHosts := MergeRecord(proxmoxHosts, r);
      case Timeout(shouldPlay) =>
        if shouldPlay && !timeoutPlayed {
          played := true;
          timeoutPlayed := true;
        }
      case Connected =>
    }

    /** The delayed reset of `timeoutPlayed` that follows an alarm. */
    method TimeoutReset()
      modifies this`timeoutPlayed
      ensures !timeoutPlayed
    {
      timeoutPlayed := false;
    }

    /** A second alarm message before the reset does not play again. */
    method AlarmTwice() returns (first: bool, second: bool)
      modifies this`devices, this`proxmoxHosts, this`loading, this`loadingMessage, this`timeoutPlayed
      ensures first == !old(timeoutPlayed)
      ensures !second && timeoutPlayed
      ensures devices == old(devices) && proxmoxHosts == old(proxmoxHosts)
    {
      first := OnMessage(Timeout(true));
      second := OnMessage(Timeout(true));
    }

    /** `startScanDots`: the interval's index starts at the first frame. */
    method StartScanDots()
      modifies this`scanIndex
      ensures scanIndex == 0
      ensures old(scanDots) == ScanStates[0] ==> ScanInSync()
    {
      scanIndex := 0;
    }

    /** One tick of the `startScanDots` interval. */
    method ScanTick()
      modifies this`scanIndex, this`scanDots
      ensures scanIndex == (old(scanIndex) + 1) % 2 && ScanInSync()
      ensures old(ScanInSync()) ==> scanDots != old(scanDots)
    {
      scanIndex := (scanIndex + 1) % 2;
      scanDots := ScanStates[scanIndex];
    }

    /** `navigate(target)`. */
    method Navigate(target: string)
      modifies this`page, this`showOptions, this`showQuit
      ensures page == target && !showOptions && !showQuit
    {
      page := target;
      showOptions := false;
      showQuit := false;
    }

    /** `openTips(ip)`. */
    method OpenTips(ip: string)
      modifies this`activeTipIp, this`sshCmd, this`telnetCmd, this`tipsOpen
      ensures activeTipIp == Some(ip) && tipsOpen
      ensures sshCmd == "ssh cisco@" + ip + " -o KexAlgorithms=+diffie-hellman-group1-sha1 -o HostKeyAlgorithms=+ssh-rsa -c aes128-cbc"
      ensures telnetCmd == "telnet " + ip
    {
      activeTipIp := Some(ip);
      sshCmd := "ssh cisco@" + ip + " -o KexAlgorithms=+diffie-hellman-group1-sha1 -o HostKeyAlgorithms=+ssh-rsa -c aes128-cbc";
      telnetCmd := "telnet " + ip;
      tipsOpen := true;
    }

    /** `closeTips()`, also bound to Escape: nothing happens unless the tips are open. */
    method CloseTips()
      modifies this`tipsOpen, this`activeTipIp
      ensures old(tipsOpen) ==> !tipsOpen && activeTipIp == None
      ensures !old(tipsOpen) ==> !tipsOpen && activeTipIp == old(activeTipIp)
    {
      if tipsOpen {
        tipsOpen := false;
        activeTipIp := None;
      }
    }
  }

  /** The loop of `updateDevices`/`updateProxmox` over a list value. */
  method Merged(list: seq<Entry>, records: seq<HealthRecord>) returns (merged: seq<Entry>)
    ensures merged == MergeAll(list, records)
  {
    merged := list;
    var k := 0;
    while k < |records|
      invariant 0 <= k <= |records|
      invariant merged == MergeAll(list, records[..k])
    {
      assert records[..k + 1][..k] == records[..k];
      var found := FindIp(merged, records[k].ip);
      if found.Some? {
        var i := found.value;
        merged := merged[i := Assign(merged[i], RecordFields(records[k]))];
      }
      k := k + 1;
    }
    assert records[..k] == records;
  }
}
