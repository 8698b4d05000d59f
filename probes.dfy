/**
 * What the poll cycle makes of its probes: the result a `ping` run is
 * shaped into (with the latency read from Windows output), and the Proxmox
 * companion API's answer. The runs, sockets and requests themselves are
 * inputs.
 */
module Probes {
  import opened Wrappers
  import opened Text
  import opened Json
  import JsObject

  // ----- ping -----

  datatype Platform = Windows | Darwin | Linux

  /** The arguments `ping` is started with: one echo, and a 500 ms wait on Windows, 1 s on Linux. */
  function PingArgs(platform: Platform, ip: string): (args: seq<string>)
    ensures |args| >= 3 && args[|args| - 1] == ip
    ensures args[1] == "1" && (args[0] == "-n" <==> platform == Windows)
  {
    match platform
    case Windows => ["-n", "1", "-w", "500", ip]
    case Darwin => ["-c", "1", ip]
    case Linux => ["-c", "1", "-W", "1", ip]
  }

  /**
   * How a `ping` run ended: it closed with an exit code and its collected
   * output, it was killed by the 800 ms timer, or it could not be started.
   * `roundedTime` is what the non-Windows branch's floating-point reading
   * of `time=` gives for that output, rounded; it is an input here.
   */
  datatype PingRun =
    | Exited(code: int, output: string, roundedTime: Option<int>)
    | KilledByTimer
    | SpawnFailed

  /** `{ up, latency }`, with `None` for `null`. */
  datatype PingResult = PingResult(up: bool, latency: Option<int>)

  const Down: PingResult := PingResult(false, None)

  /**
   * The regular expression `/time[=<](\d+)ms/i` matching at `i` with a
   * capture of `d` digits: `time` in any case, `=` or `<`, the digits, then
   * `ms` in any case.
   */
  predicate RegexMatch(s: string, i: nat, d: nat) {
    i + 5 + d + 2 <= |s| && d > 0
    && AsciiLower(s[i..i + 4]) == "time" && (s[i + 4] == '=' || s[i + 4] == '<')
    && AllDigits(s[i + 5..i + 5 + d]) && AsciiLower(s[i + 5 + d..i + 5 + d + 2]) == "ms"
  }

  /** The number the capture holds. */
  function Capture(s: string, i: nat, d: nat): nat
    requires RegexMatch(s, i, d)
  {
    DecimalValue(s[i + 5..i + 5 + d])
  }

  /** The digits after `time=` or `time<` at `i`. */
  function RunAt(s: string, i: nat): nat
    requires i + 5 <= |s|
  {
    LeadingDigits(s[i + 5..])
  }

  /** The expression matches at `i` taking the whole run of digits, which is the only way it can. */
  predicate MatchesAt(s: string, i: nat) {
    i + 5 <= |s| && RegexMatch(s, i, RunAt(s, i))
  }

  /**
   * The capture cannot stop inside a run of digits, since `m` is not a
   * digit, and cannot pass one: a match at `i` always captures exactly the
   * run of digits there.
   */
  lemma GreedyCapture(s: string, i: nat, d: nat)
    ensures RegexMatch(s, i, d) <==> i + 5 <= |s| && MatchesAt(s, i) && d == RunAt(s, i)
  {
    if RegexMatch(s, i, d) {
      var t := s[i + 5..];
      var k := LeadingDigits(t);
      assert AsciiLower(s[i + 5 + d..i + 5 + d + 2])[0] == AsciiLowerChar(t[d]);
      if k < d {
        assert false;
      } else if k > d {
        assert false;
      }
    }
  }

  /** The leftmost position from `from` on where the expression matches. */
  function FirstMatch(s: string, from: nat): (r: Option<nat>)
    requires from <= |s|
    ensures r.Some? ==> from <= r.value && MatchesAt(s, r.value)
    ensures r.Some? ==> forall j: nat :: from <= j < r.value ==> !MatchesAt(s, j)
    ensures r.None? ==> forall j: nat :: from <= j ==> !MatchesAt(s, j)
    decreases |s| - from
  {
    if MatchesAt(s, from) then Some(from)
    else if from == |s| then None
    else FirstMatch(s, from + 1)
  }

  /** `parseInt(match[1], 10)` of the first match in Windows output, `None` when there is none. */
  function WindowsLatency(output: string): Option<int> {
    match FirstMatch(output, 0)
    case None => None
    case Some(i) =>
      var d := RunAt(output, i);
      Some(Capture(output, i, d))
  }

  /**
   * The latency read from Windows output is the capture of the leftmost
   * match of `/time[=<](\d+)ms/i`, and there is none exactly when the
   * expression matches nowhere.
   */
  lemma WindowsLatencyIsLeftmostMatch(output: string)
    ensures WindowsLatency(output).None? <==> forall i: nat, d: nat :: !RegexMatch(output, i, d)
    ensures WindowsLatency(output).Some? ==>
      exists i: nat, d: nat :: RegexMatch(output, i, d) && WindowsLatency(output).value == Capture(output, i, d)
        && forall j: nat, e: nat :: j < i ==> !RegexMatch(output, j, e)
  {
    forall j: nat, e: nat | RegexMatch(output, j, e) ensures MatchesAt(output, j) && e == RunAt(output, j) {
      GreedyCapture(output, j, e);
    }
    match FirstMatch(output, 0)
    case None =>
    case Some(i) =>
      var d := RunAt(output, i);
      assert RegexMatch(output, i, d);
  }

  /**
   * `pingHost(ip)`: no address, a non-zero exit, the timer or a failed
   * start give `{ up: false, latency: null }`; exit 0 gives up, with the
   * latency read from the output, `null` when it shows none.
   */
  function PingHost(platform: Platform, ip: string, run: PingRun): (r: PingResult)
    ensures r.up <==> ip != "" && run.Exited? && run.code == 0
    ensures !r.up ==> r == Down
    ensures r.up && platform == Windows ==> r.latency == WindowsLatency(run.output)
    ensures r.up && platform != Windows ==> r.latency == run.roundedTime
  {
    if ip == "" then Down
    else match run
      case Exited(code, output, rounded) =>
        if code != 0 then Down
        else PingResult(true, if platform == Windows then WindowsLatency(output) else rounded)
      case _ => Down
  }

  /** `time=` in lower case gives the captured number. */
  lemma WindowsTimeEquals()
    ensures WindowsLatency("time=7ms") == Some(7)
  {
    var a := "time=7ms";
    assert LeadingDigits(a[5..]) == 1 by { assert a[5..][0] == '7' && a[5..][1] == 'm'; }
    assert a[5..6] == "7";
    assert MatchesAt(a, 0);
  }

  /** `TIME<` and `MS` in upper case, as Windows writes sub-millisecond replies, match too. */
  lemma WindowsTimeBelow()
    ensures WindowsLatency("TIME<12MS") == Some(12)
  {
    var b := "TIME<12MS";
    assert LeadingDigits(b[5..]) == 2 by { assert b[5..][0] == '1' && b[5..][1] == '2' && b[5..][2] == 'M'; }
    assert b[5..7] == "12";
    assert DecimalValue("12") == 12 by { assert "12"[..1] == "1"; }
    assert MatchesAt(b, 0);
  }

  // ----- the Proxmox companion API -----

  const DefaultApiHost: string := "10.30.6.119"
  const ApiPort: nat := 8080
  const ApiPath: string := "/api/connection_count"
  const ApiTimeoutMs: nat := 2000

  /**
   * The host asked: the trimmed `ip` when it is a string with something
   * besides white space, the fixed default otherwise. It is never empty and
   * never has white space at either end.
   */
  function ApiHost(ip: Json): (host: string)
    ensures host != "" && Trimmed(host)
    ensures ip.JString? && !AllSpace(ip.s) ==> host == Trim(ip.s)
    ensures !(ip.JString? && !AllSpace(ip.s)) ==> host == DefaultApiHost
  {
    if ip.JString? && |Trim(ip.s)| > 0 then Trim(ip.s) else DefaultApiHost
  }

  /**
   * How the request ended: an answer whose body parsed as JSON (`None`
   * when it did not), the 2-second timeout, or a request error.
   */
  datatype ApiOutcome =
    | Answered(body: Option<Json>)
    | RequestTimedOut
    | RequestFailed

  /** `{ established_connections: 0, port: 8006 }`, what every failure resolves to. */
  const ApiFallback: Json := JObject([("established_connections", JNumber(0)), ("port", JNumber(8006))])

  /** `fetchProxmoxConnectionCount`: the parsed body, or the fallback; it never rejects. */
  function FetchConnectionCount(outcome: ApiOutcome): (data: Json)
    ensures outcome.Answered? && outcome.body.Some? ==> data == outcome.body.value
    ensures !(outcome.Answered? && outcome.body.Some?) ==> data == ApiFallback
  {
    match outcome
    case Answered(Some(v)) => v
    case _ => ApiFallback
  }

  /**
   * `data.established_connections || 0`: the property when it is truthy,
   * else 0; `None` when `data` is `null`, where reading a property throws.
   */
  function EstablishedConnections(data: Json): (r: Option<Json>)
    ensures r.None? <==> data == JNull
    ensures r.Some? ==> Truthy(r.value) || r.value == JNumber(0)
    ensures data.JObject? && JsObject.Get(data.fields, "established_connections").Some?
            && Truthy(JsObject.Get(data.fields, "established_connections").value)
            ==> r == JsObject.Get(data.fields, "established_connections")
    ensures data != JNull && !(data.JObject? && JsObject.Get(data.fields, "established_connections").Some?
                               && Truthy(JsObject.Get(data.fields, "established_connections").value))
            ==> r == Some(JNumber(0))
  {
    match data
    case JNull => None
    case JObject(fields) =>
      var v := JsObject.Get(fields, "established_connections");
      if v.Some? && Truthy(v.value) then v else Some(JNumber(0))
    case _ => Some(JNumber(0))
  }

  /** Every failure of the request counts as zero sessions. */
  lemma FailureCountsZero(outcome: ApiOutcome)
    requires !(outcome.Answered? && outcome.body.Some?)
    ensures EstablishedConnections(FetchConnectionCount(outcome)) == Some(JNumber(0))
  {
    assert JsObject.Get(ApiFallback.fields, "established_connections") == Some(JNumber(0));
  }
}
