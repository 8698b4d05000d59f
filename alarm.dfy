/**
 * The once-per-minute timeout alarm. Both servers check, every second,
 * whether the Bangkok wall-clock time is the configured hour and minute, and
 * remember the minute they last fired in so that one matching minute fires
 * once; a non-matching check forgets it.
 */
module Alarm {
  import opened EventStream
  import opened Events
  import opened Fanout

  /** The defaults of `HOUR_TIMEOUT` and `MINUTE_TIMEOUT`: 20:00. */
  const DefaultHour: int := 20
  const DefaultMinute: int := 0
  /** `lastTimeoutMinute` when no alarm is pending suppression. */
  const NoMinute: int := -1

  /** The state after one check, and whether it fires. */
  datatype Check = Check(play: bool, last: int)

  /** `shouldPlayTimeout()` on a state `last` and the converted time. */
  function CheckAt(hour: int, minute: int, last: int, hours: int, minutes: int): (c: Check)
    ensures c.play <==> hours == hour && minutes == minute && last != minutes
    ensures c.play ==> c.last == minutes
    ensures !(hours == hour && minutes == minute) ==> c.last == NoMinute
    ensures hours == hour && minutes == minute ==> c.last == minute
  {
    if hours == hour && minutes == minute then
      if last != minutes then Check(true, minutes) else Check(false, last)
    else Check(false, NoMinute)
  }

  /** The answers of a series of checks from state `last`, and the final state. */
  function Run(hour: int, minute: int, last: int, times: seq<(int, int)>): (r: (seq<bool>, int))
    ensures |r.0| == |times|
    decreases |times|
  {
    if |times| == 0 then ([], last)
    else
      var c := CheckAt(hour, minute, last, times[0].0, times[0].1);
      var rest := Run(hour, minute, c.last, times[1..]);
      ([c.play] + rest.0, rest.1)
  }

  predicate Matching(hour: int, minute: int, t: (int, int)) {
    t.0 == hour && t.1 == minute
  }

  /**
   * Over a run of consecutive matching checks the alarm fires exactly once,
   * on the first, when the run starts from a state that has forgotten the
   * minute (the start-up state, or any state after a non-matching check);
   * and it does not fire at all when it has already fired in that minute.
   */
  lemma {:induction false} FiresOncePerRun(hour: int, minute: int, last: int, times: seq<(int, int)>)
    requires forall k :: 0 <= k < |times| ==> Matching(hour, minute, times[k])
    ensures last != minute && |times| > 0 ==> Run(hour, minute, last, times).0 == [true] + seq(|times| - 1, _ => false)
    ensures last == minute ==> Run(hour, minute, last, times).0 == seq(|times|, _ => false)
    ensures |times| > 0 ==> Run(hour, minute, last, times).1 == minute
    decreases |times|
  {
    if |times| > 0 {
      FiresOncePerRun(hour, minute, minute, times[1..]);
      var rest := Run(hour, minute, minute, times[1..]);
      assert rest.0 == seq(|times| - 1, _ => false);
      if last == minute {
        assert [false] + seq(|times| - 1, _ => false) == seq(|times|, _ => false);
      }
    }
  }

  /**
   * A non-matching check re-arms the alarm: the next matching check fires
   * (a clock minute is never the marker's -1).
   */
  lemma MismatchRearms(hour: int, minute: int, last: int, miss: (int, int), hit: (int, int))
    requires !Matching(hour, minute, miss) && Matching(hour, minute, hit) && 0 <= hit.1 < 60
    ensures Run(hour, minute, last, [miss, hit]).0 == [false, true]
  {
    var c := CheckAt(hour, minute, last, miss.0, miss.1);
    assert c.last == NoMinute && !c.play;
    assert [miss, hit][1..] == [hit];
    assert [hit][1..] == [];
    var d := CheckAt(hour, minute, NoMinute, hit.0, hit.1);
    assert d.play;
    assert Run(hour, minute, NoMinute, [hit]).0 == [true];
  }

  /** The alarm never fires outside the configured hour and minute. */
  lemma {:induction false} FiresOnlyWhenMatching(hour: int, minute: int, last: int, times: seq<(int, int)>)
    ensures forall k :: 0 <= k < |times| && Run(hour, minute, last, times).0[k] ==> Matching(hour, minute, times[k])
    decreases |times|
  {
    if |times| > 0 {
      var c := CheckAt(hour, minute, last, times[0].0, times[0].1);
      FiresOnlyWhenMatching(hour, minute, c.last, times[1..]);
      forall k | 0 <= k < |times| && Run(hour, minute, last, times).0[k] ensures Matching(hour, minute, times[k]) {
        if k > 0 {
          assert Run(hour, minute, last, times).0[k] == Run(hour, minute, c.last, times[1..]).0[k - 1];
          assert times[k] == times[1..][k - 1];
        }
      }
    }
  }

  /** The module-level `lastTimeoutMinute` of one server, with its configured time. */
  class TimeoutMonitor {
    const hour: int
    const minute: int
    var lastTimeoutMinute: int

    constructor(hour: int, minute: int)
      ensures this.hour == hour && this.minute == minute && lastTimeoutMinute == NoMinute
    {
      this.hour := hour;
      this.minute := minute;
      lastTimeoutMinute := NoMinute;
    }

    /** `shouldPlayTimeout()`, given the Bangkok hour and minute. */
    method ShouldPlayTimeout(hours: int, minutes: int) returns (play: bool)
      modifies this
      ensures Check(play, lastTimeoutMinute) == CheckAt(hour, minute, old(lastTimeoutMinute), hours, minutes)
    {
      play := false;
      if hours == hour && minutes == minute {
        if lastTimeoutMinute != minutes {
          lastTimeoutMinute := minutes;
          play := true;
        }
      } else {
        lastTimeoutMinute := NoMinute;
      }
    }
  }

  /** Which of the two servers runs the alarm. */
  datatype ServerKind = MainServer | TimeoutServer

  /**
   * The frame each server's alarm writes: the main server broadcasts the
   * `timeout` event with `{ shouldPlay: true }`, the timeout server writes
   * the literal `data: {"shouldPlay":true}` frame.
   */
  function AlertOf(kind: ServerKind): (alert: Frame)
    ensures alert.WellFormed()
    ensures kind == TimeoutServer ==> alert.Text() == "data: {\"shouldPlay\":true}\n\n"
    ensures kind == TimeoutServer ==> Parse(alert.Text()) == [Dispatched("message", "{\"shouldPlay\":true}")]
    ensures kind == MainServer ==> Parse(alert.Text()) == [Dispatched("message", Payload(Timeout(true)))]
  {
    if kind == MainServer then
      EventFrameWellFormed(Timeout(true));
      EventFrame(Timeout(true))
    else
      AlarmFrames();
      TimeoutAlertText();
      TimeoutAlert
  }

  /**
   * The server's one-second timer: check, and on a firing check send the
   * server's alarm frame to every subscriber, deleting those whose write
   * throws.
   */
  class AlarmServer {
    const monitor: TimeoutMonitor
    const subscribers: Subscribers
    const kind: ServerKind
    /** The frame the alarm is sent in. */
    const alert: Frame

    constructor(monitor: TimeoutMonitor, subscribers: Subscribers, kind: ServerKind)
      ensures this.monitor == monitor && this.subscribers == subscribers && this.kind == kind
      ensures alert == AlertOf(kind)
      ensures kind == TimeoutServer ==> alert == TimeoutAlert
      ensures kind == MainServer ==> alert == EventFrame(Timeout(true))
    {
      this.monitor := monitor;
      this.subscribers := subscribers;
      this.kind := kind;
      this.alert := AlertOf(kind);
    }

    method Tick(hours: int, minutes: int, failing: set<ClientId>) returns (play: bool)
      requires subscribers.Valid() && alert == AlertOf(kind)
      modifies monitor, subscribers
      ensures subscribers.Valid()
      ensures Check(play, monitor.lastTimeoutMinute) == CheckAt(monitor.hour, monitor.minute, old(monitor.lastTimeoutMinute), hours, minutes)
      ensures play ==> subscribers.clients == Without(old(subscribers.clients), failing)
      ensures play ==> subscribers.sent == DeliverTo(old(subscribers.sent), Without(old(subscribers.clients), failing), alert)
      ensures !play ==> subscribers.clients == old(subscribers.clients) && subscribers.sent == old(subscribers.sent)
      ensures play && kind == TimeoutServer ==>
        subscribers.sent == DeliverTo(old(subscribers.sent), Without(old(subscribers.clients), failing), TimeoutAlert)
      ensures subscribers.beating == old(subscribers.beating)
    {
      play := monitor.ShouldPlayTimeout(hours, minutes);
      if play {
        subscribers.Broadcast(alert, failing);
      }
    }
  }

  /** The timeout server's alarm is exactly the text `data: {"shouldPlay":true}` and a blank line. */
  lemma TimeoutAlertText()
    ensures TimeoutAlert.Text() == "data: {\"shouldPlay\":true}\n\n"
  {
  }

  /**
   * The timeout-only server's frames are well formed, and a subscriber
   * receives its alert as one message, the bare `{"shouldPlay":true}`; the
   * main server sends its alarm as the `timeout` event.
   */
  lemma AlarmFrames()
    ensures TimeoutAlert.WellFormed() && TimeoutStreamGreeting.WellFormed()
    ensures Parse(TimeoutAlert.Text()) == [Dispatched("message", "{\"shouldPlay\":true}")]
    ensures EventFrame(Timeout(true)).WellFormed()
  {
    var alert := "{\"shouldPlay\":true}";
    var greeting := "{\"connected\":true}";
    assert forall k :: 0 <= k < |alert| ==> alert[k] != '\n' && alert[k] != '\r';
    assert forall k :: 0 <= k < |greeting| ==> greeting[k] != '\n' && greeting[k] != '\r';
    DataFrameRoundTrip(alert);
    EventFrameWellFormed(Timeout(true));
  }
}
