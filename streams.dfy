/**
 * Opening a subscriber's event stream on each server: the stream joins the
 * subscriber set, is sent its greeting, and its heartbeat starts. The main
 * server greets with `connected` and then the full current state, awaiting
 * each write, so a broadcast can fall between the two; the timeout server
 * does all of it in one synchronous step with `{"connected":true}`.
 * Closing goes through `Subscribers.Detach`.
 */
module Streams {
  import opened EventStream
  import opened Events
  import opened Fanout
  import JsObject
  import Poller

  /** The two greeting frames of the main server's `/events`, in order. */
  function MainGreeting(deviceStates: JsObject.Object<HealthRecord>, proxmoxStates: JsObject.Object<HealthRecord>): seq<Frame> {
    [EventFrame(Connected), EventFrame(FullState(JsObject.Values(deviceStates), JsObject.Values(proxmoxStates)))]
  }

  /**
   * The greeting is well formed, and the subscriber receives it as two
   * messages: `connected`, then `full_state` with every record of both
   * state maps in their key order.
   */
  lemma MainGreetingMessages(deviceStates: JsObject.Object<HealthRecord>, proxmoxStates: JsObject.Object<HealthRecord>)
    ensures AllWellFormed(MainGreeting(deviceStates, proxmoxStates))
    ensures Parse(Wire(MainGreeting(deviceStates, proxmoxStates))) ==
      [Dispatched("message", Payload(Connected)),
       Dispatched("message", Payload(FullState(JsObject.Values(deviceStates), JsObject.Values(proxmoxStates))))]
  {
    EventPair(Connected, FullState(JsObject.Values(deviceStates), JsObject.Values(proxmoxStates)));
  }

  /** Any two events sent back to back arrive as two messages, in order. */
  lemma EventPair(a: Event, b: Event)
    ensures AllWellFormed([EventFrame(a), EventFrame(b)])
    ensures Parse(Wire([EventFrame(a), EventFrame(b)])) == [Dispatched("message", Payload(a)), Dispatched("message", Payload(b))]
  {
    var g := [EventFrame(a), EventFrame(b)];
    EventFrameWellFormed(a);
    EventFrameWellFormed(b);
    assert g == [DataLine(Payload(a)), DataLine(Payload(b))];
    WireParses(g);
    TwoDataMessages(Payload(a), Payload(b));
  }

  /**
   * The first, synchronous part of `GET /events` of the main server for a
   * new stream `c`: it joins the set and is written `connected`. The
   * handler then awaits that write, so other callbacks, a broadcast among
   * them, may run before the rest.
   */
  method OpenEventsConnect(subscribers: Subscribers, c: ClientId)
    requires subscribers.Valid() && c !in subscribers.sent
    modifies subscribers
    ensures subscribers.Valid()
    ensures subscribers.clients == old(subscribers.clients) + [c]
    ensures subscribers.beating == old(subscribers.beating)
    ensures subscribers.sent == old(subscribers.sent)[c := [EventFrame(Connected)]]
  {
    EventFrameWellFormed(Connected);
    subscribers.Join(c);
    subscribers.Write(c, EventFrame(Connected));
    assert [] + [EventFrame(Connected)] == [EventFrame(Connected)];
  }

  /**
   * The rest of `GET /events`: `full_state` of the poll state as it is now,
   * not as it was when the stream opened, and then the heartbeat starts.
   */
  method OpenEventsSnapshot(subscribers: Subscribers, poll: Poller.PollState, c: ClientId)
    requires subscribers.Valid() && c in subscribers.sent
    modifies subscribers
    ensures subscribers.Valid()
    ensures subscribers.clients == old(subscribers.clients)
    ensures subscribers.beating == old(subscribers.beating) + {c}
    ensures subscribers.sent == old(subscribers.sent)[c := old(subscribers.sent)[c] + [MainGreeting(poll.deviceStates, poll.proxmoxStates)[1]]]
  {
    var full := FullState(JsObject.Values(poll.deviceStates), JsObject.Values(poll.proxmoxStates));
    EventFrameWellFormed(full);
    subscribers.Write(c, EventFrame(full));
    subscribers.StartBeat(c);
  }

  /**
   * `GET /events` when nothing runs between its two writes: the stream is
   * in the set, beating, and was sent the two greeting frames.
   */
  method OpenEvents(subscribers: Subscribers, poll: Poller.PollState, c: ClientId)
    requires subscribers.Valid() && c !in subscribers.sent
    modifies subscribers
    ensures subscribers.Valid()
    ensures subscribers.clients == old(subscribers.clients) + [c]
    ensures subscribers.beating == old(subscribers.beating) + {c}
    ensures subscribers.sent == old(subscribers.sent)[c := MainGreeting(poll.deviceStates, poll.proxmoxStates)]
  {
    OpenEventsConnect(subscribers, c);
    OpenEventsSnapshot(subscribers, poll, c);
    var g := MainGreeting(poll.deviceStates, poll.proxmoxStates);
    assert [g[0]] + [g[1]] == g;
  }

  /**
   * A broadcast that runs while `GET /events` awaits its first write
   * reaches the new stream too: its frame arrives between `connected` and
   * `full_state`, and the stream's heartbeat has not started before the
   * snapshot is written.
   */
  method OpenEventsAcrossBroadcast(subscribers: Subscribers, poll: Poller.PollState, c: ClientId,
                                   frame: Frame, failing: set<ClientId>)
    requires subscribers.Valid() && c !in subscribers.sent && frame.WellFormed() && c !in failing
    modifies subscribers
    ensures subscribers.Valid()
    ensures c in subscribers.clients && c in subscribers.beating && c in subscribers.sent
    ensures subscribers.sent[c] ==
      [EventFrame(Connected), frame, MainGreeting(poll.deviceStates, poll.proxmoxStates)[1]]
  {
    OpenEventsConnect(subscribers, c);
    ghost var before := subscribers.sent;
    ghost var members := subscribers.clients;
    assert c in members;
    subscribers.Broadcast(frame, failing);
    BroadcastDelivers(before, members, failing, frame);
    assert subscribers.sent[c] == [EventFrame(Connected), frame];
    assert c in Without(members, failing);
    OpenEventsSnapshot(subscribers, poll, c);
  }

  /** `GET /timeout-events` of the timeout server, for a new stream `c`. */
  method OpenTimeoutEvents(subscribers: Subscribers, c: ClientId)
    requires subscribers.Valid() && c !in subscribers.sent
    modifies subscribers
    ensures subscribers.Valid()
    ensures subscribers.clients == old(subscribers.clients) + [c]
    ensures subscribers.beating == old(subscribers.beating) + {c}
    ensures subscribers.sent == old(subscribers.sent)[c := [TimeoutStreamGreeting]]
  {
    var greeting := "{\"connected\":true}";
    assert forall k :: 0 <= k < |greeting| ==> greeting[k] != '\n' && greeting[k] != '\r';
    assert TimeoutStreamGreeting.WellFormed();
    subscribers.Attach(c, [TimeoutStreamGreeting]);
  }

  /**
   * A stream opened and then closed leaves the subscriber set as it was,
   * with its greeting on record; closing it again changes nothing.
   */
  method OpenThenClose(subscribers: Subscribers, c: ClientId)
    requires subscribers.Valid() && c !in subscribers.sent
    modifies subscribers
    ensures subscribers.Valid()
    ensures subscribers.clients == old(subscribers.clients)
    ensures subscribers.beating == old(subscribers.beating)
    ensures subscribers.sent == old(subscribers.sent)[c := [TimeoutStreamGreeting]]
  {
    ghost var before := subscribers.clients;
    assert c !in before;
    OpenTimeoutEvents(subscribers, c);
    subscribers.Detach(c);
    RemoveAt(before, c, []);
    assert before + [c] + [] == before + [c];
    assert before + [] == before;
    ghost var after := subscribers.clients;
    subscribers.Detach(c);
    RemoveAbsent(after, c);
  }
}
