/**
 * The set of event-stream subscribers both servers keep: clients are
 * added when their stream opens, written to one by one on every
 * broadcast, and deleted when a write throws or the connection goes away.
 * A JavaScript `Set` iterates in insertion order and holds each client
 * once; here it is a sequence without repetitions.
 */
module Fanout {
  import opened EventStream

  /** The identity of one open response stream. */
  type ClientId = nat

  predicate Distinct(cs: seq<ClientId>) {
    forall i, j :: 0 <= i < j < |cs| ==> cs[i] != cs[j]
  }

  /** `cs` with the clients in `gone` deleted, the others keeping their order. */
  function Without(cs: seq<ClientId>, gone: set<ClientId>): (r: seq<ClientId>)
    ensures forall c :: c in r <==> c in cs && c !in gone
    ensures |r| <= |cs|
    ensures Distinct(cs) ==> Distinct(r)
    decreases |cs|
  {
    if |cs| == 0 then []
    else
      var n := |cs| - 1;
      var front := Without(cs[..n], gone);
      assert forall c :: c in cs <==> c in cs[..n] || c == cs[n];
      if cs[n] in gone then front else front + [cs[n]]
  }

  /** `set.delete(c)`. */
  function Remove(cs: seq<ClientId>, c: ClientId): seq<ClientId> {
    Without(cs, {c})
  }

  /** Deleting a client that is not there leaves the set as it was. */
  lemma {:induction false} RemoveAbsent(cs: seq<ClientId>, c: ClientId)
    requires c !in cs
    ensures Remove(cs, c) == cs
    decreases |cs|
  {
    if |cs| > 0 {
      var n := |cs| - 1;
      RemoveAbsent(cs[..n], c);
      assert cs[..n] + [cs[n]] == cs;
    }
  }

  /** Deleting the client at one position of a set closes the gap. */
  lemma {:induction false} RemoveAt(a: seq<ClientId>, c: ClientId, b: seq<ClientId>)
    requires c !in a && c !in b
    ensures Remove(a + [c] + b, c) == a + b
    decreases |b|
  {
    if |b| == 0 {
      var s := a + [c];
      assert s[..|s| - 1] == a && s[|s| - 1] == c;
      assert a + [c] + b == s;
      assert Remove(s, c) == Without(a, {c});
      RemoveAbsent(a, c);
      assert a + b == a;
    } else {
      var n := |b| - 1;
      var s := a + [c] + b;
      assert s[..|s| - 1] == a + [c] + b[..n];
      assert s[|s| - 1] == b[n];
      RemoveAt(a, c, b[..n]);
      assert a + b[..n] + [b[n]] == a + b;
    }
  }

  /** Each client of `rs` in turn gets `frame` appended to what it was sent. */
  function DeliverTo(sent: map<ClientId, seq<Frame>>, rs: seq<ClientId>, frame: Frame): map<ClientId, seq<Frame>>
    decreases |rs|
  {
    if |rs| == 0 then sent
    else
      var m := DeliverTo(sent, rs[..|rs| - 1], frame);
      var c := rs[|rs| - 1];
      if c in m then m[c := m[c] + [frame]] else m
  }

  /**
   * Writing to each client of a set once: every client in it has exactly
   * one more frame, the given one, and every other client was sent nothing.
   */
  lemma {:induction false} DeliverToExactlyOnce(sent: map<ClientId, seq<Frame>>, rs: seq<ClientId>, frame: Frame)
    requires Distinct(rs)
    ensures DeliverTo(sent, rs, frame).Keys == sent.Keys
    ensures forall c :: c in sent ==>
      DeliverTo(sent, rs, frame)[c] == sent[c] + (if c in rs then [frame] else [])
    decreases |rs|
  {
    if |rs| > 0 {
      var n := |rs| - 1;
      assert Distinct(rs[..n]);
      DeliverToExactlyOnce(sent, rs[..n], frame);
      assert forall c :: c in rs <==> c in rs[..n] || c == rs[n];
      assert rs[n] !in rs[..n];
    }
  }

  /** The frames a client's stream has carried, in order. */
  predicate AllWellFormed(frames: seq<Frame>) {
    forall k :: 0 <= k < |frames| ==> frames[k].WellFormed()
  }

  predicate SentWellFormed(sent: map<ClientId, seq<Frame>>) {
    forall c :: c in sent ==> AllWellFormed(sent[c])
  }

  /** Writing a well-formed frame to one stream keeps every stream well formed. */
  lemma WriteWellFormed(sent: map<ClientId, seq<Frame>>, c: ClientId, frame: Frame)
    requires SentWellFormed(sent) && c in sent && frame.WellFormed()
    ensures SentWellFormed(sent[c := sent[c] + [frame]])
  {
    AppendWellFormed(sent[c], [frame]);
  }

  lemma AppendWellFormed(frames: seq<Frame>, extra: seq<Frame>)
    requires AllWellFormed(frames) && AllWellFormed(extra)
    ensures AllWellFormed(frames + extra)
  {
    forall k | 0 <= k < |frames + extra| ensures (frames + extra)[k].WellFormed() {
      if k >= |frames| { assert (frames + extra)[k] == extra[k - |frames|]; }
    }
  }

  /**
   * The subscribers of one server. `clients` is the set broadcasts walk;
   * `beating` the clients whose heartbeat interval still runs; `sent`
   * everything written to each stream ever opened.
   */
  class Subscribers {
    var clients: seq<ClientId>
    var beating: set<ClientId>
    var sent: map<ClientId, seq<Frame>>

    predicate Valid()
      reads this
    {
      && Distinct(clients)
      && (forall c :: c in clients ==> c in sent)
      && (forall c :: c in beating ==> c in sent)
      && SentWellFormed(sent)
    }

    constructor()
      ensures Valid() && clients == [] && beating == {} && sent == map[]
    {
      clients := [];
      beating := {};
      sent := map[];
    }

    /**
     * A new stream: it joins the set, its heartbeat starts, and it is sent
     * its greeting frames in order.
     */
    method Attach(c: ClientId, greeting: seq<Frame>)
      requires Valid() && c !in sent && AllWellFormed(greeting)
      modifies this
      ensures Valid()
      ensures clients == old(clients) + [c] && beating == old(beating) + {c}
      ensures sent == old(sent)[c := greeting]
    {
      clients := clients + [c];
      beating := beating + {c};
      sent := sent[c := greeting];
    }

    /**
     * `sseControllers.add(stream)` of the main server: the stream joins the
     * set before anything is written to it, and its heartbeat has not started.
     */
    method Join(c: ClientId)
      requires Valid() && c !in sent
      modifies this
      ensures Valid()
      ensures clients == old(clients) + [c] && beating == old(beating) && sent == old(sent)[c := []]
    {
      assert c !in clients;
      clients := clients + [c];
      sent := sent[c := []];
    }

    /** One `stream.write` of a well-formed frame to an open stream `c`. */
    method Write(c: ClientId, frame: Frame)
      requires Valid() && c in sent && frame.WellFormed()
      modifies this
      ensures Valid()
      ensures clients == old(clients) && beating == old(beating) && sent == old(sent)[c := old(sent)[c] + [frame]]
    {
      WriteWellFormed(sent, c, frame);
      sent := sent[c := sent[c] + [frame]];
    }

    /** `setInterval` of the stream's heartbeat. */
    method StartBeat(c: ClientId)
      requires Valid() && c in sent
      modifies this
      ensures Valid()
      ensures clients == old(clients) && beating == old(beating) + {c} && sent == old(sent)
    {
      beating := beating + {c};
    }

    /**
     * The stream was aborted, closed or failed: its heartbeat stops and it
     * leaves the set; it was never in it, the set is unchanged.
     */
    method Detach(c: ClientId)
      requires Valid()
      modifies this
      ensures Valid()
      ensures clients == Remove(old(clients), c) && beating == old(beating) - {c} && sent == old(sent)
    {
      clients := Remove(clients, c);
      beating := beating - {c};
    }

    /**
     * One tick of a client's heartbeat interval: `: heartbeat` is written; if
     * the write throws, the interval stops and the client leaves the set. A
     * stopped interval does not tick.
     */
    method Beat(c: ClientId, fails: bool)
      requires Valid()
      modifies this
      ensures Valid()
      ensures c in old(beating) && fails ==>
        clients == Remove(old(clients), c) && beating == old(beating) - {c} && sent == old(sent)
      ensures c in old(beating) && !fails ==>
        clients == old(clients) && beating == old(beating) && sent == old(sent)[c := old(sent)[c] + [Heartbeat]]
      ensures c !in old(beating) ==> clients == old(clients) && beating == old(beating) && sent == old(sent)
    {
      if c in beating {
        if fails {
          clients := Remove(clients, c);
          beating := beating - {c};
        } else {
          assert Heartbeat.WellFormed();
          WriteWellFormed(sent, c, Heartbeat);
          sent := sent[c := sent[c] + [Heartbeat]];
        }
      }
    }

    /**
     * `broadcast`: the set is walked in order and `frame` written to each
     * client; a client whose write throws (those in `failing`) is deleted
     * on the spot, and the walk goes on with the next one.
     */
    method Broadcast(frame: Frame, failing: set<ClientId>)
      requires Valid() && frame.WellFormed()
      modifies this
      ensures Valid()
      ensures clients == Without(old(clients), failing)
      ensures sent == DeliverTo(old(sent), Without(old(clients), failing), frame)
      ensures beating == old(beating)
    {
      var all, sent0 := clients, sent;
      var live, out := clients, sent;
      WalkStart(sent0, all, failing, frame);
      for i := 0 to |all|
        invariant WalkState(sent0, all, i, failing, frame, live, out)
        modifies {}
      {
        var c := all[i];
        if c in failing {
          WalkStepFailed(sent0, all, i, failing, frame, live, out);
          live := Remove(live, c);
        } else {
          WalkStepWritten(sent0, all, i, failing, frame, live, out);
          out := out[c := out[c] + [frame]];
        }
      }
      WalkEnd(sent0, all, failing, frame, live, out);
      assert beating == old(beating) && all == old(clients) && sent0 == old(sent);
      clients, sent := live, out;
    }
  }

  /** Where the walk of `broadcast` stands after the first `i` clients of `all`. */
  predicate WalkState(
    sent0: map<ClientId, seq<Frame>>, all: seq<ClientId>, i: nat, failing: set<ClientId>, frame: Frame,
    clients: seq<ClientId>, sent: map<ClientId, seq<Frame>>)
  {
    && i <= |all| && Distinct(all) && (forall k :: 0 <= k < |all| ==> all[k] in sent0)
    && frame.WellFormed()
    && clients == Without(all[..i], failing) + all[i..]
    && sent == DeliverTo(sent0, Without(all[..i], failing), frame)
    && sent.Keys == sent0.Keys
    && SentWellFormed(sent)
  }

  lemma WalkEnd(
    sent0: map<ClientId, seq<Frame>>, all: seq<ClientId>, failing: set<ClientId>, frame: Frame,
    clients: seq<ClientId>, sent: map<ClientId, seq<Frame>>)
    requires WalkState(sent0, all, |all|, failing, frame, clients, sent)
    ensures clients == Without(all, failing) && sent == DeliverTo(sent0, Without(all, failing), frame)
    ensures Distinct(clients) && (forall c :: c in clients ==> c in sent)
    ensures sent.Keys == sent0.Keys && SentWellFormed(sent)
  {
    assert all[..|all|] == all;
    assert all[|all|..] == [];
    assert clients == Without(all, failing) + [];
  }

  lemma WalkStart(sent: map<ClientId, seq<Frame>>, all: seq<ClientId>, failing: set<ClientId>, frame: Frame)
    requires Distinct(all) && (forall c :: c in all ==> c in sent) && frame.WellFormed() && SentWellFormed(sent)
    ensures WalkState(sent, all, 0, failing, frame, all, sent)
  {
    assert all[..0] == [];
    assert all[0..] == all;
  }

  /** A step of the walk at a client whose write throws. */
  lemma WalkStepFailed(
    sent0: map<ClientId, seq<Frame>>, all: seq<ClientId>, i: nat, failing: set<ClientId>, frame: Frame,
    clients: seq<ClientId>, sent: map<ClientId, seq<Frame>>)
    requires i < |all| && WalkState(sent0, all, i, failing, frame, clients, sent) && all[i] in failing
    ensures WalkState(sent0, all, i + 1, failing, frame, Remove(clients, all[i]), sent)
  {
    ClientsStep(all, i, failing);
    assert Without(all[..i + 1], failing) == Without(all[..i], failing);
  }

  /** A step of the walk at a client whose write goes through. */
  lemma WalkStepWritten(
    sent0: map<ClientId, seq<Frame>>, all: seq<ClientId>, i: nat, failing: set<ClientId>, frame: Frame,
    clients: seq<ClientId>, sent: map<ClientId, seq<Frame>>)
    requires i < |all| && WalkState(sent0, all, i, failing, frame, clients, sent) && all[i] !in failing
    ensures all[i] in sent
    ensures WalkState(sent0, all, i + 1, failing, frame, clients, sent[all[i] := sent[all[i]] + [frame]])
  {
    ClientsStep(all, i, failing);
    SentStep(sent0, all, i, failing, frame);
    WriteWellFormed(sent, all[i], frame);
  }

  /** One step of the broadcast walk on the set. */
  lemma ClientsStep(all: seq<ClientId>, i: nat, failing: set<ClientId>)
    requires i < |all| && Distinct(all)
    ensures Without(all[..i + 1], failing) == Without(all[..i], failing) + (if all[i] in failing then [] else [all[i]])
    ensures all[i] in failing ==>
      Remove(Without(all[..i], failing) + all[i..], all[i]) == Without(all[..i + 1], failing) + all[i + 1..]
    ensures all[i] !in failing ==>
      Without(all[..i], failing) + all[i..] == Without(all[..i + 1], failing) + all[i + 1..]
  {
    var c := all[i];
    assert all[..i + 1][..i] == all[..i];
    assert all[..i + 1][i] == c;
    assert all[i..] == [c] + all[i + 1..];
    assert c !in all[..i] by {
      assert forall k :: 0 <= k < i ==> all[..i][k] == all[k];
    }
    assert c !in all[i + 1..];
    var w := Without(all[..i], failing);
    assert w + all[i..] == w + [c] + all[i + 1..];
    if c in failing {
      RemoveAt(w, c, all[i + 1..]);
    }
  }

  /** One step of the broadcast walk on what was sent. */
  lemma SentStep(sent: map<ClientId, seq<Frame>>, all: seq<ClientId>, i: nat, failing: set<ClientId>, frame: Frame)
    requires i < |all| && Distinct(all) && all[i] in sent
    ensures var m := DeliverTo(sent, Without(all[..i], failing), frame);
      && all[i] in m
      && DeliverTo(sent, Without(all[..i + 1], failing), frame)
         == if all[i] in failing then m else m[all[i] := m[all[i]] + [frame]]
  {
    ClientsStep(all, i, failing);
    var w := Without(all[..i], failing);
    assert Distinct(all[..i]);
    DeliverToExactlyOnce(sent, w, frame);
    var m := DeliverTo(sent, w, frame);
    assert all[i] in m;
    if all[i] !in failing {
      var w' := w + [all[i]];
      assert Without(all[..i + 1], failing) == w';
      assert w'[..|w'| - 1] == w && w'[|w'| - 1] == all[i];
      assert DeliverTo(sent, w', frame) == m[all[i] := m[all[i]] + [frame]];
    } else {
      assert Without(all[..i + 1], failing) == w + [];
      assert w + [] == w;
    }
  }

  /**
   * After a broadcast a client in the set whose write went through was sent
   * the frame exactly once more, a failed or absent one nothing, and the set
   * is the old one minus the failed clients.
   */
  lemma BroadcastDelivers(sent: map<ClientId, seq<Frame>>, clients: seq<ClientId>, failing: set<ClientId>, frame: Frame)
    requires Distinct(clients)
    ensures var after := DeliverTo(sent, Without(clients, failing), frame);
      && after.Keys == sent.Keys
      && forall c :: c in sent ==>
           after[c] == sent[c] + (if c in clients && c !in failing then [frame] else [])
  {
    DeliverToExactlyOnce(sent, Without(clients, failing), frame);
  }

  /**
   * What a subscriber's `EventSource` dispatches is exactly the data frames
   * it was sent, in order; heartbeats dispatch nothing.
   */
  lemma StreamDispatches(frames: seq<Frame>)
    requires AllWellFormed(frames)
    ensures Parse(Wire(frames)) == Messages(frames)
  {
    WireParses(frames);
  }
}
