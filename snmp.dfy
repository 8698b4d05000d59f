/**
 * Counting established terminal sessions from a walk of the MIB-II TCP
 * connection table (section 6 of RFC 1213, 1.3.6.1.2.1.6.13). An instance
 * of the table is indexed by local address, local port, remote address and
 * remote port, so in a full OID the local port is sub-identifier 14
 * (counting from 0). The code does not look at the column sub-identifier at
 * position 9: any varbind whose value is 5, tcpConnState's `established(5)`,
 * counts, and this model does the same.
 */
module Snmp {
  import opened Wrappers
  import opened Text

  /** The subtree walked. */
  const TcpConnTable: seq<nat> := [1, 3, 6, 1, 2, 1, 6, 13]
  const LocalPortIndex: nat := 14
  const StateEstablished: int := 5
  const SessionTimeoutMs: nat := 5000
  const DefaultCommunity: string := "netlink"

  /** A decoded varbind value: an integer, or anything else (strings, buffers, nulls). */
  datatype Value = Integer(n: int) | NonInteger

  datatype Varbind = Varbind(oid: seq<nat>, value: Value)

  /**
   * How a `getSubtree` call ended: with a list of varbinds (`None` for a
   * null or undefined one), with an error, by the 5-second timer, or with an
   * exception from creating the session.
   */
  datatype WalkOutcome =
    | Walked(varbinds: Option<seq<Varbind>>)
    | WalkError
    | TimedOut
    | SessionThrew

  /** A terminal session: an SSH (22) or Telnet (23) local port in state established. */
  predicate IsSession(vb: Varbind) {
    |vb.oid| > LocalPortIndex && (vb.oid[LocalPortIndex] == 22 || vb.oid[LocalPortIndex] == 23)
    && vb.value == Integer(StateEstablished)
  }

  /** The number of varbinds that are sessions. */
  function SessionCount(vbs: seq<Varbind>): nat
    decreases |vbs|
  {
    if |vbs| == 0 then 0
    else SessionCount(vbs[..|vbs| - 1]) + (if IsSession(vbs[|vbs| - 1]) then 1 else 0)
  }

  /** The positions holding sessions. */
  function SessionIndices(vbs: seq<Varbind>): set<nat> {
    set i: nat | i < |vbs| && IsSession(vbs[i])
  }

  /** The count is the number of positions holding a session, so never more than the walk's length. */
  lemma {:induction false} SessionCountIsIndexCount(vbs: seq<Varbind>)
    ensures SessionCount(vbs) == |SessionIndices(vbs)|
    ensures SessionCount(vbs) <= |vbs|
    decreases |vbs|
  {
    if |vbs| == 0 {
      assert SessionIndices(vbs) == {};
    } else {
      var n := |vbs| - 1;
      var front := vbs[..n];
      SessionCountIsIndexCount(front);
      var a := SessionIndices(front);
      if IsSession(vbs[n]) {
        assert SessionIndices(vbs) == a + {n};
        assert n !in a;
      } else {
        assert SessionIndices(vbs) == a;
      }
    }
  }

  /** `vb.oid.join('.')`. */
  function OidText(oid: seq<nat>): string {
    Join(seq(|oid|, i requires 0 <= i < |oid| => NatToDecimal(oid[i])), '.')
  }

  /**
   * `oid.split('.')` of the joined OID gives the decimal sub-identifiers
   * back, at least one part, and `parseInt` of part k is sub-identifier k.
   */
  lemma OidPartsRoundTrip(oid: seq<nat>)
    ensures |Split(OidText(oid), '.')| == if |oid| == 0 then 1 else |oid|
    ensures forall k :: 0 <= k < |oid| ==> ParseIntPrefix(Split(OidText(oid), '.')[k]) == Some(oid[k])
  {
    var parts := seq(|oid|, i requires 0 <= i < |oid| => NatToDecimal(oid[i]));
    if |oid| == 0 {
      assert OidText(oid) == "";
    } else {
      forall k | 0 <= k < |parts| ensures '.' !in parts[k] {
        DecimalRoundTrip(oid[k]);
        assert forall m :: 0 <= m < |parts[k]| ==> IsDigit(parts[k][m]);
      }
      SplitJoin(parts, '.');
      forall k | 0 <= k < |oid| ensures ParseIntPrefix(Split(OidText(oid), '.')[k]) == Some(oid[k]) {
        ParseIntOfDecimal(oid[k]);
      }
    }
  }

  /**
   * The `forEach` over the varbinds: rebuild the OID text, split it, and
   * count a varbind when it has at least 15 parts, `parseInt` of part 14 is
   * 22 or 23, and the value is 5. The result is exactly the number of
   * sessions in the walk.
   */
  method CountSessions(vbs: seq<Varbind>) returns (count: nat)
    ensures count == SessionCount(vbs)
    ensures count <= |vbs|
  {
    count := 0;
    var i := 0;
    while i < |vbs|
      invariant 0 <= i <= |vbs|
      invariant count == SessionCount(vbs[..i])
    {
      var vb := vbs[i];
      var parts := Split(OidText(vb.oid), '.');
      OidPartsRoundTrip(vb.oid);
      if |parts| >= 15 {
        var localPort := ParseIntPrefix(parts[14]);
        if (localPort == Some(22) || localPort == Some(23)) && vb.value == Integer(5) {
          count := count + 1;
        }
      }
      assert vbs[..i + 1][..i] == vbs[..i];
      i := i + 1;
    }
    assert vbs[..i] == vbs;
    SessionCountIsIndexCount(vbs);
  }

  /**
   * `getConnectionCount(ip, community)`: no address, an error, the timeout,
   * an exception, or a missing or empty list all give 0; otherwise the
   * number of sessions in the walk.
   */
  function ConnectionCount(ip: string, outcome: WalkOutcome): (count: nat)
    ensures ip == "" || !outcome.Walked? ==> count == 0
    ensures outcome.Walked? && outcome.varbinds.Some? ==> count <= |outcome.varbinds.value|
    ensures outcome.Walked? && outcome.varbinds.None? ==> count == 0
    ensures ip != "" && outcome.Walked? && outcome.varbinds.Some? ==> count == SessionCount(outcome.varbinds.value)
  {
    if ip == "" then 0
    else match outcome
      case Walked(Some(vbs)) =>
        SessionCountIsIndexCount(vbs);
        if |vbs| == 0 then 0 else SessionCount(vbs)
      case _ => 0
  }
}
