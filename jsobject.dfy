/**
 * A plain JavaScript object used as a dictionary: its own properties in
 * insertion order. `o[k] = v` overwrites a present key where it stands and
 * appends a new one; `Object.values` and `Object.assign` follow that order.
 * (JavaScript lists integer-like keys first, in ascending order; none of the
 * keys used by the modelled code are integer-like IPv4 literals or field
 * names, so that rule is not part of this model.)
 */
module JsObject {
  import opened Wrappers

  type Object<V> = seq<(string, V)>

  function Keys<V>(o: Object<V>): (ks: seq<string>)
    ensures |ks| == |o| && forall i :: 0 <= i < |o| ==> ks[i] == o[i].0
  {
    seq(|o|, i requires 0 <= i < |o| => o[i].0)
  }

  /** `Object.values(o)`. */
  function Values<V>(o: Object<V>): (vs: seq<V>)
    ensures |vs| == |o| && forall i :: 0 <= i < |o| ==> vs[i] == o[i].1
  {
    seq(|o|, i requires 0 <= i < |o| => o[i].1)
  }

  lemma KeysCons<V>(o: Object<V>)
    requires |o| > 0
    ensures Keys(o) == [o[0].0] + Keys(o[1..])
  {
    var a, b := Keys(o), [o[0].0] + Keys(o[1..]);
    forall i | 0 <= i < |a| ensures a[i] == b[i] {
      if i > 0 {
        assert b[i] == Keys(o[1..])[i - 1] == o[1..][i - 1].0;
      }
    }
  }

  /** No key occurs twice, as in every real object. */
  predicate UniqueKeys<V>(o: Object<V>) {
    forall i, j :: 0 <= i < j < |o| ==> o[i].0 != o[j].0
  }

  /** `o[k]`, with `None` for `undefined`. */
  function Get<V>(o: Object<V>, k: string): (r: Option<V>)
    ensures r.Some? <==> k in Keys(o)
    ensures UniqueKeys(o) ==> forall i :: 0 <= i < |o| && o[i].0 == k ==> r == Some(o[i].1)
    decreases |o|
  {
    if |o| == 0 then None
    else if o[0].0 == k then Some(o[0].1)
    else
      KeysCons(o);
      Get(o[1..], k)
  }

  /** `o[k] = v`. */
  function Put<V>(o: Object<V>, k: string, v: V): (r: Object<V>)
    ensures |r| == if k in Keys(o) then |o| else |o| + 1
    decreases |o|
  {
    if |o| == 0 then [(k, v)]
    else if o[0].0 == k then [(k, v)] + o[1..]
    else
      KeysCons(o);
      [o[0]] + Put(o[1..], k, v)
  }

  /**
   * After `o[k] = v`, `k` reads `v` and every other key reads what it read
   * before.
   */
  lemma {:induction false} PutGet<V>(o: Object<V>, k: string, v: V, k': string)
    ensures Get(Put(o, k, v), k') == if k' == k then Some(v) else Get(o, k')
    decreases |o|
  {
    if |o| > 0 && o[0].0 != k {
      PutGet(o[1..], k, v, k');
      assert Put(o, k, v)[1..] == Put(o[1..], k, v);
    }
  }

  /**
   * `o[k] = v` keeps the key order and appends `k` only when it is new; so a
   * key is never removed and real objects stay free of duplicate keys.
   */
  lemma PutKeys<V>(o: Object<V>, k: string, v: V)
    ensures Keys(Put(o, k, v)) == if k in Keys(o) then Keys(o) else Keys(o) + [k]
    ensures UniqueKeys(o) ==> UniqueKeys(Put(o, k, v))
  {
    PutKeyOrder(o, k, v);
    var r := Put(o, k, v);
    if UniqueKeys(o) {
      forall i, j | 0 <= i < j < |r| ensures r[i].0 != r[j].0 {
        assert r[i].0 == Keys(r)[i] && r[j].0 == Keys(r)[j];
        if j == |o| {
          assert Keys(r)[i] == Keys(o)[i];
        }
      }
    }
  }

  lemma {:induction false} PutKeyOrder<V>(o: Object<V>, k: string, v: V)
    ensures Keys(Put(o, k, v)) == if k in Keys(o) then Keys(o) else Keys(o) + [k]
    decreases |o|
  {
    var r := Put(o, k, v);
    if |o| == 0 {
      assert Keys(r) == [k];
    } else if o[0].0 == k {
      KeysCons(o);
      KeysCons(r);
      assert r[1..] == o[1..];
    } else {
      var t := Put(o[1..], k, v);
      PutKeyOrder(o[1..], k, v);
      KeysCons(o);
      assert r == [o[0]] + t;
      KeysCons(r);
      assert r[1..] == t;
      assert (k in Keys(o)) == (k in Keys(o[1..]));
    }
  }

  /** A new key is appended at the end. */
  lemma {:induction false} PutNew<V>(o: Object<V>, k: string, v: V)
    requires k !in Keys(o)
    ensures Put(o, k, v) == o + [(k, v)]
    decreases |o|
  {
    if |o| > 0 {
      KeysCons(o);
      PutNew(o[1..], k, v);
      assert [o[0]] + (o[1..] + [(k, v)]) == o + [(k, v)];
    }
  }

  /** `Object.assign(target, source)`: the properties of `source`, in order, written into `target`. */
  function Assign<V>(target: Object<V>, source: Object<V>): Object<V>
    decreases |source|
  {
    if |source| == 0 then target
    else Assign(Put(target, source[0].0, source[0].1), source[1..])
  }

  /**
   * After `Object.assign(target, source)` a key of `source` reads its value
   * there and every other key reads what `target` had.
   */
  lemma {:induction false} AssignGet<V>(target: Object<V>, source: Object<V>, k: string)
    requires UniqueKeys(source)
    ensures Get(Assign(target, source), k) == if Get(source, k).Some? then Get(source, k) else Get(target, k)
    decreases |source|
  {
    if |source| > 0 {
      var (k0, v0) := source[0];
      var t := Put(target, k0, v0);
      assert UniqueKeys(source[1..]) by {
        forall i, j | 0 <= i < j < |source[1..]| ensures source[1..][i].0 != source[1..][j].0 {
          assert source[1..][i] == source[i + 1] && source[1..][j] == source[j + 1];
        }
      }
      AssignGet(t, source[1..], k);
      PutGet(target, k0, v0, k);
      if k == k0 {
        assert Get(source[1..], k0).None? by {
          assert forall m :: 0 <= m < |source[1..]| ==> source[1..][m] == source[m + 1];
        }
      }
    }
  }

  /**
   * `Object.assign` keeps the keys of `target` in their places at the front,
   * adds only keys of `source`, and keeps a real object free of duplicates.
   */
  lemma {:induction false} AssignKeys<V>(target: Object<V>, source: Object<V>)
    ensures |target| <= |Assign(target, source)|
    ensures Keys(Assign(target, source))[..|target|] == Keys(target)
    ensures forall k :: k in Keys(Assign(target, source)) <==> k in Keys(target) || k in Keys(source)
    ensures UniqueKeys(target) ==> UniqueKeys(Assign(target, source))
    decreases |source|
  {
    if |source| > 0 {
      var (k0, v0) := source[0];
      var t := Put(target, k0, v0);
      var r := Assign(t, source[1..]);
      PutKeys(target, k0, v0);
      AssignKeys(t, source[1..]);
      KeysCons(source);
      PrefixOfPrefix(Keys(r), Keys(t), Keys(target));
    } else {
      assert Keys(target)[..|target|] == Keys(target);
    }
  }

  lemma PrefixOfPrefix(a: seq<string>, b: seq<string>, c: seq<string>)
    requires |b| <= |a| && a[..|b|] == b
    requires |c| <= |b| && b[..|c|] == c
    ensures a[..|c|] == c
  {
    assert a[..|c|] == a[..|b|][..|c|];
  }
}
