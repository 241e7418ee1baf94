/**
 * The frequency histograms of the pattern detector: a `Map<K, number>` filled by
 * `forEach`, turned into its entry list, and reduced with
 * `(a, b) => a[1] > b[1] ? a : b`.
 */
module Histogram {

  /** The position of the first `y` in `xs`, or |xs| when there is none. */
  function FirstIndex<K(==)>(xs: seq<K>, y: K): (i: nat)
    ensures i <= |xs|
    ensures i < |xs| <==> y in xs
    ensures i < |xs| ==> xs[i] == y
    ensures y !in xs[..i]
    decreases |xs|
  {
    if xs == [] then 0
    else if xs[0] == y then 0
    else
      var i := 1 + FirstIndex(xs[1..], y);
      assert xs[..i] == [xs[0]] + xs[1..][..i - 1];
      i
  }

  /** Appending an element does not move the first occurrence of anything already present. */
  lemma {:induction false} FirstIndexAppend<K>(xs: seq<K>, x: K, y: K)
    ensures y in xs ==> FirstIndex(xs + [x], y) == FirstIndex(xs, y)
    ensures y !in xs && y == x ==> FirstIndex(xs + [x], y) == |xs|
    decreases |xs|
  {
    if xs != [] && xs[0] != y {
      assert (xs + [x])[1..] == xs[1..] + [x];
      FirstIndexAppend(xs[1..], x, y);
    }
  }

  /** The key column of an entry list. */
  function KeysOf<K>(e: seq<(K, nat)>): (ks: seq<K>)
    ensures |ks| == |e|
    ensures forall i :: 0 <= i < |e| ==> ks[i] == e[i].0
  {
    seq(|e|, i requires 0 <= i < |e| => e[i].0)
  }

  /** Where `x` sits in the entry list, or |e| when it is not a key yet. */
  function KeyIndex<K(==)>(e: seq<(K, nat)>, x: K): (i: nat)
    ensures i <= |e|
    ensures i < |e| <==> x in KeysOf(e)
    ensures i < |e| ==> e[i].0 == x
    decreases |e|
  {
    if e == [] then 0
    else if e[0].0 == x then 0
    else
      var i := 1 + KeyIndex(e[1..], x);
      assert KeysOf(e) == [e[0].0] + KeysOf(e[1..]);
      i
  }

  /** `counts.set(x, (counts.get(x) || 0) + 1)`. */
  function Bump<K(==)>(e: seq<(K, nat)>, x: K): seq<(K, nat)> {
    var i := KeyIndex(e, x);
    if i < |e| then e[i := (x, e[i].1 + 1)] else e + [(x, 1)]
  }

  /** `xs.forEach(x => counts.set(...))` followed by `Array.from(counts.entries())`. */
  function Tally<K(==)>(xs: seq<K>): seq<(K, nat)>
    decreases |xs|
  {
    if xs == [] then [] else Bump(Tally(xs[..|xs| - 1]), xs[|xs| - 1])
  }

  /**
   * `e` is the histogram of `xs`: each entry counts its key's occurrences, every
   * element of `xs` is a key, and the entries follow the order in which their keys
   * first occur in `xs` (hence no key appears twice).
   */
  ghost predicate IsTallyOf<K>(e: seq<(K, nat)>, xs: seq<K>) {
    && (forall i :: 0 <= i < |e| ==> e[i].0 in xs && e[i].1 == multiset(xs)[e[i].0])
    && (forall m :: 0 <= m < |xs| ==> xs[m] in KeysOf(e))
    && (forall i, j :: 0 <= i < j < |e| ==> FirstIndex(xs, e[i].0) < FirstIndex(xs, e[j].0))
  }

  lemma {:induction false} TallyCorrect<K>(xs: seq<K>)
    ensures IsTallyOf(Tally(xs), xs)
    decreases |xs|
  {
    if xs != [] {
      var p, x := xs[..|xs| - 1], xs[|xs| - 1];
      assert xs == p + [x];
      TallyCorrect(p);
      BumpCorrect(Tally(p), p, x);
    }
  }

  /** One `forEach` step keeps the histogram exact. */
  lemma BumpCorrect<K>(e0: seq<(K, nat)>, p: seq<K>, x: K)
    requires IsTallyOf(e0, p)
    ensures IsTallyOf(Bump(e0, x), p + [x])
  {
    forall y | y in p
      ensures FirstIndex(p + [x], y) == FirstIndex(p, y)
    {
      FirstIndexAppend(p, x, y);
    }
    if KeyIndex(e0, x) < |e0| {
      BumpExisting(e0, p, x);
    } else {
      BumpNew(e0, p, x);
    }
  }

  lemma BumpExisting<K>(e0: seq<(K, nat)>, p: seq<K>, x: K)
    requires IsTallyOf(e0, p)
    requires KeyIndex(e0, x) < |e0|
    requires forall y :: y in p ==> FirstIndex(p + [x], y) == FirstIndex(p, y)
    ensures IsTallyOf(Bump(e0, x), p + [x])
  {
    var xs := p + [x];
    var i := KeyIndex(e0, x);
    var e := Bump(e0, x);
    assert e == e0[i := (x, e0[i].1 + 1)];
    assert KeysOf(e) == KeysOf(e0);
    forall j | 0 <= j < |e0| && j != i
      ensures e0[j].0 != x
    {
      if j < i {
        assert FirstIndex(p, e0[j].0) < FirstIndex(p, e0[i].0);
      } else {
        assert FirstIndex(p, e0[i].0) < FirstIndex(p, e0[j].0);
      }
    }
    forall m | 0 <= m < |xs|
      ensures xs[m] in KeysOf(e)
    {
      if m < |p| {
        assert xs[m] == p[m];
      }
    }
  }

  lemma BumpNew<K>(e0: seq<(K, nat)>, p: seq<K>, x: K)
    requires IsTallyOf(e0, p)
    requires KeyIndex(e0, x) == |e0|
    requires forall y :: y in p ==> FirstIndex(p + [x], y) == FirstIndex(p, y)
    ensures IsTallyOf(Bump(e0, x), p + [x])
  {
    assert x !in p;
    var e := Bump(e0, x);
    assert e == e0 + [(x, 1)];
    FirstIndexAppend(p, x, x);
    AppendNewCounts(e0, p, x);
    AppendNewCovers(e0, p, x);
    AppendNewOrder(e0, p, x);
  }

  lemma AppendNewCounts<K>(e0: seq<(K, nat)>, p: seq<K>, x: K)
    requires forall i :: 0 <= i < |e0| ==> e0[i].0 in p && e0[i].1 == multiset(p)[e0[i].0]
    requires x !in p
    ensures forall i :: 0 <= i < |e0| + 1 ==>
      (e0 + [(x, 1)])[i].0 in p + [x] && (e0 + [(x, 1)])[i].1 == multiset(p + [x])[(e0 + [(x, 1)])[i].0]
  {
    var e, xs := e0 + [(x, 1)], p + [x];
    forall i | 0 <= i < |e|
      ensures e[i].0 in xs && e[i].1 == multiset(xs)[e[i].0]
    {
      if i < |e0| {
        assert e[i] == e0[i];
      }
    }
  }

  lemma AppendNewCovers<K>(e0: seq<(K, nat)>, p: seq<K>, x: K)
    requires forall m :: 0 <= m < |p| ==> p[m] in KeysOf(e0)
    ensures forall m :: 0 <= m < |p| + 1 ==> (p + [x])[m] in KeysOf(e0 + [(x, 1)])
  {
    var e, xs := e0 + [(x, 1)], p + [x];
    assert KeysOf(e) == KeysOf(e0) + [x];
    forall m | 0 <= m < |xs|
      ensures xs[m] in KeysOf(e)
    {
      if m < |p| {
        assert xs[m] == p[m];
      }
    }
  }

  lemma AppendNewOrder<K>(e0: seq<(K, nat)>, p: seq<K>, x: K)
    requires forall i :: 0 <= i < |e0| ==> e0[i].0 in p
    requires forall i, j :: 0 <= i < j < |e0| ==> FirstIndex(p, e0[i].0) < FirstIndex(p, e0[j].0)
    requires x !in p
    ensures forall i, j :: 0 <= i < j < |e0| + 1 ==>
      FirstIndex(p + [x], (e0 + [(x, 1)])[i].0) < FirstIndex(p + [x], (e0 + [(x, 1)])[j].0)
  {
    var e, xs := e0 + [(x, 1)], p + [x];
    forall i, j | 0 <= i < j < |e|
      ensures FirstIndex(xs, e[i].0) < FirstIndex(xs, e[j].0)
    {
      assert e[i] == e0[i];
      FirstIndexAppend(p, x, e[i].0);
      if j < |e0| {
        assert e[j] == e0[j];
        FirstIndexAppend(p, x, e[j].0);
      } else {
        FirstIndexAppend(p, x, x);
      }
    }
  }

  /**
   * The index `Array.prototype.reduce` ends on with `(a, b) => a[1] > b[1] ? a : b`:
   * the accumulator survives only a strictly smaller count, so the result is the
   * LAST entry holding the largest count.
   */
  function ReduceIndex<K>(e: seq<(K, nat)>): (r: nat)
    requires |e| > 0
    ensures r < |e|
    ensures forall j :: 0 <= j < |e| ==> e[j].1 <= e[r].1
    ensures forall j :: r < j < |e| ==> e[j].1 < e[r].1
    decreases |e|
  {
    if |e| == 1 then 0
    else
      var a := ReduceIndex(e[..|e| - 1]);
      if e[a].1 > e[|e| - 1].1 then a else |e| - 1
  }

  /** The key the source reports as preferred: the reduced entry of the histogram. */
  function Preferred<K(==)>(xs: seq<K>): (k: K)
    requires |xs| > 0
    ensures k in xs
  {
    TallyCorrect(xs);
    assert xs[0] in KeysOf(Tally(xs));
    var e := Tally(xs);
    e[ReduceIndex(e)].0
  }

  /**
   * `k` occurs in `xs` as often as any element, and among the elements that occur
   * as often, none occurs for the first time later than `k` does.
   */
  ghost predicate IsLatestFirstSeenMode<K>(xs: seq<K>, k: K) {
    && k in xs
    && (forall m :: 0 <= m < |xs| ==> multiset(xs)[xs[m]] <= multiset(xs)[k])
    && (forall m :: 0 <= m < |xs| && multiset(xs)[xs[m]] == multiset(xs)[k] ==>
          FirstIndex(xs, xs[m]) <= FirstIndex(xs, k))
  }

  /** The preferred key is the most frequent one, ties going to the one first seen latest. */
  lemma PreferredIsLatestFirstSeenMode<K>(xs: seq<K>)
    requires |xs| > 0
    ensures IsLatestFirstSeenMode(xs, Preferred(xs))
  {
    TallyCorrect(xs);
    var e := Tally(xs);
    var r := ReduceIndex(e);
    var k := e[r].0;
    forall m | 0 <= m < |xs|
      ensures multiset(xs)[xs[m]] <= multiset(xs)[k]
      ensures multiset(xs)[xs[m]] == multiset(xs)[k] ==> FirstIndex(xs, xs[m]) <= FirstIndex(xs, k)
    {
      var i := KeyIndex(e, xs[m]);
      assert e[i].0 == xs[m];
      if multiset(xs)[xs[m]] == multiset(xs)[k] && i != r {
        assert i < r;
      }
    }
  }

  /** The characterisation fixes the key: two keys that both satisfy it are equal. */
  lemma LatestFirstSeenModeUnique<K>(xs: seq<K>, k1: K, k2: K)
    requires IsLatestFirstSeenMode(xs, k1) && IsLatestFirstSeenMode(xs, k2)
    ensures k1 == k2
  {
    var i1, i2 := FirstIndex(xs, k1), FirstIndex(xs, k2);
    assert xs[i1] == k1 && xs[i2] == k2;
  }

  /** With hours 3, 3, 5, 5 the tie between 3 and 5 goes to 5, whose first occurrence is later. */
  lemma TieGoesToLaterFirstOccurrence()
    ensures Preferred([3, 3, 5, 5]) == 5
  {
    var xs := [3, 3, 5, 5];
    PreferredIsLatestFirstSeenMode(xs);
    assert multiset(xs)[3] == 2 && multiset(xs)[5] == 2;
    assert FirstIndex(xs, 3) == 0;
    assert FirstIndex(xs, 5) == 2 by {
      assert xs[1..][1..] == [5, 5];
    }
    forall m | 0 <= m < |xs|
      ensures multiset(xs)[xs[m]] <= multiset(xs)[5]
      ensures multiset(xs)[xs[m]] == multiset(xs)[5] ==> FirstIndex(xs, xs[m]) <= FirstIndex(xs, 5)
    {
    }
    LatestFirstSeenModeUnique(xs, Preferred(xs), 5);
  }

  /** With hours 5, 3, 3, 5 the tie goes to 3: it is not the smallest key that wins. */
  lemma TieIsNotDecidedByKeyOrder()
    ensures Preferred([5, 3, 3, 5]) == 3
  {
    var xs := [5, 3, 3, 5];
    PreferredIsLatestFirstSeenMode(xs);
    assert multiset(xs)[3] == 2 && multiset(xs)[5] == 2;
    assert FirstIndex(xs, 5) == 0;
    assert FirstIndex(xs, 3) == 1;
    forall m | 0 <= m < |xs|
      ensures multiset(xs)[xs[m]] <= multiset(xs)[3]
      ensures multiset(xs)[xs[m]] == multiset(xs)[3] ==> FirstIndex(xs, xs[m]) <= FirstIndex(xs, 3)
    {
    }
    LatestFirstSeenModeUnique(xs, Preferred(xs), 3);
  }
}
