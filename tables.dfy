/**
 * The weighted-value table of the aggregation and its two reducers:
 * `add_value`, `calc_median` (the two-pointer weighted median, reproduced
 * step for step) and `calc_mode` (first key of strictly greatest weight).
 */
module Tables {
  import opened Common

  /** Python's insertion-ordered dict from value to accumulated weight, as (key, weight) pairs. */
  type Table<K> = seq<(K, real)>

  function Keys<K>(t: Table<K>): (ks: seq<K>)
    ensures |ks| == |t|
    ensures forall i :: 0 <= i < |t| ==> ks[i] == t[i].0
  {
    seq(|t|, i requires 0 <= i < |t| => t[i].0)
  }

  predicate DistinctKeys<K(==)>(t: Table<K>)
  {
    forall i, j :: 0 <= i < j < |t| ==> t[i].0 != t[j].0
  }

  predicate PositiveWeights<K>(t: Table<K>)
  {
    forall i :: 0 <= i < |t| ==> t[i].1 > 0.0
  }

  /** `values.get(k, 0.0)`: the weight stored under `k`, 0.0 when `k` is absent. */
  function Lookup<K(==)>(t: Table<K>, k: K): real
  {
    if t == [] then 0.0 else if t[0].0 == k then t[0].1 else Lookup(t[1..], k)
  }

  /** In a dict of distinct keys, the weight stored under the key of an entry is that entry's weight. */
  lemma {:induction false} LookupEntry<K>(t: Table<K>, i: int)
    requires DistinctKeys(t) && 0 <= i < |t|
    ensures Lookup(t, t[i].0) == t[i].1
    decreases i
  {
    if i > 0 {
      assert t[1..][i - 1] == t[i];
      assert t[0].0 != t[i].0;
      LookupEntry(t[1..], i - 1);
    }
  }

  /**
   * `add_value(k, w)`: `values[k] = values.get(k, 0.0) + w`. The weight of `k`
   * grows by `w` and every other weight stays (AddKeys: an existing key keeps
   * its place, a new key is inserted last).
   */
  function Add<K(==,!new)>(t: Table<K>, k: K, w: real): (r: Table<K>)
    ensures Lookup(r, k) == Lookup(t, k) + w
    ensures forall k' :: k' != k ==> Lookup(r, k') == Lookup(t, k')
  {
    if t == [] then [(k, w)]
    else if t[0].0 == k then [(k, t[0].1 + w)] + t[1..]
    else
      var r := [t[0]] + Add(t[1..], k, w);
      assert r[1..] == Add(t[1..], k, w);
      r
  }

  lemma {:induction false} KeysCons<K>(t: Table<K>)
    requires t != []
    ensures Keys(t) == [t[0].0] + Keys(t[1..])
  {
  }

  /** `add_value` keeps the key order of the dict: an existing key stays in place, a new key goes last. */
  lemma {:induction false} AddKeys<K(!new)>(t: Table<K>, k: K, w: real)
    ensures Keys(Add(t, k, w)) == if k in Keys(t) then Keys(t) else Keys(t) + [k]
    decreases |t|
  {
    if t == [] {
    } else if t[0].0 == k {
      KeysCons(t);
      KeysCons(Add(t, k, w));
    } else {
      var r := Add(t, k, w);
      assert r == [t[0]] + Add(t[1..], k, w);
      assert r[1..] == Add(t[1..], k, w);
      KeysCons(t);
      KeysCons(r);
      AddKeys(t[1..], k, w);
    }
  }

  /** `add_value` keeps the keys of the dict distinct. */
  lemma AddDistinct<K(!new)>(t: Table<K>, k: K, w: real)
    requires DistinctKeys(t)
    ensures DistinctKeys(Add(t, k, w))
  {
    AddKeys(t, k, w);
    var r := Add(t, k, w);
    var ks := Keys(r);
    forall i, j | 0 <= i < j < |r| ensures r[i].0 != r[j].0 {
      assert ks[i] == r[i].0 && ks[j] == r[j].0;
      if k !in Keys(t) && j == |t| {
        assert ks[i] == Keys(t)[i];
      } else {
        assert ks[i] == Keys(t)[i] && ks[j] == Keys(t)[j];
      }
    }
  }

  /** The table after a sequence of `add_value` calls, applied in order. */
  function AddAll<K(==,!new)>(t: Table<K>, adds: seq<(K, real)>): Table<K>
  {
    if adds == [] then t
    else Add(AddAll(t, adds[..|adds| - 1]), adds[|adds| - 1].0, adds[|adds| - 1].1)
  }

  lemma {:induction false} AddAllSnoc<K(!new)>(t: Table<K>, adds: seq<(K, real)>, k: K, w: real)
    ensures AddAll(t, adds + [(k, w)]) == Add(AddAll(t, adds), k, w)
  {
    assert (adds + [(k, w)])[..|adds|] == adds;
  }

  /** Applying two runs of `add_value` one after the other is applying their concatenation. */
  lemma {:induction false} AddAllConcat<K(!new)>(t: Table<K>, a: seq<(K, real)>, b: seq<(K, real)>)
    ensures AddAll(AddAll(t, a), b) == AddAll(t, a + b)
    decreases |b|
  {
    if b == [] {
      assert a + b == a;
    } else {
      var b' := b[..|b| - 1];
      var p := b[|b| - 1];
      AddAllConcat(t, a, b');
      assert a + b == (a + b') + [p];
      assert b == b' + [p];
      AddAllSnoc(AddAll(t, a), b', p.0, p.1);
      AddAllSnoc(t, a + b', p.0, p.1);
    }
  }

  /** Every table built by `add_value` from an empty dict has distinct keys. */
  lemma {:induction false} AddAllDistinct<K(!new)>(t: Table<K>, adds: seq<(K, real)>)
    requires DistinctKeys(t)
    ensures DistinctKeys(AddAll(t, adds))
    decreases |adds|
  {
    if adds != [] {
      AddAllDistinct(t, adds[..|adds| - 1]);
      AddDistinct(AddAll(t, adds[..|adds| - 1]), adds[|adds| - 1].0, adds[|adds| - 1].1);
    }
  }

  // ---------------------------------------------------------------------
  // sorted(values.keys())

  predicate Ascending(s: seq<real>)
  {
    forall i, j :: 0 <= i < j < |s| ==> s[i] <= s[j]
  }

  function Insert(x: real, s: seq<real>): (r: seq<real>)
    requires Ascending(s)
    ensures Ascending(r)
    ensures multiset(r) == multiset(s) + multiset{x}
    ensures |r| > 0 && r[0] == if s == [] || x <= s[0] then x else s[0]
  {
    if s == [] || x <= s[0] then [x] + s
    else
      var rest := Insert(x, s[1..]);
      assert s == [s[0]] + s[1..];
      [s[0]] + rest
  }

  /** Python's `sorted` on real keys: an ascending permutation of its input. */
  function Sorted(s: seq<real>): (r: seq<real>)
    ensures Ascending(r)
    ensures multiset(r) == multiset(s)
  {
    if s == [] then []
    else
      assert s == [s[0]] + s[1..];
      Insert(s[0], Sorted(s[1..]))
  }

  // ---------------------------------------------------------------------
  // calc_median: the two-pointer walk as functions

  /** `idx_a`, `idx_b`, `val_a`, `val_b` of `calc_median`. */
  datatype Pointers = Pointers(ia: int, ib: int, va: real, vb: real)

  /** The first inner loop: take keys from the low end while `val_a <= val_b`. */
  function Left(ws: seq<real>, ia: int, ib: int, va: real, vb: real): (r: (int, real))
    requires 0 <= ia <= ib < |ws|
    ensures ia <= r.0 <= ib
    ensures r.0 == ia ==> r.1 == va
    ensures r.0 < ib ==> r.1 > vb
    decreases ib - ia
  {
    if ia < ib && va <= vb then Left(ws, ia + 1, ib, va + ws[ia], vb) else (ia, va)
  }

  /** The second inner loop: take keys from the high end while `val_a >= val_b`. */
  function Right(ws: seq<real>, ia: int, ib: int, va: real, vb: real): (r: (int, real))
    requires 0 <= ia <= ib < |ws|
    ensures ia <= r.0 <= ib
    ensures ia < ib && va >= vb ==> r.0 < ib
    decreases ib - ia
  {
    if ia < ib && va >= vb then Right(ws, ia, ib - 1, va, vb + ws[ib]) else (ib, vb)
  }

  /**
   * The outer loop of `calc_median`. Each pass moves at least one pointer, so
   * `idx_b - idx_a` strictly decreases, whatever the weights are; it stops
   * with the pointers equal or adjacent.
   */
  function Converge(ws: seq<real>, p: Pointers): (r: Pointers)
    requires 0 <= p.ia <= p.ib < |ws|
    ensures 0 <= r.ia <= r.ib < |ws| && r.ib <= r.ia + 1
    decreases p.ib - p.ia
  {
    if p.ia + 1 < p.ib then
      var l := Left(ws, p.ia, p.ib, p.va, p.vb);
      var q := Right(ws, l.0, p.ib, l.1, p.vb);
      Converge(ws, Pointers(l.0, q.0, l.1, q.1))
    else p
  }

  lemma LeftStep(ws: seq<real>, ia: int, ib: int, va: real, vb: real)
    requires 0 <= ia < ib < |ws| && va <= vb
    ensures Left(ws, ia, ib, va, vb) == Left(ws, ia + 1, ib, va + ws[ia], vb)
  {
  }

  lemma RightStep(ws: seq<real>, ia: int, ib: int, va: real, vb: real)
    requires 0 <= ia < ib < |ws| && va >= vb
    ensures Right(ws, ia, ib, va, vb) == Right(ws, ia, ib - 1, va, vb + ws[ib])
  {
  }

  lemma ConvergeStep(ws: seq<real>, p: Pointers, ia: int, va: real, ib: int, vb: real)
    requires 0 <= p.ia <= p.ib < |ws| && p.ia + 1 < p.ib
    requires p.ia <= ia <= p.ib && (ia, va) == Left(ws, p.ia, p.ib, p.va, p.vb)
    requires (ib, vb) == Right(ws, ia, p.ib, va, p.vb)
    ensures 0 <= ia <= ib < |ws|
    ensures Converge(ws, p) == Converge(ws, Pointers(ia, ib, va, vb))
  {
  }

  /**
   * `keys[i]`, or None where the source would raise IndexError. Python also
   * accepts negative indices, but none arises here: the pointers start at 0
   * and `len(keys) - 1` and stay between them, and `idx_b - 1` is read only
   * after `val_a > val_b`, which needs `idx_a >= 1` and so `idx_b >= 1`.
   */
  function KeyAt(keys: seq<real>, i: int): Option<real>
  {
    if 0 <= i < |keys| then Some(keys[i]) else None
  }

  function Mid(keys: seq<real>, i: int, j: int): Option<real>
  {
    if 0 <= i < |keys| && 0 <= j < |keys| then Some((keys[i] + keys[j]) / 2.0) else None
  }

  /** The code after the outer loop of `calc_median`, on the final pointers. */
  function Finish(keys: seq<real>, ws: seq<real>, p: Pointers): Option<real>
    requires |keys| == |ws|
  {
    if p.va > p.vb then
      if !(0 <= p.ib < |ws|) then None
      else
        var vb := p.vb + ws[p.ib];
        if p.va == vb then Mid(keys, p.ia, p.ib - 1)
        else if p.va > vb then KeyAt(keys, p.ia + 1) else KeyAt(keys, p.ib)
    else if p.vb > p.va then
      if !(0 <= p.ia < |ws|) then None
      else
        var va := p.va + ws[p.ia];
        if va == p.vb then Mid(keys, p.ia + 1, p.ib)
        else if va > p.vb then KeyAt(keys, p.ia) else KeyAt(keys, p.ib + 1)
    else Mid(keys, p.ia, p.ib)
  }

  /** The weights of `values`, listed in the order of `keys`. */
  function WeightsOf(values: Table<real>, keys: seq<real>): (ws: seq<real>)
    ensures |ws| == |keys|
    ensures forall i :: 0 <= i < |keys| ==> ws[i] == Lookup(values, keys[i])
  {
    seq(|keys|, i requires 0 <= i < |keys| => Lookup(values, keys[i]))
  }

  /**
   * What `calc_median` returns on any table of real keys: Some(result), or
   * None where the source indexes outside the key list (always for an empty
   * table, and for some tables with zero or negative weights).
   */
  function Median(values: Table<real>): (m: Option<real>)
    ensures values == [] ==> m.None?
  {
    var keys := Sorted(Keys(values));
    var ws := WeightsOf(values, keys);
    if |keys| == 0 then None
    else Finish(keys, ws, Converge(ws, Pointers(0, |keys| - 1, 0.0, 0.0)))
  }

  lemma {:induction false} LookupPresent(t: Table<real>, k: real)
    requires PositiveWeights(t)
    requires k in Keys(t)
    ensures Lookup(t, k) > 0.0
    decreases |t|
  {
    if t[0].0 != k {
      assert Keys(t) == [t[0].0] + Keys(t[1..]);
      LookupPresent(t[1..], k);
    }
  }

  /** A key or the midpoint of two keys of the sorted list is a midpoint of two keys of the table. */
  lemma MidpointOfKeys(values: Table<real>, keys: seq<real>, x: int, y: int)
    requires multiset(keys) == multiset(Keys(values))
    requires 0 <= x < |keys| && 0 <= y < |keys|
    ensures exists i, j :: 0 <= i < |values| && 0 <= j < |values| && (keys[x] + keys[y]) / 2.0 == (values[i].0 + values[j].0) / 2.0
    ensures exists i :: 0 <= i < |values| && values[i].0 <= (keys[x] + keys[y]) / 2.0
    ensures exists j :: 0 <= j < |values| && (keys[x] + keys[y]) / 2.0 <= values[j].0
  {
    assert keys[x] in multiset(Keys(values));
    assert keys[y] in multiset(Keys(values));
    var i :| 0 <= i < |values| && Keys(values)[i] == keys[x];
    var j :| 0 <= j < |values| && Keys(values)[j] == keys[y];
    assert (keys[x] + keys[y]) / 2.0 == (values[i].0 + values[j].0) / 2.0;
    if keys[x] <= keys[y] {
      assert values[i].0 <= (keys[x] + keys[y]) / 2.0 <= values[j].0;
    } else {
      assert values[j].0 <= (keys[x] + keys[y]) / 2.0 <= values[i].0;
    }
  }

  lemma InsertFront(x: real, s: seq<real>)
    requires Ascending(s) && (s == [] || x <= s[0])
    ensures Insert(x, s) == [x] + s
  {
  }

  /** `sorted` leaves an ascending list as it is. */
  lemma {:induction false} SortedAscending(s: seq<real>)
    requires Ascending(s)
    ensures Sorted(s) == s
  {
    if s != [] {
      SortedAscending(s[1..]);
      InsertFront(s[0], s[1..]);
      assert [s[0]] + s[1..] == s;
    }
  }

  lemma KeysOneTwoThree(values: Table<real>)
    requires |values| == 3 && values[0].0 == 1.0 && values[1].0 == 2.0 && values[2].0 == 3.0
    ensures Sorted(Keys(values)) == [1.0, 2.0, 3.0]
  {
    assert Keys(values) == [1.0, 2.0, 3.0];
    SortedAscending([1.0, 2.0, 3.0]);
  }

  lemma ConvergeHeavyFirstKey()
    ensures Converge([10.0, 1.0, 1.0], Pointers(0, 2, 0.0, 0.0)) == Pointers(1, 1, 10.0, 1.0)
  {
    var ws := [10.0, 1.0, 1.0];
    assert Left(ws, 1, 2, 10.0, 0.0) == (1, 10.0);
    assert Left(ws, 0, 2, 0.0, 0.0) == (1, 10.0);
    assert Right(ws, 1, 1, 10.0, 1.0) == (1, 1.0);
    assert Right(ws, 1, 2, 10.0, 0.0) == (1, 1.0);
  }

  lemma ConvergeZeroWeight()
    ensures Converge([0.0, 2.0, 1.0], Pointers(0, 2, 0.0, 0.0)) == Pointers(2, 2, 2.0, 0.0)
  {
    var ws := [0.0, 2.0, 1.0];
    assert Left(ws, 2, 2, 2.0, 0.0) == (2, 2.0);
    assert Left(ws, 1, 2, 0.0, 0.0) == (2, 2.0);
    assert Left(ws, 0, 2, 0.0, 0.0) == (2, 2.0);
    assert Right(ws, 2, 2, 2.0, 0.0) == (2, 0.0);
  }

  /** Concretely: `{1: 10, 2: 1, 3: 1}` gives 3, not 1 (the first pointer is pushed past the heavy key). */
  lemma MedianHeavyFirstKey(values: Table<real>)
    requires values == [(1.0, 10.0), (2.0, 1.0), (3.0, 1.0)]
    ensures Median(values) == Some(3.0)
  {
    KeysOneTwoThree(values);
    var keys := [1.0, 2.0, 3.0];
    var ws := WeightsOf(values, keys);
    LookupEntry(values, 0);
    LookupEntry(values, 1);
    LookupEntry(values, 2);
    assert ws == [10.0, 1.0, 1.0];
    ConvergeHeavyFirstKey();
    MedianIsFinish(values, keys, ws, Pointers(1, 1, 10.0, 1.0));
  }

  /** Concretely: the zero-weight table `{1: 0, 2: 2, 3: 1}` makes the source read `keys[3]`. */
  lemma MedianZeroWeightOutOfRange(values: Table<real>)
    requires values == [(1.0, 0.0), (2.0, 2.0), (3.0, 1.0)]
    ensures Median(values) == None
  {
    KeysOneTwoThree(values);
    var keys := [1.0, 2.0, 3.0];
    var ws := WeightsOf(values, keys);
    LookupEntry(values, 0);
    LookupEntry(values, 1);
    LookupEntry(values, 2);
    assert ws == [0.0, 2.0, 1.0];
    ConvergeZeroWeight();
    MedianIsFinish(values, keys, ws, Pointers(2, 2, 2.0, 0.0));
    assert Finish(keys, ws, Pointers(2, 2, 2.0, 0.0)) == KeyAt(keys, 3);
  }

  /**
   * The three `while` loops of `calc_median` over the weights in key order
   * (`ws[i]` is `values[keys[i]]`). With positive weights the final pointers
   * satisfy what the code after the loops needs to stay in range: a positive
   * `val_a` means `idx_a > 0`, a positive `val_b` means `idx_b < len(keys) - 1`.
   */
  method WalkPointers(ws: seq<real>) returns (p: Pointers)
    requires |ws| > 0
    requires forall i :: 0 <= i < |ws| ==> ws[i] > 0.0
    ensures p == Converge(ws, Pointers(0, |ws| - 1, 0.0, 0.0))
    ensures p.va >= 0.0 && (p.va == 0.0 <==> p.ia == 0)
    ensures p.vb >= 0.0 && (p.vb == 0.0 <==> p.ib == |ws| - 1)
    ensures p.ib == |ws| - 1 ==> p.ia == 0
    ensures 0 <= p.ia <= p.ib < |ws| && p.ib <= p.ia + 1
    ensures |ws| <= 2 ==> p == Pointers(0, |ws| - 1, 0.0, 0.0)
  {
    var n := |ws|;
    var va, vb, ia, ib := 0.0, 0.0, 0, n - 1;
    while ia + 1 < ib
      invariant 0 <= ia <= ib < n
      invariant Converge(ws, Pointers(ia, ib, va, vb)) == Converge(ws, Pointers(0, n - 1, 0.0, 0.0))
      invariant va >= 0.0 && (va == 0.0 <==> ia == 0)
      invariant vb >= 0.0 && (vb == 0.0 <==> ib == n - 1)
      invariant ib == n - 1 ==> ia == 0
      invariant n <= 2 ==> ia == 0 && ib == n - 1 && va == 0.0 && vb == 0.0
      decreases ib - ia
    {
      ghost var ia0, va0, ib0, vb0 := ia, va, ib, vb;
      while ia < ib && va <= vb
        invariant ia0 <= ia <= ib
        invariant Left(ws, ia, ib, va, vb) == Left(ws, ia0, ib, va0, vb)
        invariant va >= 0.0 && (va == 0.0 <==> ia == 0)
        invariant ib == n - 1 ==> ia <= 1
        invariant ia == ia0 ==> va == va0
      {
        LeftStep(ws, ia, ib, va, vb);
        va := va + ws[ia];
        ia := ia + 1;
      }
      ghost var l := (ia, va);
      assert l == Left(ws, ia0, ib0, va0, vb0);
      while ia < ib && va >= vb
        invariant ia <= ib <= ib0
        invariant Right(ws, ia, ib, va, vb) == Right(ws, ia, ib0, va, vb0)
        invariant vb >= 0.0 && (vb == 0.0 <==> ib == n - 1)
        invariant ib == n - 1 ==> ia < ib && va >= vb
        invariant ib - ia < ib0 - ia0 || (ia < ib && va >= vb)
      {
        RightStep(ws, ia, ib, va, vb);
        vb := vb + ws[ib];
        ib := ib - 1;
      }
      assert (ib, vb) == Right(ws, l.0, ib0, l.1, vb0);
      ConvergeStep(ws, Pointers(ia0, ib0, va0, vb0), ia, va, ib, vb);
    }
    p := Pointers(ia, ib, va, vb);
  }

  lemma MedianIsFinish(values: Table<real>, keys: seq<real>, ws: seq<real>, p: Pointers)
    requires keys == Sorted(Keys(values)) && ws == WeightsOf(values, keys) && |keys| > 0
    requires p == Converge(ws, Pointers(0, |keys| - 1, 0.0, 0.0))
    ensures Median(values) == Finish(keys, ws, p)
  {
  }

  /** The sorted keys are as many as the entries, and each carries a positive weight. */
  lemma SortedWeights(values: Table<real>, keys: seq<real>, ws: seq<real>)
    requires PositiveWeights(values)
    requires keys == Sorted(Keys(values)) && ws == WeightsOf(values, keys)
    ensures |keys| == |values| == |ws|
    ensures forall i :: 0 <= i < |ws| ==> ws[i] > 0.0
  {
    assert |multiset(keys)| == |multiset(Keys(values))|;
    forall i | 0 <= i < |ws| ensures ws[i] > 0.0 {
      assert keys[i] in multiset(Keys(values));
      LookupPresent(values, keys[i]);
    }
  }

  /**
   * `calc_median` on a non-empty table of distinct real keys and positive
   * weights: every index it reads is in range, so the result is defined and
   * is a key or the midpoint of two keys, between the least and the greatest
   * key. One key gives that key; two keys give their midpoint whatever the
   * weights.
   */
  method CalcMedian(values: Table<real>) returns (m: real)
    requires |values| > 0
    requires DistinctKeys(values)
    requires PositiveWeights(values)
    ensures Median(values) == Some(m)
    ensures exists i, j :: 0 <= i < |values| && 0 <= j < |values| && m == (values[i].0 + values[j].0) / 2.0
    ensures exists i :: 0 <= i < |values| && values[i].0 <= m
    ensures exists j :: 0 <= j < |values| && m <= values[j].0
    ensures |values| == 1 ==> m == values[0].0
    ensures |values| == 2 ==> m == (values[0].0 + values[1].0) / 2.0
  {
    var keys := Sorted(Keys(values));
    var ws := WeightsOf(values, keys);  // ws[i] is values[keys[i]]
    var n := |keys|;
    SortedWeights(values, keys, ws);
    var p := WalkPointers(ws);
    MedianIsFinish(values, keys, ws, p);
    m := FinishPointers(keys, ws, p);
    ghost var x, y :| 0 <= x < n && 0 <= y < n && m == (keys[x] + keys[y]) / 2.0 && (n == 2 ==> x != y);
    MidpointOfKeys(values, keys, x, y);
    CalcMedianSmall(values, keys, x, y, m);
  }

  /** Whatever the pointers, a defined result of the code after the loops is a key or the midpoint of two keys. */
  lemma FinishIsMidpoint(keys: seq<real>, ws: seq<real>, p: Pointers)
    requires |keys| == |ws|
    ensures Finish(keys, ws, p).Some? ==>
              exists x, y :: 0 <= x < |keys| && 0 <= y < |keys| && Finish(keys, ws, p).value == (keys[x] + keys[y]) / 2.0
  {
    var r := Finish(keys, ws, p);
    if r.Some? {
      var k :| k in {p.ia, p.ib, p.ia + 1, p.ib + 1, p.ib - 1} && 0 <= k < |keys| && (r.value == keys[k] || exists l :: 0 <= l < |keys| && r.value == (keys[k] + keys[l]) / 2.0);
      if r.value == keys[k] {
        assert r.value == (keys[k] + keys[k]) / 2.0;
      }
    }
  }

  /**
   * On any table, with whatever weights, a value `calc_median` returns is the
   * midpoint of two keys and lies between the least and the greatest key.
   */
  lemma MedianWithinKeys(values: Table<real>)
    ensures Median(values).Some? ==>
              && (exists i, j :: 0 <= i < |values| && 0 <= j < |values| && Median(values).value == (values[i].0 + values[j].0) / 2.0)
              && (exists i :: 0 <= i < |values| && values[i].0 <= Median(values).value)
              && (exists j :: 0 <= j < |values| && Median(values).value <= values[j].0)
  {
    var keys := Sorted(Keys(values));
    var ws := WeightsOf(values, keys);
    if Median(values).Some? {
      var p := Converge(ws, Pointers(0, |keys| - 1, 0.0, 0.0));
      assert Median(values) == Finish(keys, ws, p);
      FinishIsMidpoint(keys, ws, p);
      var x, y :| 0 <= x < |keys| && 0 <= y < |keys| && Median(values).value == (keys[x] + keys[y]) / 2.0;
      MidpointOfKeys(values, keys, x, y);
    }
  }

  /**
   * The code of `calc_median` after its loops. On pointers left by the walk
   * over positive weights, every index it reads is in range, and it returns
   * a key or the midpoint of two keys (of both keys when there are two).
   */
  method FinishPointers(keys: seq<real>, ws: seq<real>, p: Pointers) returns (m: real)
    requires |keys| == |ws| && 0 <= p.ia <= p.ib < |ws| && p.ib <= p.ia + 1
    requires p.va > p.vb ==> 0 < p.ia && p.ib < |ws| - 1
    requires p.vb > p.va ==> p.ib < |ws| - 1
    requires |ws| <= 2 ==> p.ia == 0 && p.ib == |ws| - 1 && p.va == p.vb
    ensures Finish(keys, ws, p) == Some(m)
    ensures exists x, y :: 0 <= x < |keys| && 0 <= y < |keys| && m == (keys[x] + keys[y]) / 2.0 && (|keys| == 2 ==> x != y)
  {
    var va, vb, ia, ib := p.va, p.vb, p.ia, p.ib;
    if va > vb {
      vb := vb + ws[ib];
      if va == vb {
        m := (keys[ia] + keys[ib - 1]) / 2.0;
        assert m == (keys[ia] + keys[ib - 1]) / 2.0;
        return;
      }
      ia := ia + 1;
    } else if vb > va {
      va := va + ws[ia];
      if va == vb {
        m := (keys[ia + 1] + keys[ib]) / 2.0;
        assert m == (keys[ia + 1] + keys[ib]) / 2.0;
        return;
      }
      ib := ib + 1;
    } else {
      m := (keys[ia] + keys[ib]) / 2.0;
      assert m == (keys[ia] + keys[ib]) / 2.0;
      return;
    }
    m := if va > vb then keys[ia] else keys[ib];
    if va > vb {
      assert m == (keys[ia] + keys[ia]) / 2.0;
    } else {
      assert m == (keys[ib] + keys[ib]) / 2.0;
    }
  }

  /** For one or two keys the only candidates are the key and the midpoint of the two keys. */
  lemma CalcMedianSmall(values: Table<real>, keys: seq<real>, x: int, y: int, m: real)
    requires DistinctKeys(values)
    requires multiset(keys) == multiset(Keys(values))
    requires 0 <= x < |keys| && 0 <= y < |keys| && m == (keys[x] + keys[y]) / 2.0
    requires |keys| == 2 ==> x != y
    ensures |values| == 1 ==> m == values[0].0
    ensures |values| == 2 ==> m == (values[0].0 + values[1].0) / 2.0
  {
    assert |keys| == |values| by {
      assert |multiset(keys)| == |multiset(Keys(values))|;
    }
    if |values| == 1 {
      assert Keys(values) == [values[0].0];
      assert keys[0] in multiset(Keys(values));
    }
    if |values| == 2 {
      assert Keys(values) == [values[0].0, values[1].0];
      assert keys[0] in multiset(Keys(values));
      assert keys[1] in multiset(Keys(values));
      assert keys == [keys[0], keys[1]];
    }
  }

  /**
   * Whatever the weights (zero and negative ones included), a one-key table
   * gives its key and a two-key table the midpoint of its keys: the outer
   * loop never runs and `val_a == val_b == 0`.
   */
  lemma MedianOneOrTwoKeys(values: Table<real>)
    requires 1 <= |values| <= 2 && DistinctKeys(values)
    ensures |values| == 1 ==> Median(values) == Some(values[0].0)
    ensures |values| == 2 ==> Median(values) == Some((values[0].0 + values[1].0) / 2.0)
  {
    var keys := Sorted(Keys(values));
    var ws := WeightsOf(values, keys);
    assert |keys| == |values| by {
      assert |multiset(keys)| == |multiset(Keys(values))|;
    }
    var n := |keys|;
    var p := Pointers(0, n - 1, 0.0, 0.0);
    assert Converge(ws, p) == p;
    assert Finish(keys, ws, p) == Mid(keys, 0, n - 1);
    CalcMedianSmall(values, keys, 0, n - 1, (keys[0] + keys[n - 1]) / 2.0);
  }

  // ---------------------------------------------------------------------
  // calc_mode

  /** `i` holds the greatest weight and no earlier entry holds as much. */
  ghost predicate FirstHeaviest<K>(values: Table<K>, i: int)
  {
    && 0 <= i < |values|
    && (forall j :: 0 <= j < |values| ==> values[j].1 <= values[i].1)
    && (forall j :: 0 <= j < i ==> values[j].1 < values[i].1)
  }

  /** Every weight is at most -1, the initial `wmax`. */
  ghost predicate AllAtMostMinusOne(values: Table<real>)
  {
    forall j :: 0 <= j < |values| ==> values[j].1 <= -1.0
  }

  /**
   * What `calc_mode` promises: -1 when the table is empty or every weight is
   * at most -1; otherwise the key of the first entry of greatest weight.
   */
  ghost predicate IsMode(values: Table<real>, r: real)
  {
    if AllAtMostMinusOne(values) then r == -1.0
    else exists i :: 0 <= i < |values| && FirstHeaviest(values, i) && r == values[i].0
  }

  /** `wmax` and `res` of `calc_mode` after its loop has visited `values`, in insertion order. */
  function ModeScan(values: Table<real>): (r: (real, real))
    ensures r.0 >= -1.0 && (r.0 == -1.0 ==> r == (-1.0, -1.0))
    ensures forall j :: 0 <= j < |values| ==> values[j].1 <= r.0
    ensures r.0 > -1.0 ==> exists i :: 0 <= i < |values| && r == (values[i].1, values[i].0)
  {
    if values == [] then (-1.0, -1.0)
    else
      var (wmax, res) := ModeScan(values[..|values| - 1]);
      var (value, weight) := values[|values| - 1];
      if wmax < weight then (weight, value) else (wmax, res)
  }

  /** The value `calc_mode` returns. */
  function Mode(values: Table<real>): (r: real)
    ensures values == [] ==> r == -1.0
    ensures r == -1.0 || exists i :: 0 <= i < |values| && r == values[i].0
  {
    ModeScan(values).1
  }

  /** An entry no heavier than the first heaviest keeps it first heaviest. */
  lemma HeaviestExtend(values: Table<real>, i: int)
    requires |values| > 0 && FirstHeaviest(values[..|values| - 1], i)
    requires values[|values| - 1].1 <= values[i].1
    ensures FirstHeaviest(values, i)
  {
    var pre := values[..|values| - 1];
    assert forall j :: 0 <= j < |pre| ==> pre[j] == values[j];
  }

  /** An entry strictly heavier than all before it is the first heaviest. */
  lemma HeaviestLast(values: Table<real>)
    requires |values| > 0
    requires forall j :: 0 <= j < |values| - 1 ==> values[j].1 < values[|values| - 1].1
    ensures FirstHeaviest(values, |values| - 1)
  {
  }

  lemma {:induction false} ModeScanSound(values: Table<real>)
    ensures AllAtMostMinusOne(values) ==> ModeScan(values) == (-1.0, -1.0)
    ensures !AllAtMostMinusOne(values) ==>
              exists i :: FirstHeaviest(values, i) && ModeScan(values) == (values[i].1, values[i].0)
    decreases |values|
  {
    if values != [] {
      var n := |values| - 1;
      var pre := values[..n];
      ModeScanSound(pre);
      var (wmax, res) := ModeScan(pre);
      var (value, weight) := values[n];
      assert forall j :: 0 <= j < n ==> pre[j] == values[j];
      if AllAtMostMinusOne(pre) {
        if wmax < weight {
          HeaviestLast(values);
        } else {
          assert AllAtMostMinusOne(values);
        }
      } else {
        var i :| FirstHeaviest(pre, i) && (wmax, res) == (pre[i].1, pre[i].0);
        if wmax < weight {
          HeaviestLast(values);
        } else {
          HeaviestExtend(values, i);
        }
      }
    }
  }

  /** `calc_mode` returns what it promises. */
  lemma ModeIsMode(values: Table<real>)
    ensures IsMode(values, Mode(values))
  {
    ModeScanSound(values);
  }

  /** `calc_mode` as the source writes it: one pass keeping the greatest weight seen and its key. */
  method CalcMode(values: Table<real>) returns (r: real)
    ensures r == Mode(values)
    ensures IsMode(values, r)
  {
    var wmax := -1.0;
    r := -1.0;
    for i := 0 to |values|
      invariant (wmax, r) == ModeScan(values[..i])
    {
      assert values[..i + 1][..i] == values[..i];
      var (value, weight) := values[i];
      if wmax < weight {
        wmax := weight;
        r := value;
      }
    }
    assert values[..|values|] == values;
    ModeIsMode(values);
  }
}
