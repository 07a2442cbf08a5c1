/**
 * The time-weighted summary `_update_state` builds for one entity from its
 * history over the period: the state at `start`, then every recorded change,
 * then the stretch up to `end`. Each stretch adds its value, weighted by its
 * length in seconds, to `sum_val`, to `elapsed` and to the shared table.
 */
module History {
  import opened Common
  import opened Tables
  import opened Tracking
  import opened Readings

  /**
   * `last_state`, `last_time`, `sum_val` and `elapsed` of the walk, the shared
   * `values` table, the parses recorded so far, and whether an exception
   * escaped (after which the update stops).
   */
  datatype Walk = Walk(
    lastState: Option<real>, lastTime: real, sum: real, elapsed: real,
    table: Table<Option<real>>, obs: seq<Obs>, raised: bool)

  /** The parse `_get_state_value` records for a reading: one when it parsed, none otherwise. */
  function Observation(env: Env, e: Extracted, r: Reading): (o: seq<Obs>)
    ensures |o| <= 1 && (o != [] <==> e.Parsed?)
    ensures e.Parsed? ==> o[0].value == env.round(e.v) && o[0].entityId == r.entityId && o[0].at == r.lastChanged
  {
    if e.Parsed? then [Obs(r.entityId, env.round(e.v), r.lastChanged)] else []
  }

  /**
   * The state at `start`: when it is defined, its value becomes `last_state`
   * and is added to the table with weight 1; `last_time` starts at `start_ts`.
   */
  function Begin(env: Env, tm: bool, seed: Option<Reading>, startTs: int, table: Table<Option<real>>): (b: Walk)
    ensures b.lastTime == startTs as real && b.sum == 0.0 && b.elapsed == 0.0
    ensures b.raised <==> seed.Some? && HasState(Text(seed.value.state)) && Extract(env, tm, seed.value).Raises?
    ensures seed.None? || !HasState(Text(seed.value.state)) ==> b.lastState.None? && b.table == table && b.obs == []
    ensures b.raised ==> b.lastState.None? && b.table == table && b.obs == []
    ensures !b.raised && seed.Some? && HasState(Text(seed.value.state)) ==> b.table == Add(table, b.lastState, 1.0)
    ensures b.lastState.Some? ==> seed.Some? && HasState(Text(seed.value.state))
  {
    if seed.Some? && HasState(Text(seed.value.state)) then
      var e := Extract(env, tm, seed.value);
      if e.Raises? then Walk(None, startTs as real, 0.0, 0.0, table, [], true)
      else
        var v := ValueOf(env, e);
        Walk(v, startTs as real, 0.0, 0.0, Add(table, v, 1.0), Observation(env, e, seed.value), false)
    else Walk(None, startTs as real, 0.0, 0.0, table, [], false)
  }

  /** `sum_val` after a stretch of `stretch` seconds at value `v`. */
  function Credited(sum: real, v: real, stretch: real): real
  {
    sum + v * stretch
  }

  /**
   * One recorded change: an undefined state is passed over; otherwise the
   * stretch since `last_time` is credited to `last_state` (when that is a
   * number) and the change's value and time take over.
   */
  function Step(env: Env, tm: bool, w: Walk, item: Reading): (s: Walk)
    ensures w.raised || !HasState(Text(item.state)) ==> s == w
    ensures !w.raised && HasState(Text(item.state)) ==> (s.raised <==> Extract(env, tm, item).Raises?)
    ensures !w.raised && HasState(Text(item.state)) && !s.raised ==> s.lastTime == item.lastChanged
    ensures s.raised && !w.raised ==> s == w.(raised := true)
    ensures w.obs <= s.obs
  {
    if w.raised || !HasState(Text(item.state)) then w
    else
      var e := Extract(env, tm, item);
      if e.Raises? then w.(raised := true)
      else
        var cur := ValueOf(env, e);
        var t := item.lastChanged;
        var obs := w.obs + Observation(env, e, item);
        if w.lastState.Some? then
          var stretch := t - w.lastTime;
          Walk(cur, t, Credited(w.sum, w.lastState.value, stretch), w.elapsed + stretch, Add(w.table, w.lastState, stretch), obs, false)
        else Walk(cur, t, w.sum, w.elapsed, w.table, obs, false)
  }

  /** A recorded change whose state is undefined is passed over: the previous value keeps accruing time. */
  lemma UndefinedChangePassedOver(env: Env, tm: bool, w: Walk, item: Reading)
    requires !HasState(Text(item.state))
    ensures Step(env, tm, w, item) == w
  {
  }

  /** The recorded changes, in order. */
  function Steps(env: Env, tm: bool, w: Walk, items: seq<Reading>): (r: Walk)
    ensures w.raised ==> r.raised
    ensures w.obs <= r.obs
  {
    if items == [] then w else Step(env, tm, Steps(env, tm, w, items[..|items| - 1]), items[|items| - 1])
  }

  /** The stretch from the last change to `end_ts`, credited to `last_state` when that is a number. */
  function Close(w: Walk, endTs: int): (c: Walk)
    ensures c.lastState == w.lastState && c.lastTime == w.lastTime && c.obs == w.obs && c.raised == w.raised
    ensures w.raised || w.lastState.None? ==> c == w
    ensures !w.raised && w.lastState.Some? ==> c.elapsed == w.elapsed + (endTs as real - w.lastTime)
    ensures !w.raised && w.lastState.Some? ==> c.sum == w.sum + w.lastState.value * (endTs as real - w.lastTime)
  {
    if w.raised || w.lastState.None? then w
    else
      var stretch := endTs as real - w.lastTime;
      w.(sum := Credited(w.sum, w.lastState.value, stretch), elapsed := w.elapsed + stretch,
         table := Add(w.table, w.lastState, stretch))
  }

  /** The whole walk over one entity's history. */
  function HistoryWalk(env: Env, tm: bool, seed: Option<Reading>, items: seq<Reading>, startTs: int, endTs: int,
                       table: Table<Option<real>>): (h: Walk)
    ensures Begin(env, tm, seed, startTs, table).raised ==> h.raised
    ensures Begin(env, tm, seed, startTs, table).obs <= h.obs
  {
    Close(Steps(env, tm, Begin(env, tm, seed, startTs, table), items), endTs)
  }

  /** The summary value: `sum_val / elapsed`, or the raw `sum_val` when `elapsed` is 0. */
  function Average(w: Walk): (r: real)
    ensures w.elapsed == 0.0 ==> r == w.sum
    ensures w.elapsed != 0.0 ==> r * w.elapsed == w.sum
  {
    if w.elapsed != 0.0 then w.sum / w.elapsed else w.sum
  }

  // ---------------------------------------------------------------------
  // What the table receives

  /** Σ key × weight over the entries with a numeric key. */
  function Mass(t: Table<Option<real>>): real
  {
    if t == [] then 0.0 else EntryMass(t[0]) + Mass(t[1..])
  }

  /** Σ weight over all entries. */
  function TotalWeight<K>(t: Table<K>): real
  {
    if t == [] then 0.0 else t[0].1 + TotalWeight(t[1..])
  }

  /** The mass an entry contributes. */
  function EntryMass(e: (Option<real>, real)): real
  {
    if e.0.Some? then e.0.value * e.1 else 0.0
  }

  lemma {:induction false} AddMass(t: Table<Option<real>>, k: Option<real>, w: real)
    ensures Mass(Add(t, k, w)) == Mass(t) + EntryMass((k, w))
    decreases |t|
  {
    var r := Add(t, k, w);
    if t == [] {
      assert r == [(k, w)];
      assert Mass(r) == EntryMass((k, w)) + Mass(r[1..]);
    } else if t[0].0 == k {
      assert r == [(k, t[0].1 + w)] + t[1..];
      assert r[0] == (k, t[0].1 + w) && r[1..] == t[1..];
      if k.Some? {
        Distribute(k.value, t[0].1, w);
      }
    } else {
      assert r == [t[0]] + Add(t[1..], k, w);
      assert r[0] == t[0] && r[1..] == Add(t[1..], k, w);
      AddMass(t[1..], k, w);
    }
  }

  lemma Distribute(a: real, b: real, c: real)
    ensures a * (b + c) == a * b + a * c
  {
  }

  lemma {:induction false} AddWeight<K(!new)>(t: Table<K>, k: K, w: real)
    ensures TotalWeight(Add(t, k, w)) == TotalWeight(t) + w
    decreases |t|
  {
    var r := Add(t, k, w);
    if t == [] {
      assert r == [(k, w)];
      assert TotalWeight(r) == w + TotalWeight(r[1..]);
    } else if t[0].0 == k {
      assert r == [(k, t[0].1 + w)] + t[1..];
      assert r[0] == (k, t[0].1 + w) && r[1..] == t[1..];
    } else {
      assert r == [t[0]] + Add(t[1..], k, w);
      assert r[0] == t[0] && r[1..] == Add(t[1..], k, w);
      AddWeight(t[1..], k, w);
    }
  }

  /**
   * Every credit to `sum_val` goes to the table under the same value and
   * weight, and every credit to `elapsed` goes to the table as weight: the
   * walk keeps `Mass(table) - sum_val` and `TotalWeight(table) - elapsed`.
   */
  ghost predicate Balanced(w: Walk, mass: real, weight: real)
  {
    Mass(w.table) - w.sum == mass && TotalWeight(w.table) - w.elapsed == weight
  }

  lemma StepBalanced(env: Env, tm: bool, w: Walk, item: Reading, mass: real, weight: real)
    requires !w.raised && Balanced(w, mass, weight)
    ensures var w' := Step(env, tm, w, item); !w'.raised ==> Balanced(w', mass, weight)
  {
    var w' := Step(env, tm, w, item);
    if HasState(Text(item.state)) {
      var e := Extract(env, tm, item);
      if !e.Raises? {
        if w.lastState.Some? {
          var stretch := item.lastChanged - w.lastTime;
          assert w'.table == Add(w.table, w.lastState, stretch);
          assert w'.sum == w.sum + EntryMass((w.lastState, stretch));
          assert w'.elapsed == w.elapsed + stretch;
          AddMass(w.table, w.lastState, stretch);
          AddWeight(w.table, w.lastState, stretch);
        } else {
          assert w'.table == w.table && w'.sum == w.sum && w'.elapsed == w.elapsed;
        }
      }
    }
  }

  lemma {:induction false} StepsBalanced(env: Env, tm: bool, w: Walk, items: seq<Reading>, mass: real, weight: real)
    requires !w.raised && Balanced(w, mass, weight)
    ensures var w' := Steps(env, tm, w, items); !w'.raised ==> Balanced(w', mass, weight)
    decreases |items|
  {
    if items != [] {
      var pre := items[..|items| - 1];
      StepsBalanced(env, tm, w, pre, mass, weight);
      var mid := Steps(env, tm, w, pre);
      if !mid.raised {
        StepBalanced(env, tm, mid, items[|items| - 1], mass, weight);
      }
    }
  }

  /** The state at `start` enters the table with weight 1 and leaves `sum_val` and `elapsed` at 0. */
  lemma BeginBalanced(env: Env, tm: bool, seed: Option<Reading>, startTs: int, table: Table<Option<real>>)
    requires !Begin(env, tm, seed, startTs, table).raised
    ensures var b := Begin(env, tm, seed, startTs, table);
            && b.sum == 0.0 && b.elapsed == 0.0
            && Mass(b.table) == Mass(table) + EntryMass((b.lastState, 1.0))
            && TotalWeight(b.table) == TotalWeight(table) + (if seed.Some? && HasState(Text(seed.value.state)) then 1.0 else 0.0)
  {
    var b := Begin(env, tm, seed, startTs, table);
    if seed.Some? && HasState(Text(seed.value.state)) {
      assert b.table == Add(table, b.lastState, 1.0);
      AddMass(table, b.lastState, 1.0);
      AddWeight(table, b.lastState, 1.0);
    } else {
      assert b.table == table && b.lastState.None?;
    }
  }

  lemma CloseBalanced(w: Walk, endTs: int, mass: real, weight: real)
    requires !w.raised && Balanced(w, mass, weight)
    ensures Balanced(Close(w, endTs), mass, weight)
  {
    if w.lastState.Some? {
      var stretch := endTs as real - w.lastTime;
      var c := Close(w, endTs);
      assert c.table == Add(w.table, w.lastState, stretch);
      assert c.sum == w.sum + EntryMass((w.lastState, stretch));
      assert c.elapsed == w.elapsed + stretch;
      AddMass(w.table, w.lastState, stretch);
      AddWeight(w.table, w.lastState, stretch);
    }
  }

  /**
   * Over a whole walk that raises nothing: the table gains exactly `sum_val`
   * in mass and `elapsed` in weight, plus the state at `start`, which enters
   * the table with weight 1 but adds nothing to `sum_val` or `elapsed`.
   */
  lemma HistoryWalkBalanced(env: Env, tm: bool, seed: Option<Reading>, items: seq<Reading>, startTs: int, endTs: int,
                            table: Table<Option<real>>)
    requires !HistoryWalk(env, tm, seed, items, startTs, endTs, table).raised
    ensures var b := Begin(env, tm, seed, startTs, table);
            var h := HistoryWalk(env, tm, seed, items, startTs, endTs, table);
            && Mass(h.table) == Mass(table) + EntryMass((b.lastState, 1.0)) + h.sum
            && TotalWeight(h.table) == TotalWeight(table) + (if seed.Some? && HasState(Text(seed.value.state)) then 1.0 else 0.0) + h.elapsed
  {
    var b := Begin(env, tm, seed, startTs, table);
    var s := Steps(env, tm, b, items);
    assert !b.raised by {
      if b.raised {
        StepsRaised(env, tm, b, items);
      }
    }
    BeginBalanced(env, tm, seed, startTs, table);
    var mass := Mass(b.table) - b.sum;
    var weight := TotalWeight(b.table) - b.elapsed;
    StepsBalanced(env, tm, b, items, mass, weight);
    CloseBalanced(s, endTs, mass, weight);
  }

  /** A change that is kept and reads without an exception, field by field. */
  lemma StepKept(env: Env, tm: bool, w: Walk, item: Reading)
    requires !w.raised && HasState(Text(item.state)) && !Extract(env, tm, item).Raises?
    ensures var e := Extract(env, tm, item);
            var s := Step(env, tm, w, item);
            && !s.raised && s.lastState == ValueOf(env, e) && s.lastTime == item.lastChanged
            && s.obs == w.obs + Observation(env, e, item)
            && (w.lastState.None? ==> s.sum == w.sum && s.elapsed == w.elapsed && s.table == w.table)
            && (w.lastState.Some? ==>
                  var stretch := item.lastChanged - w.lastTime;
                  s.sum == Credited(w.sum, w.lastState.value, stretch) && s.elapsed == w.elapsed + stretch
                  && s.table == Add(w.table, w.lastState, stretch))
  {
  }

  /** Walking two lists of changes one after the other is walking their concatenation. */
  lemma {:induction false} StepsConcat(env: Env, tm: bool, w: Walk, a: seq<Reading>, b: seq<Reading>)
    ensures Steps(env, tm, Steps(env, tm, w, a), b) == Steps(env, tm, w, a + b)
    decreases |b|
  {
    if b == [] {
      assert a + b == a;
    } else {
      assert (a + b)[..|a + b| - 1] == a + b[..|b| - 1];
      StepsConcat(env, tm, w, a, b[..|b| - 1]);
    }
  }

  /** Once an exception has escaped, later changes do nothing. */
  lemma {:induction false} StepsRaised(env: Env, tm: bool, w: Walk, items: seq<Reading>)
    requires w.raised
    ensures Steps(env, tm, w, items) == w
    decreases |items|
  {
    if items != [] {
      StepsRaised(env, tm, w, items[..|items| - 1]);
    }
  }

  /** The walk over all changes ends where an exception escapes at change `i`. */
  lemma StepsStop(env: Env, tm: bool, w: Walk, items: seq<Reading>, i: int)
    requires 0 <= i < |items| && Steps(env, tm, w, items[..i + 1]).raised
    ensures Steps(env, tm, w, items) == Steps(env, tm, w, items[..i + 1])
  {
    SplitAt(items, i + 1);
    StepsSplit(env, tm, w, items[..i + 1], items[i + 1..], items);
  }

  lemma StepsSplit(env: Env, tm: bool, w: Walk, a: seq<Reading>, b: seq<Reading>, items: seq<Reading>)
    requires items == a + b && Steps(env, tm, w, a).raised
    ensures Steps(env, tm, w, items) == Steps(env, tm, w, a)
  {
    StepsRaised(env, tm, Steps(env, tm, w, a), b);
    StepsConcat(env, tm, w, a, b);
  }

  // ---------------------------------------------------------------------
  // Telescoping

  /** A recorded change that is passed over, or that yields a number. */
  predicate Keeps(env: Env, tm: bool, item: Reading)
  {
    !HasState(Text(item.state)) || (var e := Extract(env, tm, item); !e.Raises? && ValueOf(env, e).Some?)
  }

  lemma {:induction false} StepsTelescope(env: Env, tm: bool, w: Walk, items: seq<Reading>, startTs: real)
    requires !w.raised && w.lastState.Some? && w.elapsed == w.lastTime - startTs
    requires forall i :: 0 <= i < |items| ==> Keeps(env, tm, items[i])
    ensures var w' := Steps(env, tm, w, items);
            !w'.raised && w'.lastState.Some? && w'.elapsed == w'.lastTime - startTs
    decreases |items|
  {
    if items != [] {
      StepsTelescope(env, tm, w, items[..|items| - 1], startTs);
    }
  }

  /**
   * With a defined numeric state at `start` and only changes that are
   * passed over or yield numbers, the stretches add up to the whole period:
   * `elapsed == end_ts - start_ts`, so the summary is `sum_val` over the
   * period's length (or `sum_val` itself for a period of length 0).
   */
  lemma HistoryTelescopes(env: Env, tm: bool, seed: Option<Reading>, items: seq<Reading>, startTs: int, endTs: int,
                          table: Table<Option<real>>)
    requires Begin(env, tm, seed, startTs, table).lastState.Some?
    requires !Begin(env, tm, seed, startTs, table).raised
    requires forall i :: 0 <= i < |items| ==> Keeps(env, tm, items[i])
    ensures var h := HistoryWalk(env, tm, seed, items, startTs, endTs, table);
            && !h.raised
            && h.elapsed == (endTs - startTs) as real
            && Average(h) == if endTs != startTs then h.sum / (endTs - startTs) as real else h.sum
  {
    var b := Begin(env, tm, seed, startTs, table);
    StepsTelescope(env, tm, b, items, startTs as real);
  }

  /** No state at `start` and no change: the entity's summary is 0 and the table is untouched. */
  lemma EmptyHistory(env: Env, tm: bool, startTs: int, endTs: int, table: Table<Option<real>>)
    ensures var h := HistoryWalk(env, tm, None, [], startTs, endTs, table);
            !h.raised && Average(h) == 0.0 && h.table == table && h.obs == []
  {
  }

  /**
   * No change, but a defined state at `start` that reads `x`: over a period of
   * positive length the stretch to `end` covers the whole period, so the
   * summary is `x`.
   */
  lemma SeedOnlyHistory(env: Env, tm: bool, seed: Reading, x: real, startTs: int, endTs: int, table: Table<Option<real>>)
    requires HasState(Text(seed.state)) && Extract(env, tm, seed) == Parsed(x) && startTs < endTs
    ensures var h := HistoryWalk(env, tm, Some(seed), [], startTs, endTs, table);
            && !h.raised && h.elapsed == (endTs - startTs) as real && h.sum == x * (endTs - startTs) as real
            && Average(h) == x
  {
    var b := Begin(env, tm, Some(seed), startTs, table);
    assert !b.raised && b.lastState == Some(x) && b.lastTime == startTs as real && b.sum == 0.0 && b.elapsed == 0.0;
    assert Steps(env, tm, b, []) == b;
    var h := Close(b, endTs);
    var d := (endTs - startTs) as real;
    assert h.elapsed == d && h.sum == x * d;
    assert d > 0.0;
    DivideBack(x, d);
  }

  /** Dividing a product by the nonzero factor gives the other factor back. */
  lemma DivideBack(x: real, d: real)
    requires d != 0.0
    ensures (x * d) / d == x
  {
  }

  /**
   * Two changes, 20 at the start and 10 thirty seconds later, over a
   * sixty-second period: the summary is (20 × 30 + 10 × 30) / 60 = 15.
   */
  lemma TwoChangesAverageFifteen(env: Env, a: Reading, b: Reading)
    requires env.parse("20") == Some(20.0) && env.parse("10") == Some(10.0)
    requires a.state == "20" && a.lastChanged == 0.0
    requires b.state == "10" && b.lastChanged == 30.0
    ensures var h := HistoryWalk(env, false, None, [a, b], 0, 60, []);
            !h.raised && h.elapsed == 60.0 && h.sum == 900.0 && Average(h) == 15.0
  {
    var w0 := Begin(env, false, None, 0, []);
    assert [a, b][..1] == [a];
    assert [a][..0] == [];
    assert Steps(env, false, w0, [a][..0]) == w0;
    var w1 := Steps(env, false, w0, [a]);
    assert w1 == Step(env, false, w0, a);
    assert w1.lastState == Some(20.0) && w1.lastTime == 0.0 && w1.sum == 0.0 && w1.elapsed == 0.0;
    var w2 := Steps(env, false, w0, [a, b]);
    assert w2 == Step(env, false, w1, b);
    assert w2.lastState == Some(10.0) && w2.lastTime == 30.0 && w2.sum == 600.0 && w2.elapsed == 30.0;
  }
}
