/**
 * One pass of `_update_state` over the configured entities, as a function of
 * what it reads: the temperature-mode decision on the first entity found,
 * each entity's summary value (its live value, or the time-weighted average
 * of its history over the period), the weighted table the summaries fill,
 * and mean, median and mode at the end.
 */
module Cycle {
  import opened Common
  import opened Tables
  import opened Tracking
  import opened Readings
  import opened History

  /**
   * What the sensor reads for one configured entity: its current state
   * (None where `hass.states.get` finds none), its recorded changes over the
   * period (None where the history result has no entry for it) and its state
   * at the start of the period.
   */
  datatype Source = Source(current: Option<Reading>, changes: Option<seq<Reading>>, atStart: Option<Reading>)

  /** The period floored to whole seconds: `start_ts` and `end_ts`. */
  datatype Span = Span(startTs: int, endTs: int)

  /**
   * What the loop over the entities carries: the temperature mode with the
   * unit and icon taken over, `available_sensors`, `norm_vals`, the `values`
   * table, the parses recorded, and whether an exception escaped.
   */
  datatype Acc = Acc(
    temperatureMode: Option<bool>, unit: Option<string>, icon: Option<string>,
    available: nat, normVals: seq<real>, table: Table<Option<real>>, obs: seq<Obs>, raised: bool)

  /** The loop's starting point after the reset: nothing counted, an empty table and list. */
  function Start(tm: Option<bool>, unit: Option<string>, icon: Option<string>): (a: Acc)
    ensures a.temperatureMode == tm && a.unit == unit && a.icon == icon
    ensures a.available == |a.normVals| == 0 && a.table == [] && a.obs == [] && !a.raised
  {
    Acc(tm, unit, icon, 0, [], [], [], false)
  }

  /** The temperature mode is decided on an entity only while it is still undecided. */
  function Decided(env: Env, acc: Acc, cur: Reading): (r: Acc)
    ensures r.temperatureMode.Some?
    ensures acc.temperatureMode.Some? ==> r == acc
    ensures acc.temperatureMode.None? ==> r.temperatureMode == Some(IsTemperatureEntity(cur))
  {
    if acc.temperatureMode.Some? then acc
    else
      var d := Decide(env, cur);
      acc.(temperatureMode := Some(d.temperatureMode), unit := d.unit, icon := d.icon)
  }

  /** What one entity gives: its summary value, the table after it, its parses, whether it raised. */
  datatype Entry = Entry(value: Option<real>, table: Table<Option<real>>, obs: seq<Obs>, raised: bool)

  /**
   * One entity's summary: without a period, or without recorded history in
   * it, the live value (added with weight 1); otherwise the average of its
   * history walk.
   */
  function Contribution(env: Env, tm: bool, span: Option<Span>, src: Source, cur: Reading, table: Table<Option<real>>): (c: Entry)
    ensures c.raised ==> c.value.None?
    ensures span.Some? && src.changes.Some? && !c.raised ==> c.value.Some?
    ensures span.None? || src.changes.None? ==> (c.raised <==> Extract(env, tm, cur).Raises?)
    ensures (span.None? || src.changes.None?) && Extract(env, tm, cur).Parsed? ==> c.value == Some(Extract(env, tm, cur).v) && c.table == Add(table, c.value, 1.0)
    ensures (span.None? || src.changes.None?) && Extract(env, tm, cur).Undefined? ==> c.value == env.undef && c.table == Add(table, env.undef, 1.0)
    ensures (span.None? || src.changes.None?) && Extract(env, tm, cur).Unparsable? ==> c.value.None? && c.table == Add(table, None, 1.0)
  {
    if span.None? || src.changes.None? then
      var e := Extract(env, tm, cur);
      if e.Raises? then Entry(None, table, [], true)
      else
        var v := ValueOf(env, e);
        Entry(v, Add(table, v, 1.0), Observation(env, e, cur), false)
    else
      var h := HistoryWalk(env, tm, src.atStart, src.changes.value, span.value.startTs, span.value.endTs, table);
      Entry(if h.raised then None else Some(Average(h)), h.table, h.obs, h.raised)
  }

  /** An entity's summary taken into the loop state: a number is counted and appended to `norm_vals`. */
  function Counted(acc: Acc, c: Entry): (a: Acc)
    ensures a.temperatureMode == acc.temperatureMode && a.unit == acc.unit && a.icon == acc.icon
    ensures a.table == c.table && a.obs == acc.obs + c.obs && a.raised == c.raised
    ensures !c.raised && c.value.Some? ==> a.available == acc.available + 1 && a.normVals == acc.normVals + [c.value.value]
    ensures c.raised || c.value.None? ==> a.available == acc.available && a.normVals == acc.normVals
  {
    var after := acc.(table := c.table, obs := acc.obs + c.obs, raised := c.raised);
    if !c.raised && c.value.Some? then
      after.(available := after.available + 1, normVals := after.normVals + [c.value.value])
    else after
  }

  /** One turn of the loop: a missing entity is passed over; a numeric summary is counted. */
  function EntityStep(env: Env, span: Option<Span>, acc: Acc, src: Source): (s: Acc)
    ensures acc.raised || src.current.None? ==> s == acc
    ensures acc.normVals <= s.normVals && |s.normVals| <= |acc.normVals| + 1
    ensures s.available - acc.available == |s.normVals| - |acc.normVals|
    ensures acc.obs <= s.obs
  {
    if acc.raised || src.current.None? then acc
    else
      var decided := Decided(env, acc, src.current.value);
      Counted(decided, Contribution(env, decided.temperatureMode.value, span, src, src.current.value, decided.table))
  }

  /** The loop over the configured entities, in order. */
  function Run(env: Env, span: Option<Span>, acc: Acc, sources: seq<Source>): (r: Acc)
    ensures acc.normVals <= r.normVals && acc.obs <= r.obs
    ensures acc.available <= r.available
  {
    if sources == [] then acc else EntityStep(env, span, Run(env, span, acc, sources[..|sources| - 1]), sources[|sources| - 1])
  }

  /** The table with numeric keys, or None when `add_value(None)` left a None key in it. */
  function RealTable(t: Table<Option<real>>): (r: Option<Table<real>>)
    ensures r.Some? <==> forall i :: 0 <= i < |t| ==> t[i].0.Some?
    ensures r.Some? ==> |r.value| == |t| && forall i :: 0 <= i < |t| ==> r.value[i] == (t[i].0.value, t[i].1)
  {
    if t == [] then Some([])
    else if t[0].0.None? then None
    else
      match RealTable(t[1..])
      case None => None
      case Some(rest) => Some([(t[0].0.value, t[0].1)] + rest)
  }

  /** `mean`, `median` and `mode` after the loop, and whether computing them raised. */
  datatype Outcome = Outcome(mean: Option<real>, median: Option<real>, mode: Option<real>, raised: bool)

  /**
   * The end of `_update_state`: without a numeric summary all three stay None;
   * otherwise the mean is set first, then `calc_median` raises on a None key
   * (comparing or adding None) or on an index past the key list, and only
   * then is `calc_mode` reached.
   */
  function Reduce(env: Env, normVals: seq<real>, table: Table<Option<real>>): (o: Outcome)
    ensures normVals == [] ==> o == Outcome(None, None, None, false)
    ensures o.median.Some? <==> o.mode.Some?
    ensures o.median.Some? ==> !o.raised && o.mean.Some?
    ensures o.raised ==> normVals != [] && o.mean.Some? && o.median.None?
  {
    if normVals == [] then Outcome(None, None, None, false)
    else
      var mean := Some(env.round(Sum(normVals) / |normVals| as real));
      match RealTable(table)
      case None => Outcome(mean, None, None, true)
      case Some(t) =>
        match Median(t)
        case None => Outcome(mean, None, None, true)
        case Some(m) => Outcome(mean, Some(env.round(m)), Some(env.round(Mode(t))), false)
  }

  /** The output kinds of the sensor. */
  datatype Kind = MeanKind | MedianKind | ModeKind | MinKind | MaxKind | LastKind

  /** The attribute `_state` is taken from for a kind. */
  function Select(kind: Kind, out: Outcome, t: Tracker): Option<real>
  {
    match kind
    case MeanKind => out.mean
    case MedianKind => out.median
    case ModeKind => out.mode
    case MinKind => t.minValue
    case MaxKind => t.maxValue
    case LastKind => t.last
  }

  // ---------------------------------------------------------------------
  // Properties of the pass

  lemma {:induction false} RunRaised(env: Env, span: Option<Span>, acc: Acc, sources: seq<Source>)
    requires acc.raised
    ensures Run(env, span, acc, sources) == acc
    decreases |sources|
  {
    if sources != [] {
      RunRaised(env, span, acc, sources[..|sources| - 1]);
    }
  }

  /** `available_sensors` counts exactly the summaries that went into `norm_vals`, at most one per entity. */
  lemma {:induction false} RunCounts(env: Env, span: Option<Span>, acc: Acc, sources: seq<Source>)
    requires acc.available == |acc.normVals|
    ensures var r := Run(env, span, acc, sources);
            r.available == |r.normVals| && r.available <= acc.available + |sources|
    decreases |sources|
  {
    if sources != [] {
      RunCounts(env, span, acc, sources[..|sources| - 1]);
    }
  }

  /** An entity without a current state adds nothing, whatever its history. */
  lemma MissingEntityIgnored(env: Env, span: Option<Span>, acc: Acc, src: Source)
    requires src.current.None?
    ensures EntityStep(env, span, acc, src) == acc
  {
  }

  /** Once decided, the temperature mode, unit and icon never change again. */
  lemma {:induction false} DecisionKept(env: Env, span: Option<Span>, acc: Acc, sources: seq<Source>)
    requires acc.temperatureMode.Some?
    ensures var r := Run(env, span, acc, sources);
            r.temperatureMode == acc.temperatureMode && r.unit == acc.unit && r.icon == acc.icon
    decreases |sources|
  {
    if sources != [] {
      DecisionKept(env, span, acc, sources[..|sources| - 1]);
    }
  }

  /** Running over two lists one after the other is running over their concatenation. */
  lemma {:induction false} RunConcat(env: Env, span: Option<Span>, acc: Acc, a: seq<Source>, b: seq<Source>)
    ensures Run(env, span, Run(env, span, acc, a), b) == Run(env, span, acc, a + b)
    decreases |b|
  {
    if b == [] {
      assert a + b == a;
    } else {
      assert (a + b)[..|a + b| - 1] == a + b[..|b| - 1];
      RunConcat(env, span, acc, a, b[..|b| - 1]);
    }
  }

  /** The pass over all entities ends where an exception escapes at entity `i`. */
  lemma RunStop(env: Env, span: Option<Span>, acc: Acc, sources: seq<Source>, i: int)
    requires 0 <= i < |sources| && Run(env, span, acc, sources[..i + 1]).raised
    ensures Run(env, span, acc, sources) == Run(env, span, acc, sources[..i + 1])
  {
    SplitAt(sources, i + 1);
    RunSplit(env, span, acc, sources[..i + 1], sources[i + 1..], sources);
  }

  lemma RunSplit(env: Env, span: Option<Span>, acc: Acc, a: seq<Source>, b: seq<Source>, sources: seq<Source>)
    requires sources == a + b && Run(env, span, acc, a).raised
    ensures Run(env, span, acc, sources) == Run(env, span, acc, a)
  {
    RunRaised(env, span, Run(env, span, acc, a), b);
    RunConcat(env, span, acc, a, b);
  }

  /** Entities that have no current state leave everything as it was. */
  lemma {:induction false} RunMissing(env: Env, span: Option<Span>, acc: Acc, sources: seq<Source>)
    requires forall j :: 0 <= j < |sources| ==> sources[j].current.None?
    ensures Run(env, span, acc, sources) == acc
    decreases |sources|
  {
    if sources != [] {
      RunMissing(env, span, acc, sources[..|sources| - 1]);
    }
  }

  /**
   * The temperature mode is decided on the first entity that has a current
   * state (and stays undecided while no entity has one: see `RunMissing`).
   */
  lemma DecidedByFirstFound(env: Env, span: Option<Span>, acc: Acc, sources: seq<Source>, i: int)
    requires acc.temperatureMode.None? && !acc.raised
    requires 0 <= i < |sources| && sources[i].current.Some?
    requires forall j :: 0 <= j < i ==> sources[j].current.None?
    ensures Run(env, span, acc, sources).temperatureMode == Some(IsTemperatureEntity(sources[i].current.value))
  {
    var pre, rest := sources[..i], sources[i + 1..];
    RunMissing(env, span, acc, pre);
    assert sources[..i + 1][..i] == pre;
    var decided := Run(env, span, acc, sources[..i + 1]);
    assert decided == EntityStep(env, span, acc, sources[i]);
    assert decided.temperatureMode == Some(IsTemperatureEntity(sources[i].current.value));
    DecisionKept(env, span, decided, rest);
    RunConcat(env, span, acc, sources[..i + 1], rest);
    assert sources[..i + 1] + rest == sources;
  }

  /**
   * Unless computing them raised, mean, median and mode are None exactly when
   * no entity gave a numeric summary; when it raised, median and mode are None.
   */
  lemma ReduceNullity(env: Env, normVals: seq<real>, table: Table<Option<real>>)
    ensures var out := Reduce(env, normVals, table);
            && (!out.raised ==> (out.mean.None? <==> normVals == []) && (out.median.None? <==> normVals == [])
                                && (out.mode.None? <==> normVals == []))
            && (out.raised ==> normVals != [] && out.mean.Some? && out.median.None? && out.mode.None?)
  {
  }

  /** With a numeric summary, a None key in the table always makes `calc_median` raise. */
  lemma NoneKeyRaises(env: Env, normVals: seq<real>, table: Table<Option<real>>, i: int)
    requires normVals != [] && 0 <= i < |table| && table[i].0.None?
    ensures Reduce(env, normVals, table).raised
  {
  }

  /**
   * So does an empty table beside a numeric summary, which an entity whose
   * recorded changes are all undefined and that has no state at the start
   * produces: `calc_median` reads `keys[0]` of an empty list.
   */
  lemma EmptyTableRaises(env: Env, normVals: seq<real>)
    requires normVals != []
    ensures Reduce(env, normVals, []).raised
  {
  }

  /**
   * Live values with `undef` set to 0: an entity reporting "unavailable"
   * contributes 0 and still counts as available.
   */
  lemma UnavailableCountsAsFallback(env: Env, tm: bool, r: Reading)
    requires env.undef == Some(0.0) && r.state == "unavailable" && r.domain == OtherDomain
    ensures var acc := Run(env, None, Start(Some(tm), None, None), [Source(Some(r), None, None)]);
            acc.available == 1 && acc.normVals == [0.0] && acc.table == [(Some(0.0), 1.0)] && acc.obs == []
  {
    var src := Source(Some(r), None, None);
    assert [src][..0] == [];
    assert Run(env, None, Start(Some(tm), None, None), [src][..0]) == Start(Some(tm), None, None);
    assert Extract(env, tm, r) == Undefined;
  }

  /** One live entity whose value parses to `x`, without a period: one summary `x` with weight 1 and one parse. */
  lemma SingleLiveRun(env: Env, tm: bool, r: Reading, x: real, unit: Option<string>, icon: Option<string>,
                      changes: Option<seq<Reading>>, atStart: Option<Reading>)
    requires Extract(env, tm, r) == Parsed(x)
    ensures var acc := Run(env, None, Start(Some(tm), unit, icon), [Source(Some(r), changes, atStart)]);
            && !acc.raised && acc.available == 1 && acc.normVals == [x] && acc.table == [(Some(x), 1.0)]
            && acc.obs == [Obs(r.entityId, env.round(x), r.lastChanged)]
  {
    var src := Source(Some(r), changes, atStart);
    var acc0 := Start(Some(tm), unit, icon);
    assert [src][..0] == [];
    assert Run(env, None, acc0, [src][..0]) == acc0;
    assert Run(env, None, acc0, [src]) == EntityStep(env, None, acc0, src);
  }

  /** A single summary `x` with weight 1: mean, median and mode are all `x`, rounded. */
  lemma SingleValueReduce(env: Env, x: real)
    ensures Reduce(env, [x], [(Some(x), 1.0)]) == Outcome(Some(env.round(x)), Some(env.round(x)), Some(env.round(x)), false)
  {
    var t := [(x, 1.0)];
    var table: Table<Option<real>> := [(Some(x), 1.0)];
    var rt := RealTable(table);
    assert table[0].0.Some?;
    assert rt.Some? && rt.value[0] == t[0];
    assert rt.value == t;
    assert Keys(t) == [x];
    SortedAscending([x]);
    assert WeightsOf(t, [x]) == [1.0];
    assert Median(t) == Some(x);
    assert t[..0] == [];
    assert ModeScan(t[..0]) == (-1.0, -1.0);
    assert ModeScan(t) == (1.0, x);
    assert Sum([x]) == x by {
      assert [x][..0] == [];
    }
  }

  /**
   * One live entity reading `x` and no period: mean, median and mode are
   * `x` rounded, and min, max and last are the rounded value with its entity.
   */
  lemma SingleLiveReading(env: Env, tm: bool, r: Reading, x: real, unit: Option<string>, icon: Option<string>,
                          changes: Option<seq<Reading>>, atStart: Option<Reading>, minId: Option<string>, maxId: Option<string>)
    requires Extract(env, tm, r) == Parsed(x)
    ensures var acc := Run(env, None, Start(Some(tm), unit, icon), [Source(Some(r), changes, atStart)]);
            var rx := Some(env.round(x));
            var stats := ObserveAll(Reset(minId, maxId), acc.obs);
            && Reduce(env, acc.normVals, acc.table) == Outcome(rx, rx, rx, false)
            && stats.minValue == stats.maxValue == stats.last == rx
            && stats.minEntityId == stats.maxEntityId == stats.lastEntityId == Some(r.entityId)
  {
    SingleLiveRun(env, tm, r, x, unit, icon, changes, atStart);
    SingleValueReduce(env, x);
    var acc := Run(env, None, Start(Some(tm), unit, icon), [Source(Some(r), changes, atStart)]);
    ObserveOne(minId, maxId, acc.obs);
  }

  /** Whatever the table, the mean is the rounded average of the summaries. */
  lemma ReduceMean(env: Env, normVals: seq<real>, table: Table<Option<real>>)
    requires normVals != []
    ensures Reduce(env, normVals, table).mean == Some(env.round(Sum(normVals) / |normVals| as real))
  {
  }

  /**
   * Two entities over a sixty-second period: one with changes to 20 at the
   * start and to 10 after thirty seconds, one without history whose live
   * value is 15. Both summaries are 15.
   */
  lemma TwoEntitiesSummaries(env: Env, a: Reading, b: Reading, liveA: Reading, liveB: Reading)
    requires env.parse("20") == Some(20.0) && env.parse("10") == Some(10.0) && env.parse("15") == Some(15.0)
    requires a.state == "20" && a.lastChanged == 0.0
    requires b.state == "10" && b.lastChanged == 30.0
    requires liveB.state == "15"
    ensures var acc := Run(env, Some(Span(0, 60)), Start(Some(false), None, None),
                           [Source(Some(liveA), Some([a, b]), None), Source(Some(liveB), None, None)]);
            acc.normVals == [15.0, 15.0]
  {
    var srcA := Source(Some(liveA), Some([a, b]), None);
    var srcB := Source(Some(liveB), None, None);
    var s := [srcA, srcB];
    var acc0 := Start(Some(false), None, None);
    TwoChangesAverageFifteen(env, a, b);
    assert s[..1] == [srcA] && [srcA][..0] == [];
    assert Run(env, Some(Span(0, 60)), acc0, [srcA][..0]) == acc0;
    var acc1 := Run(env, Some(Span(0, 60)), acc0, [srcA]);
    assert acc1 == EntityStep(env, Some(Span(0, 60)), acc0, srcA);
    assert acc1.normVals == [15.0];
    var acc2 := Run(env, Some(Span(0, 60)), acc0, s);
    assert acc2 == EntityStep(env, Some(Span(0, 60)), acc1, srcB);
  }

  /** In the same setting the mean of the two summaries is 15. */
  lemma TwoEntitiesMeanFifteen(env: Env, a: Reading, b: Reading, liveA: Reading, liveB: Reading)
    requires env.parse("20") == Some(20.0) && env.parse("10") == Some(10.0) && env.parse("15") == Some(15.0)
    requires a.state == "20" && a.lastChanged == 0.0
    requires b.state == "10" && b.lastChanged == 30.0
    requires liveB.state == "15"
    ensures var acc := Run(env, Some(Span(0, 60)), Start(Some(false), None, None),
                           [Source(Some(liveA), Some([a, b]), None), Source(Some(liveB), None, None)]);
            Reduce(env, acc.normVals, acc.table).mean == Some(env.round(15.0))
  {
    var acc := Run(env, Some(Span(0, 60)), Start(Some(false), None, None),
                   [Source(Some(liveA), Some([a, b]), None), Source(Some(liveB), None, None)]);
    TwoEntitiesSummaries(env, a, b, liveA, liveB);
    MeanFifteen(env, acc.normVals, acc.table);
  }

  lemma MeanFifteen(env: Env, normVals: seq<real>, table: Table<Option<real>>)
    requires normVals == [15.0, 15.0]
    ensures Reduce(env, normVals, table).mean == Some(env.round(15.0))
  {
    ReduceMean(env, normVals, table);
    assert Sum(normVals) == 30.0 by {
      assert normVals[..1] == [15.0];
      assert [15.0][..0] == [];
    }
  }
}
