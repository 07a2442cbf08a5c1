/**
 * The `AverageSensor` entity: its configuration, the fields its update
 * cycle rewrites, and the methods that rewrite them.
 */
module Sensor {
  import opened Common
  import opened Tables
  import opened Tracking
  import opened Readings
  import opened Periods
  import opened History
  import opened Cycle

  /** What the `state` property shows: the state, or "unavailable". */
  datatype Shown = Value(x: real) | Unavailable

  /** `_state` as `_has_state` sees it. */
  function AsRaw(v: Option<real>): Raw
  {
    if v.Some? then Num(v.value) else Null
  }

  /** The period floored to whole seconds, when there is one. */
  function SpanOf(period: Option<Window>): Option<Span>
  {
    if period.None? then None else Some(Span(Seconds(period.value.start), Seconds(period.value.end)))
  }

  /** `_update_state` returns early: the period it now has is, to the second, the previous one, and has ended. */
  predicate Skipped(previous: Option<Window>, period: Option<Window>, now: real)
  {
    period.Some? && Skips(previous, period.value, now)
  }

  class AverageSensor {
    /** The functions and fallback the sensor is given (parsing, conversion, rounding, `undef`). */
    const env: Env
    /** The output kind: which statistic becomes `_state`. */
    const kind: Kind
    /** Which of the start template, end template and duration are configured. */
    const keys: PeriodKeys
    /** The configured duration in seconds, read only when `keys.duration`. */
    const duration: real
    /** The expanded entity ids, and their number. */
    const sensors: seq<string>
    const countSensors: nat := |sensors|

    /** `_period`, and `start` and `end` as whole seconds. */
    var period: Option<Window>
    var startSecond: Option<int>
    var endSecond: Option<int>
    /** `_state`, `_unit_of_measurement`, `_icon`, `_temperature_mode`. */
    var state: Option<real>
    var unit: Option<string>
    var icon: Option<string>
    var temperatureMode: Option<bool>
    var availableSensors: nat
    /** The running statistics of `_get_state_value`. */
    var count: nat
    var minValue: Option<real>
    var maxValue: Option<real>
    var minEntityId: Option<string>
    var maxEntityId: Option<string>
    var last: Option<real>
    var lastTs: Option<real>
    var lastEntityId: Option<string>
    /** The reducers' results. */
    var mean: Option<real>
    var median: Option<real>
    var mode: Option<real>

    /** The running statistics as one value. */
    function Stats(): Tracker
      reads this
    {
      Tracker(count, minValue, maxValue, minEntityId, maxEntityId, last, lastTs, lastEntityId)
    }

    /** `min_value` and `max_value` are set together. */
    predicate Valid()
      reads this
    {
      Consistent(Stats())
    }

    constructor(env: Env, kind: Kind, keys: PeriodKeys, duration: real, sensors: seq<string>)
      ensures this.env == env && this.kind == kind && this.keys == keys && this.duration == duration
      ensures this.sensors == sensors && countSensors == |sensors|
      ensures period.None? && startSecond.None? && endSecond.None?
      ensures state.None? && unit.None? && icon.None? && temperatureMode.None?
      ensures availableSensors == 0 && Stats() == Reset(None, None)
      ensures mean.None? && median.None? && mode.None?
      ensures Valid()
    {
      this.env := env;
      this.kind := kind;
      this.keys := keys;
      this.duration := duration;
      this.sensors := sensors;
      period, startSecond, endSecond := None, None, None;
      state, unit, icon, temperatureMode := None, None, None, None;
      availableSensors := 0;
      count := 0;
      minValue, maxValue, mean, median, mode := None, None, None, None, None;
      last, lastTs := None, None;
      minEntityId, maxEntityId, lastEntityId := None, None, None;
    }

    /**
     * What the sensor reads comes from its configured entities, in order:
     * one source per entity, and a current state found for an entity is
     * that entity's.
     */
    predicate SourcesOf(sources: seq<Source>)
    {
      && |sources| == |sensors|
      && forall i :: 0 <= i < |sources| && sources[i].current.Some? ==> sources[i].current.value.entityId == sensors[i]
    }

    /** `_has_period`, which is also `should_poll`. */
    predicate HasPeriod()
      reads this
      ensures HasPeriod() <==> keys.start || keys.end || keys.duration
    {
      Periods.HasPeriod(keys)
    }

    /** `available`: some entity gave a numeric summary and `_state` is defined. */
    function Available(): (r: bool)
      reads this
      ensures r <==> availableSensors > 0 && state.Some?
    {
      UndefinedValues(AsRaw(state));
      availableSensors > 0 && HasState(AsRaw(state))
    }

    /** The `state` property. */
    function Shown(): (r: Shown)
      reads this
      ensures r == Unavailable <==> availableSensors == 0 || state.None?
      ensures r.Value? ==> state == Some(r.x)
    {
      if Available() then Value(state.value) else Unavailable
    }

    /**
     * `_get_state_value`: an undefined value gives `undef` and an unparsable
     * one None, both leaving the statistics alone; a parsed value counts
     * once, moves min or max only when strictly beyond them, moves last only
     * for a strictly later `last_changed`, and is returned unrounded.
     */
    method GetStateValue(r: Reading) returns (v: Option<real>, raised: bool)
      requires Valid()
      modifies this`count, this`minValue, this`maxValue, this`minEntityId, this`maxEntityId,
               this`last, this`lastTs, this`lastEntityId
      ensures Valid()
      ensures var e := Extract(env, temperatureMode == Some(true), r);
              && raised == e.Raises?
              && (!raised ==> v == ValueOf(env, e))
              && Stats() == ObserveAll(old(Stats()), Observation(env, e, r))
      ensures var e := Extract(env, temperatureMode == Some(true), r);
              !e.Parsed? ==> Stats() == old(Stats())
      ensures var e := Extract(env, temperatureMode == Some(true), r);
              e.Parsed? ==> count == old(count) + 1 && v == Some(e.v)
    {
      var e := Extract(env, temperatureMode == Some(true), r);
      match e
      case Raises =>
        return None, true;
      case Undefined =>
        return env.undef, false;
      case Unparsable =>
        return None, false;
      case Parsed(value) =>
        var rvalue := env.round(value);
        Record(Obs(r.entityId, rvalue, r.lastChanged));
        ObserveSingle(old(Stats()), Obs(r.entityId, rvalue, r.lastChanged));
        return Some(value), false;
    }

    /**
     * The bookkeeping of `_get_state_value` for one parsed value: the count,
     * the bounds with the entity that set them, and the latest value.
     */
    method Record(o: Obs)
      requires Valid()
      modifies this`count, this`minValue, this`maxValue, this`minEntityId, this`maxEntityId,
               this`last, this`lastTs, this`lastEntityId
      ensures Valid() && Stats() == Observe(old(Stats()), o)
    {
      count := count + 1;
      if minValue.None? {
        minValue, maxValue := Some(o.value), Some(o.value);
        minEntityId, maxEntityId := Some(o.entityId), Some(o.entityId);
      } else {
        if o.value < minValue.value {
          minValue := Some(o.value);
          minEntityId := Some(o.entityId);
        }
        if o.value > maxValue.value {
          maxValue := Some(o.value);
          maxEntityId := Some(o.entityId);
        }
      }
      if lastTs.None? || lastTs.value < o.at {
        lastTs := Some(o.at);
        last := Some(o.value);
        lastEntityId := Some(o.entityId);
      }
    }

    /**
     * `_update_period`: stores the window `Resolve` gives, with its bounds
     * floored to whole seconds; where it gives none (a template that fails,
     * a missing bound, a start after now), nothing changes.
     */
    method UpdatePeriod(now: real, rs: Rendered, re: Rendered)
      modifies this`period, this`startSecond, this`endSecond
      ensures var w := Resolve(keys, duration, now, rs, re);
              if w.Some? then
                period == w && startSecond == Some(Seconds(w.value.start)) && endSecond == Some(Seconds(w.value.end))
              else
                period == old(period) && startSecond == old(startSecond) && endSecond == old(endSecond)
    {
      var raw := PeriodBounds(now, rs, re);
      if raw.None? {
        return;
      }
      var start, end := raw.value.start, raw.value.end;
      if start > now {
        return;
      }
      if now < end {
        end := now;
      }
      period := Some(Window(start, end));
      startSecond := Some(Seconds(start));
      endSecond := Some(Seconds(end));
    }

    /**
     * The first part of `_update_period`: the rendered templates that are
     * configured, completed by the duration; None where it returns early.
     */
    method PeriodBounds(now: real, rs: Rendered, re: Rendered) returns (w: Option<Window>)
      ensures w == RawWindow(keys, duration, now, rs, re)
      ensures keys.duration && !keys.start && !keys.end ==> w == Some(Window(now - duration, now))
      ensures keys.start && w.Some? ==> w.value.start == Instant(rs).value
      ensures keys.end && !(keys.start && keys.duration) && w.Some? ==> w.value.end == Instant(re).value
      ensures keys.start && keys.duration && w.Some? ==> w.value.end == w.value.start + duration
      ensures keys.end && keys.duration && !keys.start && w.Some? ==> w.value.start == w.value.end - duration
    {
      var start: Option<real> := None;
      var end: Option<real> := None;
      if keys.start {
        match rs
        case RenderError => return None;
        case NotATime => return None;
        case DateTime(t) => start := Some(t);
        case Number(x) => start := Some(x.Floor as real);
      }
      if keys.end {
        match re
        case RenderError => return None;
        case NotATime => return None;
        case DateTime(t) => end := Some(t);
        case Number(x) => end := Some(x.Floor as real);
      }
      if keys.duration {
        if start.None? {
          if end.None? {
            end := Some(now);
          }
          start := Some(end.value - duration);
        } else {
          end := Some(start.value + duration);
        }
      }
      if start.None? || end.None? {
        return None;
      }
      w := Some(Window(start.value, end.value));
    }

    /**
     * The history branch of `_update_state` for one entity: the state at the
     * start, the loop over the recorded changes and the stretch up to the
     * end, adding to the shared table as it goes.
     */
    method HistoryAverage(changes: seq<Reading>, atStart: Option<Reading>, span: Span, table: Table<Option<real>>)
      returns (sumVal: real, values: Table<Option<real>>, raised: bool, ghost obs: seq<Obs>)
      requires Valid()
      modifies this`count, this`minValue, this`maxValue, this`minEntityId, this`maxEntityId,
               this`last, this`lastTs, this`lastEntityId
      ensures Valid()
      ensures var h := HistoryWalk(env, temperatureMode == Some(true), atStart, changes, span.startTs, span.endTs, table);
              && raised == h.raised && obs == h.obs && values == h.table
              && Stats() == ObserveAll(old(Stats()), obs)
              && (!raised ==> sumVal == Average(h))
    {
      ghost var tm := temperatureMode == Some(true);
      ghost var stats0 := Stats();
      var lastState: Option<real>;
      lastState, values, raised, obs := VisitStart(atStart, span.startTs, table);
      ghost var b := Begin(env, tm, atStart, span.startTs, table);
      if raised {
        StepsRaised(env, tm, b, changes);
        assert HistoryWalk(env, tm, atStart, changes, span.startTs, span.endTs, table) == b;
        return 0.0, values, true, obs;
      }
      var lastTime: real := span.startTs as real;
      sumVal := 0.0;
      var elapsed := 0.0;
      assert Walk(lastState, lastTime, sumVal, elapsed, values, obs, false) == b;
      lastState, lastTime, sumVal, elapsed, values, raised, obs := WalkChanges(changes, lastState, lastTime, sumVal, elapsed, values, obs, stats0);
      if raised {
        assert HistoryWalk(env, tm, atStart, changes, span.startTs, span.endTs, table)
            == Walk(lastState, lastTime, sumVal, elapsed, values, obs, true);
        return 0.0, values, true, obs;
      }
      ghost var wEnd := Walk(lastState, lastTime, sumVal, elapsed, values, obs, false);
      assert HistoryWalk(env, tm, atStart, changes, span.startTs, span.endTs, table) == Close(wEnd, span.endTs);
      sumVal, values := CloseWalk(lastState, lastTime, sumVal, elapsed, values, obs, span.endTs);
    }

    /** The stretch from the last change to `end_ts`, then `sum_val / elapsed` where `elapsed` is not 0. */
    method CloseWalk(lastState: Option<real>, lastTime: real, sum0: real, elapsed0: real, values0: Table<Option<real>>,
                     ghost obs: seq<Obs>, endTs: int)
      returns (sumVal: real, values: Table<Option<real>>)
      ensures var c := Close(Walk(lastState, lastTime, sum0, elapsed0, values0, obs, false), endTs);
              sumVal == Average(c) && values == c.table
    {
      ghost var w := Walk(lastState, lastTime, sum0, elapsed0, values0, obs, false);
      sumVal, values := sum0, values0;
      var elapsed := elapsed0;
      if lastState.Some? {
        var stretch := endTs as real - lastTime;
        sumVal := Credited(sumVal, lastState.value, stretch);
        values := Add(values, lastState, stretch);
        elapsed := elapsed + stretch;
        assert Walk(lastState, lastTime, sumVal, elapsed, values, obs, false) == Close(w, endTs);
      } else {
        assert Close(w, endTs) == w;
      }
      if elapsed != 0.0 {
        sumVal := sumVal / elapsed;
      }
    }

    /** The state at the start of the period: a defined one is read and enters the table with weight 1. */
    method VisitStart(atStart: Option<Reading>, ghost startTs: int, table: Table<Option<real>>)
      returns (lastState: Option<real>, values: Table<Option<real>>, raised: bool, ghost obs: seq<Obs>)
      requires Valid()
      modifies this`count, this`minValue, this`maxValue, this`minEntityId, this`maxEntityId,
               this`last, this`lastTs, this`lastEntityId
      ensures Valid() && Stats() == ObserveAll(old(Stats()), obs)
      ensures Begin(env, temperatureMode == Some(true), atStart, startTs, table)
                == Walk(lastState, startTs as real, 0.0, 0.0, values, obs, raised)
    {
      lastState, values, raised, obs := None, table, false, [];
      assert ObserveAll(Stats(), []) == Stats();
      if atStart.Some? && HasState(Text(atStart.value.state)) {
        var v, r := GetStateValue(atStart.value);
        if r {
          return None, values, true, [];
        }
        lastState := v;
        values := Add(values, v, 1.0);
        obs := Observation(env, Extract(env, temperatureMode == Some(true), atStart.value), atStart.value);
      }
    }

    /**
     * The loop over the recorded changes: walks them from the given
     * `last_state`, `last_time`, `sum_val`, `elapsed` and table, and stops
     * where an exception escapes.
     */
    method WalkChanges(changes: seq<Reading>, lastState0: Option<real>, lastTime0: real, sum0: real, elapsed0: real,
                       values0: Table<Option<real>>, ghost obs0: seq<Obs>, ghost stats0: Tracker)
      returns (lastState: Option<real>, lastTime: real, sumVal: real, elapsed: real, values: Table<Option<real>>,
               raised: bool, ghost obs: seq<Obs>)
      requires Valid() && Consistent(stats0) && Stats() == ObserveAll(stats0, obs0)
      modifies this`count, this`minValue, this`maxValue, this`minEntityId, this`maxEntityId,
               this`last, this`lastTs, this`lastEntityId
      ensures Valid() && Stats() == ObserveAll(stats0, obs)
      ensures Steps(env, temperatureMode == Some(true), Walk(lastState0, lastTime0, sum0, elapsed0, values0, obs0, false), changes)
                == Walk(lastState, lastTime, sumVal, elapsed, values, obs, raised)
    {
      ghost var tm := temperatureMode == Some(true);
      ghost var b := Walk(lastState0, lastTime0, sum0, elapsed0, values0, obs0, false);
      lastState, lastTime, sumVal, elapsed, values, obs := lastState0, lastTime0, sum0, elapsed0, values0, obs0;
      raised := false;
      for i := 0 to |changes|
        invariant Walk(lastState, lastTime, sumVal, elapsed, values, obs, false) == Steps(env, tm, b, changes[..i])
        invariant Valid() && Stats() == ObserveAll(stats0, obs)
      {
        assert changes[..i + 1][..i] == changes[..i];
        ghost var w0 := Walk(lastState, lastTime, sumVal, elapsed, values, obs, false);
        lastState, lastTime, sumVal, elapsed, values, raised, obs :=
          VisitChange(changes[i], lastState, lastTime, sumVal, elapsed, values, obs, stats0);
        if raised {
          StepsStop(env, tm, b, changes, i);
          return;
        }
      }
      assert changes[..|changes|] == changes;
    }

    /** One pass of the loop over the recorded changes. */
    method VisitChange(item: Reading, lastState0: Option<real>, lastTime0: real, sum0: real, elapsed0: real,
                       values0: Table<Option<real>>, ghost obs0: seq<Obs>, ghost stats0: Tracker)
      returns (lastState: Option<real>, lastTime: real, sumVal: real, elapsed: real, values: Table<Option<real>>,
               raised: bool, ghost obs: seq<Obs>)
      requires Valid() && Consistent(stats0) && Stats() == ObserveAll(stats0, obs0)
      modifies this`count, this`minValue, this`maxValue, this`minEntityId, this`maxEntityId,
               this`last, this`lastTs, this`lastEntityId
      ensures Valid() && Stats() == ObserveAll(stats0, obs)
      ensures Step(env, temperatureMode == Some(true), Walk(lastState0, lastTime0, sum0, elapsed0, values0, obs0, false), item)
                == Walk(lastState, lastTime, sumVal, elapsed, values, obs, raised)
    {
      ghost var tm := temperatureMode == Some(true);
      ghost var w0 := Walk(lastState0, lastTime0, sum0, elapsed0, values0, obs0, false);
      lastState, lastTime, sumVal, elapsed, values, obs := lastState0, lastTime0, sum0, elapsed0, values0, obs0;
      raised := false;
      if HasState(Text(item.state)) {
        var current, r := GetStateValue(item);
        ghost var e := Extract(env, tm, item);
        ghost var o := Observation(env, e, item);
        ObserveAllConcat(stats0, obs0, o);
        if r {
          raised := true;
          return;
        }
        StepKept(env, tm, w0, item);
        var currentTime := item.lastChanged;
        if lastState.Some? {
          var stretch := currentTime - lastTime;
          sumVal := Credited(sumVal, lastState.value, stretch);
          values := Add(values, lastState, stretch);
          elapsed := elapsed + stretch;
        }
        lastState := current;
        lastTime := currentTime;
        obs := obs + o;
      }
    }

    /**
     * The temperature-mode decision of `_update_state`, taken on the first
     * entity found: a weather, climate or water-heater entity, or one whose
     * unit is a temperature unit, puts the sensor in temperature mode with
     * the host's temperature unit and a thermometer icon; any other entity
     * lends the sensor its own unit and icon.
     */
    method DecideMode(cur: Reading)
      modifies this`temperatureMode, this`unit, this`icon
      ensures old(temperatureMode).Some? ==>
                temperatureMode == old(temperatureMode) && unit == old(unit) && icon == old(icon)
      ensures old(temperatureMode).None? ==>
                var d := Decide(env, cur);
                temperatureMode == Some(d.temperatureMode) && unit == d.unit && icon == d.icon
    {
      if temperatureMode.None? {
        var isTemperature := cur.domain == Weather || cur.domain == Climate || cur.domain == WaterHeater
                             || (cur.unit.Some? && cur.unit.value in TEMPERATURE_UNITS);
        temperatureMode := Some(isTemperature);
        if isTemperature {
          unit := Some(env.haUnit);
          icon := Some("mdi:thermometer");
        } else {
          unit := cur.unit;
          icon := cur.icon;
        }
      }
    }

    /** The loop state of `_update_state` as one value. */
    function Loop(normVals: seq<real>, values: Table<Option<real>>, obs: seq<Obs>, raised: bool): Acc
      reads this
    {
      Acc(temperatureMode, unit, icon, availableSensors, normVals, values, obs, raised)
    }

    /**
     * One turn of the loop of `_update_state`: a missing entity is skipped;
     * otherwise the mode is decided, the entity's summary is computed (the
     * live value, or the history average), and a numeric summary is counted
     * in `available_sensors` and appended to `norm_vals`.
     */
    method VisitEntity(src: Source, span: Option<Span>, normVals0: seq<real>, values0: Table<Option<real>>,
                       ghost obs0: seq<Obs>, ghost stats0: Tracker)
      returns (normVals: seq<real>, values: Table<Option<real>>, raised: bool, ghost obs: seq<Obs>)
      requires Valid() && Consistent(stats0) && Stats() == ObserveAll(stats0, obs0)
      modifies this`temperatureMode, this`unit, this`icon, this`availableSensors,
               this`count, this`minValue, this`maxValue, this`minEntityId, this`maxEntityId,
               this`last, this`lastTs, this`lastEntityId
      ensures Valid() && Stats() == ObserveAll(stats0, obs)
      ensures EntityStep(env, span, old(Loop(normVals0, values0, obs0, false)), src) == Loop(normVals, values, obs, raised)
    {
      ghost var acc0 := Loop(normVals0, values0, obs0, false);
      normVals, values, raised, obs := normVals0, values0, false, obs0;
      if src.current.None? {
        MissingEntityIgnored(env, span, acc0, src);
        return;
      }
      var cur := src.current.value;
      DecideMode(cur);
      ghost var decided := Loop(normVals, values, obs, false);
      assert decided == Decided(env, acc0, cur);
      normVals, values, raised, obs := CountEntity(src, span, cur, normVals, values, obs, stats0);
    }

    /** The rest of a turn, once the mode is decided: the summary, counted when it is a number. */
    method CountEntity(src: Source, span: Option<Span>, cur: Reading, normVals0: seq<real>, values0: Table<Option<real>>,
                       ghost obs0: seq<Obs>, ghost stats0: Tracker)
      returns (normVals: seq<real>, values: Table<Option<real>>, raised: bool, ghost obs: seq<Obs>)
      requires Valid() && Consistent(stats0) && Stats() == ObserveAll(stats0, obs0) && temperatureMode.Some?
      modifies this`availableSensors,
               this`count, this`minValue, this`maxValue, this`minEntityId, this`maxEntityId,
               this`last, this`lastTs, this`lastEntityId
      ensures Valid() && Stats() == ObserveAll(stats0, obs)
      ensures Loop(normVals, values, obs, raised)
                == Counted(old(Loop(normVals0, values0, obs0, false)), Contribution(env, temperatureMode.value, span, src, cur, values0))
    {
      ghost var acc := Loop(normVals0, values0, obs0, false);
      normVals := normVals0;
      var sumVal: Option<real>;
      ghost var added: seq<Obs>;
      sumVal, values, raised, added := Summarize(src, span, cur, values0);
      ghost var c := Entry(sumVal, values, added, raised);
      ObserveAllConcat(stats0, obs0, added);
      obs := obs0 + added;
      if raised {
        assert Loop(normVals, values, obs, raised) == Counted(acc, c);
        return;
      }
      if sumVal.Some? {
        normVals := normVals + [sumVal.value];
        availableSensors := availableSensors + 1;
      }
      assert Loop(normVals, values, obs, raised) == Counted(acc, c);
    }

    /**
     * One entity's summary in `_update_state`: without a period, or when the
     * history has no entry for the entity, its live value, added to the
     * table with weight 1; otherwise the average of its history.
     */
    method Summarize(src: Source, span: Option<Span>, cur: Reading, values0: Table<Option<real>>)
      returns (sumVal: Option<real>, values: Table<Option<real>>, raised: bool, ghost added: seq<Obs>)
      requires Valid() && temperatureMode.Some?
      modifies this`count, this`minValue, this`maxValue, this`minEntityId, this`maxEntityId,
               this`last, this`lastTs, this`lastEntityId
      ensures Valid() && Stats() == ObserveAll(old(Stats()), added)
      ensures Contribution(env, temperatureMode.value, span, src, cur, values0) == Entry(sumVal, values, added, raised)
    {
      if span.None? || src.changes.None? {
        var v, r := GetStateValue(cur);
        added := Observation(env, Extract(env, temperatureMode.value, cur), cur);
        if r {
          return None, values0, true, [];
        }
        sumVal := v;
        values := Add(values0, v, 1.0);
        raised := false;
      } else {
        var average: real;
        average, values, raised, added := HistoryAverage(src.changes.value, src.atStart, span.value, values0);
        sumVal := if raised then None else Some(average);
      }
    }

    /**
     * The end of `_update_state`: mean, median and mode from `norm_vals`
     * and the table (median and mode were cleared by the reset, and keep
     * that value when `calc_median` raises), then `_state` from the
     * attribute the kind names, unless something raised before.
     */
    method Finalize(normVals: seq<real>, values: Table<Option<real>>) returns (raised: bool)
      requires median.None? && mode.None?
      modifies this`mean, this`median, this`mode, this`state
      ensures var out := Reduce(env, normVals, values);
              mean == out.mean && median == out.median && mode == out.mode && raised == out.raised
      ensures state == if raised then old(state) else Select(kind, Reduce(env, normVals, values), Stats())
    {
      var out := Reducers(normVals, values);
      mean, median, mode, raised := out.mean, out.median, out.mode, out.raised;
      if raised {
        return;
      }
      match kind
      case MeanKind => state := mean;
      case MedianKind => state := median;
      case ModeKind => state := mode;
      case MinKind => state := minValue;
      case MaxKind => state := maxValue;
      case LastKind => state := last;
    }

    /** The reducers of `_update_state`, in the order the source runs them, stopping where one raises. */
    method Reducers(normVals: seq<real>, values: Table<Option<real>>) returns (out: Outcome)
      ensures out == Reduce(env, normVals, values)
    {
      if normVals == [] {
        return Outcome(None, None, None, false);
      }
      var mean := Some(env.round(Sum(normVals) / |normVals| as real));
      var numeric := RealTable(values);
      if numeric.None? {
        // `sorted` or the midpoint sum meets None: TypeError
        return Outcome(mean, None, None, true);
      }
      var m := Median(numeric.value);
      if m.None? {
        // an index past the sorted keys: IndexError
        return Outcome(mean, None, None, true);
      }
      var md := CalcMode(numeric.value);
      out := Outcome(mean, Some(env.round(m.value)), Some(env.round(md)), false);
    }

    /**
     * What `_update_state` leaves once its loop ended in `acc`, from the
     * statistics `stats0` right after the reset and the state `state0` it
     * started from: the mode, unit, icon and count of the loop; the
     * statistics of every observation the loop made; and, unless the loop
     * raised, mean, median, mode and state from the reducers. An exception
     * keeps the state the sensor had.
     */
    ghost predicate Concluded(acc: Acc, stats0: Tracker, state0: Option<real>, raised: bool)
      reads this
    {
      && temperatureMode == acc.temperatureMode && unit == acc.unit && icon == acc.icon
      && availableSensors == acc.available
      && Consistent(stats0) && Stats() == ObserveAll(stats0, acc.obs)
      && (acc.raised ==> raised && mean.None? && median.None? && mode.None? && state == state0)
      && (!acc.raised ==>
            var out := Reduce(env, acc.normVals, acc.table);
            && raised == out.raised && mean == out.mean && median == out.median && mode == out.mode
            && state == if out.raised then state0 else Select(kind, out, Stats()))
    }

    /**
     * `_update_state`: refreshes the period; returns at once when the period
     * (to the second) is the one averaged last time and has ended; otherwise
     * resets the statistics, visits the configured entities in order, and
     * computes mean, median, mode and the state. An exception escaping
     * anywhere leaves the fields as they were at that point; `raised` says
     * whether one did.
     */
    method UpdateState(now: real, rs: Rendered, re: Rendered, sources: seq<Source>) returns (raised: bool)
      requires Valid() && SourcesOf(sources)
      modifies this
      ensures Valid()
      ensures var w := Resolve(keys, duration, now, rs, re);
              if w.Some? then
                period == w && startSecond == Some(Seconds(w.value.start)) && endSecond == Some(Seconds(w.value.end))
              else
                period == old(period) && startSecond == old(startSecond) && endSecond == old(endSecond)
      ensures Skipped(old(period), period, now) ==>
                !raised && state == old(state) && temperatureMode == old(temperatureMode)
                && unit == old(unit) && icon == old(icon) && availableSensors == old(availableSensors)
                && Stats() == old(Stats()) && mean == old(mean) && median == old(median) && mode == old(mode)
      ensures !Skipped(old(period), period, now) ==>
                Concluded(Run(env, SpanOf(period), Start(old(temperatureMode), old(unit), old(icon)), sources),
                          Reset(old(minEntityId), old(maxEntityId)), old(state), raised)
      ensures !Skipped(old(period), period, now) ==> availableSensors <= countSensors
    {
      var previous := period;
      UpdatePeriod(now, rs, re);
      var span: Option<Span> := None;
      if period.Some? {
        var (ps, pe) := if previous.None? then (now, now) else (previous.value.start, previous.value.end);
        var startTs, endTs := Seconds(period.value.start), Seconds(period.value.end);
        if startTs == Seconds(ps) && endTs == Seconds(pe) && endTs <= Seconds(now) {
          return false;
        }
        span := Some(Span(startTs, endTs));
      }
      assert span == SpanOf(period);
      raised := Recompute(span, sources);
      RunCounts(env, span, Start(old(temperatureMode), old(unit), old(icon)), sources);
    }

    /**
     * The part of `_update_state` after the early return: the reset, the
     * loop over the entities and the reducers, over the period `span`.
     */
    method Recompute(span: Option<Span>, sources: seq<Source>) returns (raised: bool)
      requires Valid()
      modifies this`temperatureMode, this`unit, this`icon, this`availableSensors,
               this`count, this`minValue, this`maxValue, this`minEntityId, this`maxEntityId,
               this`last, this`lastTs, this`lastEntityId, this`mean, this`median, this`mode, this`state
      ensures Valid()
      ensures Concluded(Run(env, span, Start(old(temperatureMode), old(unit), old(icon)), sources),
                        Reset(old(minEntityId), old(maxEntityId)), old(state), raised)
    {
      ResetStats();
      ghost var stats0 := Stats();
      var normVals: seq<real>;
      var values: Table<Option<real>>;
      ghost var obs: seq<Obs>;
      normVals, values, raised, obs := VisitAll(span, sources, stats0);
      ghost var acc := Run(env, span, Start(old(temperatureMode), old(unit), old(icon)), sources);
      assert acc == Loop(normVals, values, obs, raised);
      raised := Conclude(normVals, values, raised, obs, stats0);
    }

    /** The reset at the start of `_update_state`: no sensor counted, no statistics, no results. */
    method ResetStats()
      modifies this`availableSensors, this`count, this`minValue, this`maxValue,
               this`last, this`lastTs, this`lastEntityId, this`mean, this`median, this`mode
      ensures Valid() && Stats() == Reset(minEntityId, maxEntityId)
      ensures availableSensors == 0 && mean.None? && median.None? && mode.None?
    {
      availableSensors := 0;
      count := 0;
      minValue, maxValue, mean, median, mode := None, None, None, None, None;
      last, lastEntityId, lastTs := None, None, None;
    }

    /** After the loop: the reducers unless the loop raised. */
    method Conclude(normVals: seq<real>, values: Table<Option<real>>, raised0: bool, ghost obs: seq<Obs>, ghost stats0: Tracker)
      returns (raised: bool)
      requires Valid() && Consistent(stats0) && Stats() == ObserveAll(stats0, obs) && mean.None? && median.None? && mode.None?
      modifies this`mean, this`median, this`mode, this`state
      ensures Valid()
      ensures Concluded(Loop(normVals, values, obs, raised0), stats0, old(state), raised)
    {
      if raised0 {
        return true;
      }
      raised := Finalize(normVals, values);
    }

    /** The loop of `_update_state` over the configured entities, from the state after the reset. */
    method VisitAll(span: Option<Span>, sources: seq<Source>, ghost stats0: Tracker)
      returns (normVals: seq<real>, values: Table<Option<real>>, raised: bool, ghost obs: seq<Obs>)
      requires Valid() && stats0 == Stats() && availableSensors == 0
      modifies this`temperatureMode, this`unit, this`icon, this`availableSensors,
               this`count, this`minValue, this`maxValue, this`minEntityId, this`maxEntityId,
               this`last, this`lastTs, this`lastEntityId
      ensures Valid() && Stats() == ObserveAll(stats0, obs)
      ensures Run(env, span, Start(old(temperatureMode), old(unit), old(icon)), sources) == Loop(normVals, values, obs, raised)
    {
      normVals, values, raised, obs := [], [], false, [];
      ghost var start := Start(temperatureMode, unit, icon);
      assert ObserveAll(stats0, []) == stats0;
      assert sources[..0] == [];
      for i := 0 to |sources|
        invariant Loop(normVals, values, obs, false) == Run(env, span, start, sources[..i])
        invariant Valid() && Stats() == ObserveAll(stats0, obs)
      {
        assert sources[..i + 1][..i] == sources[..i];
        normVals, values, raised, obs := VisitEntity(sources[i], span, normVals, values, obs, stats0);
        if raised {
          RunStop(env, span, start, sources, i);
          return;
        }
      }
      assert sources[..|sources|] == sources;
    }
  }
}
