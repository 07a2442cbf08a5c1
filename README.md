# Average sensor — a Dafny model

This project models the `AverageSensor` entity of the `average` custom
component for Home Assistant. The model covers:

- `check_period_keys` and what each accepted configuration means;
- how `_update_period` turns the start and end templates and the duration
  into a period that ends no later than now;
- how `_get_state_value` reads an entity state (with `_has_state` and
  `_get_temperature`) and keeps count, min, max and last;
- how `_update_state` walks the configured entities:
  - it decides temperature mode on the first entity it finds;
  - it takes each entity's live value, or the time-weighted average of its
    history over the period;
  - it fills the `values` table through `add_value`;
- mean, `calc_median` (the two-pointer weighted median, reproduced step for
  step) and `calc_mode`;
- `available` and `state`.

## Layout

| File | Module | Contents |
|---|---|---|
| `common.dfy` | `Common` | `Option` and the sum of a list of reals. |
| `tables.dfy` | `Tables` | The weighted table (an insertion-ordered dict as a list of pairs), `add_value`, the sort, `calc_median` and `calc_mode`. |
| `tracking.dfy` | `Tracking` | The statistics `count`, `min_value`, `max_value`, `last` and their entity ids, as a fold over successful parses. |
| `readings.dfy` | `Readings` | State objects and `_has_state`. How a value is pulled from a reading (`_get_temperature`). The temperature-mode decision. |
| `periods.dfy` | `Periods` | `check_period_keys`, the window of `_update_period`, and the early-return test of `_update_state`. |
| `history.dfy` | `History` | One entity's walk over its history: the state at start, the changes, the stretch to the end, and the average. |
| `cycle.dfy` | `Cycle` | One whole pass of `_update_state` over the entities, and the reducers at its end, as functions. |
| `sensor.dfy` | `Sensor` | The class `AverageSensor`. Its fields are those `_update_period`, `_get_state_value` and `_update_state` rewrite. Its methods are proved to leave exactly the state the functions above describe. |

## Inputs from outside

Everything the sensor asks of Home Assistant is a parameter:

- `Readings.Env` holds the following:
  - Python's `float()` on a string, returning None where it raises `ValueError`;
  - `convert_temperature`, returning None where it raises;
  - the host temperature unit;
  - `round(_, precision)`;
  - the `process_undef_as` fallback.
- `Periods.Rendered` stands for what a rendered template parses to.
- `now` is an argument, as timestamps in seconds.
- `Cycle.Source` gives, for each configured entity in order:
  - the result of `hass.states.get`;
  - the entity's entry in `history.state_changes_during_period` (None when
    there is no entry);
  - the result of `history.get_state` at the start.

  `UpdateState` requires one source per configured entity, in order, and a
  current state found for an entity to be that entity's (`SourcesOf`).

The weights in the table are arbitrary reals, because stretches of history
are computed from the recorded timestamps. The table's keys are
`Option<real>`, because `add_value(None)` is possible: an unparsable live
value, or `undef` left at None.

## Model

| member | source | states |
|---|---|---|
| Periods.CheckPeriodKeys | custom_components/average/sensor.py:63-73 | A configuration is accepted exactly when it has no period key, only `duration`, or exactly two of `start`, `end`, `duration`; a rejection carries the intended `Message()` (the code's own text is `MessageAsWritten`). |
| Periods.MessageAsWritten | custom_components/average/sensor.py:67-72 | The rejection message as the adjacent literals make it: the merged literal " or maximum 2 of the following: , " separates the key names. |
| Periods.Message | custom_components/average/sensor.py:67-72 | The message as intended: the phrase, then the key names separated by ", ". |
| Periods.MessageAsWrittenIsGarbled | custom_components/average/sensor.py:67-72 | The message as written differs from the intended one: "duration" runs straight into "start". |
| Periods.HasPeriod | custom_components/average/sensor.py:222-229 | `_has_period`: true exactly when some period setting (start template, end template or duration) is configured. |
| Periods.Instant | custom_components/average/sensor.py:386-396 | A rendering gives no instant exactly when the template raised or the text is neither a datetime nor a number; a number is floored to whole seconds, and a datetime is taken as it is. |
| Periods.RawWindow | custom_components/average/sensor.py:375-428 | The bounds before the comparison with now: none when a configured template gives no instant, or when there is neither a duration nor both templates. A configured start template gives the start. A configured end template gives the end, unless a start and a duration are both configured. A duration gives the end as start plus duration, or the start as end minus duration, the end being now when there is no end template. |
| Periods.Resolve | custom_components/average/sensor.py:429-439 | A period is stored exactly when both bounds are known and the start is not after now; a stored period never ends after now. |
| Periods.ResolveClamps | custom_components/average/sensor.py:432-439 | A stored period keeps its start and ends at the earlier of its end and now. |
| Periods.DurationOnly | custom_components/average/sensor.py:418-439 | With only a duration, the period is the last `duration` seconds up to now; a negative duration stores nothing. |
| Periods.FailedRenderingStoresNothing | custom_components/average/sensor.py:380-416 | A configured template that raises, or whose text is no time, stores no period. |
| Periods.MissingBoundStoresNothing | custom_components/average/sensor.py:428-430 | Without a duration, and without both templates, no period is stored. |
| Periods.AcceptedKeysGiveWindow | custom_components/average/sensor.py:418-430 | Every accepted configuration that has a period, with templates that render, gives both bounds. |
| Periods.BoundsNotCompared | custom_components/average/sensor.py:429-439 | The bounds are never compared with each other: a start after the end, both before now, is stored as it is. |
| Periods.RepeatedWindowSkips | custom_components/average/sensor.py:473-476 | A period that has already ended, met again, is not recomputed. |
| Periods.OpenWindowDoesNotSkip | custom_components/average/sensor.py:473-476 | A period whose end, in whole seconds, is after now is always recomputed. |
| Periods.Skips | custom_components/average/sensor.py:455-476 | The early return of `_update_state`. With no period before, it is taken exactly when the new period starts and ends in the current second. A skipped period ends less than a second after now. |
| Readings.UndefinedValues | custom_components/average/sensor.py:296-302 | Exactly None, "unknown", "unavailable" and "None" count as undefined; every number counts as defined. |
| Readings.HasState | custom_components/average/sensor.py:296-302 | `_has_state`: false exactly for None, "unknown", "unavailable" and "None"; true for every number and for the empty string. |
| Readings.TemperatureField | custom_components/average/sensor.py:304-322 | The field `_get_temperature` reads: `temperature` for weather, `current_temperature` for climate and water heater, both in the host unit; otherwise the state in the entity's own `unit_of_measurement`. |
| Readings.Extract | custom_components/average/sensor.py:304-334 | Outside temperature mode: undefined exactly when the state is undefined; a defined state that `float()` rejects is "unparsable", and one it accepts is parsed to exactly that number; never an exception. In temperature mode: undefined exactly when the domain's field is (`temperature` for weather, `current_temperature` for climate and water heater, the state otherwise); a value that `float()` or `convert_temperature` rejects is an escaping exception, never a logged "unparsable"; a value is parsed exactly when both accept it, and then to `convert_temperature(float(field), unit)`. |
| Readings.DomainReadingsUseHostUnit | custom_components/average/sensor.py:308-316 | Weather, climate and water-heater readings are converted from the host unit, whatever their `unit_of_measurement`. |
| Readings.ValueOf | custom_components/average/sensor.py:326-355 | `_get_state_value` returns `undef` for an undefined value, None for an unparsable one, and the parsed value unrounded. |
| Readings.IsTemperatureEntity | custom_components/average/sensor.py:499-505 | An entity is a temperature entity exactly when it is a weather, climate or water-heater entity, or its unit is °C or °F. Without a unit, only its domain decides. |
| Readings.Decide | custom_components/average/sensor.py:499-515 | Temperature mode exactly for weather, climate and water-heater entities and units °C and °F. It brings the host unit and a thermometer icon; otherwise the entity's own unit and icon. |
| Tracking.Reset | custom_components/average/sensor.py:481-483 | After the reset: count 0, no bounds, no last value; the min and max entity ids are not cleared. |
| Tracking.Observe | custom_components/average/sensor.py:336-353 | One parse adds one to the count. The bounds enclose the new value and only widen. `last` changes only for a strictly later `last_changed`. |
| Tracking.ObserveAll | custom_components/average/sensor.py:336-353 | The bookkeeping of `_get_state_value` over a run of parses, in order, keeps `min_value` and `max_value` set together: both are None, or both are numbers. |
| Tracking.ObserveAllCount | custom_components/average/sensor.py:336 | After a run of parses the count has grown by their number. |
| Tracking.ObserveAllMin | custom_components/average/sensor.py:339-345 | After the reset and the parses, `min_value` and `min_entity_id` are the first least value and its entity. |
| Tracking.ObserveAllMax | custom_components/average/sensor.py:339-348 | After the reset and the parses, `max_value` and `max_entity_id` are the first greatest value and its entity. |
| Tracking.ObserveAllLatest | custom_components/average/sensor.py:350-353 | After the reset and the parses, `last`, `last_ts` and `last_entity_id` come from the first reading with the latest `last_changed`. |
| Tracking.ObserveAllSummarizes | custom_components/average/sensor.py:336-353 | The statistics after the reset and any parses are count, first min, first max and first latest; with no parse, nothing moved from the reset. |
| Tracking.ObserveOne | custom_components/average/sensor.py:339-353 | A single parse sets min, max and last to its value and entity. |
| Tracking.TiesKeepFirstEntity | custom_components/average/sensor.py:343-348 | Of two equal values the first entity stays both min and max. |
| Tables.Add | custom_components/average/sensor.py:485-487 | `add_value(k, w)` raises the weight of `k` by `w` and leaves every other weight as it was. |
| Tables.AddKeys | custom_components/average/sensor.py:485-487 | `add_value` keeps a key in its place and appends a new one. |
| Tables.AddAllDistinct | custom_components/average/sensor.py:485-487 | Any run of `add_value` keeps the keys distinct. |
| Tables.Sorted | custom_components/average/sensor.py:137 | `sorted(values.keys())` is an ascending permutation of the keys. |
| Tables.SortedAscending | custom_components/average/sensor.py:137 | Sorting an ascending list changes nothing. |
| Tables.Converge | custom_components/average/sensor.py:141-148 | The outer loop stops, whatever the weights, with both pointers in range and equal or adjacent. |
| Tables.WalkPointers | custom_components/average/sensor.py:138-148 | The three loops, run over positive weights, end where `Converge` ends. A positive `val_a` means `idx_a` moved, and a positive `val_b` means `idx_b` moved. |
| Tables.FinishPointers | custom_components/average/sensor.py:150-163 | On such pointers, the code after the loops reads only indices in range and returns a key or the midpoint of two keys. |
| Tables.CalcMedian | custom_components/average/sensor.py:135-163 | On a non-empty table with positive weights, `calc_median` is defined and returns the midpoint of two keys, within the key range. One key gives that key; two keys give their midpoint. |
| Tables.Median | custom_components/average/sensor.py:135-163 | `calc_median` on any table: None on an empty table, where the code indexes an empty key list. |
| Tables.MedianWithinKeys | custom_components/average/sensor.py:135-163 | On any table, whatever its weights, a value `calc_median` returns is the midpoint of two keys and lies between the least and the greatest key. |
| Tables.MedianOneOrTwoKeys | custom_components/average/sensor.py:137-163 | Whatever the weights, one key gives that key and two keys give their midpoint. |
| Tables.MedianHeavyFirstKey | custom_components/average/sensor.py:135-163 | `{1: 10, 2: 1, 3: 1}` gives 3: the code's median is not the weighted median. |
| Tables.MedianZeroWeightOutOfRange | custom_components/average/sensor.py:135-163 | `{1: 0, 2: 2, 3: 1}` makes the code index past the key list. |
| Tables.ModeScan | custom_components/average/sensor.py:166-172 | The loop of `calc_mode` ends with a `wmax` of at least -1 and at least every weight. A `wmax` above -1 comes with its entry's key; a `wmax` of -1 comes with `res` -1. |
| Tables.Mode | custom_components/average/sensor.py:166-174 | `calc_mode` is -1 on an empty table, and otherwise -1 or a key of the table. |
| Tables.ModeScanSound | custom_components/average/sensor.py:168-172 | The loop of `calc_mode` ends with -1 and -1 when every weight is at most -1; otherwise it ends with the greatest weight and the key of its first entry. |
| Tables.ModeIsMode | custom_components/average/sensor.py:166-174 | `calc_mode` returns the key of the first entry of greatest weight, or -1 when no weight exceeds -1. |
| Tables.CalcMode | custom_components/average/sensor.py:166-174 | The loop of `calc_mode` returns exactly that key. |
| History.Observation | custom_components/average/sensor.py:336-353 | A reading records one parse, its rounded value with its entity and time, exactly when its value parsed. |
| History.Begin | custom_components/average/sensor.py:541-549 | The state at the start: `last_time` is `start_ts`, `sum_val` and `elapsed` are 0. A defined state enters the table with weight 1, undefined or unparsable values included; an exception escapes exactly when reading it raises. No state, or an undefined one, leaves the table as it was. |
| History.Step | custom_components/average/sensor.py:552-565 | One change: an undefined change, or one after an exception, changes nothing. A defined change raises exactly when its reading raises, and raising changes nothing else. Otherwise its time becomes `last_time`. Recorded parses are only appended. |
| History.Steps | custom_components/average/sensor.py:552-565 | The change loop: an exception, once raised, stays raised, and recorded parses are only appended. |
| History.Close | custom_components/average/sensor.py:567-572 | The final stretch: with a numeric `last_state`, `elapsed` grows by `end_ts - last_time` and `sum_val` by `last_state` times that stretch. Otherwise, or after an exception, nothing changes. The last state, time and parses stay as they were. |
| History.HistoryWalk | custom_components/average/sensor.py:541-575 | The whole walk: an exception at the start stays raised, and the parses from the start come first. |
| History.Average | custom_components/average/sensor.py:574-575 | The summary is `sum_val / elapsed`, or `sum_val` itself when `elapsed` is 0. |
| History.UndefinedChangePassedOver | custom_components/average/sensor.py:554 | A recorded change with an undefined state changes nothing in the walk. |
| History.StepKept | custom_components/average/sensor.py:554-565 | A defined change credits the previous value with the time since `last_time`, then takes over as `last_state` and `last_time`. |
| History.BeginBalanced | custom_components/average/sensor.py:543-549 | A defined state at the start enters the table with weight 1 and leaves `sum_val` and `elapsed` at 0. |
| History.StepsBalanced | custom_components/average/sensor.py:552-565 | Every credit of the change loop goes both to `sum_val`/`elapsed` and to the table. |
| History.CloseBalanced | custom_components/average/sensor.py:567-572 | The final stretch to `end_ts` does the same. |
| History.HistoryWalkBalanced | custom_components/average/sensor.py:541-575 | Over a whole walk, the table gains exactly `sum_val` in mass and `elapsed` in weight, plus the state at the start with weight 1. |
| History.StepsRaised | custom_components/average/sensor.py:552-565 | Once an exception escaped, later changes do nothing. |
| History.StepsStop | custom_components/average/sensor.py:552-565 | The change loop ends at the first change whose reading raises. |
| History.HistoryTelescopes | custom_components/average/sensor.py:541-575 | With a numeric state at the start and changes that are passed over or parse, the stretches add up to `end_ts - start_ts`. |
| History.EmptyHistory | custom_components/average/sensor.py:541-575 | No state at the start and no change: the summary is 0 and the table is untouched. |
| History.SeedOnlyHistory | custom_components/average/sensor.py:541-575 | No recorded change, but a state at the start that parses to `x`: over a period of positive length, `elapsed` is the period's length and the summary is `x`. |
| History.TwoChangesAverageFifteen | custom_components/average/sensor.py:541-575 | 20 for thirty seconds, then 10 for thirty seconds, averages to 15. |
| Cycle.Decided | custom_components/average/sensor.py:499-515 | The mode is decided on an entity only while it is undecided, and then by `IsTemperatureEntity`. |
| Cycle.Start | custom_components/average/sensor.py:478-483 | The loop starts from the reset: nothing counted, empty `norm_vals` and table, no parses, no exception, and the mode, unit and icon as before. |
| Cycle.Contribution | custom_components/average/sensor.py:517-576 | One entity's summary. Without a period, or without a history entry, it is the live value: the parsed number, `undef` for an undefined value, None for an unparsable one, added to the table with weight 1; it raises exactly when reading raises. With history, a walk that does not raise always gives a number. A raised entity gives no summary. |
| Cycle.Counted | custom_components/average/sensor.py:578-580 | A summary that is a number, without an exception, is appended to `norm_vals` and counted once. Anything else leaves both as they were. The table and parses follow the entity, and the mode, unit and icon are kept. |
| Cycle.EntityStep | custom_components/average/sensor.py:490-580 | One turn: a missing entity, or one after an exception, changes nothing. Otherwise `norm_vals` is extended by at most one value, and the count grows by as much. Recorded parses are only appended. |
| Cycle.Run | custom_components/average/sensor.py:490-580 | The loop over all entities: the count never falls, and `norm_vals` and the parses are only appended to. |
| Cycle.MissingEntityIgnored | custom_components/average/sensor.py:493-497 | An entity without a current state changes nothing, whatever its history. |
| Cycle.RunMissing | custom_components/average/sensor.py:490-497 | A run of missing entities changes nothing. |
| Cycle.DecidedByFirstFound | custom_components/average/sensor.py:490-515 | The temperature mode is that of the first entity with a current state. |
| Cycle.DecisionKept | custom_components/average/sensor.py:499 | Once decided, mode, unit and icon never change again. |
| Cycle.RunCounts | custom_components/average/sensor.py:578-580 | `available_sensors` is the length of `norm_vals`, and grows by at most one per entity. |
| Cycle.RunRaised | custom_components/average/sensor.py:490-580 | After an exception the remaining entities do nothing. |
| Cycle.RunStop | custom_components/average/sensor.py:490-580 | The entity loop ends at the first entity that raises. |
| Cycle.RunConcat | custom_components/average/sensor.py:490-580 | Visiting two lists of entities in turn is visiting their concatenation. |
| Cycle.ReduceNullity | custom_components/average/sensor.py:582-588 | Unless a reducer raised, mean, median and mode are None exactly when `norm_vals` is empty. If one raised, median and mode are None. |
| Cycle.ReduceMean | custom_components/average/sensor.py:582-586 | The mean is the rounded average of `norm_vals`, whatever the table. |
| Cycle.Reduce | custom_components/average/sensor.py:582-588 | The reducers: with empty `norm_vals`, mean, median and mode are None and nothing raises. Median and mode are set together, and only when nothing raised and the mean was set. When a reducer raises, the mean is set and the median is None. |
| Cycle.NoneKeyRaises | custom_components/average/sensor.py:587 | A None key in the table makes `calc_median` raise. |
| Cycle.EmptyTableRaises | custom_components/average/sensor.py:587 | An empty table beside a numeric summary makes `calc_median` raise. |
| Cycle.UnavailableCountsAsFallback | custom_components/average/sensor.py:520-524 | With `undef` 0, an "unavailable" live entity contributes 0 and counts as available. |
| Cycle.SingleLiveRun | custom_components/average/sensor.py:490-580 | One live entity without a period gives one summary, its value, added with weight 1. |
| Cycle.SingleValueReduce | custom_components/average/sensor.py:582-588 | One summary with weight 1: mean, median and mode all equal it, rounded. |
| Cycle.SingleLiveReading | custom_components/average/sensor.py:478-588 | One live entity: mean, median, mode, min, max and last all equal its rounded value, with its entity id. |
| Cycle.TwoEntitiesSummaries | custom_components/average/sensor.py:490-580 | One entity with history averaging 15 and one without history whose live value is 15: both summaries are 15. |
| Cycle.TwoEntitiesMeanFifteen | custom_components/average/sensor.py:490-586 | In that setting the mean is 15, rounded. |
| Sensor.AverageSensor.constructor | custom_components/average/sensor.py:182-220 | No period, no state, mode undecided, nothing counted, `count_sensors` is the number of entities. |
| Sensor.AverageSensor.Available | custom_components/average/sensor.py:241-244 | Available exactly when some entity gave a numeric summary and the state is set. |
| Sensor.AverageSensor.HasPeriod | custom_components/average/sensor.py:222-229 | `_has_period`, and so `should_poll`: true exactly when a start template, an end template or a duration is configured. |
| Sensor.AverageSensor.Shown | custom_components/average/sensor.py:246-249 | "unavailable" exactly when not available; otherwise the state. |
| Sensor.AverageSensor.GetStateValue | custom_components/average/sensor.py:324-355 | Returns what `ValueOf` says, or reports the escaping exception. Only a parsed value touches the statistics: one more count, and the statistics as `Observe` gives them. |
| Sensor.AverageSensor.Record | custom_components/average/sensor.py:336-353 | The statistics after the bookkeeping are those of `Observe`. |
| Sensor.AverageSensor.PeriodBounds | custom_components/average/sensor.py:375-430 | The bounds are those of `RawWindow`: a configured start template gives the start, and a configured end template gives the end. A duration completes the start or the end: the end is the start plus the duration, or the start is the end (now, without an end template) minus the duration. |
| Sensor.AverageSensor.UpdatePeriod | custom_components/average/sensor.py:373-441 | Stores the period `Resolve` gives, and its bounds in whole seconds. Where `Resolve` gives none, nothing changes. |
| Sensor.AverageSensor.UpdateState | custom_components/average/sensor.py:443-592 | The period follows `Resolve`. On the early return nothing else changes. Otherwise every field is what `Run` over the entities and `Reduce` give, with the statistics from the reset, and `available_sensors` is at most `count_sensors`. An exception keeps the earlier `_state`; the reset, the partial counts and statistics, and a newly decided temperature mode remain. |
| Sensor.AverageSensor.Recompute | custom_components/average/sensor.py:478-592 | As `UpdateState` after the early return. |
| Sensor.AverageSensor.ResetStats | custom_components/average/sensor.py:478-483 | The reset: nothing counted, statistics as `Reset`, no mean, median or mode. |
| Sensor.AverageSensor.VisitAll | custom_components/average/sensor.py:490-580 | The loop over the entities ends in the state `Run` gives, stopping where an exception escapes. |
| Sensor.AverageSensor.VisitEntity | custom_components/average/sensor.py:490-580 | One turn of the loop ends in the state `EntityStep` gives. |
| Sensor.AverageSensor.DecideMode | custom_components/average/sensor.py:499-515 | An undecided mode becomes `Decide`'s, with its unit and icon; a decided one stays. |
| Sensor.AverageSensor.CountEntity | custom_components/average/sensor.py:517-580 | A numeric summary is appended to `norm_vals` and counted. |
| Sensor.AverageSensor.Summarize | custom_components/average/sensor.py:517-576 | The summary, table and parses are those of `Contribution`: the live value with weight 1, or the history walk. |
| Sensor.AverageSensor.HistoryAverage | custom_components/average/sensor.py:541-576 | The history branch ends as `HistoryWalk` says. |
| Sensor.AverageSensor.VisitStart | custom_components/average/sensor.py:542-549 | The state at the start is read as `Begin` says. |
| Sensor.AverageSensor.WalkChanges | custom_components/average/sensor.py:552-565 | The change loop ends as `Steps` says, stopping where an exception escapes. |
| Sensor.AverageSensor.VisitChange | custom_components/average/sensor.py:553-565 | One change is handled as `Step` says. |
| Sensor.AverageSensor.CloseWalk | custom_components/average/sensor.py:567-575 | The final stretch and the division are as `Close` and `Average` say. |
| Sensor.AverageSensor.Reducers | custom_components/average/sensor.py:582-588 | Mean, median and mode are computed as `Reduce` says: mean first, then `calc_median`, which may raise, then `calc_mode`. |
| Sensor.AverageSensor.Finalize | custom_components/average/sensor.py:582-592 | Sets the reducers' results, and the state from the attribute the sensor type names, unless a reducer raised. |
| Sensor.AverageSensor.Conclude | custom_components/average/sensor.py:582-592 | After the loop: the reducers and the state, or nothing when the loop raised. |

Behaviour of the code that may surprise, and that the model reproduces:

- The state at the start of the period enters the table with weight 1
  (sensor.py:549), not 0.
- The live value is used when the history result has no entry for the
  entity (sensor.py:532). It is not used when the entity has an entry whose
  list is empty. Such an entity averages to the value of its state at the
  start when that state is defined and parses and the period has a length
  (`History.SeedOnlyHistory`). Without a state at the start it averages to 0
  (`History.EmptyHistory`).
- Weather, climate and water-heater readings are converted from the host
  unit (sensor.py:310-313), not from their own unit.
- In temperature mode, a value that `float()` rejects, or that
  `convert_temperature` rejects, is not caught: the exception escapes from
  `_update_state`. The model shows this as `raised`, with the fields left as
  they were at that point.

## Left out

- `async_setup_platform`, `async_added_to_hass` with its state listener and startup callback, and the throttled `update`: these are scheduling around `_update_state`, which the model calls directly. `should_poll` is `_has_period`, modelled as `HasPeriod`.
- The voluptuous schema and the `name`, `unit_of_measurement`, `icon` and `device_state_attributes` properties: they parse configuration or return fields as they are, with no logic beyond `check_period_keys`.
- Logging, including `handle_template_exception`: it has no effect on state.
- Naming the sensor from `SENSOR_TYPES` in `__init__`, which is a string operation; the sensor type is modelled as the `Kind` enumeration, and `getattr` on its attribute as `Select`.
- `expand_entity_ids`: it is a Home Assistant call; the expanded ids are a constructor argument.
- Template rendering, `parse_datetime`, time zones, `as_utc` and `as_local`: these belong to the host. A rendering is given as a `Rendered` value, and instants are real timestamps in seconds.
- Periods.Resolve: `start <= end` is not enforced, because the code never compares the two bounds (`Periods.BoundsNotCompared`). The model stores such a window as the code does.
- Periods.Instant: rendered text such as "inf" makes `math.floor(float(...))` raise `OverflowError` (sensor.py:390, :410). `except ValueError` does not catch it, so it escapes `_update_state`. `Rendered` has no value for this case; the model only has `_update_period` giving up.
- Python floats are modelled as exact reals. This covers `val_a` and `val_b` in `calc_median` (sensor.py:143-161), `sum_val`, `elapsed` and the division (sensor.py:559-575), and key equality in `add_value` (sensor.py:486-487). With fractional stretches from `last_changed.timestamp()`, IEEE rounding can take a tie branch of `calc_median` (sensor.py:152, :157, :160) that exact reals miss, or miss one they take. The model does not capture such ties.
- `float()`, `convert_temperature` and `round`: these are host functions, given as functions in `Env`.
- The two readings of the clock in `_update_period` and `_update_state` become one `now`, because the model has no clock.
- `start` and `end` as ISO strings (sensor.py:440-441) are modelled as whole seconds, because string formatting of datetimes is out of scope.
- The component's constants module is not part of this model. `CONF_PERIOD_KEYS` is taken as `start`, `end`, `duration` in that order.
- `TEMPERATURE_UNITS` comes from Home Assistant's `homeassistant.util.unit_system` (sensor.py:44), which is not part of this model. It is taken as °C and °F.
- Sensor.AverageSensor.UpdateState: the history queries are given as each entity's `Source`. The code queries the history store once per entity with the period's `start` and `end`; the model does not check that the given changes lie inside the period.
- Sensor.AverageSensor.UpdateState: an exception raised by a reducer is reported through `raised`, with mean set; the model does not carry the exception type.
- Tables.CalcMedian: the result is stated for distinct keys and positive weights. Every table `_update_state` builds has distinct keys (`Tables.AddAllDistinct`). Its weights are positive when no stretch of history has zero or negative length. With other weights, `Median` still gives the code's result, or None where the code indexes past the list. Such a result still lies within the key range (`Tables.MedianWithinKeys`), but that it is defined is not claimed.

## Findings

| source | as written | input that shows it | evidently intended | confidence | as-written member | corrected member |
|---|---|---|---|---|---|---|
| custom_components/average/sensor.py:67-72 | The literals `" or maximum 2 of the following: "` and `", "` are adjacent, so Python merges them. `.join` then puts that merged string between the key names, giving "You must provide none, only durationstart or maximum 2 of the following: , end or maximum 2 of the following: , duration". | Any rejected configuration, for example only `start`. | "You must provide none, only duration or maximum 2 of the following: start, end, duration" | not executed | Periods.MessageAsWritten, Periods.MessageAsWrittenIsGarbled | Periods.Message, Periods.CheckPeriodKeys |
