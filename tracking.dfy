/**
 * The running statistics that `_get_state_value` keeps on the sensor while it
 * parses readings: how many values were parsed, the least and the greatest
 * rounded value with the entity that produced each, and the value, time and
 * entity of the reading with the latest `last_changed`.
 */
module Tracking {
  import opened Common

  /** One successful parse: the entity, the rounded value, the reading's `last_changed`. */
  datatype Obs = Obs(entityId: string, value: real, at: real)

  /** `count`, `min_value`, `max_value`, `min_entity_id`, `max_entity_id`, `last`, `last_ts`, `last_entity_id`. */
  datatype Tracker = Tracker(
    count: nat,
    minValue: Option<real>, maxValue: Option<real>,
    minEntityId: Option<string>, maxEntityId: Option<string>,
    last: Option<real>, lastTs: Option<real>, lastEntityId: Option<string>)

  /** `min_value` and `max_value` are set together: both are None or both hold a value. */
  predicate Consistent(t: Tracker)
  {
    t.minValue.Some? == t.maxValue.Some?
  }

  /**
   * The reset at the start of `_update_state`: every statistic is cleared
   * except `min_entity_id` and `max_entity_id`, which keep their old values.
   */
  function Reset(minId: Option<string>, maxId: Option<string>): (r: Tracker)
    ensures Consistent(r) && r.count == 0 && r.minValue.None? && r.last.None? && r.lastTs.None?
  {
    Tracker(0, None, None, minId, maxId, None, None, None)
  }

  /**
   * The bookkeeping of `_get_state_value` after a successful parse: the count
   * goes up by one; the first value sets both bounds, later ones replace a
   * bound only when strictly beyond it; `last` follows a strictly later
   * `last_changed`.
   */
  function Observe(t: Tracker, o: Obs): (r: Tracker)
    requires Consistent(t)
    ensures Consistent(r) && r.minValue.Some?
    ensures r.count == t.count + 1
    ensures r.minValue.value <= o.value <= r.maxValue.value
    ensures t.minValue.Some? ==> r.minValue.value <= t.minValue.value && t.maxValue.value <= r.maxValue.value
    ensures r.lastTs.Some? && (t.lastTs.Some? ==> t.lastTs.value <= r.lastTs.value && (o.at <= t.lastTs.value ==> r.last == t.last))
  {
    var bounded :=
      if t.minValue.None? then
        t.(minValue := Some(o.value), maxValue := Some(o.value), minEntityId := Some(o.entityId), maxEntityId := Some(o.entityId))
      else
        var lower := o.value < t.minValue.value;
        var upper := o.value > t.maxValue.value;
        t.(minValue := if lower then Some(o.value) else t.minValue,
           minEntityId := if lower then Some(o.entityId) else t.minEntityId,
           maxValue := if upper then Some(o.value) else t.maxValue,
           maxEntityId := if upper then Some(o.entityId) else t.maxEntityId);
    var latest :=
      if bounded.lastTs.None? || bounded.lastTs.value < o.at then
        bounded.(lastTs := Some(o.at), last := Some(o.value), lastEntityId := Some(o.entityId))
      else bounded;
    latest.(count := t.count + 1)
  }

  /** The statistics after the parses `obs`, in order. */
  function ObserveAll(t: Tracker, obs: seq<Obs>): (r: Tracker)
    requires Consistent(t)
    ensures Consistent(r)
  {
    if obs == [] then t else Observe(ObserveAll(t, obs[..|obs| - 1]), obs[|obs| - 1])
  }

  /** Observing two runs one after the other is observing their concatenation. */
  lemma {:induction false} ObserveAllConcat(t: Tracker, a: seq<Obs>, b: seq<Obs>)
    requires Consistent(t)
    ensures ObserveAll(ObserveAll(t, a), b) == ObserveAll(t, a + b)
    decreases |b|
  {
    if b == [] {
      assert a + b == a;
    } else {
      assert (a + b)[..|a + b| - 1] == a + b[..|b| - 1];
      ObserveAllConcat(t, a, b[..|b| - 1]);
    }
  }

  /** `i` holds the least value of `obs` and no earlier parse had a value that small. */
  ghost predicate FirstMin(obs: seq<Obs>, i: int)
  {
    && 0 <= i < |obs|
    && (forall j :: 0 <= j < |obs| ==> obs[i].value <= obs[j].value)
    && (forall j :: 0 <= j < i ==> obs[i].value < obs[j].value)
  }

  /** `i` holds the greatest value of `obs` and no earlier parse had a value that large. */
  ghost predicate FirstMax(obs: seq<Obs>, i: int)
  {
    && 0 <= i < |obs|
    && (forall j :: 0 <= j < |obs| ==> obs[j].value <= obs[i].value)
    && (forall j :: 0 <= j < i ==> obs[j].value < obs[i].value)
  }

  /** `i` holds the latest `last_changed` of `obs` and no earlier parse was as late. */
  ghost predicate FirstLatest(obs: seq<Obs>, i: int)
  {
    && 0 <= i < |obs|
    && (forall j :: 0 <= j < |obs| ==> obs[j].at <= obs[i].at)
    && (forall j :: 0 <= j < i ==> obs[j].at < obs[i].at)
  }

  /**
   * What the statistics say after a reset and the parses `obs`: `count` is the
   * number of parses; without a parse nothing moved from the reset; otherwise
   * min and max are the first least and the first greatest value with their
   * entities (ties keep the earlier entity), and last is the first reading
   * with the latest `last_changed`.
   */
  ghost predicate Summarizes(r: Tracker, obs: seq<Obs>, minId: Option<string>, maxId: Option<string>)
  {
    && r.count == |obs|
    && (obs == [] ==> r == Reset(minId, maxId))
    && (obs != [] ==>
          && (exists i :: FirstMin(obs, i) && r.minValue == Some(obs[i].value) && r.minEntityId == Some(obs[i].entityId))
          && (exists i :: FirstMax(obs, i) && r.maxValue == Some(obs[i].value) && r.maxEntityId == Some(obs[i].entityId))
          && (exists i :: FirstLatest(obs, i) && r.last == Some(obs[i].value) && r.lastTs == Some(obs[i].at)
                                              && r.lastEntityId == Some(obs[i].entityId)))
  }

  /** The count is the number of parses. */
  lemma {:induction false} ObserveAllCount(t: Tracker, obs: seq<Obs>)
    requires Consistent(t)
    ensures ObserveAll(t, obs).count == t.count + |obs|
    decreases |obs|
  {
    if obs != [] {
      ObserveAllCount(t, obs[..|obs| - 1]);
    }
  }

  /** A single parse after the reset sets every statistic from it. */
  lemma ObserveSingle(t: Tracker, o: Obs)
    requires Consistent(t)
    ensures ObserveAll(t, [o]) == Observe(t, o)
  {
    assert [o][..0] == [];
  }

  lemma ObserveOne(minId: Option<string>, maxId: Option<string>, obs: seq<Obs>)
    requires |obs| == 1
    ensures var r := ObserveAll(Reset(minId, maxId), obs);
            && r.minValue == r.maxValue == r.last == Some(obs[0].value)
            && r.minEntityId == r.maxEntityId == r.lastEntityId == Some(obs[0].entityId)
            && r.lastTs == Some(obs[0].at)
  {
    var t0 := Reset(minId, maxId);
    assert obs[..0] == [];
    assert ObserveAll(t0, obs[..0]) == t0;
  }

  /** A new parse becomes the first least value only when strictly below the old one. */
  lemma FirstMinExtend(obs: seq<Obs>, a: int)
    requires |obs| > 1 && FirstMin(obs[..|obs| - 1], a)
    ensures FirstMin(obs, if obs[|obs| - 1].value < obs[a].value then |obs| - 1 else a)
  {
    var pre := obs[..|obs| - 1];
    assert forall j :: 0 <= j < |pre| ==> pre[j] == obs[j];
  }

  /** A new parse becomes the first greatest value only when strictly above the old one. */
  lemma FirstMaxExtend(obs: seq<Obs>, b: int)
    requires |obs| > 1 && FirstMax(obs[..|obs| - 1], b)
    ensures FirstMax(obs, if obs[|obs| - 1].value > obs[b].value then |obs| - 1 else b)
  {
    var pre := obs[..|obs| - 1];
    assert forall j :: 0 <= j < |pre| ==> pre[j] == obs[j];
  }

  /** A new parse becomes the first latest only when strictly later than the old one. */
  lemma FirstLatestExtend(obs: seq<Obs>, c: int)
    requires |obs| > 1 && FirstLatest(obs[..|obs| - 1], c)
    ensures FirstLatest(obs, if obs[c].at < obs[|obs| - 1].at then |obs| - 1 else c)
  {
    var pre := obs[..|obs| - 1];
    assert forall j :: 0 <= j < |pre| ==> pre[j] == obs[j];
  }

  lemma {:induction false} ObserveAllMin(minId: Option<string>, maxId: Option<string>, obs: seq<Obs>)
    requires obs != []
    ensures var r := ObserveAll(Reset(minId, maxId), obs);
            exists i :: FirstMin(obs, i) && r.minValue == Some(obs[i].value) && r.minEntityId == Some(obs[i].entityId)
    decreases |obs|
  {
    var r := ObserveAll(Reset(minId, maxId), obs);
    if |obs| == 1 {
      ObserveOne(minId, maxId, obs);
      assert FirstMin(obs, 0);
    } else {
      var n := |obs| - 1;
      var pre, o := obs[..n], obs[n];
      ObserveAllMin(minId, maxId, pre);
      var t := ObserveAll(Reset(minId, maxId), pre);
      var a :| FirstMin(pre, a) && t.minValue == Some(pre[a].value) && t.minEntityId == Some(pre[a].entityId);
      assert pre[a] == obs[a];
      FirstMinExtend(obs, a);
      var a' := if o.value < pre[a].value then n else a;
      assert r.minValue == Some(obs[a'].value) && r.minEntityId == Some(obs[a'].entityId);
    }
  }

  lemma {:induction false} ObserveAllMax(minId: Option<string>, maxId: Option<string>, obs: seq<Obs>)
    requires obs != []
    ensures var r := ObserveAll(Reset(minId, maxId), obs);
            exists i :: FirstMax(obs, i) && r.maxValue == Some(obs[i].value) && r.maxEntityId == Some(obs[i].entityId)
    decreases |obs|
  {
    var r := ObserveAll(Reset(minId, maxId), obs);
    if |obs| == 1 {
      ObserveOne(minId, maxId, obs);
      assert FirstMax(obs, 0);
    } else {
      var n := |obs| - 1;
      var pre, o := obs[..n], obs[n];
      ObserveAllMax(minId, maxId, pre);
      var t := ObserveAll(Reset(minId, maxId), pre);
      var b :| FirstMax(pre, b) && t.maxValue == Some(pre[b].value) && t.maxEntityId == Some(pre[b].entityId);
      assert pre[b] == obs[b];
      FirstMaxExtend(obs, b);
      var b' := if o.value > pre[b].value then n else b;
      assert r.maxValue == Some(obs[b'].value) && r.maxEntityId == Some(obs[b'].entityId);
    }
  }

  lemma {:induction false} ObserveAllLatest(minId: Option<string>, maxId: Option<string>, obs: seq<Obs>)
    requires obs != []
    ensures var r := ObserveAll(Reset(minId, maxId), obs);
            exists i :: FirstLatest(obs, i) && r.last == Some(obs[i].value) && r.lastTs == Some(obs[i].at)
                                            && r.lastEntityId == Some(obs[i].entityId)
    decreases |obs|
  {
    var r := ObserveAll(Reset(minId, maxId), obs);
    if |obs| == 1 {
      ObserveOne(minId, maxId, obs);
      assert FirstLatest(obs, 0);
    } else {
      var n := |obs| - 1;
      var pre, o := obs[..n], obs[n];
      ObserveAllLatest(minId, maxId, pre);
      var t := ObserveAll(Reset(minId, maxId), pre);
      var c :| FirstLatest(pre, c) && t.last == Some(pre[c].value) && t.lastTs == Some(pre[c].at)
                                   && t.lastEntityId == Some(pre[c].entityId);
      assert pre[c] == obs[c];
      FirstLatestExtend(obs, c);
      var c' := if pre[c].at < o.at then n else c;
      assert r.last == Some(obs[c'].value) && r.lastTs == Some(obs[c'].at) && r.lastEntityId == Some(obs[c'].entityId);
    }
  }

  lemma ObserveAllSummarizes(minId: Option<string>, maxId: Option<string>, obs: seq<Obs>)
    ensures Summarizes(ObserveAll(Reset(minId, maxId), obs), obs, minId, maxId)
  {
    ObserveAllCount(Reset(minId, maxId), obs);
    if obs != [] {
      ObserveAllMin(minId, maxId, obs);
      ObserveAllMax(minId, maxId, obs);
      ObserveAllLatest(minId, maxId, obs);
    }
  }

  /** Equal values: the entity seen first stays the minimum and the maximum. */
  lemma TiesKeepFirstEntity(a: Obs, b: Obs)
    requires a.value == b.value && a.entityId != b.entityId
    ensures var r := ObserveAll(Reset(None, None), [a, b]);
            r.minEntityId == Some(a.entityId) && r.maxEntityId == Some(a.entityId)
  {
    var t0 := Reset(None, None);
    assert [a, b][..1] == [a];
    assert [a][..0] == [];
    assert ObserveAll(t0, [a][..0]) == t0;
    var t1 := ObserveAll(t0, [a]);
    assert t1 == Observe(t0, a);
    assert ObserveAll(t0, [a, b]) == Observe(t1, b);
  }
}
