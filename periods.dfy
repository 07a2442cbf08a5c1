/**
 * The averaging period: which combinations of `start`, `end` and `duration`
 * the configuration accepts, how `_update_period` turns the rendered
 * templates and the duration into a window clamped to now, and the test of
 * `_update_state` that skips a window already averaged.
 */
module Periods {
  import opened Common

  /** Which of the period keys `start`, `end` and `duration` a configuration holds. */
  datatype PeriodKeys = PeriodKeys(start: bool, end: bool, duration: bool)

  /** `CONF_PERIOD_KEYS`, in the order the constants module lists them. */
  const PERIOD_KEY_NAMES: seq<string> := ["start", "end", "duration"]

  function KeyCount(c: PeriodKeys): nat
  {
    (if c.start then 1 else 0) + (if c.end then 1 else 0) + (if c.duration then 1 else 0)
  }

  /** `str.join`: the parts with `sep` between neighbours. */
  function Join(parts: seq<string>, sep: string): string
  {
    if |parts| == 0 then "" else if |parts| == 1 then parts[0] else parts[0] + sep + Join(parts[1..], sep)
  }

  lemma JoinThree(a: string, b: string, c: string, sep: string)
    ensures Join([a, b, c], sep) == a + sep + b + sep + c
  {
    assert [a, b, c][1..] == [b, c];
    assert [b, c][1..] == [c];
    assert Join([c], sep) == c;
    assert Join([b, c], sep) == b + sep + c;
  }

  /** The message's opening: "only" names the one key allowed alone. */
  const MESSAGE_HEAD: string := "You must provide none, only " + "duration"

  /**
   * The message `check_period_keys` raises, as written: two adjacent string
   * literals merge, so " or maximum 2 of the following: " and ", " become one
   * literal, and that literal, not ", ", is what `join` puts between the keys.
   */
  function MessageAsWritten(): (m: string)
    ensures m == MESSAGE_HEAD + "start" + " or maximum 2 of the following: , " + "end"
                              + " or maximum 2 of the following: , " + "duration"
  {
    JoinThree(PERIOD_KEY_NAMES[0], PERIOD_KEY_NAMES[1], PERIOD_KEY_NAMES[2], " or maximum 2 of the following: " + ", ");
    assert PERIOD_KEY_NAMES == [PERIOD_KEY_NAMES[0], PERIOD_KEY_NAMES[1], PERIOD_KEY_NAMES[2]];
    MESSAGE_HEAD + Join(PERIOD_KEY_NAMES, " or maximum 2 of the following: " + ", ")
  }

  /** The message as evidently intended: the key names, comma-separated, after the colon. */
  function Message(): (m: string)
    ensures m == MESSAGE_HEAD + " or maximum 2 of the following: " + "start" + ", " + "end" + ", " + "duration"
  {
    JoinThree(PERIOD_KEY_NAMES[0], PERIOD_KEY_NAMES[1], PERIOD_KEY_NAMES[2], ", ");
    assert PERIOD_KEY_NAMES == [PERIOD_KEY_NAMES[0], PERIOD_KEY_NAMES[1], PERIOD_KEY_NAMES[2]];
    MESSAGE_HEAD + " or maximum 2 of the following: " + Join(PERIOD_KEY_NAMES, ", ")
  }

  /** As written, the first key name runs straight into "only duration": "...only durationstart or ...". */
  lemma MessageAsWrittenIsGarbled()
    ensures MessageAsWritten()[|MESSAGE_HEAD|] == 's' && Message()[|MESSAGE_HEAD|] == ' '
    ensures MessageAsWritten() != Message()
  {
    var w := MessageAsWritten();
    assert w == MESSAGE_HEAD + ("start" + " or maximum 2 of the following: , " + "end"
                               + " or maximum 2 of the following: , " + "duration");
    var m := Message();
    assert m == MESSAGE_HEAD + (" or maximum 2 of the following: " + "start" + ", " + "end" + ", " + "duration");
  }

  datatype Checked = Accepted | Invalid(message: string)

  /**
   * `check_period_keys`: the configuration passes exactly when it holds no
   * period key, only `duration`, or exactly two of the three keys.
   */
  function CheckPeriodKeys(c: PeriodKeys): (r: Checked)
    ensures r.Accepted? <==>
              || c == PeriodKeys(false, false, false)
              || c == PeriodKeys(false, false, true)
              || c == PeriodKeys(true, true, false)
              || c == PeriodKeys(true, false, true)
              || c == PeriodKeys(false, true, true)
    ensures r.Invalid? ==> r.message == Message()
  {
    var count := KeyCount(c);
    if (count == 1 && !c.duration) || count > 2 then Invalid(Message()) else Accepted
  }

  /** `_has_period`: a start template, an end template or a duration is configured. */
  predicate HasPeriod(c: PeriodKeys)
    ensures HasPeriod(c) <==> c != PeriodKeys(false, false, false)
  {
    c.start || c.end || c.duration
  }

  /**
   * What rendering a start or end template gave: the template raised, the
   * text parses as a datetime (given as a timestamp in seconds), it parses
   * as a number of seconds, or it is neither.
   */
  datatype Rendered = RenderError | DateTime(t: real) | Number(x: real) | NotATime

  /**
   * The instant a rendering stands for: a datetime as it is, a number floored
   * to whole seconds; None where `_update_period` gives up.
   */
  function Instant(r: Rendered): (t: Option<real>)
    ensures t.None? <==> r.RenderError? || r.NotATime?
    ensures r.Number? ==> t == Some(r.x.Floor as real)
    ensures r.DateTime? ==> t == Some(r.t)
  {
    match r
    case DateTime(t) => Some(t)
    case Number(x) => Some(x.Floor as real)
    case _ => None
  }

  /** A period from `start` to `end`, as timestamps in seconds. */
  datatype Window = Window(start: real, end: real)

  /**
   * The start and end `_update_period` has before it compares with now:
   * the templates that are configured must render, and the duration fills
   * in the end after a start, or the start before an end (before now when
   * there is no end either).
   */
  function RawWindow(keys: PeriodKeys, duration: real, now: real, rs: Rendered, re: Rendered): (w: Option<Window>)
    ensures w.None? <==> (keys.start && Instant(rs).None?) || (keys.end && Instant(re).None?) || (!keys.duration && !(keys.start && keys.end))
    ensures w.Some? && keys.start ==> w.value.start == Instant(rs).value
    ensures w.Some? && keys.end && !(keys.start && keys.duration) ==> w.value.end == Instant(re).value
    ensures w.Some? && keys.start && keys.duration ==> w.value.end == w.value.start + duration
    ensures w.Some? && !keys.start && keys.duration ==> w.value.start == w.value.end - duration
    ensures w.Some? && !keys.start && !keys.end ==> w.value == Window(now - duration, now)
  {
    if keys.start && Instant(rs).None? then None
    else if keys.end && Instant(re).None? then None
    else
      var start := if keys.start then Instant(rs) else None;
      var end := if keys.end then Instant(re) else None;
      if !keys.duration then
        if start.None? || end.None? then None else Some(Window(start.value, end.value))
      else if start.None? then
        var e := if end.None? then now else end.value;
        Some(Window(e - duration, e))
      else Some(Window(start.value, start.value + duration))
  }

  /**
   * The period `_update_period` stores, or None where it returns without
   * storing one: a window starting after now is dropped, and an end after
   * now is moved back to now.
   */
  function Resolve(keys: PeriodKeys, duration: real, now: real, rs: Rendered, re: Rendered): (w: Option<Window>)
    ensures w.Some? ==> w.value.start <= now && w.value.end <= now
    ensures w.Some? <==> RawWindow(keys, duration, now, rs, re).Some? && RawWindow(keys, duration, now, rs, re).value.start <= now
  {
    match RawWindow(keys, duration, now, rs, re)
    case None => None
    case Some(Window(start, end)) =>
      if start > now then None
      else if now < end then Some(Window(start, now))
      else Some(Window(start, end))
  }

  /** The clamp: a stored window keeps its start and ends at the earlier of its end and now. */
  lemma ResolveClamps(keys: PeriodKeys, duration: real, now: real, rs: Rendered, re: Rendered)
    requires Resolve(keys, duration, now, rs, re).Some?
    ensures var raw := RawWindow(keys, duration, now, rs, re).value;
            var w := Resolve(keys, duration, now, rs, re).value;
            w.start == raw.start && w.end == (if raw.end > now then now else raw.end)
  {
  }

  /**
   * The bounds are never compared with each other: a start template that
   * renders after the end template stores a window that ends before it starts.
   */
  lemma BoundsNotCompared(duration: real, now: real, s: real, e: real)
    requires e < s <= now
    ensures Resolve(PeriodKeys(true, true, false), duration, now, DateTime(s), DateTime(e)) == Some(Window(s, e))
  {
  }

  /** With only a duration `d`, the window is the last `d` seconds before now; a negative `d` stores nothing. */
  lemma DurationOnly(duration: real, now: real, rs: Rendered, re: Rendered)
    ensures Resolve(PeriodKeys(false, false, true), duration, now, rs, re)
              == if duration >= 0.0 then Some(Window(now - duration, now)) else None
  {
  }

  /** A template that raises or renders something that is no time stores nothing. */
  lemma FailedRenderingStoresNothing(keys: PeriodKeys, duration: real, now: real, rs: Rendered, re: Rendered)
    requires (keys.start && (rs.RenderError? || rs.NotATime?)) || (keys.end && (re.RenderError? || re.NotATime?))
    ensures Resolve(keys, duration, now, rs, re).None?
  {
  }

  /** One template without a duration leaves a bound missing and stores nothing; so does no period key. */
  lemma MissingBoundStoresNothing(keys: PeriodKeys, duration: real, now: real, rs: Rendered, re: Rendered)
    requires !keys.duration && !(keys.start && keys.end)
    ensures Resolve(keys, duration, now, rs, re).None?
  {
  }

  /**
   * Every configuration `check_period_keys` accepts that has a period, with
   * templates that render, yields a window, which is stored unless it starts
   * after now.
   */
  lemma AcceptedKeysGiveWindow(keys: PeriodKeys, duration: real, now: real, rs: Rendered, re: Rendered)
    requires CheckPeriodKeys(keys).Accepted? && HasPeriod(keys)
    requires keys.start ==> Instant(rs).Some?
    requires keys.end ==> Instant(re).Some?
    ensures RawWindow(keys, duration, now, rs, re).Some?
  {
  }

  /** Whole seconds, as `math.floor` of a timestamp. */
  function Seconds(t: real): int
  {
    t.Floor
  }

  lemma SecondsMonotonic(x: real, y: real)
    requires x <= y
    ensures Seconds(x) <= Seconds(y)
  {
  }

  /**
   * The early return of `_update_state`: the stored window, floored to whole
   * seconds, equals the one before the update (now and now when there was
   * none) and has already ended.
   */
  predicate Skips(previous: Option<Window>, current: Window, now: real)
    ensures Skips(previous, current, now) ==> current.end < now + 1.0
    ensures previous.None? ==> (Skips(previous, current, now) <==> Seconds(current.start) == Seconds(now) && Seconds(current.end) == Seconds(now))
  {
    var (ps, pe) := if previous.None? then (now, now) else (previous.value.start, previous.value.end);
    Seconds(current.start) == Seconds(ps) && Seconds(current.end) == Seconds(pe) && Seconds(current.end) <= Seconds(now)
  }

  /** A window that ended before now and comes out again is not averaged again. */
  lemma RepeatedWindowSkips(w: Window, now: real)
    requires w.end <= now
    ensures Skips(Some(w), w, now)
  {
    SecondsMonotonic(w.end, now);
  }

  /** A window whose end is still ahead of now (to the second) is always averaged. */
  lemma OpenWindowDoesNotSkip(previous: Option<Window>, w: Window, now: real)
    requires Seconds(now) < Seconds(w.end)
    ensures !Skips(previous, w, now)
  {
  }
}
