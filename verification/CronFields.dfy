/**
 Cron fields: the text of a field, the set of values it stands for, and the search for
 the next matching minute.
 */
module CronFields {
  import opened Wrappers
  import opened Text
  import opened CronSchedules
  import CronLeaders

  datatype FieldError =
    | FieldRequired
    | EmptyItem
    | InvalidStep(text: string)
    | InvalidValue(text: string)
    | OutsideBounds(value: int)
    | Inverted(start: int, end: int)

  datatype Bounds = Bounds(min: int, max: int, sunday7: bool) {
    /** Day-of-week 7 is Sunday, which is 0. */
    function Normalize(value: int): int {
      if sunday7 && value == 7 then 0 else value
    }

    predicate Valid() {
      0 <= min <= max <= 59
    }
  }

  /** One comma-separated part: every step-th value from start to end. */
  datatype Part = Part(start: int, end: int, step: int)

  // ---------- the text of one part ----------

  function ParseValue(raw: string, b: Bounds): Result<int, FieldError> {
    match Atoi(TrimSpace(raw))
    case None => Err(InvalidValue(raw))
    case Some(value) => if value < b.min || value > b.max then Err(OutsideBounds(value)) else Ok(value)
  }

  function CronFieldRange(raw: string, b: Bounds): Result<(int, int), FieldError> {
    if raw == "*" then Ok((b.min, b.max))
    else
      var (left, right, hasRange) := Cut(raw, '-');
      match ParseValue(left, b)
      case Err(e) => Err(e)
      case Ok(start) =>
        if !hasRange then Ok((start, start))
        else
          match ParseValue(right, b)
          case Err(e) => Err(e)
          case Ok(end) => if start > end then Err(Inverted(start, end)) else Ok((start, end))
  }

  function ParsePart(text: string, b: Bounds): Result<Part, FieldError> {
    if text == "" then Err(EmptyItem)
    else
      var (rangePart, stepPart, hasStep) := Cut(text, '/');
      var step := if hasStep then Atoi(stepPart) else Some(1);
      if step.None? || step.value <= 0 then Err(InvalidStep(stepPart))
      else
        match CronFieldRange(rangePart, b)
        case Err(e) => Err(e)
        case Ok((start, end)) => Ok(Part(start, end, step.value))
  }

  predicate PartValid(part: Part, b: Bounds) {
    b.min <= part.start <= part.end <= b.max && 0 < part.step <= MAX_INT64
  }

  lemma ParsedPartIsValid(text: string, b: Bounds)
    requires b.Valid() && ParsePart(text, b).Ok?
    ensures PartValid(ParsePart(text, b).value, b)
  {
    var (rangePart, stepPart, hasStep) := Cut(text, '/');
    assert hasStep ==> Atoi(stepPart).Some?;
  }

  // ---------- the values of one part ----------

  /** What the field text declares. */
  predicate Declares(part: Part, value: int)
    requires part.step > 0
  {
    part.start <= value <= part.end && (value - part.start) % part.step == 0
  }

  const WIDEST := 59

  /** A step so large that it wraps around from a value inside the bounds. */
  predicate Huge(part: Part) {
    part.step > MAX_INT64 - WIDEST
  }

  /** Where the loop can stand: a huge step comes round to a value just below its start. */
  predicate Reach(part: Part, v: int) {
    if !Huge(part) then v >= 0
    else v >= -2 * WIDEST || -2 * WIDEST <= v + part.step <= part.end
  }

  function Rank(part: Part, v: int): int {
    if !Huge(part) then part.end - v
    else if v >= -2 * WIDEST then 2 * (v + 2 * WIDEST)
    else 2 * (v + part.step + 2 * WIDEST) + 1
  }

  predicate Steps(part: Part) {
    0 <= part.start <= part.end <= WIDEST && 0 < part.step <= MAX_INT64
  }

  lemma StepDescends(part: Part, v: int)
    requires Steps(part) && Reach(part, v) && v <= part.end
    ensures Rank(part, v) >= 0
    ensures var next := Wrap64(v + part.step); next <= part.end ==> Reach(part, next) && Rank(part, next) < Rank(part, v)
  {
  }

  /** The values that the loop visits from v on. */
  function Walk(part: Part, v: int): set<int>
    requires Steps(part) && Reach(part, v)
    decreases if v <= part.end then Rank(part, v) + 1 else 0
  {
    if v > part.end then {}
    else
      StepDescends(part, v);
      var next := Wrap64(v + part.step);
      {v} + if next <= part.end then Walk(part, next) else {}
  }

  lemma {:induction false} WalkIn(part: Part, v: int, x: int)
    requires Steps(part) && Reach(part, v) && v <= part.end
    ensures x in Walk(part, v) <==>
              x == v || (Wrap64(v + part.step) <= part.end && Reach(part, Wrap64(v + part.step)) && x in Walk(part, Wrap64(v + part.step)))
  {
    StepDescends(part, v);
  }

  function Last(part: Part): int
    requires part.step > 0
  {
    part.start + (part.end - part.start) / part.step * part.step
  }

  /** `rawValue += step` never leaves int64. */
  predicate StaysInRange(part: Part)
    requires part.step > 0
  {
    Last(part) + part.step <= MAX_INT64
  }

  lemma Quotient(d: int, s: int)
    requires s > 0
    ensures d / s * s <= d < d / s * s + s && (d / s * s) % s == 0
    ensures d >= 0 ==> d / s * s >= 0
  {
    MultipleOf(d / s, s);
  }

  lemma Scales(a: int, b: int, s: int)
    requires s > 0 && a < b
    ensures a * s + s <= b * s
  {
    assert (a + 1) * s <= b * s;
  }

  lemma MultiplesApart(d: int, e: int, s: int)
    requires s > 0 && d % s == 0 && e % s == 0
    ensures e > d ==> e >= d + s
    ensures (d + s) % s == 0
  {
    var k, j := d / s, e / s;
    assert d == k * s && e == j * s;
    if k < j {
      Scales(k, j, s);
    } else if j < k {
      Scales(j, k, s);
    }
    MultipleOf(k + 1, s);
    assert (k + 1) * s == k * s + s;
  }

  lemma LastIsDeclared(part: Part)
    requires Steps(part)
    ensures Declares(part, Last(part)) && part.end < Last(part) + part.step
  {
    Quotient(part.end - part.start, part.step);
    assert Last(part) - part.start == (part.end - part.start) / part.step * part.step;
  }

  /** Declared values lie a step apart. */
  lemma DeclaredApart(part: Part, v: int, x: int)
    requires Steps(part) && Declares(part, v) && Declares(part, x)
    ensures x > v ==> x >= v + part.step
    ensures v + part.step <= part.end ==> Declares(part, v + part.step)
  {
    MultiplesApart(v - part.start, x - part.start, part.step);
    assert v + part.step - part.start == v - part.start + part.step;
  }

  /** Without wrap-around the loop visits v and every declared value after it. */
  lemma {:induction false} WalkIsDeclared(part: Part, v: int, last: int, x: int)
    requires Steps(part) && Declares(part, v) && Declares(part, last) && part.end < last + part.step <= MAX_INT64
    ensures x in Walk(part, v) <==> Declares(part, x) && x >= v
    decreases part.end - v
  {
    hide Declares, Walk, Wrap64, Rank;
    DeclaredApart(part, v, v);
    DeclaredApart(part, v, last);
    DeclaredApart(part, last, v);
    DeclaredBounds(part, v);
    WalkIn(part, v, x);
    if v + part.step <= part.end {
      WalkIsDeclared(part, v + part.step, last, x);
    }
    if Declares(part, x) {
      DeclaredBounds(part, x);
      DeclaredApart(part, v, x);
    }
  }

  lemma DeclaredBounds(part: Part, v: int)
    requires Steps(part) && Declares(part, v)
    ensures 0 <= part.start <= v <= part.end
  {
  }

  /** The loop always visits the last declared value. */
  lemma {:induction false} WalkVisitsLast(part: Part, v: int, last: int, x: int)
    requires Steps(part) && Declares(part, v) && Declares(part, last) && part.end < last + part.step
    requires x in Walk(part, last)
    ensures x in Walk(part, v)
    decreases part.end - v
  {
    hide Declares, Walk, Wrap64, Rank;
    DeclaredApart(part, v, last);
    DeclaredBounds(part, v);
    DeclaredBounds(part, last);
    if v != last {
      DeclaredApart(part, last, v);
      WalkIn(part, v, x);
      WalkVisitsLast(part, v + part.step, last, x);
    }
  }

  /** All values of a part. */
  function PartValues(part: Part): set<int>
    requires Steps(part)
  {
    Walk(part, part.start)
  }

  lemma ExactUpTo(part: Part, last: int)
    requires Steps(part) && Declares(part, last) && part.end < last + part.step
    ensures (forall x :: x in PartValues(part) <==> Declares(part, x)) <==> last + part.step <= MAX_INT64
  {
    StartIsDeclared(part);
    hide Declares, Walk, Wrap64;
    if last + part.step <= MAX_INT64 {
      forall x
        ensures x in PartValues(part) <==> Declares(part, x)
      {
        WalkIsDeclared(part, part.start, last, x);
        if Declares(part, x) {
          DeclaredBounds(part, x);
        }
      }
    } else {
      WrapBehindLast(part, last);
      NegativeIsUndeclared(part, Wrap64(last + part.step));
    }
  }

  /** The loop collects exactly the declared values if and only if its last step does not wrap around. */
  lemma PartIsExact(part: Part)
    requires Steps(part)
    ensures (forall x :: x in PartValues(part) <==> Declares(part, x)) <==> StaysInRange(part)
  {
    LastIsDeclared(part);
    ExactUpTo(part, Last(part));
    hide Declares, Last, PartValues;
  }

  lemma StartIsDeclared(part: Part)
    requires Steps(part)
    ensures Declares(part, part.start)
  {
  }

  lemma WrapBehindLast(part: Part, last: int)
    requires Steps(part) && Declares(part, part.start) && Declares(part, last) && part.end < last + part.step
    requires last + part.step > MAX_INT64
    ensures var wrapped := Wrap64(last + part.step); wrapped < 0 && wrapped in PartValues(part)
  {
    hide Declares, Walk, Rank, Wrap64;
    DeclaredBounds(part, last);
    LateWrapIsNegative(part, last);
    var wrapped := Wrap64(last + part.step);
    WalkIn(part, last, wrapped);
    WalkIn(part, wrapped, wrapped);
    WalkVisitsLast(part, part.start, last, wrapped);
  }

  lemma LateWrapIsNegative(part: Part, v: int)
    requires Steps(part) && part.start <= v <= part.end && v + part.step > MAX_INT64
    ensures Wrap64(v + part.step) < 0 && Reach(part, v) && Reach(part, Wrap64(v + part.step))
  {
    StepDescends(part, v);
  }

  lemma NegativeIsUndeclared(part: Part, x: int)
    requires Steps(part) && x < 0
    ensures !Declares(part, x)
  {
  }

  /** The minute field 5/9223372036854775807 also matches minutes 3 and 1. */
  lemma WrapAddsMinutes()
    ensures 3 in PartValues(Part(5, 5, MAX_INT64)) && 1 in PartValues(Part(5, 5, MAX_INT64))
    ensures !Declares(Part(5, 5, MAX_INT64), 3) && !Declares(Part(5, 5, MAX_INT64), 1)
  {
    var part := Part(5, 5, MAX_INT64);
    var low, lower := Wrap64(5 + MAX_INT64), Wrap64(3 + MAX_INT64);
    assert Wrap64(low + MAX_INT64) == 3 && Wrap64(lower + MAX_INT64) == 1;
    WalkIn(part, 5, 3);
    WalkIn(part, low, 3);
    WalkIn(part, 3, 3);
    WalkIn(part, 5, 1);
    WalkIn(part, low, 1);
    WalkIn(part, 3, 1);
    WalkIn(part, lower, 1);
    WalkIn(part, 1, 1);
  }

  // ---------- a whole field ----------

  function Normalized(b: Bounds, values: set<int>): set<int> {
    set v | v in values :: b.Normalize(v)
  }

  /** The parts of a field, or the first error among them. */
  function ParseParts(texts: seq<string>, b: Bounds): Result<seq<Part>, FieldError> {
    if texts == [] then Ok([])
    else
      match ParseParts(texts[..|texts| - 1], b)
      case Err(e) => Err(e)
      case Ok(parts) =>
        match ParsePart(TrimSpace(texts[|texts| - 1]), b)
        case Err(e) => Err(e)
        case Ok(part) => Ok(parts + [part])
  }

  predicate AllValid(parts: seq<Part>, b: Bounds) {
    b.Valid() && forall i | 0 <= i < |parts| :: PartValid(parts[i], b)
  }

  function Union(parts: seq<Part>, b: Bounds): set<int>
    requires AllValid(parts, b)
  {
    if parts == [] then {}
    else Union(parts[..|parts| - 1], b) + Normalized(b, PartValues(parts[|parts| - 1]))
  }

  lemma {:induction false} PartsAreValid(texts: seq<string>, b: Bounds)
    requires b.Valid() && ParseParts(texts, b).Ok?
    ensures AllValid(ParseParts(texts, b).value, b)
  {
    if texts != [] {
      PartsAreValid(texts[..|texts| - 1], b);
      ParsedPartIsValid(TrimSpace(texts[|texts| - 1]), b);
    }
  }

  lemma {:induction false} FirstErrorStays(texts: seq<string>, n: nat, b: Bounds)
    requires n <= |texts| && ParseParts(texts[..n], b).Err?
    ensures ParseParts(texts, b) == ParseParts(texts[..n], b)
  {
    if n < |texts| {
      assert texts[..|texts| - 1][..n] == texts[..n];
      FirstErrorStays(texts[..|texts| - 1], n, b);
    } else {
      assert texts[..n] == texts;
    }
  }

  /** parseCronField: the values of a field, None for an unrestricted one, or its first error. */
  function FieldOf(raw: string, b: Bounds): Result<Option<set<int>>, FieldError>
    requires b.Valid()
  {
    var text := TrimSpace(raw);
    if text == "" then Err(FieldRequired)
    else if text == "*" then Ok(None)
    else
      var parsed := ParseParts(SplitAt(text, ','), b);
      match parsed
      case Err(e) => Err(e)
      case Ok(parts) =>
        PartsAreValid(SplitAt(text, ','), b);
        Ok(Some(Union(parts, b)))
  }

  class CronField {
    var values: set<int>
    var all: bool

    constructor (all: bool)
      ensures values == {} && this.all == all
    {
      values, this.all := {}, all;
    }

    predicate Matches(value: int)
      reads this
    {
      all || value in values
    }

    /** The loop of addCronFieldPart. */
    method AddPart(text: string, b: Bounds) returns (err: Option<FieldError>)
      requires b.Valid()
      modifies this
      ensures all == old(all)
      ensures ParsePart(text, b).Err? ==> err == Some(ParsePart(text, b).error) && values == old(values)
      ensures ParsePart(text, b).Ok? ==>
                && PartValid(ParsePart(text, b).value, b) && err.None?
                && values == old(values) + Normalized(b, PartValues(ParsePart(text, b).value))
    {
      hide ParsePart, Walk, Wrap64, Rank, Reach, Normalized, PartValid;
      var parsed := ParsePart(text, b);
      if parsed.Err? {
        return Some(parsed.error);
      }
      ParsedPartIsValid(text, b);
      var part := parsed.value;
      ValidPartSteps(part, b);
      var rawValue := part.start;
      while rawValue <= part.end
        invariant Reach(part, rawValue) || rawValue > part.end
        invariant all == old(all)
        invariant values + Normalized(b, if rawValue <= part.end then Walk(part, rawValue) else {})
                    == old(values) + Normalized(b, PartValues(part))
        decreases if rawValue <= part.end then Rank(part, rawValue) + 1 else 0
      {
        StepDescends(part, rawValue);
        WalkUnfolds(part, rawValue, b);
        var next := Wrap64(rawValue + part.step);
        values := values + {b.Normalize(rawValue)};
        rawValue := next;
      }
      NormalizedJoins(b, {}, {});
      return None;
    }
  }

  lemma ValidPartSteps(part: Part, b: Bounds)
    requires b.Valid() && PartValid(part, b)
    ensures Steps(part) && Reach(part, part.start)
  {
  }

  /** The loop's value first, then the rest of the walk. */
  lemma WalkUnfolds(part: Part, v: int, b: Bounds)
    requires Steps(part) && Reach(part, v) && v <= part.end
    ensures var next := Wrap64(v + part.step);
            && (next <= part.end ==> Reach(part, next))
            && Normalized(b, Walk(part, v)) == {b.Normalize(v)} + Normalized(b, if next <= part.end then Walk(part, next) else {})
  {
    StepDescends(part, v);
    var next := Wrap64(v + part.step);
    var rest := if next <= part.end then Walk(part, next) else {};
    assert Walk(part, v) == {v} + rest;
    NormalizedJoins(b, {v}, rest);
    NormalizedOne(b, v);
  }

  lemma NormalizedJoins(b: Bounds, x: set<int>, y: set<int>)
    ensures Normalized(b, x + y) == Normalized(b, x) + Normalized(b, y)
    ensures Normalized(b, {}) == {}
  {
  }

  lemma NormalizedOne(b: Bounds, v: int)
    ensures Normalized(b, {v}) == {b.Normalize(v)}
  {
  }

  /** parseCronField. Every part holds its start, so its emptiness check never strikes. */
  method ParseCronField(raw: string, b: Bounds) returns (field: CronField, err: Option<FieldError>)
    requires b.Valid()
    ensures fresh(field)
    ensures match FieldOf(raw, b)
            case Err(e) => err == Some(e)
            case Ok(values) => err.None? && (field.all <==> values.None?) && (values.Some? ==> field.values == values.value)
  {
    hide ParseParts, ParsePart, Union, PartValues, Normalized, AllValid, TrimSpace, SplitAt;
    var text := TrimSpace(raw);
    field := new CronField(text == "*");
    if text == "" {
      return field, Some(FieldRequired);
    }
    if text == "*" {
      return field, None;
    }
    var texts := SplitAt(text, ',');
    NoParts(texts, b);
    for i := 0 to |texts|
      invariant fresh(field) && !field.all
      invariant ParseParts(texts[..i], b).Ok?
      invariant AllValid(ParseParts(texts[..i], b).value, b)
      invariant field.values == Union(ParseParts(texts[..i], b).value, b)
    {
      OnePartMore(texts, i, b);
      err := field.AddPart(TrimSpace(texts[i]), b);
      if err.Some? {
        FirstErrorStays(texts, i + 1, b);
        return;
      }
    }
    assert texts[..|texts|] == texts;
    err := None;
  }

  lemma NoParts(texts: seq<string>, b: Bounds)
    requires b.Valid()
    ensures ParseParts(texts[..0], b) == Ok([]) && AllValid([], b) && Union([], b) == {}
  {
  }

  lemma OnePartMore(texts: seq<string>, i: nat, b: Bounds)
    requires b.Valid() && i < |texts| && ParseParts(texts[..i], b).Ok?
    requires AllValid(ParseParts(texts[..i], b).value, b)
    ensures var (before, more) := (ParseParts(texts[..i], b).value, ParsePart(TrimSpace(texts[i]), b));
            && (more.Err? ==> ParseParts(texts[..i + 1], b) == Err(more.error))
            && (more.Ok? ==> ParseParts(texts[..i + 1], b) == Ok(before + [more.value]) && PartValid(more.value, b)
                             && AllValid(before + [more.value], b)
                             && Union(before + [more.value], b) == Union(before, b) + Normalized(b, PartValues(more.value)))
  {
    hide ParsePart, PartValues, Normalized, TrimSpace;
    assert texts[..i + 1][..i] == texts[..i];
    var more := ParsePart(TrimSpace(texts[i]), b);
    if more.Ok? {
      ParsedPartIsValid(TrimSpace(texts[i]), b);
      var before := ParseParts(texts[..i], b).value;
      assert (before + [more.value])[..|before|] == before;
    }
  }

  /**
   The values of a field are the declared ones of its parts, with 7 folded to 0 where
   the field says so, as long as no part wraps around.
   */
  lemma {:induction false} FieldMeaning(parts: seq<Part>, b: Bounds, value: int)
    requires AllValid(parts, b) && forall i | 0 <= i < |parts| :: StaysInRange(parts[i])
    ensures value in Union(parts, b) <==> exists i, x | 0 <= i < |parts| && Declares(parts[i], x) :: b.Normalize(x) == value
  {
    hide Declares, Walk;
    if parts != [] {
      var n := |parts| - 1;
      FieldMeaning(parts[..n], b, value);
      PartIsExact(parts[n]);
      assert forall i | 0 <= i < n :: parts[..n][i] == parts[i];
    }
  }

  // ---------- the five fields ----------

  /** The five fields; an unrestricted one is None. */
  datatype FieldSchedule = FieldSchedule(
    minute: Option<set<int>>, hour: Option<set<int>>, day: Option<set<int>>, month: Option<set<int>>, dow: Option<set<int>>)
  {
    predicate Matches(cal: Calendar, t: int) {
      if !In(minute, cal.minute(t)) || !In(hour, cal.hour(t)) || !In(month, cal.month(t)) then false
      else if day.Some? && dow.Some? then In(day, cal.day(t)) || In(dow, cal.weekday(t))
      else In(day, cal.day(t)) && In(dow, cal.weekday(t))
    }

    /** The first matching minute up to the last one. */
    function FirstMatch(cal: Calendar, first: int, last: int): (m: Option<int>)
      ensures m.Some? ==> first <= m.value <= last && Matches(cal, m.value) && forall k | first <= k < m.value :: !Matches(cal, k)
      ensures m.None? <==> forall k | first <= k <= last :: !Matches(cal, k)
      decreases last - first
    {
      if first > last then None else if Matches(cal, first) then Some(first) else FirstMatch(cal, first + 1, last)
    }

    /** The next tick in nanoseconds since the epoch; the zero time is None. */
    function NextTick(cal: Calendar, after: int): Option<int> {
      var first := MinuteOf(after) + 1;
      var found := FirstMatch(cal, first, cal.fiveYearsAfter(first));
      if found.Some? then Some(found.value * MINUTE) else None
    }

    /**
     fieldCronSchedule.Next, as its loop runs: the least whole minute after the instant that
     matches, or none exactly when no minute matches up to five years ahead.
     */
    method Next(cal: Calendar, after: int) returns (next: Option<int>)
      ensures next == NextTick(cal, after)
      ensures next.Some? ==>
                && IsWhole(next.value) && after < next.value
                && Matches(cal, MinuteOf(next.value)) && MinuteOf(next.value) <= cal.fiveYearsAfter(MinuteOf(after) + 1)
                && forall t | after < t < next.value && IsWhole(t) :: !Matches(cal, MinuteOf(t))
      ensures next.None? <==>
                forall t | after < t && IsWhole(t) && MinuteOf(t) <= cal.fiveYearsAfter(MinuteOf(after) + 1) :: !Matches(cal, MinuteOf(t))
    {
      hide Matches, MinuteOf, IsWhole;
      NextTickIsLeast(this, cal, after);
      var candidate := MinuteOf(after) + 1;
      var deadline := cal.fiveYearsAfter(candidate);
      ghost var first := candidate;
      while candidate <= deadline
        invariant first <= candidate
        invariant FirstMatch(cal, first, deadline) == FirstMatch(cal, candidate, deadline)
        decreases deadline - candidate
      {
        if Matches(cal, candidate) {
          return Some(candidate * MINUTE);
        }
        candidate := candidate + 1;
      }
      return None;
    }
  }

  predicate In(field: Option<set<int>>, value: int) {
    field.None? || value in field.value
  }

  const MINUTES := Bounds(0, 59, false)
  const HOURS := Bounds(0, 23, false)
  const DAYS := Bounds(1, 31, false)
  const MONTHS := Bounds(1, 12, false)
  const WEEKDAYS := Bounds(0, 7, true)

  datatype ScheduleError = FiveFields | InField(name: string, error: FieldError)

  /** The field branch of parseCronSchedule: the first field in error, or the schedule. */
  function ScheduleOf(expr: string): Result<FieldSchedule, ScheduleError> {
    var texts := Fields(expr);
    if |texts| != 5 then Err(FiveFields)
    else
      match FieldOf(texts[0], MINUTES)
      case Err(e) => Err(InField("minute", e))
      case Ok(minute) =>
        match FieldOf(texts[1], HOURS)
        case Err(e) => Err(InField("hour", e))
        case Ok(hour) =>
          match FieldOf(texts[2], DAYS)
          case Err(e) => Err(InField("day-of-month", e))
          case Ok(day) =>
            match FieldOf(texts[3], MONTHS)
            case Err(e) => Err(InField("month", e))
            case Ok(month) =>
              match FieldOf(texts[4], WEEKDAYS)
              case Err(e) => Err(InField("day-of-week", e))
              case Ok(dow) => Ok(FieldSchedule(minute, hour, day, month, dow))
  }

  /** parseCronSchedule on an expression that is no @every interval. */
  method ParseFieldSchedule(expr: string) returns (schedule: FieldSchedule, err: Option<ScheduleError>)
    ensures match ScheduleOf(expr)
            case Err(e) => err == Some(e)
            case Ok(s) => err.None? && schedule == s
  {
    hide FieldOf, Fields;
    schedule := FieldSchedule(None, None, None, None, None);
    var texts := Fields(expr);
    if |texts| != 5 {
      return schedule, Some(FiveFields);
    }
    var minute, failed := ParseCronField(texts[0], MINUTES);
    if failed.Some? {
      return schedule, Some(InField("minute", failed.value));
    }
    var hour, day, month, dow;
    hour, failed := ParseCronField(texts[1], HOURS);
    if failed.Some? {
      return schedule, Some(InField("hour", failed.value));
    }
    day, failed := ParseCronField(texts[2], DAYS);
    if failed.Some? {
      return schedule, Some(InField("day-of-month", failed.value));
    }
    month, failed := ParseCronField(texts[3], MONTHS);
    if failed.Some? {
      return schedule, Some(InField("month", failed.value));
    }
    dow, failed := ParseCronField(texts[4], WEEKDAYS);
    if failed.Some? {
      return schedule, Some(InField("day-of-week", failed.value));
    }
    schedule := FieldSchedule(Restriction(minute), Restriction(hour), Restriction(day), Restriction(month), Restriction(dow));
    err := None;
  }

  function Restriction(field: CronField): Option<set<int>>
    reads field
  {
    if field.all then None else Some(field.values)
  }

  // ---------- the next matching minute ----------

  const MINUTE: int := 60 * SECOND_NANOS
  const SECOND_NANOS: int := 1_000_000_000

  /** The UTC calendar, by minutes since the epoch; `fiveYearsAfter` is AddDate(5, 0, 0). */
  datatype Calendar = Calendar(
    minute: int -> int, hour: int -> int, day: int -> int, month: int -> int, weekday: int -> int, fiveYearsAfter: int -> int)

  /** Whole minutes since the epoch, and the minute that an instant lies in. */
  predicate IsWhole(t: int) {
    t % MINUTE == 0
  }

  function MinuteOf(t: int): (m: int)
    ensures m * 60_000_000_000 <= t < (m + 1) * 60_000_000_000
  {
    t / MINUTE
  }

  lemma WholeMinute(m: int)
    ensures IsWhole(m * MINUTE) && MinuteOf(m * MINUTE) == m
  {
  }

  lemma MinutesInOrder(after: int, t: int)
    requires IsWhole(t)
    ensures t == MinuteOf(t) * MINUTE && (after < t <==> MinuteOf(after) + 1 <= MinuteOf(t))
  {
  }

  /** Instants in order lie in minutes in order. */
  lemma MinutesGrow(a: int, b: int)
    requires a <= b
    ensures MinuteOf(a) <= MinuteOf(b)
  {
  }

  /** Why the first matching minute of the window is the least instant that matches. */
  lemma NextTickIsLeast(s: FieldSchedule, cal: Calendar, after: int)
    ensures var next := s.NextTick(cal, after);
            && (next.Some? ==>
                  && IsWhole(next.value) && after < next.value
                  && s.Matches(cal, MinuteOf(next.value)) && MinuteOf(next.value) <= cal.fiveYearsAfter(MinuteOf(after) + 1)
                  && forall t | after < t < next.value && IsWhole(t) :: !s.Matches(cal, MinuteOf(t)))
            && (next.None? <==>
                  forall t | after < t && IsWhole(t) && MinuteOf(t) <= cal.fiveYearsAfter(MinuteOf(after) + 1) :: !s.Matches(cal, MinuteOf(t)))
  {
    hide FieldSchedule.Matches, MinuteOf, IsWhole;
    var next, first := s.NextTick(cal, after), MinuteOf(after) + 1;
    var deadline := cal.fiveYearsAfter(first);
    var found := s.FirstMatch(cal, first, deadline);
    if found.Some? {
      WholeMinute(found.value);
      MinutesInOrder(after, next.value);
    }
    forall t | after < t && IsWhole(t) && (next.Some? ==> t < next.value) && MinuteOf(t) <= deadline
      ensures !s.Matches(cal, MinuteOf(t))
    {
      MinutesInOrder(after, t);
      if found.Some? {
        assert MinuteOf(t) * MINUTE < found.value * MINUTE;
      }
    }
    forall t | after < t && IsWhole(t) && next.Some? && t < next.value
      ensures !s.Matches(cal, MinuteOf(t))
    {
      MinutesInOrder(after, t);
      assert MinuteOf(t) * MINUTE < found.value * MINUTE;
    }
  }

  /** A later instant never has an earlier deadline. */
  ghost predicate Monotone(cal: Calendar) {
    forall m, n | m <= n :: cal.fiveYearsAfter(m) <= cal.fiveYearsAfter(n)
  }

  /**
   Every tick of a field schedule lies strictly ahead, and all clocks that have not passed
   it yet choose the same one.
   */
  lemma FieldIsForward(s: FieldSchedule, cal: Calendar, ttl: int)
    requires Monotone(cal)
    ensures CronLeaders.Forward(CronLeaders.Schedule(at => s.NextTick(cal, at), ttl))
    ensures forall a, b | a <= b && s.NextTick(cal, a).Some? && b < s.NextTick(cal, a).value :: s.NextTick(cal, b) == s.NextTick(cal, a)
  {
    hide FieldSchedule.Matches, FieldSchedule.NextTick;
    forall at: int | s.NextTick(cal, at).Some?
      ensures s.NextTick(cal, at).value > at
    {
      NextTickIsLeast(s, cal, at);
    }
    forall a, b | a <= b && s.NextTick(cal, a).Some? && b < s.NextTick(cal, a).value
      ensures s.NextTick(cal, b) == s.NextTick(cal, a)
    {
      SameTick(s, cal, a, b);
    }
  }

  lemma SameTick(s: FieldSchedule, cal: Calendar, a: int, b: int)
    requires Monotone(cal) && a <= b && s.NextTick(cal, a).Some? && b < s.NextTick(cal, a).value
    ensures s.NextTick(cal, b) == s.NextTick(cal, a)
  {
    hide FieldSchedule.Matches, MinuteOf, IsWhole;
    var first, later := MinuteOf(a) + 1, MinuteOf(b) + 1;
    var m := s.FirstMatch(cal, first, cal.fiveYearsAfter(first)).value;
    MinutesGrow(a, b);
    WholeMinute(m);
    MinutesInOrder(b, m * MINUTE);
    assert first <= later <= m <= cal.fiveYearsAfter(first) <= cal.fiveYearsAfter(later);
    SameFirst(s, cal, first, cal.fiveYearsAfter(first), later, cal.fiveYearsAfter(later));
  }

  /** The first match of a window is that of every window that begins later, but not behind it. */
  lemma SameFirst(s: FieldSchedule, cal: Calendar, first: int, last: int, first': int, last': int)
    requires s.FirstMatch(cal, first, last).Some?
    requires first <= first' <= s.FirstMatch(cal, first, last).value <= last'
    ensures s.FirstMatch(cal, first', last') == s.FirstMatch(cal, first, last)
  {
    hide FieldSchedule.Matches;
    var m := s.FirstMatch(cal, first, last).value;
    assert s.Matches(cal, m);
    assert s.FirstMatch(cal, first', last').Some?;
  }
}
