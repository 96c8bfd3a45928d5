/**
 What the text of a cron expression declares: a grammar of fields, the values that each
 form stands for, and the minutes that an expression matches, all without the parser.
 The parser accepts exactly the grammar, and gives each text its meaning.
 */
module CronTexts {
  import opened Wrappers
  import opened Text
  import opened CronSchedules
  import opened CronFields

  // ---------- the grammar ----------

  /** "*", a number, or a range of two numbers. */
  datatype Span = Every | At(x: string) | Between(x: string, y: string)

  /** A span, of which every step-th value counts. */
  datatype Item = Item(span: Span, step: Option<string>)

  function SpanText(s: Span): string {
    match s
    case Every => "*"
    case At(x) => x
    case Between(x, y) => x + ['-'] + y
  }

  function ItemText(item: Item): string {
    if item.step.Some? then SpanText(item.span) + ['/'] + item.step.value else SpanText(item.span)
  }

  function ItemTexts(items: seq<Item>): seq<string> {
    seq(|items|, i requires 0 <= i < |items| => ItemText(items[i]))
  }

  function FieldText(items: seq<Item>): string {
    Joined(ItemTexts(items), ',')
  }

  predicate Numeral(x: string, lo: int, hi: int) {
    '-' !in x && '/' !in x && Atoi(x).Some? && lo <= Atoi(x).value <= hi
  }

  /** The item is written without spaces and commas, its numbers lie in the bounds and in order. */
  predicate Fits(item: Item, lo: int, hi: int) {
    && Plain(ItemText(item)) && ',' !in ItemText(item)
    && (match item.span
        case Every => true
        case At(x) => Numeral(x, lo, hi)
        case Between(x, y) =>
          Numeral(x, lo, hi) && '/' !in y && Atoi(y).Some? && lo <= Atoi(y).value <= hi && Atoi(x).value <= Atoi(y).value)
    && (item.step.Some? ==> Atoi(item.step.value).Some? && Atoi(item.step.value).value > 0)
  }

  predicate AllFit(items: seq<Item>, lo: int, hi: int) {
    items != [] && forall i | 0 <= i < |items| :: Fits(items[i], lo, hi)
  }

  // ---------- the meaning ----------

  function First(item: Item, lo: int): int
    requires item.span.Every? || Atoi(item.span.x).Some?
  {
    if item.span.Every? then lo else Atoi(item.span.x).value
  }

  function Last(item: Item, hi: int): int
    requires match item.span case Every => true case At(x) => Atoi(x).Some? case Between(_, y) => Atoi(y).Some?
  {
    match item.span
    case Every => hi
    case At(x) => Atoi(x).value
    case Between(_, y) => Atoi(y).value
  }

  function Step(item: Item): int
    requires item.step.Some? ==> Atoi(item.step.value).Some?
  {
    if item.step.None? then 1 else Atoi(item.step.value).value
  }

  /** The value is one of the item's. */
  predicate Covers(item: Item, lo: int, hi: int, value: int)
    requires Fits(item, lo, hi)
  {
    First(item, lo) <= value <= Last(item, hi) && (value - First(item, lo)) % Step(item) == 0
  }

  /** The first value behind the last one is an int64. */
  predicate Unwrapped(item: Item, lo: int, hi: int)
    requires Fits(item, lo, hi)
  {
    First(item, lo) + ((Last(item, hi) - First(item, lo)) / Step(item) + 1) * Step(item) <= MAX_INT64
  }

  predicate AllUnwrapped(items: seq<Item>, lo: int, hi: int)
    requires AllFit(items, lo, hi)
  {
    forall i | 0 <= i < |items| :: Unwrapped(items[i], lo, hi)
  }

  /** "*" alone restricts nothing; else some item has to cover the value, 7 standing for 0 among weekdays. */
  ghost predicate Tells(items: seq<Item>, lo: int, hi: int, sunday7: bool, value: int)
    requires AllFit(items, lo, hi)
  {
    || FieldText(items) == "*"
    || exists i, x | 0 <= i < |items| && Covers(items[i], lo, hi, x) :: (if sunday7 && x == 7 then 0 else x) == value
  }

  // ---------- one item ----------

  function PartOf(item: Item, b: Bounds): Part
    requires Fits(item, b.min, b.max)
  {
    Part(First(item, b.min), Last(item, b.max), Step(item))
  }

  lemma NumberIsRead(x: string, b: Bounds)
    requires Plain(x) && Atoi(x).Some? && b.min <= Atoi(x).value <= b.max
    ensures ParseValue(x, b) == Ok(Atoi(x).value)
  {
    hide Atoi, Plain, TrimSpace;
    TrimPlain(x);
  }

  lemma {:induction false} NotFound(s: string, separator: char)
    requires separator !in s
    ensures Cut(s, separator) == (s, "", false)
  {
    if s != [] {
      NotFound(s[1..], separator);
    }
  }

  lemma PlainSides(x: string, y: string)
    requires Plain(x + ['-'] + y)
    ensures Plain(x) && Plain(y)
  {
    var text := x + ['-'] + y;
    assert forall i | 0 <= i < |x| :: x[i] == text[i];
    assert forall i | 0 <= i < |y| :: y[i] == text[|x| + 1 + i];
  }

  lemma NumeralIsNoStar(x: string)
    requires Atoi(x).Some?
    ensures x != "*" && x != ""
  {
  }

  lemma SpanIsRead(span: Span, b: Bounds)
    requires b.Valid() && Fits(Item(span, None), b.min, b.max)
    ensures CronFieldRange(SpanText(span), b) == Ok((First(Item(span, None), b.min), Last(Item(span, None), b.max)))
  {
    hide Atoi, Plain, ParseValue, Cut;
    match span {
      case Every =>
      case At(x) =>
        NumeralIsNoStar(x);
        NotFound(x, '-');
        NumberIsRead(x, b);
      case Between(x, y) =>
        CutsAtFirst(x, '-', y);
        assert (x + ['-'] + y) != "*" by {
          NumeralIsNoStar(x);
        }
        PlainSides(x, y);
        NumberIsRead(x, b);
        NumberIsRead(y, b);
    }
  }

  lemma SpanHasNoSlash(span: Span, lo: int, hi: int)
    requires Fits(Item(span, None), lo, hi)
    ensures '/' !in SpanText(span) && SpanText(span) != ""
  {
  }

  lemma SpanFits(item: Item, lo: int, hi: int)
    requires Fits(item, lo, hi)
    ensures Fits(Item(item.span, None), lo, hi)
  {
    var text, whole := SpanText(item.span), ItemText(item);
    assert forall i | 0 <= i < |text| :: text[i] == whole[i];
  }

  /** The parser reads every fitting item as what it stands for. */
  lemma ItemIsRead(item: Item, b: Bounds)
    requires b.Valid() && Fits(item, b.min, b.max)
    ensures ParsePart(ItemText(item), b) == Ok(PartOf(item, b)) && PartValid(PartOf(item, b), b)
  {
    SpanFits(item, b.min, b.max);
    SpanIsRead(item.span, b);
    SpanHasNoSlash(item.span, b.min, b.max);
    if item.step.Some? {
      CutsAtFirst(SpanText(item.span), '/', item.step.value);
      AtoiInRange(item.step.value);
    }
    hide CronFieldRange, Atoi;
  }

  lemma AtoiInRange(s: string)
    ensures Atoi(s).Some? ==> MIN_INT64 <= Atoi(s).value <= MAX_INT64
  {
  }

  /** Whatever range the parser accepts is written as a span. */
  lemma RangeIsSpan(text: string, b: Bounds) returns (span: Span)
    requires b.Valid() && Plain(text) && '/' !in text && ',' !in text && CronFieldRange(text, b).Ok?
    ensures SpanText(span) == text && Fits(Item(span, None), b.min, b.max)
  {
    hide Atoi, TrimSpace, Cut, Plain;
    if text == "*" {
      span := Every;
    } else {
      var (left, right, hasRange) := Cut(text, '-');
      if hasRange {
        assert text == left + ['-'] + right;
        PlainSides(left, right);
        assert forall c | c in left || c in right :: c in text;
        TrimPlain(left);
        TrimPlain(right);
        span := Between(left, right);
      } else {
        TrimPlain(text);
        span := At(text);
      }
    }
  }

  /** Whatever part the parser accepts is written as a fitting item. */
  lemma PartIsItem(text: string, b: Bounds) returns (item: Item)
    requires b.Valid() && Plain(text) && ',' !in text && ParsePart(text, b).Ok?
    ensures ItemText(item) == text && Fits(item, b.min, b.max)
  {
    var (rangePart, stepPart, hasStep) := Cut(text, '/');
    assert hasStep ==> text == rangePart + ['/'] + stepPart;
    assert forall i | 0 <= i < |rangePart| :: rangePart[i] == text[i];
    var span := RangeIsSpan(rangePart, b);
    item := Item(span, if hasStep then Some(stepPart) else None);
  }

  // ---------- a whole field ----------

  function PartsOf(items: seq<Item>, b: Bounds): seq<Part>
    requires forall i | 0 <= i < |items| :: Fits(items[i], b.min, b.max)
  {
    seq(|items|, i requires 0 <= i < |items| => PartOf(items[i], b))
  }

  lemma {:induction false} ItemsAreRead(items: seq<Item>, b: Bounds)
    requires b.Valid() && forall i | 0 <= i < |items| :: Fits(items[i], b.min, b.max)
    ensures ParseParts(ItemTexts(items), b) == Ok(PartsOf(items, b)) && AllValid(PartsOf(items, b), b)
  {
    hide ParsePart, Fits, ItemText, PartOf, PartValid, TrimSpace;
    if items != [] {
      var n := |items| - 1;
      ItemsAreRead(items[..n], b);
      ItemIsRead(items[n], b);
      ItemIsPlain(items[n], b.min, b.max);
      assert ItemTexts(items)[..n] == ItemTexts(items[..n]);
      assert PartsOf(items, b) == PartsOf(items[..n], b) + [PartOf(items[n], b)];
    }
  }

  lemma ItemIsPlain(item: Item, lo: int, hi: int)
    requires Fits(item, lo, hi)
    ensures TrimSpace(ItemText(item)) == ItemText(item) && ',' !in ItemText(item) && Plain(ItemText(item)) && ItemText(item) != ""
  {
    TrimPlain(ItemText(item));
  }

  lemma {:induction false} PartsAreItems(texts: seq<string>, b: Bounds) returns (items: seq<Item>)
    requires b.Valid() && ParseParts(texts, b).Ok? && forall i | 0 <= i < |texts| :: Plain(texts[i]) && ',' !in texts[i]
    ensures ItemTexts(items) == texts && forall i | 0 <= i < |items| :: Fits(items[i], b.min, b.max)
  {
    hide ParsePart, Fits, ItemText, TrimSpace;
    if texts == [] {
      items := [];
    } else {
      var n := |texts| - 1;
      var before := PartsAreItems(texts[..n], b);
      TrimPlain(texts[n]);
      var item := PartIsItem(texts[n], b);
      items := before + [item];
      assert ItemTexts(items) == ItemTexts(before) + [ItemText(item)];
    }
  }

  lemma {:induction false} JoinedIsPlain(texts: seq<string>)
    requires forall i | 0 <= i < |texts| :: Plain(texts[i])
    ensures Plain(Joined(texts, ','))
  {
    if |texts| > 1 {
      JoinedIsPlain(texts[1..]);
    }
  }

  /** The text of fitting items is split into them again. */
  lemma FieldSplits(items: seq<Item>, lo: int, hi: int)
    requires AllFit(items, lo, hi)
    ensures SplitAt(FieldText(items), ',') == ItemTexts(items)
    ensures TrimSpace(FieldText(items)) == FieldText(items) && FieldText(items) != "" && Plain(FieldText(items))
  {
    hide Fits, ItemText, TrimSpace;
    forall i | 0 <= i < |items|
      ensures ',' !in ItemTexts(items)[i] && Plain(ItemTexts(items)[i]) && ItemTexts(items)[i] != ""
    {
      ItemIsPlain(items[i], lo, hi);
    }
    JoinedSplits(ItemTexts(items), ',');
    JoinedIsPlain(ItemTexts(items));
    TrimPlain(FieldText(items));
    assert ItemTexts(items)[0] != "";
  }

  /** A field without spaces is accepted if and only if it is written in the grammar. */
  lemma FieldGrammar(text: string, b: Bounds)
    requires b.Valid() && Plain(text)
    ensures FieldOf(text, b).Ok? <==> exists items :: FieldText(items) == text && AllFit(items, b.min, b.max)
  {
    hide ParseParts, Union, AllFit, FieldText, SplitAt, TrimSpace, Plain;
    TrimPlain(text);
    if FieldOf(text, b).Ok? {
      var items := AcceptedItems(text, b);
    }
    forall items | FieldText(items) == text && AllFit(items, b.min, b.max)
      ensures FieldOf(text, b).Ok?
    {
      FieldSplits(items, b.min, b.max);
      ItemsFit(items, b.min, b.max);
      ItemsAreRead(items, b);
    }
  }

  lemma ItemsFit(items: seq<Item>, lo: int, hi: int)
    requires AllFit(items, lo, hi)
    ensures forall i | 0 <= i < |items| :: Fits(items[i], lo, hi)
  {
  }

  lemma AcceptedItems(text: string, b: Bounds) returns (items: seq<Item>)
    requires b.Valid() && Plain(text) && FieldOf(text, b).Ok?
    ensures FieldText(items) == text && AllFit(items, b.min, b.max)
  {
    hide ParseParts, Union, Fits, TrimSpace, SplitAt;
    TrimPlain(text);
    SplitIsJoined(text, ',');
    var texts := SplitAt(text, ',');
    if text == "*" {
      items := [Item(Every, None)];
      StarFits(b.min, b.max);
    } else {
      PartsPlain(text, texts);
      items := PartsAreItems(texts, b);
    }
  }

  lemma StarFits(lo: int, hi: int)
    ensures Fits(Item(Every, None), lo, hi) && FieldText([Item(Every, None)]) == "*"
  {
    assert ItemTexts([Item(Every, None)]) == ["*"];
  }

  lemma PartsPlain(text: string, texts: seq<string>)
    requires Plain(text) && forall i | 0 <= i < |texts| :: ',' !in texts[i] && forall c | c in texts[i] :: c in text
    ensures forall i | 0 <= i < |texts| :: Plain(texts[i]) && ',' !in texts[i]
  {
    forall i | 0 <= i < |texts|
      ensures Plain(texts[i])
    {
      forall k | 0 <= k < |texts[i]|
        ensures !IsSpace(texts[i][k])
      {
        assert texts[i][k] in text;
      }
    }
  }

  /**
   A field in the grammar holds exactly the values that its items cover, unless one of
   them steps around the end of int64; "*" alone restricts nothing.
   */
  lemma FieldTells(items: seq<Item>, b: Bounds, value: int)
    requires b.Valid() && AllFit(items, b.min, b.max)
    ensures FieldOf(FieldText(items), b).Ok?
    ensures FieldOf(FieldText(items), b).value.None? <==> FieldText(items) == "*"
    ensures AllUnwrapped(items, b.min, b.max) ==>
              (In(FieldOf(FieldText(items), b).value, value) <==> Tells(items, b.min, b.max, b.sunday7, value))
  {
    hide ParseParts, Union, FieldText, SplitAt, TrimSpace, Fits, PartOf, Covers, Unwrapped, Declares;
    FieldSplits(items, b.min, b.max);
    ItemsAreRead(items, b);
    if FieldText(items) != "*" && AllUnwrapped(items, b.min, b.max) {
      forall i | 0 <= i < |items|
        ensures PartsOf(items, b)[i].step > 0 && StaysInRange(PartsOf(items, b)[i])
        ensures forall x :: Covers(items[i], b.min, b.max, x) <==> Declares(PartsOf(items, b)[i], x)
      {
        ItemDeclares(items[i], b);
      }
      FieldMeaning(PartsOf(items, b), b, value);
      SameValues(items, b, value);
    }
  }

  lemma ItemDeclares(item: Item, b: Bounds)
    requires b.Valid() && Fits(item, b.min, b.max)
    ensures PartOf(item, b).step > 0 && (Unwrapped(item, b.min, b.max) ==> StaysInRange(PartOf(item, b)))
    ensures forall x :: Covers(item, b.min, b.max, x) <==> Declares(PartOf(item, b), x)
  {
    hide Atoi, Plain;
    var part := PartOf(item, b);
    LastStep(part.start, part.end, part.step);
    assert PartOf(item, b).step > 0;
    hide Fits;
  }

  /** The first value behind the last one, written in both ways. */
  lemma LastStep(start: int, end: int, step: int)
    requires step > 0
    ensures start + ((end - start) / step + 1) * step == start + (end - start) / step * step + step
  {
    var q := (end - start) / step;
    assert (q + 1) * step == q * step + step;
  }

  lemma SameValues(items: seq<Item>, b: Bounds, value: int)
    requires AllFit(items, b.min, b.max)
    requires forall i | 0 <= i < |items| ::
               PartsOf(items, b)[i].step > 0
               && forall x :: Covers(items[i], b.min, b.max, x) <==> Declares(PartsOf(items, b)[i], x)
    ensures (exists i, x | 0 <= i < |PartsOf(items, b)| && Declares(PartsOf(items, b)[i], x) :: b.Normalize(x) == value)
              <==> (exists i, x | 0 <= i < |items| && Covers(items[i], b.min, b.max, x) :: (if b.sunday7 && x == 7 then 0 else x) == value)
  {
    hide Fits, PartOf, Covers, Declares;
    var parts := PartsOf(items, b);
    if exists i, x | 0 <= i < |parts| && Declares(parts[i], x) :: b.Normalize(x) == value {
      var i, x :| 0 <= i < |parts| && Declares(parts[i], x) && b.Normalize(x) == value;
      assert Covers(items[i], b.min, b.max, x) && (if b.sunday7 && x == 7 then 0 else x) == value;
    }
    if exists i, x | 0 <= i < |items| && Covers(items[i], b.min, b.max, x) :: (if b.sunday7 && x == 7 then 0 else x) == value {
      var i, x :| 0 <= i < |items| && Covers(items[i], b.min, b.max, x) && (if b.sunday7 && x == 7 then 0 else x) == value;
      assert Declares(parts[i], x) && b.Normalize(x) == value;
    }
  }

  // ---------- the five fields ----------

  datatype Expression = Expression(minute: seq<Item>, hour: seq<Item>, day: seq<Item>, month: seq<Item>, weekday: seq<Item>)

  function Words(e: Expression): seq<string> {
    [FieldText(e.minute), FieldText(e.hour), FieldText(e.day), FieldText(e.month), FieldText(e.weekday)]
  }

  /** Every field is in the grammar, with its own bounds. */
  predicate WellWritten(e: Expression) {
    AllFit(e.minute, 0, 59) && AllFit(e.hour, 0, 23) && AllFit(e.day, 1, 31) && AllFit(e.month, 1, 12) && AllFit(e.weekday, 0, 7)
  }

  predicate NothingWraps(e: Expression)
    requires WellWritten(e)
  {
    && AllUnwrapped(e.minute, 0, 59) && AllUnwrapped(e.hour, 0, 23) && AllUnwrapped(e.day, 1, 31)
    && AllUnwrapped(e.month, 1, 12) && AllUnwrapped(e.weekday, 0, 7)
  }

  lemma WordsArePlain(expr: string)
    requires |Fields(expr)| == 5
    ensures forall i | 0 <= i < 5 :: Plain(Fields(expr)[i])
  {
    var words := Fields(expr);
    forall i | 0 <= i < 5
      ensures Plain(words[i])
    {
      assert words[i] in words;
    }
  }

  lemma FiveFieldsOf(expr: string)
    ensures ScheduleOf(expr).Ok? <==>
              (&& |Fields(expr)| == 5
               && FieldOf(Fields(expr)[0], MINUTES).Ok? && FieldOf(Fields(expr)[1], HOURS).Ok? && FieldOf(Fields(expr)[2], DAYS).Ok?
               && FieldOf(Fields(expr)[3], MONTHS).Ok? && FieldOf(Fields(expr)[4], WEEKDAYS).Ok?)
  {
    hide FieldOf, Fields;
  }

  /** An expression is accepted if and only if it is five words of the grammar. */
  lemma ScheduleGrammar(expr: string)
    ensures ScheduleOf(expr).Ok? <==> exists e :: WellWritten(e) && Fields(expr) == Words(e)
  {
    hide FieldOf, Fields, AllFit, FieldText, ScheduleOf, Plain;
    FiveFieldsOf(expr);
    if |Fields(expr)| == 5 {
      var words := Fields(expr);
      WordsArePlain(expr);
      FieldGrammar(words[0], MINUTES);
      FieldGrammar(words[1], HOURS);
      FieldGrammar(words[2], DAYS);
      FieldGrammar(words[3], MONTHS);
      FieldGrammar(words[4], WEEKDAYS);
      if ScheduleOf(expr).Ok? {
        var minute :| FieldText(minute) == words[0] && AllFit(minute, 0, 59);
        var hour :| FieldText(hour) == words[1] && AllFit(hour, 0, 23);
        var day :| FieldText(day) == words[2] && AllFit(day, 1, 31);
        var month :| FieldText(month) == words[3] && AllFit(month, 1, 12);
        var weekday :| FieldText(weekday) == words[4] && AllFit(weekday, 0, 7);
        var e := Expression(minute, hour, day, month, weekday);
        assert WellWritten(e) && words == Words(e);
      }
    }
  }

  /**
   What an accepted expression means: a minute matches if and only if the text tells its
   minute, hour and month, and its day and weekday, of which one is enough when both are
   restricted.
   */
  lemma ScheduleMeaning(expr: string, e: Expression, cal: Calendar, t: int)
    requires WellWritten(e) && Fields(expr) == Words(e) && NothingWraps(e)
    ensures ScheduleOf(expr).Ok?
    ensures var day, weekday := Tells(e.day, 1, 31, false, cal.day(t)), Tells(e.weekday, 0, 7, true, cal.weekday(t));
            ScheduleOf(expr).value.Matches(cal, t) <==>
              (&& Tells(e.minute, 0, 59, false, cal.minute(t)) && Tells(e.hour, 0, 23, false, cal.hour(t))
               && Tells(e.month, 1, 12, false, cal.month(t))
               && if FieldText(e.day) != "*" && FieldText(e.weekday) != "*" then day || weekday else day && weekday)
  {
    hide FieldOf, Fields, AllFit, FieldText, AllUnwrapped, Tells;
    FieldTells(e.minute, MINUTES, cal.minute(t));
    FieldTells(e.hour, HOURS, cal.hour(t));
    FieldTells(e.day, DAYS, cal.day(t));
    FieldTells(e.month, MONTHS, cal.month(t));
    FieldTells(e.weekday, WEEKDAYS, cal.weekday(t));
  }

  // ---------- written numbers ----------

  lemma DigitsAreNumeral(a: int, lo: int, hi: int)
    requires 0 <= a <= MAX_INT64 && lo <= a <= hi
    ensures Numeral(Itoa(a), lo, hi) && Atoi(Itoa(a)) == Some(a) && ',' !in Itoa(a) && Plain(Itoa(a))
  {
    AtoiOfItoa(a);
    var s := Itoa(a);
    assert forall i | 0 <= i < |s| :: IsDigit(s[i]);
  }

  function Stepped(span: Span, step: Option<int>): Item {
    Item(span, if step.Some? then Some(Itoa(step.value)) else None)
  }

  lemma ItemIsWritten(span: Span, step: Option<int>, lo: int, hi: int)
    requires step.Some? ==> 0 < step.value <= MAX_INT64
    requires Fits(Item(span, None), lo, hi)
    ensures Fits(Stepped(span, step), lo, hi) && Step(Stepped(span, step)) == if step.Some? then step.value else 1
  {
    hide Atoi, Itoa, Plain;
    if step.Some? {
      DigitsAreNumeral(step.value, step.value, step.value);
      PlainJoins(SpanText(span), '/', Itoa(step.value));
    }
  }

  lemma PlainJoins(before: string, c: char, after: string)
    requires Plain(before) && Plain(after) && !IsSpace(c) && c != ',' && ',' !in before && ',' !in after
    ensures Plain(before + [c] + after) && ',' !in before + [c] + after
  {
    var text := before + [c] + after;
    forall i | 0 <= i < |text|
      ensures !IsSpace(text[i]) && text[i] != ','
    {
      assert text[i] == if i < |before| then before[i] else if i == |before| then c else after[i - |before| - 1];
    }
  }

  /**
   The forms as one writes them: "*", a number a and a range a-b, each with or without a
   step s, stand for every s-th value of the whole bounds, of a alone, and from a to b.
   */
  lemma WrittenForms(a: int, b: int, step: Option<int>, lo: int, hi: int, value: int)
    requires 0 <= lo <= a <= b <= hi <= MAX_INT64 && (step.Some? ==> 0 < step.value <= MAX_INT64)
    ensures var every := Stepped(Every, step);
            && ItemText(every) == "*" + (if step.Some? then "/" + Itoa(step.value) else "") && Fits(every, lo, hi)
            && (Covers(every, lo, hi, value) <==> lo <= value <= hi && (value - lo) % (if step.Some? then step.value else 1) == 0)
    ensures var one := Stepped(At(Itoa(a)), step);
            && ItemText(one) == Itoa(a) + (if step.Some? then "/" + Itoa(step.value) else "") && Fits(one, lo, hi)
            && (Covers(one, lo, hi, value) <==> value == a)
    ensures var range := Stepped(Between(Itoa(a), Itoa(b)), step);
            && ItemText(range) == Itoa(a) + "-" + Itoa(b) + (if step.Some? then "/" + Itoa(step.value) else "") && Fits(range, lo, hi)
            && (Covers(range, lo, hi, value) <==> a <= value <= b && (value - a) % (if step.Some? then step.value else 1) == 0)
  {
    hide Itoa, Atoi, Fits, Plain, Covers, Stepped, ItemText;
    WrittenEvery(step, lo, hi, value);
    WrittenNumber(a, step, lo, hi, value);
    WrittenRange(a, b, step, lo, hi, value);
  }

  lemma SteppedText(span: Span, step: Option<int>)
    ensures ItemText(Stepped(span, step)) == SpanText(span) + (if step.Some? then "/" + Itoa(step.value) else "")
  {
    hide Itoa;
    if step.Some? {
      TextsJoin(SpanText(span), Itoa(step.value));
    } else {
      assert SpanText(span) + "" == SpanText(span);
    }
  }

  lemma CoversFrom(item: Item, lo: int, hi: int, value: int, first: int, last: int, step: int)
    requires Fits(item, lo, hi) && First(item, lo) == first && Last(item, hi) == last && Step(item) == step > 0
    ensures Covers(item, lo, hi, value) <==> first <= value <= last && (value - first) % step == 0
  {
  }

  lemma OneValue(a: int, value: int, step: int)
    requires step > 0
    ensures a <= value <= a && (value - a) % step == 0 <==> value == a
  {
  }

  lemma WrittenEvery(step: Option<int>, lo: int, hi: int, value: int)
    requires step.Some? ==> 0 < step.value <= MAX_INT64
    ensures var every := Stepped(Every, step);
            && ItemText(every) == "*" + (if step.Some? then "/" + Itoa(step.value) else "") && Fits(every, lo, hi)
            && (Covers(every, lo, hi, value) <==> lo <= value <= hi && (value - lo) % (if step.Some? then step.value else 1) == 0)
  {
    hide Itoa, Atoi, Fits, Plain, ItemText, Covers, Step;
    StarFits(lo, hi);
    ItemIsWritten(Every, step, lo, hi);
    SteppedText(Every, step);
    CoversFrom(Stepped(Every, step), lo, hi, value, lo, hi, if step.Some? then step.value else 1);
  }

  lemma WrittenNumber(a: int, step: Option<int>, lo: int, hi: int, value: int)
    requires 0 <= lo <= a <= hi <= MAX_INT64 && (step.Some? ==> 0 < step.value <= MAX_INT64)
    ensures var one := Stepped(At(Itoa(a)), step);
            && ItemText(one) == Itoa(a) + (if step.Some? then "/" + Itoa(step.value) else "") && Fits(one, lo, hi)
            && (Covers(one, lo, hi, value) <==> value == a)
  {
    hide Itoa, Atoi, Fits, Plain, ItemText, Covers, Step;
    DigitsAreNumeral(a, lo, hi);
    NumberFits(Itoa(a), lo, hi);
    ItemIsWritten(At(Itoa(a)), step, lo, hi);
    SteppedText(At(Itoa(a)), step);
    CoversFrom(Stepped(At(Itoa(a)), step), lo, hi, value, a, a, if step.Some? then step.value else 1);
    OneValue(a, value, if step.Some? then step.value else 1);
  }

  lemma WrittenRange(a: int, b: int, step: Option<int>, lo: int, hi: int, value: int)
    requires 0 <= lo <= a <= b <= hi <= MAX_INT64 && (step.Some? ==> 0 < step.value <= MAX_INT64)
    ensures var range := Stepped(Between(Itoa(a), Itoa(b)), step);
            && ItemText(range) == Itoa(a) + "-" + Itoa(b) + (if step.Some? then "/" + Itoa(step.value) else "") && Fits(range, lo, hi)
            && (Covers(range, lo, hi, value) <==> a <= value <= b && (value - a) % (if step.Some? then step.value else 1) == 0)
  {
    hide Itoa, Atoi, Fits, Plain, ItemText, Covers, Step;
    DigitsAreNumeral(a, lo, hi);
    DigitsAreNumeral(b, lo, hi);
    RangeFits(Itoa(a), Itoa(b), lo, hi);
    ItemIsWritten(Between(Itoa(a), Itoa(b)), step, lo, hi);
    SteppedText(Between(Itoa(a), Itoa(b)), step);
    CoversFrom(Stepped(Between(Itoa(a), Itoa(b)), step), lo, hi, value, a, b, if step.Some? then step.value else 1);
  }

  lemma TextsJoin(s: string, step: string)
    ensures s + ['/'] + step == s + ("/" + step)
  {
  }

  lemma NumberFits(x: string, lo: int, hi: int)
    requires Numeral(x, lo, hi) && Plain(x) && ',' !in x
    ensures Fits(Item(At(x), None), lo, hi)
  {
  }

  lemma RangeFits(x: string, y: string, lo: int, hi: int)
    requires Numeral(x, lo, hi) && Numeral(y, lo, hi) && Plain(x) && Plain(y) && ',' !in x && ',' !in y
    requires Atoi(x).value <= Atoi(y).value
    ensures Fits(Item(Between(x, y), None), lo, hi)
  {
    hide Atoi, Plain;
    PlainJoins(x, '-', y);
  }

  // ---------- what is refused ----------

  /** What is wrong with one number, if anything; spaces around it do not matter. */
  function ValueError(x: string, lo: int, hi: int): Option<FieldError> {
    if Atoi(TrimSpace(x)).None? then Some(InvalidValue(x))
    else if lo <= Atoi(TrimSpace(x)).value <= hi then None
    else Some(OutsideBounds(Atoi(TrimSpace(x)).value))
  }

  /** What is wrong with an item: its step goes first, then its first number, its second, and their order. */
  function ItemError(span: Span, step: Option<string>, lo: int, hi: int): Option<FieldError> {
    if step.Some? && (Atoi(step.value).None? || Atoi(step.value).value <= 0) then Some(InvalidStep(step.value))
    else
      match span
      case Every => None
      case At(x) => ValueError(x, lo, hi)
      case Between(x, y) =>
        if ValueError(x, lo, hi).Some? then ValueError(x, lo, hi)
        else if ValueError(y, lo, hi).Some? then ValueError(y, lo, hi)
        else if Atoi(TrimSpace(x)).value > Atoi(TrimSpace(y)).value
          then Some(Inverted(Atoi(TrimSpace(x)).value, Atoi(TrimSpace(y)).value))
        else None
  }

  /** The item is cut at its first slash and its first dash. */
  predicate Shaped(span: Span) {
    match span
    case Every => true
    case At(x) => '-' !in x && '/' !in x && x != "*"
    case Between(x, y) => '-' !in x && '/' !in x && '/' !in y
  }

  lemma SpanErrors(span: Span, b: Bounds)
    requires Shaped(span)
    ensures var r, e := CronFieldRange(SpanText(span), b), ItemError(span, None, b.min, b.max);
            (r.Ok? <==> e.None?) && (r.Err? ==> e == Some(r.error))
  {
    hide Atoi, TrimSpace;
    match span {
      case Every =>
      case At(x) => NotFound(x, '-');
      case Between(x, y) =>
        CutsAtFirst(x, '-', y);
        assert (x + ['-'] + y)[|x|] == '-';
    }
  }

  /** Every text of one item is refused exactly for what is wrong with it; the empty one as such. */
  lemma ItemIsRefused(span: Span, step: Option<string>, b: Bounds)
    requires Shaped(span)
    ensures var r, e := ParsePart(ItemText(Item(span, step)), b), ItemError(span, step, b.min, b.max);
            if span == At("") && step.None? then r == Err(EmptyItem) else (r.Ok? <==> e.None?) && (r.Err? ==> e == Some(r.error))
  {
    var text := SpanText(span);
    assert '/' !in text;
    if step.Some? {
      CutsAtFirst(text, '/', step.value);
    } else {
      NotFound(text, '/');
    }
    assert text == "" ==> span == At("");
    SpanErrors(span, b);
    hide CronFieldRange, Atoi, ValueError;
  }

  /** The first of the five words that is no field is named, with its own error. */
  lemma FirstBadField(expr: string, k: nat)
    requires |Fields(expr)| == 5 && k < 5
    requires var bounds := [Bounds(0, 59, false), Bounds(0, 23, false), Bounds(1, 31, false), Bounds(1, 12, false), Bounds(0, 7, true)];
             && (forall j | 0 <= j < k :: exists items :: FieldText(items) == Fields(expr)[j] && AllFit(items, bounds[j].min, bounds[j].max))
             && FieldOf(Fields(expr)[k], bounds[k]).Err?
    ensures ScheduleOf(expr)
            == Err(InField(["minute", "hour", "day-of-month", "month", "day-of-week"][k],
                           FieldOf(Fields(expr)[k], [MINUTES, HOURS, DAYS, MONTHS, WEEKDAYS][k]).error))
  {
    hide FieldOf, Fields, AllFit, FieldText, Plain;
    var words, bounds := Fields(expr), [Bounds(0, 59, false), Bounds(0, 23, false), Bounds(1, 31, false), Bounds(1, 12, false), Bounds(0, 7, true)];
    WordsArePlain(expr);
    forall j | 0 <= j < k
      ensures FieldOf(words[j], bounds[j]).Ok?
    {
      FieldGrammar(words[j], bounds[j]);
    }
  }

  /** A blank field is refused as such, and the spaces around a field do not matter. */
  lemma FieldsAreTrimmed(before: string, text: string, after: string, b: Bounds)
    requires b.Valid() && AllSpace(before) && AllSpace(after) && (text != "" ==> !IsSpace(text[0]) && !IsSpace(text[|text| - 1]))
    ensures FieldOf(before + text + after, b) == if text == "" then Err(FieldRequired) else FieldOf(text, b)
  {
    hide ParseParts, Union, SplitAt, TrimSpace, AllSpace;
    TrimAround(before, text, after);
    NoSpace();
    TrimAround("", text, "");
    assert "" + text + "" == text;
  }

  lemma NoSpace()
    ensures AllSpace("")
  {
  }
}
