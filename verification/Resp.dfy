/**
 The Redis wire protocol as the stream client speaks it: commands are written as
 arrays of bulk strings, replies are read by a recursive reader (Redis serialization
 protocol specification, "Bulk strings" and "Arrays").
 */
module Resp {
  import opened Wrappers
  import opened Text

  datatype Value =
    | Line(kind: char, text: string)
    | Bulk(text: string)
    | Array(values: seq<Value>)
    | Null(kind: char)

  datatype ReadError = EndOfInput | InvalidSize | MissingCRLF | UnsupportedKind(kind: char)

  const CR := '\r'
  const LF := '\n'
  const CRLF: string := "\r\n"

  // ---------- the format ----------

  function BulkText(arg: string): string {
    "$" + Itoa(|arg|) + CRLF + arg + CRLF
  }

  function BulkTexts(args: seq<string>): string {
    if args == [] then "" else BulkText(args[0]) + BulkTexts(args[1..])
  }

  function Header(count: nat): string {
    "*" + Itoa(count) + CRLF
  }

  function CommandText(args: seq<string>): string {
    Header(|args|) + BulkTexts(args)
  }

  function TrimCR(line: string): string {
    if line != "" && line[|line| - 1] == CR then line[..|line| - 1] else line
  }

  /** One line and what follows its line feed. */
  function TakeLine(s: string): (r: Result<(string, string), ReadError>)
    ensures r.Ok? ==> |r.value.1| < |s|
  {
    var (line, rest, found) := Cut(s, LF);
    if found then Ok((TrimCR(line), rest)) else Err(EndOfInput)
  }

  function TakeSize(s: string): (r: Result<(int, string), ReadError>)
    ensures r.Ok? ==> |r.value.1| < |s|
  {
    match TakeLine(s)
    case Err(e) => Err(e)
    case Ok((line, rest)) =>
      match Atoi(line)
      case None => Err(InvalidSize)
      case Some(size) => Ok((size, rest))
  }

  /** A value of the protocol at the start of s, and what follows it. */
  function Parse(s: string): (r: Result<(Value, string), ReadError>)
    ensures r.Ok? ==> |r.value.1| < |s|
    decreases |s|, 0
  {
    if s == "" then Err(EndOfInput)
    else
      var kind, rest := s[0], s[1..];
      if kind == '+' || kind == '-' || kind == ':' then
        match TakeLine(rest)
        case Err(e) => Err(e)
        case Ok((line, after)) => Ok((Line(kind, line), after))
      else if kind == '$' then
        match TakeSize(rest)
        case Err(e) => Err(e)
        case Ok((size, after)) =>
          if size < 0 then Ok((Null(kind), after))
          else if |after| < size + 2 then Err(EndOfInput)
          else if after[size] != CR || after[size + 1] != LF then Err(MissingCRLF)
          else Ok((Bulk(after[..size]), after[size + 2..]))
      else if kind == '*' then
        match TakeSize(rest)
        case Err(e) => Err(e)
        case Ok((size, after)) =>
          if size < 0 then Ok((Null(kind), after))
          else
            match ParseMany(after, size)
            case Err(e) => Err(e)
            case Ok((values, end)) => Ok((Array(values), end))
      else Err(UnsupportedKind(kind))
  }

  function ParseMany(s: string, count: nat): (r: Result<(seq<Value>, string), ReadError>)
    ensures r.Ok? ==> |r.value.0| == count && |r.value.1| <= |s|
    decreases |s|, count + 1
  {
    if count == 0 then Ok(([], s))
    else
      match Parse(s)
      case Err(e) => Err(e)
      case Ok((first, rest)) =>
        Prefixed([first], ParseMany(rest, count - 1))
  }

  function Prefixed(values: seq<Value>, r: Result<(seq<Value>, string), ReadError>): Result<(seq<Value>, string), ReadError> {
    match r
    case Err(e) => Err(e)
    case Ok((rest, end)) => Ok((values + rest, end))
  }

  lemma EmptyPrefix(r: Result<(seq<Value>, string), ReadError>)
    ensures Prefixed([], r) == r
  {
    if r.Ok? {
      assert [] + r.value.0 == r.value.0;
    }
  }

  lemma PrefixGrows(values: seq<Value>, value: Value, r: Result<(seq<Value>, string), ReadError>)
    ensures Prefixed(values, Prefixed([value], r)) == Prefixed(values + [value], r)
  {
    if r.Ok? {
      assert values + ([value] + r.value.0) == values + [value] + r.value.0;
    }
  }

  lemma Associate(a: string, b: string, c: string)
    ensures (a + b) + c == a + (b + c)
  {
  }

  // ---------- the writer and the reader ----------

  class Buffer {
    var text: string

    constructor (text: string)
      ensures this.text == text
    {
      this.text := text;
    }

    method WriteRedisCommand(args: seq<string>)
      modifies this
      ensures text == old(text) + CommandText(args)
    {
      hide BulkText, Header;
      text := text + Header(|args|);
      Associate(old(text), Header(|args|), BulkTexts(args));
      assert args[0..] == args;
      for i := 0 to |args|
        invariant text + BulkTexts(args[i..]) == old(text) + CommandText(args)
      {
        Associate(text, BulkText(args[i]), BulkTexts(args[i + 1..]));
        assert args[i..][1..] == args[i + 1..];
        text := text + BulkText(args[i]);
      }
      assert text + BulkTexts(args[|args|..]) == text;
    }

    method ReadRESPLine() returns (r: Result<string, ReadError>)
      modifies this
      ensures TakeLine(old(text)).Ok? ==> r == Ok(TakeLine(old(text)).value.0) && text == TakeLine(old(text)).value.1
      ensures TakeLine(old(text)).Err? ==> r == Err(TakeLine(old(text)).error)
    {
      var (line, rest, found) := Cut(text, LF);
      if !found {
        text := "";
        return Err(EndOfInput);
      }
      text := rest;
      if line != "" && line[|line| - 1] == CR {
        line := line[..|line| - 1];
      }
      return Ok(line);
    }

    method ReadRESPSize() returns (r: Result<int, ReadError>)
      modifies this
      ensures TakeSize(old(text)).Ok? ==> r == Ok(TakeSize(old(text)).value.0) && text == TakeSize(old(text)).value.1
      ensures TakeSize(old(text)).Err? ==> r == Err(TakeSize(old(text)).error)
    {
      var line := ReadRESPLine();
      if line.Err? {
        return Err(line.error);
      }
      var size := Atoi(line.value);
      if size.None? {
        return Err(InvalidSize);
      }
      return Ok(size.value);
    }

    method ReadRedisRESP() returns (r: Result<Value, ReadError>)
      modifies this
      ensures Parse(old(text)).Ok? ==> r == Ok(Parse(old(text)).value.0) && text == Parse(old(text)).value.1
      ensures Parse(old(text)).Err? ==> r == Err(Parse(old(text)).error)
      decreases |text|, 0
    {
      if text == "" {
        return Err(EndOfInput);
      }
      var kind := text[0];
      text := text[1..];
      match kind {
        case '+' => r := ReadLineValue(kind);
        case '-' => r := ReadLineValue(kind);
        case ':' => r := ReadLineValue(kind);
        case '$' => r := ReadBulk();
        case '*' =>
          var size := ReadRESPSize();
          if size.Err? {
            return Err(size.error);
          }
          if size.value < 0 {
            return Ok(Null(kind));
          }
          var values := ReadMany(size.value);
          return if values.Err? then Err(values.error) else Ok(Array(values.value));
        case _ => return Err(UnsupportedKind(kind));
      }
    }

    /** The loop over the elements of an array. */
    method ReadMany(size: nat) returns (r: Result<seq<Value>, ReadError>)
      modifies this
      ensures ParseMany(old(text), size).Ok? ==>
                r == Ok(ParseMany(old(text), size).value.0) && text == ParseMany(old(text), size).value.1
      ensures ParseMany(old(text), size).Err? ==> r == Err(ParseMany(old(text), size).error)
      decreases |text|, 1
    {
      hide Parse;
      ghost var start := text;
      var values: seq<Value> := [];
      EmptyPrefix(ParseMany(start, size));
      while |values| < size
        invariant |values| <= size && |text| <= |start|
        invariant ParseMany(start, size) == Prefixed(values, ParseMany(text, size - |values|))
        decreases size - |values|
      {
        ghost var rest := ParseMany(text, size - |values|);
        var value := ReadRedisRESP();
        if value.Err? {
          return Err(value.error);
        }
        PrefixGrows(values, value.value, ParseMany(text, size - |values| - 1));
        values := values + [value.value];
      }
      assert values + [] == values;
      return Ok(values);
    }

    method ReadLineValue(kind: char) returns (r: Result<Value, ReadError>)
      requires kind == '+' || kind == '-' || kind == ':'
      modifies this
      ensures Parse([kind] + old(text)).Ok? ==>
                r == Ok(Parse([kind] + old(text)).value.0) && text == Parse([kind] + old(text)).value.1
      ensures Parse([kind] + old(text)).Err? ==> r == Err(Parse([kind] + old(text)).error)
    {
      assert ([kind] + text)[1..] == text;
      var line := ReadRESPLine();
      return if line.Err? then Err(line.error) else Ok(Line(kind, line.value));
    }

    method ReadBulk() returns (r: Result<Value, ReadError>)
      modifies this
      ensures Parse("$" + old(text)).Ok? ==>
                r == Ok(Parse("$" + old(text)).value.0) && text == Parse("$" + old(text)).value.1
      ensures Parse("$" + old(text)).Err? ==> r == Err(Parse("$" + old(text)).error)
    {
      assert ("$" + text)[1..] == text;
      var size := ReadRESPSize();
      if size.Err? {
        return Err(size.error);
      }
      var n := size.value;
      if n < 0 {
        return Ok(Null('$'));
      }
      if |text| < n + 2 {
        text := "";
        return Err(EndOfInput);
      }
      var payload := text[..n + 2];
      assert payload[..n] == text[..n];
      text := text[n + 2..];
      if payload[n] != CR || payload[n + 1] != LF {
        return Err(MissingCRLF);
      }
      return Ok(Bulk(payload[..n]));
    }
  }

  // ---------- the round trip ----------

  lemma SizeLine(n: nat, after: string)
    requires n <= MAX_INT64
    ensures TakeSize(Itoa(n) + CRLF + after) == Ok((n as int, after))
  {
    AtoiOfItoa(n);
    var line := Itoa(n) + [CR];
    assert LF !in line;
    CutsAtFirst(line, LF, after);
    assert Itoa(n) + CRLF + after == line + [LF] + after;
    assert TrimCR(line) == Itoa(n);
  }

  lemma BulkRoundTrip(arg: string, suffix: string)
    requires |arg| <= MAX_INT64
    ensures Parse(BulkText(arg) + suffix) == Ok((Bulk(arg), suffix))
  {
    var s := BulkText(arg) + suffix;
    var after := arg + CRLF + suffix;
    assert s[1..] == Itoa(|arg|) + CRLF + after;
    SizeLine(|arg|, after);
    assert after[..|arg|] == arg && after[|arg| + 2..] == suffix;
  }

  predicate GoSized(args: seq<string>) {
    |args| <= MAX_INT64 && forall i | 0 <= i < |args| :: |args[i]| <= MAX_INT64
  }

  function Bulks(args: seq<string>): seq<Value> {
    seq(|args|, i requires 0 <= i < |args| => Bulk(args[i]))
  }

  lemma {:induction false} BulksRoundTrip(args: seq<string>, suffix: string)
    requires GoSized(args)
    ensures ParseMany(BulkTexts(args) + suffix, |args|) == Ok((Bulks(args), suffix))
    decreases |args|
  {
    hide BulkText, Parse;
    if args == [] {
      assert BulkTexts(args) + suffix == suffix;
      assert Bulks(args) == [];
    } else {
      var rest := BulkTexts(args[1..]);
      Associate(BulkText(args[0]), rest, suffix);
      BulkRoundTrip(args[0], rest + suffix);
      BulksRoundTrip(args[1..], suffix);
      assert Bulks(args) == [Bulk(args[0])] + Bulks(args[1..]);
    }
  }

  /** Whatever bytes the arguments hold and whatever follows, a written command is read back as the array of its arguments. */
  lemma CommandRoundTrip(args: seq<string>, suffix: string)
    requires GoSized(args)
    ensures Parse(CommandText(args) + suffix) == Ok((Array(Bulks(args)), suffix))
  {
    hide BulkTexts, ParseMany, Bulks;
    var body := BulkTexts(args) + suffix;
    Associate(Header(|args|), BulkTexts(args), suffix);
    HeaderParts(|args|, body);
    SizeLine(|args|, body);
    BulksRoundTrip(args, suffix);
  }

  lemma HeaderParts(count: nat, body: string)
    ensures var s := Header(count) + body; s[0] == '*' && s[1..] == Itoa(count) + CRLF + body
  {
  }

  /** Two commands that are written alike are alike, whatever is written behind them. */
  lemma CommandsAreSelfDelimiting(args: seq<string>, args': seq<string>, suffix: string, suffix': string)
    requires GoSized(args) && GoSized(args')
    requires CommandText(args) + suffix == CommandText(args') + suffix'
    ensures args == args' && suffix == suffix'
  {
    CommandRoundTrip(args, suffix);
    CommandRoundTrip(args', suffix');
    assert |Bulks(args)| == |Bulks(args')|;
    forall i | 0 <= i < |args|
      ensures args[i] == args'[i]
    {
      assert Bulks(args)[i] == Bulks(args')[i];
    }
  }

  // ---------- replies ----------

  /** A reply on the wire; a null bulk string or array has a negative size. */
  function ReplyText(v: Value): string {
    match v
    case Line(kind, text) => [kind] + text + CRLF
    case Bulk(text) => ['$'] + Itoa(|text|) + CRLF + text + CRLF
    case Array(values) => ['*'] + Itoa(|values|) + CRLF + ReplyTexts(values)
    case Null(kind) => [kind] + "-1" + CRLF
  }

  function ReplyTexts(values: seq<Value>): string {
    if values == [] then "" else ReplyText(values[0]) + ReplyTexts(values[1..])
  }

  /** What a server can send: a line is a string, an error or an integer and holds no line feed; sizes fit an int. */
  predicate Sent(v: Value) {
    match v
    case Line(kind, text) => (kind == '+' || kind == '-' || kind == ':') && LF !in text
    case Bulk(text) => |text| <= MAX_INT64
    case Array(values) => |values| <= MAX_INT64 && forall i | 0 <= i < |values| :: Sent(values[i])
    case Null(kind) => kind == '$' || kind == '*'
  }

  lemma LineRoundTrip(kind: char, text: string, suffix: string)
    requires Sent(Line(kind, text))
    ensures Parse([kind] + text + CRLF + suffix) == Ok((Line(kind, text), suffix))
  {
    var s := [kind] + text + CRLF + suffix;
    var line := text + [CR];
    CutsAtFirst(line, LF, suffix);
    assert s[1..] == line + [LF] + suffix;
    assert TrimCR(line) == text;
  }

  /** Any negative size is a null reply. */
  lemma NullRoundTrip(kind: char, n: int, suffix: string)
    requires (kind == '$' || kind == '*') && MIN_INT64 <= n < 0
    ensures Parse([kind] + Itoa(n) + CRLF + suffix) == Ok((Null(kind), suffix))
  {
    var s := [kind] + Itoa(n) + CRLF + suffix;
    AtoiOfItoa(n);
    var line := Itoa(n) + [CR];
    assert LF !in line;
    CutsAtFirst(line, LF, suffix);
    assert s[1..] == line + [LF] + suffix;
    assert TrimCR(line) == Itoa(n);
  }

  lemma MinusOne()
    ensures Itoa(-1) == "-1"
  {
    assert NatText(1) == "1";
  }

  /**
   Every reply, lines, integers, errors, nulls and arrays nested to any depth, is read back
   as it was sent, and exactly what follows it is left.
   */
  lemma {:induction false} ReplyRoundTrip(v: Value, suffix: string)
    requires Sent(v)
    ensures Parse(ReplyText(v) + suffix) == Ok((v, suffix))
    decreases v, 1
  {
    match v {
      case Line(kind, text) =>
        LineRoundTrip(kind, text, suffix);
      case Bulk(text) =>
        BulkRoundTrip(text, suffix);
        assert ReplyText(v) == BulkText(text);
      case Null(kind) =>
        MinusOne();
        NullRoundTrip(kind, -1, suffix);
      case Array(values) =>
        ArrayText(values, suffix);
        SizeLine(|values|, ReplyTexts(values) + suffix);
        RepliesRoundTrip(values, suffix);
    }
  }

  lemma ArrayText(values: seq<Value>, suffix: string)
    ensures var s := ReplyText(Array(values)) + suffix;
            s != "" && s[0] == '*' && s[1..] == Itoa(|values|) + CRLF + (ReplyTexts(values) + suffix)
  {
    hide Itoa, ReplyTexts;
    var body := ReplyTexts(values);
    assert ReplyText(Array(values)) == Header(|values|) + body;
    Associate(Header(|values|), body, suffix);
    HeaderParts(|values|, body + suffix);
  }

  lemma {:induction false} RepliesRoundTrip(values: seq<Value>, suffix: string)
    requires forall i | 0 <= i < |values| :: Sent(values[i])
    ensures ParseMany(ReplyTexts(values) + suffix, |values|) == Ok((values, suffix))
    decreases values, 0
  {
    hide Parse, Sent;
    if values == [] {
      assert ReplyTexts(values) + suffix == suffix;
    } else {
      var rest := ReplyTexts(values[1..]);
      Associate(ReplyText(values[0]), rest, suffix);
      ReplyRoundTrip(values[0], rest + suffix);
      RepliesRoundTrip(values[1..], suffix);
      assert values == [values[0]] + values[1..];
    }
  }

  /** A bulk string that does not end in CRLF is refused, and so is every other first byte. */
  lemma MalformedReplies(text: string, end: string, kind: char, rest: string)
    requires |text| <= MAX_INT64 && |end| == 2 && end != CRLF
    requires kind != '+' && kind != '-' && kind != ':' && kind != '$' && kind != '*'
    ensures Parse(['$'] + Itoa(|text|) + CRLF + text + end + rest) == Err(MissingCRLF)
    ensures Parse([kind] + rest) == Err(UnsupportedKind(kind)) && Parse("") == Err(EndOfInput)
  {
    var s := ['$'] + Itoa(|text|) + CRLF + text + end + rest;
    var after := text + end + rest;
    assert s[1..] == Itoa(|text|) + CRLF + after;
    SizeLine(|text|, after);
    assert after[|text|] == end[0] && after[|text| + 1] == end[1];
    assert end[0] != CR || end[1] != LF;
  }
}
