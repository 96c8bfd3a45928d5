/**
 Server-sent events: the frames that the runtime writes, read back by the event stream
 interpretation of the WHATWG HTML Living Standard, section 9.2.6.
 */
module Sse {
  import opened Wrappers
  import opened Text

  const CR := '\r'
  const LF := '\n'

  /** What an EventSource dispatches. */
  datatype Message = Message(kind: string, data: string)

  // ---------- the writer ----------

  function DataLines(lines: seq<string>): string {
    if lines == [] then "" else "data: " + lines[0] + [LF] + DataLines(lines[1..])
  }

  function EventLine(name: string): string {
    if TrimSpace(name) != "" then "event: " + name + [LF] else ""
  }

  function Frame(name: string, text: string): string {
    EventLine(name) + DataLines(SplitAt(text, LF)) + [LF]
  }

  class Stream {
    var output: string

    constructor ()
      ensures output == ""
    {
      output := "";
    }

    /** `redact` scrubs credentials before anything is written. */
    method WriteSSEOutputEventChecked(name: string, text: string, redact: string -> string)
      modifies this
      ensures output == old(output) + Frame(name, redact(text))
    {
      if TrimSpace(name) != "" {
        output := output + ("event: " + name + [LF]);
      }
      var lines := SplitAt(redact(text), LF);
      ghost var before := output;
      assert lines[0..] == lines;
      for i := 0 to |lines|
        invariant output + DataLines(lines[i..]) == before + DataLines(lines)
      {
        assert lines[i..][1..] == lines[i + 1..];
        Associate(output, "data: " + lines[i] + [LF], DataLines(lines[i + 1..]));
        output := output + ("data: " + lines[i] + [LF]);
      }
      assert output + DataLines(lines[|lines|..]) == output;
      assert before == old(output) + EventLine(name);
      Associate(old(output), EventLine(name), DataLines(lines));
      Associate(old(output), EventLine(name) + DataLines(lines), [LF]);
      output := output + [LF];
    }
  }

  lemma Associate(a: string, b: string, c: string)
    ensures (a + b) + c == a + (b + c)
  {
  }

  // ---------- the reader ----------

  /** One line, ended by CR LF, LF or CR, and the rest; an unfinished line is none. */
  function NextLine(s: string): (r: Option<(string, string)>)
    ensures r.Some? ==> |r.value.1| < |s|
  {
    if s == "" then None
    else if s[0] == LF then Some(("", s[1..]))
    else if s[0] == CR then Some(("", if |s| > 1 && s[1] == LF then s[2..] else s[1..]))
    else
      match NextLine(s[1..])
      case None => None
      case Some((line, rest)) => Some(([s[0]] + line, rest))
  }

  /** The field name and value of a line; one space behind the colon is dropped. */
  function Field(line: string): (string, string) {
    var (name, value, found) := Cut(line, ':');
    if found && value != "" && value[0] == ' ' then (name, value[1..]) else (name, value)
  }

  /** The events dispatched while s is read with the given event type and data buffers. */
  function Interpret(s: string, kind: string, data: string): seq<Message>
    decreases |s|
  {
    match NextLine(s)
    case None => []
    case Some((line, rest)) =>
      if line == "" then
        if data == "" then Interpret(rest, "", "")
        else
          var text := if data[|data| - 1] == LF then data[..|data| - 1] else data;
          [Message(if kind == "" then "message" else kind, text)] + Interpret(rest, "", "")
      else if line[0] == ':' then Interpret(rest, kind, data)
      else
        var (name, value) := Field(line);
        if name == "event" then Interpret(rest, value, data)
        else if name == "data" then Interpret(rest, kind, data + value + [LF])
        else Interpret(rest, kind, data)
  }

  // ---------- the round trip ----------

  predicate OneLine(s: string) {
    CR !in s && LF !in s
  }

  lemma {:induction false} LineIsRead(line: string, rest: string)
    requires OneLine(line)
    ensures NextLine(line + [LF] + rest) == Some((line, rest))
  {
    var s := line + [LF] + rest;
    if line == "" {
      assert s[1..] == rest;
    } else {
      LineIsRead(line[1..], rest);
      assert s[1..] == line[1..] + [LF] + rest;
      assert line == [line[0]] + line[1..];
    }
  }

  /** Lines may also end in CR LF, or in CR alone. */
  lemma {:induction false} LineEndings(line: string, rest: string)
    requires OneLine(line)
    ensures NextLine(line + [CR, LF] + rest) == Some((line, rest))
    ensures (rest == "" || rest[0] != LF) ==> NextLine(line + [CR] + rest) == Some((line, rest))
  {
    var s, t := line + [CR, LF] + rest, line + [CR] + rest;
    if line == "" {
      assert s[2..] == rest && t[1..] == rest;
    } else {
      LineEndings(line[1..], rest);
      assert s[1..] == line[1..] + [CR, LF] + rest && t[1..] == line[1..] + [CR] + rest;
      assert line == [line[0]] + line[1..];
    }
  }

  /** Comments and unknown fields dispatch nothing and change no event. */
  lemma OthersAreIgnored(name: string, value: string, rest: string, kind: string, data: string)
    requires OneLine(name + [':'] + value) && ':' !in name && name != "event" && name != "data"
    ensures Interpret(name + [':'] + value + [LF] + rest, kind, data) == Interpret(rest, kind, data)
  {
    LineIsRead(name + [':'] + value, rest);
    CutsAtFirst(name, ':', value);
    assert (name + [':'] + value)[|name|] == ':';
  }

  lemma FieldIsRead(name: string, value: string)
    requires ':' !in name
    ensures Field(name + ": " + value) == (name, value)
  {
    var s := name + ": " + value;
    CutsAtFirst(name, ':', " " + value);
    assert s == name + [':'] + (" " + value);
  }

  lemma DataIsRead(line: string, rest: string, kind: string, data: string)
    requires OneLine(line)
    ensures Interpret("data: " + line + [LF] + rest, kind, data) == Interpret(rest, kind, data + line + [LF])
  {
    LineIsRead("data: " + line, rest);
    FieldIsRead("data", line);
    assert "data" + ": " + line == "data: " + line;
  }

  lemma EventIsRead(name: string, rest: string, kind: string, data: string)
    requires OneLine(name)
    ensures Interpret("event: " + name + [LF] + rest, kind, data) == Interpret(rest, name, data)
  {
    LineIsRead("event: " + name, rest);
    FieldIsRead("event", name);
    assert "event" + ": " + name == "event: " + name;
  }

  predicate AllOneLine(lines: seq<string>) {
    forall i | 0 <= i < |lines| :: OneLine(lines[i])
  }

  function Lines(lines: seq<string>): string {
    if lines == [] then "" else lines[0] + [LF] + Lines(lines[1..])
  }

  lemma {:induction false} DataLinesAreRead(lines: seq<string>, rest: string, kind: string, data: string)
    requires AllOneLine(lines)
    ensures Interpret(DataLines(lines) + rest, kind, data) == Interpret(rest, kind, data + Lines(lines))
    decreases |lines|
  {
    hide Interpret;
    if lines == [] {
      assert DataLines(lines) + rest == rest && data + Lines(lines) == data;
    } else {
      var first := "data: " + lines[0] + [LF];
      Associate(first, DataLines(lines[1..]), rest);
      DataIsRead(lines[0], DataLines(lines[1..]) + rest, kind, data);
      DataLinesAreRead(lines[1..], rest, kind, data + lines[0] + [LF]);
      Associate(data + lines[0], [LF], Lines(lines[1..]));
      Associate(data, lines[0], [LF] + Lines(lines[1..]));
      Associate(lines[0], [LF], Lines(lines[1..]));
    }
  }

  lemma {:induction false} SplitJoins(text: string)
    requires CR !in text
    ensures AllOneLine(SplitAt(text, LF)) && Lines(SplitAt(text, LF)) == text + [LF]
    decreases |text|
  {
    var (before, after, found) := Cut(text, LF);
    if found {
      SplitJoins(after);
      assert SplitAt(text, LF)[1..] == SplitAt(after, LF);
      Associate(before + [LF], after, [LF]);
    } else {
      assert Lines([text][1..]) == "";
    }
  }

  function Dispatched(name: string, text: string): Message {
    Message(if TrimSpace(name) == "" then "message" else name, text)
  }

  lemma FrameIsRead(name: string, text: string, rest: string)
    requires OneLine(name) && CR !in text
    ensures Interpret(Frame(name, text) + rest, "", "") == [Dispatched(name, text)] + Interpret(rest, "", "")
  {
    hide Interpret, DataLines, Lines, TrimSpace;
    var lines := SplitAt(text, LF);
    SplitJoins(text);
    var kind := if TrimSpace(name) == "" then "" else name;
    var tail := DataLines(lines) + ([LF] + rest);
    Associate(EventLine(name), DataLines(lines), [LF]);
    Associate(EventLine(name), DataLines(lines) + [LF], rest);
    Associate(DataLines(lines), [LF], rest);
    if TrimSpace(name) != "" {
      EventIsRead(name, tail, "", "");
    } else {
      assert "" + tail == tail;
    }
    assert Interpret(Frame(name, text) + rest, "", "") == Interpret(tail, kind, "");
    DataLinesAreRead(lines, [LF] + rest, kind, "");
    assert "" + Lines(lines) == text + [LF];
    BlankDispatches(rest, kind, text);
    BlankName(name);
  }

  lemma BlankName(name: string)
    ensures name == "" ==> TrimSpace(name) == ""
  {
  }

  lemma BlankDispatches(rest: string, kind: string, text: string)
    ensures Interpret([LF] + rest, kind, text + [LF]) ==
              [Message(if kind == "" then "message" else kind, text)] + Interpret(rest, "", "")
  {
    var data := text + [LF];
    assert ([LF] + rest)[1..] == rest;
    assert data[..|data| - 1] == text;
  }

  datatype Output = Output(name: string, text: string)

  function Frames(outputs: seq<Output>): string {
    if outputs == [] then "" else Frame(outputs[0].name, outputs[0].text) + Frames(outputs[1..])
  }

  /**
   Names without line breaks and texts without carriage returns, the empty text and
   texts of several lines included, are dispatched one by one as they were written; a
   blank name leaves the default event type.
   */
  lemma {:induction false} StreamRoundTrip(outputs: seq<Output>)
    requires forall i | 0 <= i < |outputs| :: OneLine(outputs[i].name) && CR !in outputs[i].text
    ensures Interpret(Frames(outputs), "", "") ==
              seq(|outputs|, i requires 0 <= i < |outputs| => Dispatched(outputs[i].name, outputs[i].text))
    decreases |outputs|
  {
    hide Frame;
    if outputs != [] {
      FrameIsRead(outputs[0].name, outputs[0].text, Frames(outputs[1..]));
      StreamRoundTrip(outputs[1..]);
    }
  }
}
