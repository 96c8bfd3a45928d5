/**
 Go strings and the conversions of package strconv that the runtime relies on.
 A Go string is a sequence of bytes; it is modelled as a sequence of
 characters, one per byte.
 */
module Text {
  import opened Wrappers

  const MAX_INT64: int := 0x7FFF_FFFF_FFFF_FFFF
  const MIN_INT64: int := -0x8000_0000_0000_0000

  predicate IsDigit(c: char) {
    '0' <= c <= '9'
  }

  function DigitText(d: nat): (c: char)
    requires d < 10
    ensures IsDigit(c) && DigitValue(c) == d
  {
    '0' + (d as char)
  }

  function DigitValue(c: char): (d: nat)
    requires IsDigit(c)
    ensures d < 10
  {
    (c - '0') as nat
  }

  /** Decimal digits of a natural number, without leading zeros. */
  function NatText(n: nat): (s: string)
    ensures |s| > 0 && AllDigits(s)
  {
    if n < 10 then [DigitText(n)] else NatText(n / 10) + [DigitText(n % 10)]
  }

  predicate AllDigits(s: string) {
    forall i | 0 <= i < |s| :: IsDigit(s[i])
  }

  function NatValue(s: string): nat
    requires AllDigits(s)
  {
    if s == [] then 0 else 10 * NatValue(s[..|s| - 1]) + DigitValue(s[|s| - 1])
  }

  /** strconv.Itoa, and strconv.FormatInt in base 10. */
  function Itoa(n: int): (s: string)
    ensures |s| > 0
  {
    if n < 0 then "-" + NatText(-n) else NatText(n)
  }

  /** strconv.Atoi: an optional sign, digits only, and an int64 range check. */
  function Atoi(s: string): Option<int> {
    var negative := |s| > 0 && s[0] == '-';
    var digits := if |s| > 0 && (s[0] == '-' || s[0] == '+') then s[1..] else s;
    if digits == [] || !AllDigits(digits) then None
    else
      var magnitude: int := NatValue(digits);
      var value := if negative then -magnitude else magnitude;
      if MIN_INT64 <= value <= MAX_INT64 then Some(value) else None
  }

  /** Digits, with a sign in front of them or not, are read as what they say, if that fits an int64. */
  lemma AtoiReadsNumerals(sign: string, digits: string)
    requires (sign == "" || sign == "-" || sign == "+") && digits != "" && AllDigits(digits)
    ensures var magnitude: int := NatValue(digits);
            var value := if sign == "-" then -magnitude else magnitude;
            Atoi(sign + digits) == if MIN_INT64 <= value <= MAX_INT64 then Some(value) else None
  {
    assert sign == "" ==> sign + digits == digits;
    assert sign != "" ==> (sign + digits)[1..] == digits;
  }

  /** No other text is read. */
  lemma AtoiReadsNothingElse(s: string) returns (sign: string, digits: string)
    requires Atoi(s).Some?
    ensures s == sign + digits && (sign == "" || sign == "-" || sign == "+") && digits != "" && AllDigits(digits)
  {
    if |s| > 0 && (s[0] == '-' || s[0] == '+') {
      sign, digits := s[..1], s[1..];
    } else {
      sign, digits := "", s;
    }
  }

  function FormatBool(b: bool): string {
    if b then "true" else "false"
  }

  /** The space, and the control characters from tab to carriage return. */
  predicate IsSpace(c: char): (b: bool)
    ensures b <==> c as int == 32 || 9 <= c as int <= 13
  {
    c == ' ' || c == '\t' || c == '\n' || c == 11 as char || c == 12 as char || c == '\r'
  }

  function TrimLeft(s: string): (t: string)
    ensures |t| <= |s| && (t != [] ==> !IsSpace(t[0]))
  {
    if s != [] && IsSpace(s[0]) then TrimLeft(s[1..]) else s
  }

  function TrimRight(s: string): string {
    if s != [] && IsSpace(s[|s| - 1]) then TrimRight(s[..|s| - 1]) else s
  }

  /** strings.TrimSpace on ASCII text. */
  function TrimSpace(s: string): string {
    TrimRight(TrimLeft(s))
  }

  /** The length of the word that the text begins with. */
  function WordEnd(s: string): (n: nat)
    ensures n <= |s| && (s != [] && !IsSpace(s[0]) ==> n > 0)
    ensures forall i | 0 <= i < n :: !IsSpace(s[i])
  {
    if s == [] || IsSpace(s[0]) then 0 else 1 + WordEnd(s[1..])
  }

  /** strings.Fields: the words between runs of spaces. */
  function Fields(s: string): (words: seq<string>)
    ensures forall w | w in words :: w != "" && forall i | 0 <= i < |w| :: !IsSpace(w[i])
    decreases |s|
  {
    var t := TrimLeft(s);
    if t == [] then [] else [t[..WordEnd(t)]] + Fields(t[WordEnd(t)..])
  }

  lemma {:induction false} NatTextValue(n: nat)
    ensures NatValue(NatText(n)) == n
  {
    if n >= 10 {
      NatTextValue(n / 10);
      var s := NatText(n / 10) + [DigitText(n % 10)];
      assert s[..|s| - 1] == NatText(n / 10);
    } else {
      var s := [DigitText(n)];
      assert s[..|s| - 1] == [];
    }
  }

  /** Parsing a formatted int64 gives the number back. */
  lemma AtoiOfItoa(n: int)
    requires MIN_INT64 <= n <= MAX_INT64
    ensures Atoi(Itoa(n)) == Some(n)
  {
    var magnitude := if n < 0 then -n else n;
    var digits := NatText(magnitude);
    NatTextValue(magnitude);
    assert IsDigit(digits[0]);
    if n < 0 {
      assert Itoa(n) == "-" + digits;
      assert Itoa(n)[1..] == digits;
    } else {
      assert Itoa(n) == digits;
      assert Atoi(digits) == Some(n);
    }
  }

  lemma ItoaInjective(m: int, n: int)
    requires Itoa(m) == Itoa(n)
    ensures m == n
  {
    assert m >= 0 ==> IsDigit(Itoa(m)[0]);
    assert n >= 0 ==> IsDigit(Itoa(n)[0]);
    if m < 0 {
      assert Itoa(m)[1..] == NatText(-m) && Itoa(n)[1..] == NatText(-n);
      NatTextValue(-m);
      NatTextValue(-n);
    } else {
      NatTextValue(m);
      NatTextValue(n);
    }
  }

  /** strings.Cut around a one-byte separator. */
  function Cut(s: string, separator: char): (r: (string, string, bool))
    ensures r.2 ==> s == r.0 + [separator] + r.1 && separator !in r.0
    ensures !r.2 ==> r.0 == s && separator !in s
  {
    if s == [] then (s, "", false)
    else if s[0] == separator then ("", s[1..], true)
    else
      var (before, after, found) := Cut(s[1..], separator);
      if found then ([s[0]] + before, after, true) else (s, "", false)
  }

  /** strings.Split around a one-byte separator. */
  function SplitAt(s: string, separator: char): (parts: seq<string>)
    ensures parts != []
    decreases |s|
  {
    var (before, after, found) := Cut(s, separator);
    if found then [before] + SplitAt(after, separator) else [s]
  }

  lemma {:induction false} CutsAtFirst(before: string, separator: char, after: string)
    requires separator !in before
    ensures Cut(before + [separator] + after, separator) == (before, after, true)
  {
    var s := before + [separator] + after;
    if before != [] {
      CutsAtFirst(before[1..], separator, after);
      assert s[1..] == before[1..] + [separator] + after;
      assert before == [before[0]] + before[1..];
    } else {
      assert s == [separator] + after && s[1..] == after;
    }
  }

  // ---------- joined texts ----------

  function Joined(parts: seq<string>, separator: char): string {
    if parts == [] then "" else if |parts| == 1 then parts[0] else parts[0] + [separator] + Joined(parts[1..], separator)
  }

  /** Splitting takes joining back, and every part is free of the separator. */
  lemma {:induction false} SplitIsJoined(s: string, separator: char)
    ensures var parts := SplitAt(s, separator);
            && Joined(parts, separator) == s
            && forall i | 0 <= i < |parts| :: separator !in parts[i] && forall c | c in parts[i] :: c in s
    decreases |s|
  {
    var (before, after, found) := Cut(s, separator);
    if found {
      SplitIsJoined(after, separator);
      var rest := SplitAt(after, separator);
      assert ([before] + rest)[1..] == rest;
      assert s == before + [separator] + after;
    }
  }

  lemma {:induction false} JoinedSplits(parts: seq<string>, separator: char)
    requires parts != [] && forall i | 0 <= i < |parts| :: separator !in parts[i]
    ensures SplitAt(Joined(parts, separator), separator) == parts
    decreases |parts|
  {
    if |parts| > 1 {
      CutsAtFirst(parts[0], separator, Joined(parts[1..], separator));
      JoinedSplits(parts[1..], separator);
      assert parts == [parts[0]] + parts[1..];
    }
  }

  // ---------- texts without spaces ----------

  predicate Plain(s: string) {
    forall i | 0 <= i < |s| :: !IsSpace(s[i])
  }

  lemma TrimPlain(s: string)
    requires Plain(s)
    ensures TrimSpace(s) == s
  {
  }

  /** Trimming takes away the spaces at both ends and nothing else. */
  lemma {:induction false} TrimmedBetween(s: string) returns (before: string, after: string)
    ensures s == before + TrimSpace(s) + after && AllSpace(before) && AllSpace(after)
    ensures var t := TrimSpace(s); t != "" ==> !IsSpace(t[0]) && !IsSpace(t[|t| - 1])
  {
    before := LeftSpaces(s);
    after := RightSpaces(TrimLeft(s));
    FirstStays(TrimLeft(s));
  }

  /** Trimming keeps a text that begins and ends without a space, whatever spaces stand around it. */
  lemma {:induction false} TrimAround(before: string, s: string, after: string)
    requires AllSpace(before) && AllSpace(after) && (s != "" ==> !IsSpace(s[0]) && !IsSpace(s[|s| - 1]))
    ensures TrimSpace(before + s + after) == s
  {
    DropLeft(before, s + after);
    assert before + s + after == before + (s + after);
    if s == "" {
      DropLeft(after, "");
      assert after + "" == after && s + after == after;
    } else {
      DropRight(s, after);
    }
  }

  lemma {:induction false} DropLeft(before: string, s: string)
    requires AllSpace(before)
    ensures TrimLeft(before + s) == TrimLeft(s)
  {
    if before == "" {
      assert before + s == s;
    } else {
      assert (before + s)[1..] == before[1..] + s;
      DropLeft(before[1..], s);
    }
  }

  lemma {:induction false} DropRight(s: string, after: string)
    requires AllSpace(after) && s != "" && !IsSpace(s[|s| - 1])
    ensures TrimRight(s + after) == s
    decreases |after|
  {
    if after == "" {
      assert s + after == s;
    } else {
      assert (s + after)[..|s + after| - 1] == s + after[..|after| - 1];
      DropRight(s, after[..|after| - 1]);
    }
  }

  predicate AllSpace(s: string) {
    forall i | 0 <= i < |s| :: IsSpace(s[i])
  }

  lemma {:induction false} LeftSpaces(s: string) returns (before: string)
    ensures s == before + TrimLeft(s) && AllSpace(before)
  {
    if s != [] && IsSpace(s[0]) {
      var rest := LeftSpaces(s[1..]);
      before := [s[0]] + rest;
    } else {
      before := "";
    }
  }

  lemma {:induction false} RightSpaces(s: string) returns (after: string)
    ensures s == TrimRight(s) + after && AllSpace(after)
    ensures TrimRight(s) != "" ==> !IsSpace(TrimRight(s)[|TrimRight(s)| - 1])
  {
    if s != [] && IsSpace(s[|s| - 1]) {
      var rest := RightSpaces(s[..|s| - 1]);
      after := rest + [s[|s| - 1]];
    } else {
      after := "";
    }
  }

  lemma {:induction false} FirstStays(s: string)
    ensures TrimRight(s) != "" ==> TrimRight(s)[0] == s[0]
  {
    if s != [] && IsSpace(s[|s| - 1]) {
      FirstStays(s[..|s| - 1]);
    }
  }

  /** Words with single spaces between them are read as they are. */
  lemma {:induction false} FieldsOfWords(words: seq<string>)
    requires forall i | 0 <= i < |words| :: words[i] != "" && Plain(words[i])
    ensures Fields(Joined(words, ' ')) == words
    decreases |words|
  {
    hide Fields, Plain;
    if |words| <= 1 {
      NoFields();
      if |words| == 1 {
        WordAtFront(words[0], "");
        assert words[0] + "" == words[0];
        assert words == [words[0]];
      }
    } else {
      var rest := Joined(words[1..], ' ');
      assert words[0] + [' '] + rest == words[0] + ([' '] + rest);
      WordAtFront(words[0], [' '] + rest);
      SpaceBefore(rest);
      FieldsOfWords(words[1..]);
      assert words == [words[0]] + words[1..];
    }
  }

  lemma NoFields()
    ensures Fields("") == []
  {
  }

  lemma {:induction false} WordLength(word: string, rest: string)
    requires Plain(word) && (rest != "" ==> IsSpace(rest[0]))
    ensures WordEnd(word + rest) == |word|
  {
    if word == "" {
      assert word + rest == rest;
    } else {
      WordLength(word[1..], rest);
      assert (word + rest)[1..] == word[1..] + rest;
    }
  }

  lemma WordAtFront(word: string, rest: string)
    requires word != "" && Plain(word) && (rest != "" ==> IsSpace(rest[0]))
    ensures Fields(word + rest) == [word] + Fields(rest)
  {
    var s := word + rest;
    assert s[0] == word[0];
    WordLength(word, rest);
    assert s[..|word|] == word && s[|word|..] == rest;
  }

  lemma SpaceBefore(s: string)
    ensures Fields([' '] + s) == Fields(s)
  {
    assert ([' '] + s)[1..] == s;
    assert TrimLeft([' '] + s) == TrimLeft(s);
  }
}
