/** The text form of a cursor: v1, the generation and the offset, in decimal, with colons between. */
module CursorText {
  import opened Basics
  import opened OutputModel

  const GENERATION_LIMIT: nat := 0x1_0000_0000_0000_0000
  const OFFSET_LIMIT: nat := 0x8000_0000_0000_0000

  // --------------------------------------------------------------------- decimals

  predicate IsDigitChar(c: char) {
    '0' <= c <= '9'
  }

  predicate AllDigits(s: string) {
    forall i :: 0 <= i < |s| ==> IsDigitChar(s[i])
  }

  function DigitOf(n: nat): char
    requires n < 10
  {
    (n + '0' as int) as char
  }

  function FormatUint(n: nat): (s: string)
    ensures s != [] && AllDigits(s)
  {
    if n < 10 then [DigitOf(n)] else FormatUint(n / 10) + [DigitOf(n % 10)]
  }

  function Value(s: string): nat
    requires AllDigits(s)
  {
    if s == [] then 0 else Value(s[..|s| - 1]) * 10 + (s[|s| - 1] as int - '0' as int)
  }

  /** ParseUint in base ten: a non-empty run of digits, below the limit. */
  function ParseUint(s: string, limit: nat): Option<nat> {
    if s != [] && AllDigits(s) && Value(s) < limit then Some(Value(s)) else None
  }

  lemma {:induction false} FormatValue(n: nat)
    ensures Value(FormatUint(n)) == n
  {
    if n >= 10 {
      FormatValue(n / 10);
      assert FormatUint(n)[..|FormatUint(n)| - 1] == FormatUint(n / 10);
    } else {
      assert [DigitOf(n)][..0] == [];
    }
  }

  predicate NoLeadingZero(s: string) {
    |s| > 1 ==> s[0] != '0'
  }

  lemma {:induction false} FormatNoLeadingZero(n: nat)
    ensures NoLeadingZero(FormatUint(n)) && (n > 0 ==> FormatUint(n)[0] != '0')
  {
    if n >= 10 {
      FormatNoLeadingZero(n / 10);
    }
  }

  lemma {:induction false} ValuePositive(s: string)
    requires s != [] && AllDigits(s) && s[0] != '0'
    ensures Value(s) > 0
  {
    if |s| > 1 {
      ValuePositive(s[..|s| - 1]);
    }
  }

  /** A run of digits is what its value prints as, if and only if it has no leading zero. */
  lemma {:induction false} FormatIff(s: string)
    requires s != [] && AllDigits(s)
    ensures s == FormatUint(Value(s)) <==> NoLeadingZero(s)
  {
    FormatNoLeadingZero(Value(s));
    if NoLeadingZero(s) {
      var front, last := s[..|s| - 1], s[|s| - 1] as int - '0' as int;
      if |s| > 1 {
        ValuePositive(front);
        FormatIff(front);
        assert s == front + [s[|s| - 1]];
      } else {
        assert front == [] && Value(s) == last;
      }
    }
  }

  // --------------------------------------------------------------------- the fields

  /** strings.Split at colons. */
  function Split(s: string): (parts: seq<string>)
    ensures parts != []
    ensures forall i :: 0 <= i < |parts| ==> ':' !in parts[i]
  {
    if s == [] then [[]]
    else
      var rest := Split(s[1..]);
      if s[0] == ':' then [[]] + rest else [[s[0]] + rest[0]] + rest[1..]
  }

  function Joined(parts: seq<string>): string
    requires parts != []
  {
    if |parts| == 1 then parts[0] else parts[0] + ":" + Joined(parts[1..])
  }

  lemma {:induction false} JoinSplit(s: string)
    ensures Joined(Split(s)) == s
  {
    if s != [] {
      var rest := Split(s[1..]);
      JoinSplit(s[1..]);
      if s[0] == ':' {
        assert ([[]] + rest)[1..] == rest;
      } else if |rest| > 1 {
        assert ([[s[0]] + rest[0]] + rest[1..])[1..] == rest[1..];
      }
    }
  }

  lemma {:induction false} SplitWhole(field: string)
    requires ':' !in field
    ensures Split(field) == [field]
  {
    if field != [] {
      SplitWhole(field[1..]);
      assert [field[0]] + field[1..] == field;
    }
  }

  /** A field without colons, then a colon, splits off. */
  lemma {:induction false} SplitField(field: string, rest: string)
    requires ':' !in field
    ensures Split(field + ":" + rest) == [field] + Split(rest)
  {
    var text := field + ":" + rest;
    if field == [] {
      assert text[1..] == rest;
    } else {
      SplitField(field[1..], rest);
      assert text[1..] == field[1..] + ":" + rest;
      assert [field[0]] + field[1..] == field;
      assert ([field[1..]] + Split(rest))[1..] == Split(rest);
    }
  }

  // --------------------------------------------------------------------- the cursor

  function Parse(text: string): Result<Cursor, CursorError> {
    if text == "" then Ok(START)
    else
      var parts := Split(text);
      if |parts| != 3 || parts[0] != "v1" then Err(Invalid)
      else
        var generation := ParseUint(parts[1], GENERATION_LIMIT);
        if generation.None? || generation.value == 0 then Err(Invalid)
        else
          var offset := ParseUint(parts[2], OFFSET_LIMIT);
          if offset.None? then Err(Invalid) else Ok(Cursor(generation.value, offset.value))
  }

  function Print(c: Cursor): string {
    if c == START then "" else "v1" + ":" + FormatUint(c.generation) + ":" + FormatUint(c.offset)
  }

  /** The start, or a generation from 1 that fits 64 bits with an offset that fits 63. */
  predicate Printable(c: Cursor) {
    c == START || (0 < c.generation < 0x1_0000_0000_0000_0000 && c.offset < 0x8000_0000_0000_0000)
  }

  lemma SplitPrinted(g: string, o: string)
    requires AllDigits(g) && AllDigits(o)
    ensures Split("v1" + ":" + g + ":" + o) == ["v1", g, o]
  {
    SplitField("v1", g + ":" + o);
    SplitField(g, o);
    SplitWhole(o);
    assert "v1" + ":" + g + ":" + o == "v1" + ":" + (g + ":" + o);
  }

  /** Printing and parsing gives the cursor back if and only if its numbers fit. */
  lemma RoundTripIff(c: Cursor)
    ensures Parse(Print(c)) == Ok(c) <==> Printable(c)
  {
    if c != START {
      SplitPrinted(FormatUint(c.generation), FormatUint(c.offset));
      FormatValue(c.generation);
      FormatValue(c.offset);
    }
  }

  /** Whatever text parses, leading zeros included, its cursor prints to text that parses to the same cursor. */
  lemma ParsedPrints(text: string)
    requires Parse(text).Ok?
    ensures Printable(Parse(text).value) && Parse(Print(Parse(text).value)) == Parse(text)
  {
    RoundTripIff(Parse(text).value);
  }

  /** Of all texts that parse to a cursor, its printed form is the one without leading zeros. */
  lemma PrintedIsCanonical(text: string)
    requires Parse(text).Ok?
    ensures text == Print(Parse(text).value) <==>
            text == "" || (NoLeadingZero(Split(text)[1]) && NoLeadingZero(Split(text)[2]))
  {
    if text != "" {
      var parts := Split(text);
      var c := Parse(text).value;
      JoinSplit(text);
      assert Joined(parts) == parts[0] + ":" + Joined(parts[1..]);
      assert Joined(parts[1..]) == parts[1] + ":" + Joined(parts[2..]) && Joined(parts[2..]) == parts[2];
      assert text == "v1" + ":" + parts[1] + ":" + parts[2];
      FormatIff(parts[1]);
      FormatIff(parts[2]);
      SplitPrinted(FormatUint(c.generation), FormatUint(c.offset));
    }
  }

  /** The text of a cursor: v1, two runs of digits, whatever their leading zeros, that count its numbers. */
  ghost predicate IsText(text: string, c: Cursor, g: string, o: string) {
    && text == "v1" + ":" + g + ":" + o
    && g != "" && o != "" && AllDigits(g) && AllDigits(o)
    && Value(g) == c.generation && Value(o) == c.offset
  }

  /** Text parses to a cursor if and only if it is a text of it and its numbers fit, or both are empty. */
  lemma ParsedIff(text: string, c: Cursor)
    ensures Parse(text) == Ok(c) <==> if text == "" then c == START
                                      else c != START && Printable(c) && exists g, o :: IsText(text, c, g, o)
  {
    if text != "" && Parse(text) == Ok(c) {
      var parts := Split(text);
      JoinSplit(text);
      assert Joined(parts) == parts[0] + ":" + Joined(parts[1..]);
      assert Joined(parts[1..]) == parts[1] + ":" + Joined(parts[2..]) && Joined(parts[2..]) == parts[2];
      assert text == "v1" + ":" + parts[1] + ":" + parts[2];
      assert IsText(text, c, parts[1], parts[2]);
    } else if text != "" && exists g, o :: IsText(text, c, g, o) {
      var g, o :| IsText(text, c, g, o);
      SplitPrinted(g, o);
    }
  }
}
