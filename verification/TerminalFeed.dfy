/** The loops that find OSC 133 markers, and how a chunk is fed to the terminal around them. */
module TerminalFeed {
  import opened Basics
  import opened SemanticScan

  /** bytes.Index from a position on; the length of data when there is no occurrence. */
  method IndexFrom(data: seq<byte>, text: seq<byte>, from: nat) returns (index: nat)
    requires from <= |data| && text != []
    ensures index == Next(data, text, from)
  {
    index := from;
    while index < |data| && !OccursAt(data, index, text)
      invariant from <= index <= |data| && Next(data, text, index) == Next(data, text, from)
    {
      index := index + 1;
    }
  }

  method ParseExit(payload: seq<byte>) returns (exit: Option<nat>)
    ensures exit == ExitOf(payload)
  {
    if |payload| == 0 || payload[0] != SEMICOLON {
      return None;
    }
    ghost var field := ExitField(payload);
    var value, digits, i := 0, 0, 1;
    while i < |payload| && payload[i] != SEMICOLON
      invariant 1 <= i <= |payload| && digits == i - 1 <= |field| && digits <= MAX_EXIT_DIGITS
      invariant forall k :: 1 <= k < i ==> payload[k] != SEMICOLON && IsDigit(payload[k])
      invariant forall k :: 0 <= k < digits ==> IsDigit(field[k])
      invariant value == Value(field[..digits])
    {
      var digit: int := payload[i];
      assert field[digits] == payload[i];
      if digit < 0x30 || digit > 0x39 {
        return None;
      }
      if digits >= MAX_EXIT_DIGITS {
        return None;
      }
      assert field[..digits + 1][..digits] == field[..digits];
      value := value * 10 + (digit - 0x30);
      digits := digits + 1;
      i := i + 1;
    }
    assert field == field[..digits];
    if digits == 0 {
      return None;
    }
    return Some(value);
  }

  /** The marker at start; end is where the scan goes on, past the terminator or at the end of the chunk. */
  method ParseAt(data: seq<byte>, start: nat) returns (found: Option<Marker>, end: nat)
    requires OccursAt(data, start, PREFIX)
    ensures found == MarkerAt(data, start)
    ensures end == if found.Some? then found.value.end else |data|
    ensures start + |PREFIX| <= end
  {
    var body := start + |PREFIX|;
    if body >= |data| {
      return None, |data|;
    }
    var kind := data[body];
    var index := body + 1;
    while index < |data|
      invariant body < index <= |data| && NextTerminator(data, index) == NextTerminator(data, body + 1)
    {
      if data[index] == BEL || (data[index] == ESC && index + 1 < |data| && data[index + 1] == BACKSLASH) {
        var exit: Option<nat> := None;
        if kind == COMMAND_DONE {
          exit := ParseExit(data[body + 1..index]);
        }
        end := if data[index] == BEL then index + 1 else index + 2;
        return Some(Marker(start, kind, exit, end)), end;
      }
      index := index + 1;
    }
    return None, |data|;
  }

  lemma PrefixIsEscSuffix(data: seq<byte>, s: nat)
    ensures OccursAt(data, s, PREFIX) <==> s + 6 <= |data| && data[s] == ESC && OccursAt(data, s + 1, SUFFIX)
  {
    if s + 6 <= |data| {
      assert data[s..s + 6] == [data[s]] + data[s + 1..s + 6];
      assert PREFIX == [ESC] + SUFFIX;
    }
  }

  /** The search starts where the first occurrence can be. */
  lemma NextSkips(data: seq<byte>, text: seq<byte>, from: nat, later: nat)
    requires from <= later <= |data| && text != [] && forall k :: from <= k < later ==> !OccursAt(data, k, text)
    ensures Next(data, text, from) == Next(data, text, later)
  {
  }

  lemma MarkersSkip(data: seq<byte>, from: nat, later: nat)
    requires from <= later <= |data| && Next(data, PREFIX, from) == Next(data, PREFIX, later)
    ensures Markers(data, from) == Markers(data, later)
  {
  }

  lemma SuffixByte(data: seq<byte>, s: nat)
    requires OccursAt(data, s, SUFFIX)
    ensures s + 5 <= |data| && data[s] != ESC
  {
    assert data[s..s + 5][0] == data[s];
  }

  lemma NoPrefix(data: seq<byte>, k: nat)
    requires !OccursAt(data, k + 1, SUFFIX) || (k < |data| && data[k] != ESC)
    ensures !OccursAt(data, k, PREFIX)
  {
    PrefixIsEscSuffix(data, k);
  }

  lemma NoPrefixUpTo(data: seq<byte>, position: nat, index: nat, k: nat)
    requires index < |data| && data[index] != ESC && (index == 0 || data[index - 1] != ESC) && position <= k <= index
    requires forall j :: position <= j < index ==> !OccursAt(data, j, SUFFIX)
    ensures !OccursAt(data, k, PREFIX)
  {
    NoPrefix(data, k);
  }

  lemma PrefixAbsent(data: seq<byte>, position: nat, index: nat)
    requires index < |data| && data[index] != ESC && (index == 0 || data[index - 1] != ESC)
    requires forall j :: position <= j < index ==> !OccursAt(data, j, SUFFIX)
    ensures forall k :: position <= k < index + 1 ==> !OccursAt(data, k, PREFIX)
  {
    forall k | position <= k < index + 1 ensures !OccursAt(data, k, PREFIX) {
      NoPrefixUpTo(data, position, index, k);
    }
  }

  lemma PrefixLater(data: seq<byte>, position: nat, index: nat)
    requires position <= |data| && index == Next(data, SUFFIX, position)
    requires index < |data| && (index == 0 || data[index - 1] != ESC)
    ensures Next(data, PREFIX, position) == Next(data, PREFIX, index + 1)
  {
    SuffixByte(data, index);
    PrefixAbsent(data, position, index);
    NextSkips(data, PREFIX, position, index + 1);
  }

  /** A suffix without its escape is passed over. */
  lemma SuffixPassed(data: seq<byte>, position: nat, index: nat)
    requires position <= |data| && index == Next(data, SUFFIX, position)
    requires index < |data| && (index == 0 || data[index - 1] != ESC)
    ensures Markers(data, position) == Markers(data, index + 1)
  {
    PrefixLater(data, position, index);
    MarkersSkip(data, position, index + 1);
  }

  lemma SuffixMissing(data: seq<byte>, position: nat)
    requires position <= |data| && Next(data, SUFFIX, position) == |data|
    ensures Markers(data, position) == []
  {
    forall k | position <= k < |data| ensures !OccursAt(data, k, PREFIX) {
      NoPrefix(data, k);
    }
    NextSkips(data, PREFIX, position, |data|);
  }

  /** The escape of the next marker lies at or after the position, since no position follows an escape. */
  lemma SuffixMarked(data: seq<byte>, position: nat, index: nat)
    requires position <= |data| && index == Next(data, SUFFIX, position) < |data|
    requires position == 0 || data[position - 1] != ESC
    requires index > 0 && data[index - 1] == ESC
    ensures position < index && OccursAt(data, index - 1, PREFIX) && Next(data, PREFIX, position) == index - 1
  {
    SuffixByte(data, index);
    PrefixIsEscSuffix(data, index - 1);
    forall k | position <= k < index - 1 ensures !OccursAt(data, k, PREFIX) {
      NoPrefix(data, k);
    }
    NextSkips(data, PREFIX, position, index - 1);
  }

  lemma MarkerEnds(data: seq<byte>, s: nat)
    requires OccursAt(data, s, PREFIX) && MarkerAt(data, s).Some?
    ensures var m := MarkerAt(data, s).value;
            s + |PREFIX| < m.end <= |data| && data[m.end - 1] != ESC
  {
  }

  /** The next marker is the one at the next prefix, if that one is complete. */
  lemma MarkersSome(data: seq<byte>, position: nat, s: nat)
    requires position <= s < |data| && s == Next(data, PREFIX, position) && MarkerAt(data, s).Some?
    ensures var m := MarkerAt(data, s).value;
            && position < m.end <= |data| && data[m.end - 1] != ESC
            && Markers(data, position) == [m] + Markers(data, m.end)
  {
    MarkerEnds(data, s);
  }

  lemma MarkersNone(data: seq<byte>, position: nat, s: nat)
    requires position <= s < |data| && s == Next(data, PREFIX, position) && MarkerAt(data, s).None?
    ensures Markers(data, position) == [] == Markers(data, |data|)
  {
  }

  /** A round of the search at position finds at most the next marker and goes on at next. */
  ghost predicate Advances(data: seq<byte>, position: nat, found: Option<Marker>, next: nat) {
    && position < next <= |data| && (next < |data| ==> data[next - 1] != ESC)
    && Markers(data, position) == match found case None => Markers(data, next) case Some(m) => [m] + Markers(data, next)
  }

  lemma AdvanceMissing(data: seq<byte>, position: nat)
    requires position < |data| && Next(data, SUFFIX, position) == |data|
    ensures Advances(data, position, None, |data|)
  {
    SuffixMissing(data, position);
    SuffixMissing(data, |data|);
  }

  lemma AdvancePassed(data: seq<byte>, position: nat, index: nat)
    requires position < |data| && index == Next(data, SUFFIX, position)
    requires index < |data| && (index == 0 || data[index - 1] != ESC)
    ensures Advances(data, position, None, index + 1)
  {
    SuffixPassed(data, position, index);
    SuffixByte(data, index);
  }

  lemma AdvanceParsed(data: seq<byte>, position: nat, s: nat, found: Option<Marker>, next: nat)
    requires position <= s < |data| && s == Next(data, PREFIX, position) && found == MarkerAt(data, s)
    requires next == if found.Some? then found.value.end else |data|
    ensures Advances(data, position, found, next)
  {
    if found.Some? {
      MarkersSome(data, position, s);
    } else {
      MarkersNone(data, position, s);
    }
  }

  lemma Appended<T>(found: seq<T>, x: T, rest: seq<T>, all: seq<T>, whole: seq<T>)
    requires all == [x] + rest && found + all == whole
    ensures (found + [x]) + rest == whole
  {
  }

  /** The marker whose suffix is at index, if it is complete. */
  method ParseNext(data: seq<byte>, position: nat, index: nat) returns (found: Option<Marker>, next: nat)
    requires position < |data| && index == Next(data, SUFFIX, position) < |data|
    requires position == 0 || data[position - 1] != ESC
    requires index > 0 && data[index - 1] == ESC
    ensures Advances(data, position, found, next)
  {
    SuffixMarked(data, position, index);
    var start := index - 1;
    found, next := ParseAt(data, start);
    assert next > position; // the defensive branch of the source is never taken
    AdvanceParsed(data, position, start, found, next);
  }

  /** One round of the search, which looks for the rare fragment after the escape and always moves on. */
  method FindNext(data: seq<byte>, position: nat) returns (found: Option<Marker>, next: nat)
    requires position < |data| && (position > 0 ==> data[position - 1] != ESC)
    ensures Advances(data, position, found, next)
  {
    var index := IndexFrom(data, SUFFIX, position);
    if index == |data| {
      AdvanceMissing(data, position);
      return None, |data|;
    }
    if index == 0 || data[index - 1] != ESC {
      AdvancePassed(data, position, index);
      return None, index + 1;
    }
    found, next := ParseNext(data, position, index);
  }

  method FindMarkers(data: seq<byte>) returns (spans: seq<Marker>)
    ensures spans == Markers(data, 0)
  {
    spans := [];
    var position := 0;
    ghost var whole := Markers(data, 0);
    while position < |data|
      invariant position <= |data| && spans + Markers(data, position) == whole
      invariant 0 < position < |data| ==> data[position - 1] != ESC
    {
      var found, next := FindNext(data, position);
      if found.Some? {
        Appended(spans, found.value, Markers(data, next), Markers(data, position), whole);
        spans := spans + [found.value];
      }
      position := next;
    }
    SuffixMissing(data, |data|);
  }

  lemma EndsInOrder(data: seq<byte>, spans: seq<Marker>, k: nat)
    requires spans == Markers(data, 0) && k < |spans|
    ensures Resume(spans, k, 0) < spans[k].end <= |data|
  {
    MarkersPlaced(data, 0, k);
    if k > 0 {
      MarkersApart(data, 0, k);
    }
  }

  /** A marker acted on, and how many bytes the terminal had been fed by then. */
  datatype Applied = Applied(kind: byte, exit: Option<nat>, at: nat)

  function Applications(ms: seq<Marker>, base: nat): seq<Applied> {
    seq(|ms|, k requires 0 <= k < |ms| => Applied(ms[k].kind, ms[k].exit, base + ms[k].end))
  }

  /** The terminal as the bytes it was fed, and the markers acted on in between. */
  class Terminal {
    var open: bool
    var fed: seq<byte>
    var applied: seq<Applied>

    constructor ()
      ensures open && fed == [] && applied == []
    {
      open, fed, applied := true, [], [];
    }

    /** Every byte is fed once and in order, and each marker is acted on exactly when its last byte has been fed. */
    method Feed(data: seq<byte>)
      modifies this
      ensures open == old(open)
      ensures fed == if open then old(fed) + data else old(fed)
      ensures applied == old(applied) + (if open then Applications(Markers(data, 0), |old(fed)|) else [])
    {
      if !open || |data| == 0 {
        assert |data| == 0 ==> Markers(data, 0) == [];
        return;
      }
      var spans := FindMarkers(data);
      var done, k := 0, 0;
      while k < |spans|
        invariant k <= |spans| && done == Resume(spans, k, 0) <= |data| && open
        invariant fed == old(fed) + data[..done]
        invariant applied == old(applied) + Applications(spans[..k], |old(fed)|)
      {
        EndsInOrder(data, spans, k);
        NextPiece(old(fed), data, done, spans[k].end);
        NextApplied(old(applied), spans, k, |old(fed)|);
        fed := fed + data[done..spans[k].end];
        done := spans[k].end;
        applied := applied + [Applied(spans[k].kind, spans[k].exit, |fed|)];
        k := k + 1;
      }
      NextPiece(old(fed), data, done, |data|);
      assert spans[..k] == spans && data[..|data|] == data;
      fed := fed + data[done..];
    }
  }

  lemma NextPiece(before: seq<byte>, data: seq<byte>, done: nat, end: nat)
    requires done <= end <= |data|
    ensures before + data[..done] + data[done..end] == before + data[..end]
  {
  }

  lemma NextApplied(before: seq<Applied>, spans: seq<Marker>, k: nat, base: nat)
    requires k < |spans|
    ensures before + Applications(spans[..k], base) + [Applied(spans[k].kind, spans[k].exit, base + spans[k].end)]
            == before + Applications(spans[..k + 1], base)
  {
  }

  /**
    A command-done marker with a status below a million, in a chunk behind text
    without escapes, is acted on first, with that status, once its last byte has
    been fed.
   */
  lemma StatusApplied(data: seq<byte>, s: nat, n: nat, more: seq<byte>, bel: bool, end: nat, base: nat)
    requires n < 1_000_000 && (more == [] || more[0] == SEMICOLON) && ESC !in more && BEL !in more
    requires WrittenAt(data, s, 0x44, [SEMICOLON] + Decimal(n) + more, bel, end) && ESC !in data[..s]
    ensures var applied := Applications(Markers(data, 0), base);
            applied != [] && applied[0] == Applied(COMMAND_DONE, Some(n), base + end)
  {
    DecimalDigits(n);
    StatusRoundTrip(n, more);
    MarkerFound(data, s, COMMAND_DONE, [SEMICOLON] + Decimal(n) + more, bel, end);
  }
}
