/**
  OSC 133 semantic prompt markers in a chunk of PTY output: the leftmost
  complete markers, the loops that find them, and the order in which a chunk
  and its markers reach the terminal.
 */
module SemanticScan {
  import opened Basics

  const SUFFIX: seq<byte> := [0x5d, 0x31, 0x33, 0x33, 0x3b] // ]133;
  const PREFIX: seq<byte> := [0x1b, 0x5d, 0x31, 0x33, 0x33, 0x3b]
  const MAX_EXIT_DIGITS := 6
  const COMMAND_DONE: byte := 0x44 // D

  /** A complete marker: where it starts, its letter, its exit status and the index just past its terminator. */
  datatype Marker = Marker(start: nat, kind: byte, exit: Option<nat>, end: nat)

  // ------------------------------------------------------------ what a marker is

  predicate OccursAt(data: seq<byte>, s: nat, text: seq<byte>) {
    s + |text| <= |data| && data[s..s + |text|] == text
  }

  /** The first occurrence of text at or after from, or the length. */
  function Next(data: seq<byte>, text: seq<byte>, from: nat): (s: nat)
    requires from <= |data| && text != []
    ensures from <= s <= |data| && (s < |data| ==> OccursAt(data, s, text))
    ensures forall k :: from <= k < s ==> !OccursAt(data, k, text)
    decreases |data| - from
  {
    if from == |data| || OccursAt(data, from, text) then from else Next(data, text, from + 1)
  }

  /** The length of the terminator at i: BEL, or ESC and a backslash; 0 if there is none. */
  function TerminatorAt(data: seq<byte>, i: nat): nat
    requires i < |data|
  {
    if data[i] == BEL then 1
    else if data[i] == ESC && i + 1 < |data| && data[i + 1] == BACKSLASH then 2
    else 0
  }

  /** The first terminator at or after from, or the length. */
  function NextTerminator(data: seq<byte>, from: nat): (i: nat)
    requires from <= |data|
    ensures from <= i <= |data| && (i < |data| ==> TerminatorAt(data, i) > 0)
    ensures forall k :: from <= k < i ==> TerminatorAt(data, k) == 0
    decreases |data| - from
  {
    if from == |data| || TerminatorAt(data, from) > 0 then from else NextTerminator(data, from + 1)
  }

  function Value(digits: seq<byte>): nat
    requires forall i :: 0 <= i < |digits| ==> IsDigit(digits[i])
  {
    if digits == [] then 0
    else Value(digits[..|digits| - 1]) * 10 + Digit(digits[|digits| - 1])
  }

  /** The first semicolon at or after from, or the length. */
  function FieldEnd(payload: seq<byte>, from: nat): (i: nat)
    requires from <= |payload|
    ensures from <= i <= |payload| && (i < |payload| ==> payload[i] == SEMICOLON)
    ensures forall k :: from <= k < i ==> payload[k] != SEMICOLON
    decreases |payload| - from
  {
    if from == |payload| || payload[from] == SEMICOLON then from else FieldEnd(payload, from + 1)
  }

  /** The field between the leading semicolon and the next one. */
  function ExitField(payload: seq<byte>): seq<byte>
    requires payload != []
  {
    payload[1..FieldEnd(payload, 1)]
  }

  function ExitOf(payload: seq<byte>): Option<nat> {
    if payload == [] || payload[0] != SEMICOLON then None
    else
      var field := ExitField(payload);
      if 0 < |field| <= MAX_EXIT_DIGITS && forall i :: 0 <= i < |field| ==> IsDigit(field[i])
      then Some(Value(field)) else None
  }

  /** The marker that starts at s, if its terminator is in the chunk. */
  function MarkerAt(data: seq<byte>, s: nat): Option<Marker>
    requires OccursAt(data, s, PREFIX)
  {
    var body := s + |PREFIX|;
    if body >= |data| then None
    else
      var i := NextTerminator(data, body + 1);
      if i == |data| then None
      else
        var exit := if data[body] == COMMAND_DONE then ExitOf(data[body + 1..i]) else None;
        Some(Marker(s, data[body], exit, i + TerminatorAt(data, i)))
  }

  /** The leftmost complete markers from an index on; an unterminated one hides what follows it. */
  function Markers(data: seq<byte>, from: nat): seq<Marker>
    requires from <= |data|
    decreases |data| - from
  {
    var s := Next(data, PREFIX, from);
    if s == |data| then []
    else
      match MarkerAt(data, s)
      case None => []
      case Some(m) => [m] + Markers(data, m.end)
  }

  // ------------------------------------------------------------ what that implies

  lemma {:induction false} ValueBounded(digits: seq<byte>)
    requires forall i :: 0 <= i < |digits| ==> IsDigit(digits[i])
    ensures Value(digits) < Pow10(|digits|)
  {
    if digits != [] {
      ValueBounded(digits[..|digits| - 1]);
    }
  }

  lemma {:induction false} Pow10Grows(m: nat, n: nat)
    requires m <= n
    ensures Pow10(m) <= Pow10(n)
  {
    if m < n {
      Pow10Grows(m, n - 1);
    }
  }

  // ------------------------------------------------------------- the exit status

  predicate AllDigits(s: seq<byte>) {
    forall i :: 0 <= i < |s| ==> IsDigit(s[i])
  }

  /** z zeros before the decimal digits of n. */
  function Padded(z: nat, n: nat): seq<byte> {
    Repeat(0x30, z) + Decimal(n)
  }

  lemma {:induction false} PaddedValue(z: nat, n: nat)
    ensures AllDigits(Padded(z, n)) && Value(Padded(z, n)) == n
    decreases n, z
  {
    DecimalDigits(n);
    var front := Padded(z, n)[..|Padded(z, n)| - 1];
    if n >= 10 {
      PaddedValue(z, n / 10);
      assert front == Padded(z, n / 10);
    } else if z > 0 {
      PaddedValue(z - 1, 0);
      assert front == Padded(z - 1, 0);
    } else {
      assert front == [];
    }
  }

  lemma PadsOne(k: nat, value: nat, digit: nat) returns (z: nat)
    requires digit < 10
    ensures Padded(k, value) + [48 + digit] == Padded(z, value * 10 + digit)
  {
    if value == 0 {
      z := k + 1;
      assert Padded(k, 0) == Repeat(0x30, k + 1);
    } else {
      z := k;
      assert Decimal(value * 10 + digit) == Decimal(value) + [48 + digit];
    }
  }

  /** Any run of digits is the number it is read as, behind zeros. */
  lemma {:induction false} ValuePads(digits: seq<byte>) returns (z: nat)
    requires AllDigits(digits) && digits != []
    ensures digits == Padded(z, Value(digits))
  {
    var front, last := digits[..|digits| - 1], Digit(digits[|digits| - 1]);
    assert digits == front + [48 + last];
    if front == [] {
      z := 0;
      assert Padded(0, last) == [48 + last];
    } else {
      var k := ValuePads(front);
      z := PadsOne(k, Value(front), last);
    }
  }

  /** A status payload: a semicolon and one to six digits that print n, up to the end or the next semicolon. */
  ghost predicate IsStatus(payload: seq<byte>, z: nat, n: nat, rest: seq<byte>) {
    && payload == [SEMICOLON] + (Padded(z, n) + rest)
    && |Padded(z, n)| <= 6
    && (rest == [] || rest[0] == SEMICOLON)
  }

  lemma FieldEnds(payload: seq<byte>, field: seq<byte>, rest: seq<byte>)
    requires payload == [SEMICOLON] + (field + rest) && SEMICOLON !in field && (rest == [] || rest[0] == SEMICOLON)
    ensures ExitField(payload) == field
  {
    var end := 1 + |field|;
    assert forall k :: 1 <= k < end ==> payload[k] == field[k - 1];
    assert end < |payload| ==> payload[end] == rest[0];
    assert FieldEnd(payload, 1) == end;
    assert payload[1..end] == field;
  }

  lemma StatusRead(payload: seq<byte>, z: nat, n: nat, rest: seq<byte>)
    requires IsStatus(payload, z, n, rest)
    ensures ExitOf(payload) == Some(n)
  {
    PaddedValue(z, n);
    DecimalDigits(n);
    FieldEnds(payload, Padded(z, n), rest);
  }

  lemma ReadStatus(payload: seq<byte>) returns (z: nat, rest: seq<byte>)
    requires ExitOf(payload).Some?
    ensures IsStatus(payload, z, ExitOf(payload).value, rest)
  {
    var field := ExitField(payload);
    z := ValuePads(field);
    rest := payload[FieldEnd(payload, 1)..];
    assert payload == [SEMICOLON] + (field + rest);
  }

  /** An exit status is found if and only if the payload is one, and it is the number printed there. */
  lemma ExitIff(payload: seq<byte>, n: nat)
    ensures ExitOf(payload) == Some(n) <==> exists z, rest :: IsStatus(payload, z, n, rest)
  {
    if ExitOf(payload) == Some(n) {
      var z, rest := ReadStatus(payload);
    } else if exists z, rest :: IsStatus(payload, z, n, rest) {
      var z, rest :| IsStatus(payload, z, n, rest);
      StatusRead(payload, z, n, rest);
    }
  }

  lemma {:induction false} DecimalShort(n: nat, k: nat)
    requires k > 0 && n < Pow10(k)
    ensures |Decimal(n)| <= k
  {
    if n >= 10 {
      DecimalShort(n / 10, k - 1);
    }
  }

  /** Every status below a million is read back from its decimal digits. */
  lemma StatusRoundTrip(n: nat, rest: seq<byte>)
    requires n < 1_000_000 && (rest == [] || rest[0] == SEMICOLON)
    ensures ExitOf([SEMICOLON] + Decimal(n) + rest) == Some(n)
  {
    assert Pow10(6) == 1_000_000;
    DecimalShort(n, 6);
    assert Padded(0, n) == Decimal(n);
    assert [SEMICOLON] + Decimal(n) + rest == [SEMICOLON] + (Padded(0, n) + rest);
    StatusRead([SEMICOLON] + Decimal(n) + rest, 0, n, rest);
  }

  lemma ExitBounded(payload: seq<byte>)
    ensures ExitOf(payload).Some? ==> ExitOf(payload).value < 1_000_000
  {
    if ExitOf(payload).Some? {
      ValueBounded(ExitField(payload));
      Pow10Grows(|ExitField(payload)|, MAX_EXIT_DIGITS);
      assert Pow10(MAX_EXIT_DIGITS) == 1_000_000;
    }
  }

  /** A marker begins with the prefix and ends just past the first terminator after its letter. */
  ghost predicate WellPlaced(data: seq<byte>, m: Marker) {
    && OccursAt(data, m.start, PREFIX)
    && m.start + |PREFIX| < m.end <= |data|
    && m.kind == data[m.start + |PREFIX|]
    && (exists i :: m.start + |PREFIX| < i < m.end && m.end == i + TerminatorAt(data, i) && TerminatorAt(data, i) > 0
          && forall k :: m.start + |PREFIX| < k < i ==> TerminatorAt(data, k) == 0)
    && (m.exit.Some? ==> m.kind == COMMAND_DONE && m.exit.value < 1_000_000)
  }

  lemma MarkerPlaced(data: seq<byte>, s: nat)
    requires OccursAt(data, s, PREFIX)
    ensures MarkerAt(data, s).Some? ==> MarkerAt(data, s).value.start == s && WellPlaced(data, MarkerAt(data, s).value)
  {
    var body := s + |PREFIX|;
    if body < |data| {
      var i := NextTerminator(data, body + 1);
      if i < |data| {
        ExitBounded(data[body + 1..i]);
        assert TerminatorAt(data, i) > 0;
      }
    }
  }

  lemma {:induction false} MarkersPlaced(data: seq<byte>, from: nat, k: nat)
    requires from <= |data| && k < |Markers(data, from)|
    ensures WellPlaced(data, Markers(data, from)[k]) && from <= Markers(data, from)[k].start
    decreases |data| - from
  {
    var s := Next(data, PREFIX, from);
    MarkerPlaced(data, s);
    if k > 0 {
      var m := MarkerAt(data, s).value;
      assert Markers(data, from)[k] == Markers(data, m.end)[k - 1];
      MarkersPlaced(data, m.end, k - 1);
    }
  }

  lemma {:induction false} MarkersApart(data: seq<byte>, from: nat, k: nat)
    requires from <= |data| && 0 < k < |Markers(data, from)|
    ensures Markers(data, from)[k - 1].end <= Markers(data, from)[k].start
    decreases |data| - from
  {
    var m := MarkerAt(data, Next(data, PREFIX, from)).value;
    assert forall j :: 0 < j < |Markers(data, from)| ==> Markers(data, from)[j] == Markers(data, m.end)[j - 1];
    if k == 1 {
      MarkersPlaced(data, m.end, 0);
    } else {
      MarkersApart(data, m.end, k - 1);
    }
  }

  /** Markers come in order, do not overlap, and each is where it says it is. */
  lemma MarkersInOrder(data: seq<byte>)
    ensures forall k :: 0 <= k < |Markers(data, 0)| ==> WellPlaced(data, Markers(data, 0)[k])
    ensures forall k :: 0 < k < |Markers(data, 0)| ==> Markers(data, 0)[k - 1].end <= Markers(data, 0)[k].start
  {
    forall k | 0 <= k < |Markers(data, 0)| ensures WellPlaced(data, Markers(data, 0)[k]) {
      MarkersPlaced(data, 0, k);
    }
    forall k | 0 < k < |Markers(data, 0)| ensures Markers(data, 0)[k - 1].end <= Markers(data, 0)[k].start {
      MarkersApart(data, 0, k);
    }
  }

  /** Where the search resumes after the first k markers. */
  function Resume(ms: seq<Marker>, k: nat, from: nat): nat
    requires k <= |ms|
  {
    if k == 0 then from else ms[k - 1].end
  }

  /**
    No complete marker is missed: between markers no prefix occurs, and after
    the last the first one is unterminated.
   */
  lemma {:induction false} NoMarkerMissed(data: seq<byte>, from: nat, k: nat, p: nat)
    requires from <= |data| && k <= |Markers(data, from)|
    requires Resume(Markers(data, from), k, from) <= p && OccursAt(data, p, PREFIX)
    requires k < |Markers(data, from)| ==> p < Markers(data, from)[k].start
    ensures k == |Markers(data, from)|
    ensures exists q :: Resume(Markers(data, from), k, from) <= q <= p
                        && OccursAt(data, q, PREFIX) && MarkerAt(data, q).None?
    decreases |data| - from
  {
    var s := Next(data, PREFIX, from);
    var ms := Markers(data, from);
    if k == 0 {
      assert s <= p;
      assert s < |data|;
      assert OccursAt(data, s, PREFIX) && MarkerAt(data, s).None?;
    } else {
      var m := MarkerAt(data, s).value;
      assert ms[1..] == Markers(data, m.end);
      assert Resume(ms, k, from) == Resume(ms[1..], k - 1, m.end);
      NoMarkerMissed(data, m.end, k - 1, p);
    }
  }

  // --------------------------------------------------------- a marker as it is written

  /** ESC ]133; kind payload, and BEL or ESC and a backslash, stand at s and end at end. */
  ghost predicate WrittenAt(data: seq<byte>, s: nat, kind: byte, payload: seq<byte>, bel: bool, end: nat) {
    var body, at := s + 6, s + 7 + |payload|;
    && at < end <= |data| && data[s..body] == [ESC, 0x5d, 0x31, 0x33, 0x33, 0x3b]
    && data[body] == kind && data[body + 1..at] == payload
    && if bel then end == at + 1 && data[at] == BEL
       else end == at + 2 && data[at] == ESC && data[at + 1] == BACKSLASH
  }

  /** The first terminator after a payload that holds none. */
  lemma PayloadEnds(data: seq<byte>, from: nat, at: nat, payload: seq<byte>)
    requires from <= at < |data| && data[from..at] == payload && ESC !in payload && BEL !in payload
    requires TerminatorAt(data, at) > 0
    ensures NextTerminator(data, from) == at
  {
    forall k | from <= k < at ensures TerminatorAt(data, k) == 0 {
      assert data[k] == payload[k - from];
      assert payload[k - from] in payload;
    }
  }

  lemma MarkerRead(data: seq<byte>, s: nat, kind: byte, payload: seq<byte>, bel: bool, end: nat)
    requires WrittenAt(data, s, kind, payload, bel, end) && ESC !in payload && BEL !in payload
    ensures OccursAt(data, s, PREFIX)
    ensures MarkerAt(data, s) == Some(Marker(s, kind, if kind == COMMAND_DONE then ExitOf(payload) else None, end))
  {
    PayloadEnds(data, s + 7, s + 7 + |payload|, payload);
  }

  lemma TextBefore(data: seq<byte>, s: nat)
    requires s <= |data| && ESC !in data[..s] && OccursAt(data, s, PREFIX)
    ensures Next(data, PREFIX, 0) == s
  {
    forall k | 0 <= k < s ensures !OccursAt(data, k, PREFIX) {
      assert data[k] in data[..s];
      assert k + 6 <= |data| ==> data[k..k + 6][0] == data[k];
    }
  }

  lemma FirstMarker(data: seq<byte>, s: nat, m: Marker)
    requires s < |data| && Next(data, PREFIX, 0) == s && MarkerAt(data, s) == Some(m)
    ensures m.end <= |data| && Markers(data, 0) == [m] + Markers(data, m.end)
  {
    MarkerPlaced(data, s);
  }

  /** A marker behind text without escapes is the first one found, and the search goes on behind it. */
  lemma MarkerFound(data: seq<byte>, s: nat, kind: byte, payload: seq<byte>, bel: bool, end: nat)
    requires WrittenAt(data, s, kind, payload, bel, end) && ESC !in payload && BEL !in payload
    requires ESC !in data[..s]
    ensures Markers(data, 0)
            == [Marker(s, kind, if kind == COMMAND_DONE then ExitOf(payload) else None, end)] + Markers(data, end)
  {
    MarkerRead(data, s, kind, payload, bel, end);
    TextBefore(data, s);
    FirstMarker(data, s, Marker(s, kind, if kind == COMMAND_DONE then ExitOf(payload) else None, end));
  }
}
