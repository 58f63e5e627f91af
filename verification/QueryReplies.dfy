/**
  The fixed replies of the query responder, and what they say, read back
  independently of how they are put together.
 */
module QueryReplies {
  import opened Basics
  import opened QueryScan

  const DEVICE_SECONDARY: seq<byte> := [ESC, BRACKET, 0x3e, 0x30, 0x3b, 0x30, 0x3b, 0x30, 0x63] // [>0;0;0c
  const DEVICE_PRIMARY: seq<byte> := [ESC, BRACKET, 0x3f, 0x36, 0x32, 0x3b, 0x63] // [?62;c
  const STATUS_FINE: seq<byte> := [ESC, BRACKET, 0x30, 0x6e] // [0n
  const CURSOR_HOME: seq<byte> := [ESC, BRACKET, 0x31, 0x3b, 0x31, 0x52] // [1;1R
  const KEYBOARD: seq<byte> := [ESC, BRACKET, 0x3f, 0x75] // [?u
  const MODE_HEAD: seq<byte> := [ESC, BRACKET, 0x3f] // [?
  const MODE_TAIL: seq<byte> := [0x3b, 0x31, 0x24, 0x79] // ;1$y

  /** The window report: CSI op ; rows ; cols t, op a digit. */
  function Report(op: byte, rows: nat, cols: nat): seq<byte> {
    [ESC, BRACKET, op, SEMICOLON] + Decimal(rows) + [SEMICOLON] + Decimal(cols) + [0x74]
  }

  predicate IsOne(s: seq<byte>, x: byte) {
    |s| == 1 && s[0] == x
  }

  predicate IsTwo(s: seq<byte>, x: byte, y: byte) {
    |s| == 2 && s[0] == x && s[1] == y
  }

  /** A mode query without its final byte: ? Ps $. */
  predicate IsModeQuery(params: seq<byte>) {
    |params| >= 2 && params[0] == 0x3f && params[|params| - 1] == 0x24
  }

  /** The reply to a CSI sequence given without its ESC [; empty when it is no query. */
  function CsiReply(rows: nat, cols: nat, sequence: seq<byte>): seq<byte>
    requires sequence != []
  {
    var final := sequence[|sequence| - 1];
    var params := sequence[..|sequence| - 1];
    if final == 0x63 then // c
      if params != [] && params[0] == 0x3e then DEVICE_SECONDARY else DEVICE_PRIMARY
    else if final == 0x6e then // n: 5 or 6
      if IsOne(params, 0x35) then STATUS_FINE else if IsOne(params, 0x36) then CURSOR_HOME else []
    else if final == 0x75 then // u
      if IsOne(params, 0x3f) then KEYBOARD else []
    else if final == 0x70 then // p
      if IsModeQuery(params) then MODE_HEAD + params[1..|params| - 1] + MODE_TAIL else []
    else if final == 0x74 then // t: 14, 16 or 18
      if IsTwo(params, 0x31, 0x34) then Report(0x34, rows, cols)
      else if IsTwo(params, 0x31, 0x36) then Report(0x34, rows * 24, cols * 8)
      else if IsTwo(params, 0x31, 0x38) then Report(0x38, rows, cols)
      else []
    else []
  }

  /** What a terminal of this size answers. */
  function Answering(rows: nat, cols: nat): Replier {
    Replier(sequence => if sequence == [] then [] else CsiReply(rows, cols, sequence))
  }

  // ------------------------------------------------------- numbers between semicolons

  predicate Numeric(s: seq<byte>) {
    forall i :: 0 <= i < |s| ==> IsDigit(s[i]) || s[i] == SEMICOLON
  }

  /** The numbers of a parameter list: digits gathered from the left, each semicolon beginning a new number. */
  function Parameters(s: seq<byte>, value: nat): seq<nat>
    requires Numeric(s)
  {
    if s == [] then [value]
    else if s[0] == SEMICOLON then [value] + Parameters(s[1..], 0)
    else Parameters(s[1..], value * 10 + Digit(s[0]))
  }

  lemma Digits(n: nat, rest: seq<byte>)
    requires Numeric(rest)
    ensures Numeric(Decimal(n) + rest)
  {
    DecimalDigits(n);
  }

  /** Reading the digits of n on top of a value appends them. */
  lemma {:induction false} ReadDecimal(n: nat, value: nat, rest: seq<byte>)
    requires Numeric(rest) && Numeric(Decimal(n) + rest)
    ensures Parameters(Decimal(n) + rest, value) == Parameters(rest, value * Pow10(|Decimal(n)|) + n)
  {
    if n < 10 {
      assert ([48 + n] + rest)[1..] == rest;
      assert Pow10(1) == 10;
    } else {
      var last: seq<byte> := [48 + n % 10];
      Associative(Decimal(n / 10), last, rest);
      ReadDecimal(n / 10, value, last + rest);
      assert (last + rest)[1..] == rest;
      Shift(value, n, |Decimal(n / 10)|);
    }
  }

  lemma Shift(value: nat, n: nat, k: nat)
    ensures (value * Pow10(k) + n / 10) * 10 + n % 10 == value * Pow10(k + 1) + n
  {
    var p := Pow10(k);
    assert value * p * 10 == value * (10 * p);
  }

  /** A CSI sequence that reads as a mark, numbers between semicolons, and a tail. */
  ghost predicate Says(reply: seq<byte>, mark: seq<byte>, numbers: seq<nat>, tail: seq<byte>) {
    exists params :: Numeric(params) && reply == [ESC, BRACKET] + mark + params + tail
                     && Parameters(params, 0) == numbers
  }

  lemma SaysIt(reply: seq<byte>, mark: seq<byte>, params: seq<byte>, tail: seq<byte>)
    requires Numeric(params) && reply == [ESC, BRACKET] + mark + params + tail
    ensures Says(reply, mark, Parameters(params, 0), tail)
  {
  }

  /** The last number. */
  lemma ReadLast(n: nat)
    ensures Numeric(Decimal(n)) && Parameters(Decimal(n), 0) == [n]
  {
    Digits(n, []);
    assert Decimal(n) + [] == Decimal(n);
    ReadDecimal(n, 0, []);
  }

  /** A number, a semicolon and more. */
  lemma ReadNext(n: nat, more: seq<byte>)
    requires Numeric(more)
    ensures Numeric(Decimal(n) + ([SEMICOLON] + more))
    ensures Parameters(Decimal(n) + ([SEMICOLON] + more), 0) == [n] + Parameters(more, 0)
  {
    Digits(n, [SEMICOLON] + more);
    ReadDecimal(n, 0, [SEMICOLON] + more);
    assert ([SEMICOLON] + more)[1..] == more;
  }

  lemma ReportReads(op: nat, rows: nat, cols: nat)
    requires op < 10
    ensures Says(Report(48 + op, rows, cols), [], [op, rows, cols], [0x74])
  {
    var one := Decimal(rows) + ([SEMICOLON] + Decimal(cols));
    ReadLast(cols);
    ReadNext(rows, Decimal(cols));
    ReadNext(op, one);
    var params := Decimal(op) + ([SEMICOLON] + one);
    assert Parameters(params, 0) == [op, rows, cols];
    SaysIt(Report(48 + op, rows, cols), [], params, [0x74]);
  }

  // ------------------------------------------------------------- replies are sequences

  /** One whole CSI sequence: ESC [, bytes that do not end it, a final byte. */
  predicate IsCsi(s: seq<byte>) {
    |s| >= 3 && s[0] == ESC && s[1] == BRACKET && CsiEnd(s[2..]) == Complete(|s| - 3)
  }

  /** Bytes that neither end nor break a CSI. */
  predicate Inner(s: seq<byte>) {
    forall i :: 0 <= i < |s| ==> !Stops(Csi, s[i])
  }

  lemma MadeCsi(inner: seq<byte>, final: byte)
    requires Inner(inner) && IsFinal(final)
    ensures IsCsi([ESC, BRACKET] + inner + [final])
  {
    var s := [ESC, BRACKET] + inner + [final];
    assert s[2..] == inner + [final];
    CsiAppend(inner, [final]);
    assert CsiEnd([final]) == Complete(0);
  }

  lemma {:induction false} DecimalInner(n: nat)
    ensures Inner(Decimal(n))
  {
    DecimalDigits(n);
  }

  lemma ReportIsCsi(op: byte, rows: nat, cols: nat)
    requires IsDigit(op)
    ensures IsCsi(Report(op, rows, cols))
  {
    DecimalInner(rows);
    DecimalInner(cols);
    var inner := [op, SEMICOLON] + Decimal(rows) + [SEMICOLON] + Decimal(cols);
    assert Report(op, rows, cols) == [ESC, BRACKET] + inner + [0x74];
    MadeCsi(inner, 0x74);
  }

  lemma ModeReplyIsCsi(mode: seq<byte>)
    requires Inner(mode)
    ensures IsCsi(MODE_HEAD + mode + MODE_TAIL)
  {
    var inner := [0x3f] + mode + [0x3b, 0x31, 0x24];
    assert MODE_HEAD + mode + MODE_TAIL == [ESC, BRACKET] + inner + [0x79];
    MadeCsi(inner, 0x79);
  }

  lemma DeviceRepliesAreCsi()
    ensures IsCsi(DEVICE_SECONDARY) && IsCsi(DEVICE_PRIMARY)
  {
    MadeCsi([0x3e, 0x30, 0x3b, 0x30, 0x3b, 0x30], 0x63);
    MadeCsi([0x3f, 0x36, 0x32, 0x3b], 0x63);
    assert DEVICE_SECONDARY == [ESC, BRACKET] + [0x3e, 0x30, 0x3b, 0x30, 0x3b, 0x30] + [0x63];
    assert DEVICE_PRIMARY == [ESC, BRACKET] + [0x3f, 0x36, 0x32, 0x3b] + [0x63];
  }

  lemma StatusRepliesAreCsi()
    ensures IsCsi(STATUS_FINE) && IsCsi(CURSOR_HOME) && IsCsi(KEYBOARD)
  {
    MadeCsi([0x30], 0x6e);
    MadeCsi([0x31, 0x3b, 0x31], 0x52);
    MadeCsi([0x3f], 0x75);
    assert STATUS_FINE == [ESC, BRACKET] + [0x30] + [0x6e];
    assert CURSOR_HOME == [ESC, BRACKET] + [0x31, 0x3b, 0x31] + [0x52];
    assert KEYBOARD == [ESC, BRACKET] + [0x3f] + [0x75];
  }

  lemma ReportsAreCsi(rows: nat, cols: nat)
    ensures IsCsi(Report(0x34, rows, cols)) && IsCsi(Report(0x38, rows, cols))
    ensures IsCsi(Report(0x34, rows * 24, cols * 8))
  {
    ReportIsCsi(0x34, rows, cols);
    ReportIsCsi(0x34, rows * 24, cols * 8);
    ReportIsCsi(0x38, rows, cols);
  }

  /**
    Whatever query the scan hands over, the reply is exactly one complete CSI
    sequence, even with the query's own bytes in it.
   */
  lemma RepliesAreCsi(rows: nat, cols: nat, sequence: seq<byte>)
    requires sequence != [] && Inner(sequence[..|sequence| - 1])
    ensures CsiReply(rows, cols, sequence) == [] || IsCsi(CsiReply(rows, cols, sequence))
  {
    var params := sequence[..|sequence| - 1];
    DeviceRepliesAreCsi();
    StatusRepliesAreCsi();
    ReportsAreCsi(rows, cols);
    if IsModeQuery(params) {
      ModeReplyIsCsi(params[1..|params| - 1]);
    }
  }

  // ---------------------------------------------------------- every query is answered

  lemma CsiWhole(inner: seq<byte>, final: byte, rest: seq<byte>)
    requires Inner(inner) && IsFinal(final)
    ensures CsiEnd(inner + [final] + rest) == Complete(|inner|)
  {
    CsiAppend(inner, [final]);
    CsiAppend(inner + [final], rest);
    assert CsiEnd([final]) == Complete(0);
  }

  lemma CsiFront(answer: Replier, body: seq<byte>, rest: seq<byte>, p: seq<byte>)
    requires body != [] && p == [ESC, BRACKET] + (body + rest) && CsiEnd(body + rest) == Complete(|body| - 1)
    ensures Front(answer, p) == Take(|body| + 2, CsiEvents(answer, body)) && p[|body| + 2..] == rest
  {
    assert p[2..] == body + rest && p[2..|body| + 2] == body;
  }

  /** A CSI sequence behind plain bytes is handed to the replier whole, and the scan goes on behind it. */
  lemma QueryAnswered(answer: Replier, plain: seq<byte>, inner: seq<byte>, final: byte, rest: seq<byte>)
    requires ESC !in plain && Inner(inner) && IsFinal(final)
    ensures var later := Scan(answer, rest);
            Scan(answer, plain + ([ESC, BRACKET] + (inner + [final] + rest)))
            == Scanned(CsiEvents(answer, inner + [final]) + later.events, later.left)
  {
    var body := inner + [final];
    var p := [ESC, BRACKET] + (body + rest);
    PlainSkipped(answer, plain, p);
    CsiWhole(inner, final, rest);
    CsiFront(answer, body, rest, p);
    ScanFront(answer, p, |body| + 2, CsiEvents(answer, body), rest);
  }

  lemma OscFront(answer: Replier, body: seq<byte>, rest: seq<byte>, p: seq<byte>)
    requires p == [ESC, CLOSE_BRACKET] + (body + rest) && OscEnd(body + rest) == Complete(|body|)
    ensures Front(answer, p) == Take(|body| + 2, ColorEvents(body)) && p[|body| + 2..] == rest
  {
    assert p[2..] == body + rest && p[2..|body| + 2] == body;
  }

  /** Bytes that neither end nor break an OSC. */
  predicate OscInner(s: seq<byte>) {
    forall i :: 0 <= i < |s| ==> !Stops(Osc, s[i])
  }

  lemma OscWhole(body: seq<byte>, rest: seq<byte>)
    requires OscInner(body) && rest != [] && rest[0] == BEL
    ensures OscEnd(body + rest) == Complete(|body|)
  {
    FirstAppend(body, rest, Osc);
    assert First(body, Osc, 0) == |body| && First(rest, Osc, 0) == 0;
    assert (body + rest)[|body|] == BEL;
  }

  /** A colour query ended by BEL behind plain bytes is recognized by its body alone. */
  lemma ColorQueryAnswered(answer: Replier, plain: seq<byte>, body: seq<byte>, rest: seq<byte>)
    requires ESC !in plain && OscInner(body)
    ensures var later := Scan(answer, rest);
            Scan(answer, plain + ([ESC, CLOSE_BRACKET] + (body + ([BEL] + rest))))
            == Scanned(ColorEvents(body) + later.events, later.left)
  {
    var p := [ESC, CLOSE_BRACKET] + (body + ([BEL] + rest));
    PlainSkipped(answer, plain, p);
    OscWhole(body, [BEL] + rest);
    OscFront(answer, body, [BEL] + rest, p);
    ScanFront(answer, p, |body| + 2, ColorEvents(body), [BEL] + rest);
    PlainSkipped(answer, [BEL], rest);
  }

  const ZEROS: seq<byte> := Repeat(0x30, CSI_LIMIT)

  lemma LongZeros()
    ensures Inner(ZEROS) && CsiEnd(ZEROS).Incomplete?
    ensures LongCsi([ESC, BRACKET] + ZEROS) && ([ESC, BRACKET] + ZEROS)[2..] == ZEROS
  {
  }

  /**
    A device-attributes query padded beyond the cap is answered when it arrives
    whole and not when its last byte comes later.
   */
  lemma LongQueryCanBeLost(rows: nat, cols: nat)
    ensures var a := [ESC, BRACKET] + ZEROS;
            && Scan(Answering(rows, cols), a + [0x63]).events == [Fixed(DEVICE_PRIMARY)]
            && FeedAll(Answering(rows, cols), [a, [0x63]]).events == []
  {
    LongZeros();
    PaddedReply(rows, cols);
    PaddedQuery(Answering(rows, cols), [ESC, BRACKET] + ZEROS, [Fixed(DEVICE_PRIMARY)]);
  }

  lemma PaddedQuery(answer: Replier, a: seq<byte>, events: seq<Event>)
    requires LongCsi(a) && a[2..] == ZEROS && CsiEvents(answer, (ZEROS + [0x63])[..|ZEROS| + 1]) == events
    ensures Scan(answer, a + [0x63]).events == events
    ensures FeedAll(answer, [a, [0x63]]).events == []
  {
    PlainAlone(answer, [0x63]);
    PaddedUnanswered(answer, a, [0x63]);
    assert CsiEnd([0x63]) == Complete(0);
    LongCsiDone(answer, a, ZEROS, [0x63], 0);
  }

  lemma PaddedUnanswered(answer: Replier, a: seq<byte>, b: seq<byte>)
    requires LongCsi(a) && Scan(answer, b) == Scanned([], [])
    ensures FeedAll(answer, [a, b]).events == []
  {
    ScanStop(answer, a, false);
    assert [] + b == b;
    FeedTwo(answer, a, b, Scanned([], []), Scanned([], []));
  }

  lemma PaddedReply(rows: nat, cols: nat)
    ensures CsiEvents(Answering(rows, cols), (ZEROS + [0x63])[..|ZEROS| + 1]) == [Fixed(DEVICE_PRIMARY)]
  {
    var sequence: seq<byte> := ZEROS + [0x63];
    assert sequence[..|ZEROS| + 1] == sequence && sequence[..|ZEROS|] == ZEROS;
  }
}
