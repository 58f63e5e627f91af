/**
  Which sequences are queries and what is answered to them, read back from the
  replies, and the replies to any transcript of whole sequences.
 */
module QueryAnswers {
  import opened Basics
  import opened QueryScan
  import opened QueryReplies

  const STATUS_QUERY: seq<byte> := [0x35, 0x6e]        // 5n
  const POSITION_QUERY: seq<byte> := [0x36, 0x6e]      // 6n
  const KEYBOARD_QUERY: seq<byte> := [0x3f, 0x75]      // ?u
  const WINDOW_QUERY: seq<byte> := [0x31, 0x34, 0x74]  // 14t
  const PIXELS_QUERY: seq<byte> := [0x31, 0x36, 0x74]  // 16t
  const CELLS_QUERY: seq<byte> := [0x31, 0x38, 0x74]   // 18t
  const MODE_END: seq<byte> := [0x24, 0x70]            // $p

  predicate IsAttributesQuery(sequence: seq<byte>) {
    sequence != [] && sequence[|sequence| - 1] == 0x63 // c
  }

  /** ? Ps $ p */
  predicate AsksMode(sequence: seq<byte>) {
    var n := |sequence|;
    n >= 3 && sequence[0] == 0x3f && sequence[n - 2..] == MODE_END
  }

  /** The CSI sequences, given without their ESC [, that are answered. */
  predicate IsQuery(sequence: seq<byte>) {
    || sequence in {STATUS_QUERY, POSITION_QUERY, KEYBOARD_QUERY, WINDOW_QUERY, PIXELS_QUERY, CELLS_QUERY}
    || IsAttributesQuery(sequence) || AsksMode(sequence)
  }

  /** What each of them is to be told. */
  ghost predicate Tells(rows: nat, cols: nat, sequence: seq<byte>, reply: seq<byte>)
    requires IsQuery(sequence)
  {
    && (sequence == STATUS_QUERY ==> Says(reply, [], [0], [0x6e]))
    && (sequence == POSITION_QUERY ==> Says(reply, [], [1, 1], [0x52]))
    && (sequence == KEYBOARD_QUERY ==> reply == [ESC, BRACKET] + sequence)
    && (sequence == WINDOW_QUERY ==> Says(reply, [], [4, rows, cols], [0x74]))
    && (sequence == PIXELS_QUERY ==> Says(reply, [], [4, rows * 24, cols * 8], [0x74]))
    && (sequence == CELLS_QUERY ==> Says(reply, [], [8, rows, cols], [0x74]))
    && (IsAttributesQuery(sequence) ==>
          if sequence[0] == 0x3e then Says(reply, [0x3e], [0, 0, 0], [0x63]) else Says(reply, [0x3f], [62, 0], [0x63]))
    && (AsksMode(sequence) ==> TellsMode(sequence, reply))
  }

  /** The mode asked for, in the query's own bytes, and 1: set. */
  ghost predicate TellsMode(sequence: seq<byte>, reply: seq<byte>)
    requires AsksMode(sequence)
  {
    var mode := sequence[1..|sequence| - 2];
    && Says(reply, [0x3f] + mode, [0, 1], [0x24, 0x79])
    && (Numeric(mode) ==> Says(reply, [0x3f], Parameters(mode, 0) + [1], [0x24, 0x79]))
  }

  // ------------------------------------------------------------ the fixed replies

  lemma OneNumber(digit: nat)
    requires digit < 10
    ensures Numeric([48 + digit]) && Parameters([48 + digit], 0) == [digit]
  {
    ReadLast(digit);
  }

  lemma TwoNumbers(first: nat, second: nat)
    requires first < 10 && second < 10
    ensures Numeric([48 + first, SEMICOLON, 48 + second])
    ensures Parameters([48 + first, SEMICOLON, 48 + second], 0) == [first, second]
  {
    OneNumber(second);
    ReadNext(first, [48 + second]);
    assert Decimal(first) + ([SEMICOLON] + [48 + second]) == [48 + first, SEMICOLON, 48 + second];
  }

  lemma ThreeZeros()
    ensures Numeric([0x30, 0x3b, 0x30, 0x3b, 0x30]) && Parameters([0x30, 0x3b, 0x30, 0x3b, 0x30], 0) == [0, 0, 0]
  {
    TwoNumbers(0, 0);
    ReadNext(0, [0x30, 0x3b, 0x30]);
    assert Decimal(0) + ([SEMICOLON] + [0x30, 0x3b, 0x30]) == [0x30, 0x3b, 0x30, 0x3b, 0x30];
  }

  lemma SixtyTwo()
    ensures Numeric([0x36, 0x32, 0x3b]) && Parameters([0x36, 0x32, 0x3b], 0) == [62, 0]
  {
    var rest: seq<byte> := [];
    ReadNext(62, rest);
    assert Decimal(62) == [0x36, 0x32];
    assert Decimal(62) + ([SEMICOLON] + rest) == [0x36, 0x32, 0x3b];
  }

  lemma StatusSays()
    ensures Says(STATUS_FINE, [], [0], [0x6e]) && Says(CURSOR_HOME, [], [1, 1], [0x52])
  {
    OneNumber(0);
    SaysIt(STATUS_FINE, [], [0x30], [0x6e]);
    TwoNumbers(1, 1);
    SaysIt(CURSOR_HOME, [], [0x31, SEMICOLON, 0x31], [0x52]);
  }

  lemma AttributesSay()
    ensures Says(DEVICE_SECONDARY, [0x3e], [0, 0, 0], [0x63]) && Says(DEVICE_PRIMARY, [0x3f], [62, 0], [0x63])
  {
    ThreeZeros();
    SaysIt(DEVICE_SECONDARY, [0x3e], [0x30, 0x3b, 0x30, 0x3b, 0x30], [0x63]);
    SixtyTwo();
    SaysIt(DEVICE_PRIMARY, [0x3f], [0x36, 0x32, 0x3b], [0x63]);
  }

  // --------------------------------------------------------------- the mode reply

  /** A number more at the end of a list. */
  lemma {:induction false} ListedOne(list: seq<byte>, value: nat)
    requires Numeric(list)
    ensures Numeric(list + [SEMICOLON, 0x31])
    ensures Parameters(list + [SEMICOLON, 0x31], value) == Parameters(list, value) + [1]
  {
    var more: seq<byte> := [SEMICOLON, 0x31];
    if list == [] {
      assert list + more == more && more[1..] == [0x31];
      OneNumber(1);
    } else {
      assert (list + more)[1..] == list[1..] + more;
      ListedOne(list[1..], if list[0] == SEMICOLON then 0 else value * 10 + Digit(list[0]));
    }
  }

  lemma ModeSays(sequence: seq<byte>, mode: seq<byte>)
    requires AsksMode(sequence) && mode == sequence[1..|sequence| - 2]
    ensures TellsMode(sequence, MODE_HEAD + mode + MODE_TAIL)
  {
    var reply := MODE_HEAD + mode + MODE_TAIL;
    var none: seq<byte> := [];
    ListedOne(none, 0);
    assert none + [SEMICOLON, 0x31] == [SEMICOLON, 0x31];
    SaysIt(reply, [0x3f] + mode, [SEMICOLON, 0x31], [0x24, 0x79]);
    if Numeric(mode) {
      ListedOne(mode, 0);
      SaysIt(reply, [0x3f], mode + [SEMICOLON, 0x31], [0x24, 0x79]);
    }
  }

  lemma ModeReply(rows: nat, cols: nat, sequence: seq<byte>)
    requires sequence != []
    ensures AsksMode(sequence) ==>
              CsiReply(rows, cols, sequence) == MODE_HEAD + sequence[1..|sequence| - 2] + MODE_TAIL
    ensures sequence[|sequence| - 1] == 0x70 && !AsksMode(sequence) ==> CsiReply(rows, cols, sequence) == []
  {
    var n := |sequence|;
    var params := sequence[..n - 1];
    if n >= 3 {
      assert params[1..|params| - 1] == sequence[1..n - 2];
      assert sequence[n - 2..] == [sequence[n - 2], sequence[n - 1]];
    }
  }

  // ------------------------------------------------------------------ the theorem

  lemma WindowTells(rows: nat, cols: nat)
    ensures Tells(rows, cols, WINDOW_QUERY, CsiReply(rows, cols, WINDOW_QUERY))
  {
    ReportReads(4, rows, cols);
  }

  lemma PixelsTell(rows: nat, cols: nat)
    ensures Tells(rows, cols, PIXELS_QUERY, CsiReply(rows, cols, PIXELS_QUERY))
  {
    ReportReads(4, rows * 24, cols * 8);
  }

  lemma CellsTell(rows: nat, cols: nat)
    ensures Tells(rows, cols, CELLS_QUERY, CsiReply(rows, cols, CELLS_QUERY))
  {
    ReportReads(8, rows, cols);
  }

  lemma FixedTells(rows: nat, cols: nat, sequence: seq<byte>)
    requires sequence in {STATUS_QUERY, POSITION_QUERY, KEYBOARD_QUERY} || IsAttributesQuery(sequence)
    ensures Tells(rows, cols, sequence, CsiReply(rows, cols, sequence))
  {
    StatusSays();
    AttributesSay();
    if IsAttributesQuery(sequence) && |sequence| > 1 {
      assert sequence[..|sequence| - 1][0] == sequence[0];
    }
  }

  lemma Unanswered(rows: nat, cols: nat, sequence: seq<byte>)
    requires sequence != [] && !IsQuery(sequence)
    ensures CsiReply(rows, cols, sequence) == []
  {
    ModeReply(rows, cols, sequence);
    TwoBytes(sequence, 0x35, 0x6e);
    TwoBytes(sequence, 0x36, 0x6e);
    TwoBytes(sequence, 0x3f, 0x75);
    ThreeBytes(sequence, 0x31, 0x34, 0x74);
    ThreeBytes(sequence, 0x31, 0x36, 0x74);
    ThreeBytes(sequence, 0x31, 0x38, 0x74);
  }

  lemma TwoBytes(sequence: seq<byte>, x: byte, final: byte)
    requires sequence != []
    ensures IsOne(sequence[..|sequence| - 1], x) && sequence[|sequence| - 1] == final <==> sequence == [x, final]
  {
    assert |sequence| == 2 ==> sequence == [sequence[0], sequence[1]];
  }

  lemma ThreeBytes(sequence: seq<byte>, x: byte, y: byte, final: byte)
    requires sequence != []
    ensures IsTwo(sequence[..|sequence| - 1], x, y) && sequence[|sequence| - 1] == final <==> sequence == [x, y, final]
  {
    assert |sequence| == 3 ==> sequence == [sequence[0], sequence[1], sequence[2]];
  }

  /** Every query is told what it asks for, and nothing else is answered. */
  lemma ReplyTells(rows: nat, cols: nat, sequence: seq<byte>)
    requires sequence != []
    ensures CsiReply(rows, cols, sequence) != [] <==> IsQuery(sequence)
    ensures IsQuery(sequence) ==> Tells(rows, cols, sequence, CsiReply(rows, cols, sequence))
  {
    if !IsQuery(sequence) {
      Unanswered(rows, cols, sequence);
    } else if AsksMode(sequence) {
      ModeReply(rows, cols, sequence);
      ModeSays(sequence, sequence[1..|sequence| - 2]);
    } else if sequence == WINDOW_QUERY {
      WindowTells(rows, cols);
    } else if sequence == PIXELS_QUERY {
      PixelsTell(rows, cols);
    } else if sequence == CELLS_QUERY {
      CellsTell(rows, cols);
    } else {
      FixedTells(rows, cols, sequence);
    }
  }

  // --------------------------------------------------------------- whole transcripts

  /** What a child writes: text without escapes, a whole CSI, or a whole OSC ended by BEL or by ESC and a backslash. */
  datatype Item = Text(text: seq<byte>) | Control(inner: seq<byte>, final: byte) | Command(body: seq<byte>, bel: bool)

  predicate Whole(item: Item) {
    match item
    case Text(text) => ESC !in text
    case Control(inner, final) =>
      0x40 <= final <= 0x7e && forall i :: 0 <= i < |inner| ==> 0x20 <= inner[i] < 0x40 || inner[i] >= 0x80
    case Command(body, _) => forall i :: 0 <= i < |body| ==> body[i] >= 0x20
  }

  function Written(item: Item): seq<byte> {
    match item
    case Text(text) => text
    case Control(inner, final) => [ESC, 0x5b] + (inner + [final])
    case Command(body, bel) => [ESC, 0x5d] + (body + if bel then [BEL] else [ESC, BACKSLASH])
  }

  /** The OSC number that asks for a colour. */
  function ColorNumber(kind: Kind): nat {
    match kind
    case Foreground => 10
    case Background => 11
  }

  function ColorQuery(kind: Kind): seq<byte> {
    Decimal(ColorNumber(kind)) + [SEMICOLON, 0x3f]
  }

  /** These replies, and no others, are owed for the item. */
  ghost predicate Owed(rows: nat, cols: nat, item: Item, events: seq<Event>) {
    match item
    case Text(_) => events == []
    case Control(inner, final) =>
      if IsQuery(inner + [final]) then
        |events| == 1 && events[0].Fixed? && Tells(rows, cols, inner + [final], events[0].reply)
      else events == []
    case Command(body, _) =>
      && |events| <= 1
      && (forall kind: Kind :: events == [Color(kind)] <==> body == ColorQuery(kind))
      && (events != [] ==> events[0].Color?)
  }

  ghost function Transcript(items: seq<Item>): seq<byte> {
    if items == [] then [] else Written(items[0]) + Transcript(items[1..])
  }

  lemma ColorOwed(rows: nat, cols: nat, body: seq<byte>, bel: bool)
    ensures Owed(rows, cols, Command(body, bel), ColorEvents(body))
  {
    assert Decimal(10) == [0x31, 0x30] && Decimal(11) == [0x31, 0x31];
    assert ColorQuery(Foreground) == FOREGROUND && ColorQuery(Background) == BACKGROUND;
    assert FOREGROUND[1] != BACKGROUND[1];
  }

  lemma ControlOwed(rows: nat, cols: nat, inner: seq<byte>, final: byte)
    ensures Owed(rows, cols, Control(inner, final), CsiEvents(Answering(rows, cols), inner + [final]))
  {
    ReplyTells(rows, cols, inner + [final]);
  }

  lemma StringWhole(body: seq<byte>, tail: seq<byte>)
    requires OscInner(body) && |tail| >= 2 && tail[0] == ESC && tail[1] == BACKSLASH
    ensures OscEnd(body + tail) == Complete(|body|)
  {
    FirstAppend(body, tail, Osc);
    assert First(body, Osc, 0) == |body| && First(tail, Osc, 0) == 0;
    assert (body + tail)[|body|] == ESC && (body + tail)[|body| + 1] == BACKSLASH;
  }

  /** The terminator itself is passed over. */
  lemma TerminatorSkipped(answer: Replier, rest: seq<byte>, tail: seq<byte>)
    requires tail == [ESC, BACKSLASH] + rest
    ensures Scan(answer, tail) == Scan(answer, rest)
  {
    assert tail[1..] == [BACKSLASH] + rest;
    ScanFront(answer, tail, 1, [], [BACKSLASH] + rest);
    PlainSkipped(answer, [BACKSLASH], rest);
    assert [] + Scan(answer, rest).events == Scan(answer, rest).events;
  }

  /** A colour query ended by ESC and a backslash, like one ended by BEL. */
  lemma StringEnded(answer: Replier, body: seq<byte>, rest: seq<byte>, tail: seq<byte>, p: seq<byte>)
    requires OscInner(body) && tail == [ESC, BACKSLASH] + rest && p == [ESC, CLOSE_BRACKET] + (body + tail)
    ensures ScansTo(answer, p, ColorEvents(body), rest)
  {
    StringWhole(body, tail);
    OscFront(answer, body, tail, p);
    ScanFront(answer, p, |body| + 2, ColorEvents(body), tail);
    TerminatorSkipped(answer, rest, tail);
  }

  /** The scan of p finds these events and goes on with the rest. */
  ghost predicate ScansTo(answer: Replier, p: seq<byte>, events: seq<Event>, rest: seq<byte>) {
    Scan(answer, p) == Scanned(events + Scan(answer, rest).events, Scan(answer, rest).left)
  }

  lemma TextScanned(answer: Replier, text: seq<byte>, rest: seq<byte>)
    requires ESC !in text
    ensures ScansTo(answer, text + rest, [], rest)
  {
    PlainSkipped(answer, text, rest);
    assert [] + Scan(answer, rest).events == Scan(answer, rest).events;
  }

  lemma ControlScanned(answer: Replier, inner: seq<byte>, final: byte, rest: seq<byte>)
    requires Whole(Control(inner, final))
    ensures ScansTo(answer, Written(Control(inner, final)) + rest, CsiEvents(answer, inner + [final]), rest)
  {
    var none: seq<byte> := [];
    QueryAnswered(answer, none, inner, final, rest);
    assert Written(Control(inner, final)) + rest == none + ([ESC, BRACKET] + (inner + [final] + rest));
  }

  lemma BelScanned(answer: Replier, body: seq<byte>, rest: seq<byte>, p: seq<byte>)
    requires OscInner(body) && p == [ESC, CLOSE_BRACKET] + (body + ([BEL] + rest))
    ensures ScansTo(answer, p, ColorEvents(body), rest)
  {
    var none: seq<byte> := [];
    assert none + p == p;
    ColorQueryAnswered(answer, none, body, rest);
  }

  lemma CommandWritten(body: seq<byte>, bel: bool, rest: seq<byte>)
    ensures Written(Command(body, bel)) + rest
            == [ESC, CLOSE_BRACKET] + (body + ((if bel then [BEL] else [ESC, BACKSLASH]) + rest))
  {
  }

  lemma CommandScanned(answer: Replier, body: seq<byte>, bel: bool, rest: seq<byte>)
    requires Whole(Command(body, bel))
    ensures ScansTo(answer, Written(Command(body, bel)) + rest, ColorEvents(body), rest)
  {
    CommandWritten(body, bel, rest);
    assert OscInner(body);
    if bel {
      BelScanned(answer, body, rest, Written(Command(body, bel)) + rest);
    } else {
      StringEnded(answer, body, rest, [ESC, BACKSLASH] + rest, Written(Command(body, bel)) + rest);
    }
  }

  lemma ItemScanned(rows: nat, cols: nat, item: Item, rest: seq<byte>) returns (events: seq<Event>)
    requires Whole(item)
    ensures Owed(rows, cols, item, events) && ScansTo(Answering(rows, cols), Written(item) + rest, events, rest)
  {
    match item
    case Text(text) =>
      events := [];
      TextScanned(Answering(rows, cols), text, rest);
    case Control(inner, final) =>
      events := CsiEvents(Answering(rows, cols), inner + [final]);
      ControlOwed(rows, cols, inner, final);
      ControlScanned(Answering(rows, cols), inner, final, rest);
    case Command(body, bel) =>
      events := ColorEvents(body);
      ColorOwed(rows, cols, body, bel);
      CommandScanned(Answering(rows, cols), body, bel, rest);
  }

  /** The replies to a transcript are what is owed for each of its items, in order, and nothing is left pending. */
  lemma {:induction false} TranscriptAnswered(rows: nat, cols: nat, items: seq<Item>) returns (owed: seq<seq<Event>>)
    requires forall i :: 0 <= i < |items| ==> Whole(items[i])
    ensures |owed| == |items| && forall i :: 0 <= i < |items| ==> Owed(rows, cols, items[i], owed[i])
    ensures Scan(Answering(rows, cols), Transcript(items)) == Scanned(Concat(owed), [])
  {
    if items == [] {
      owed := [];
    } else {
      var later := TranscriptAnswered(rows, cols, items[1..]);
      var first := ItemScanned(rows, cols, items[0], Transcript(items[1..]));
      owed := [first] + later;
      assert owed[1..] == later;
    }
  }

  /** An escape that begins nothing is dropped, and the bytes up to what follows are plain. */
  lemma EscapeDropped(answer: Replier, mark: byte, inner: seq<byte>, later: seq<byte>, p: seq<byte>)
    requires p == [ESC, mark] + (inner + later) && mark != ESC && ESC !in inner && Front(answer, p) == Take(1, [])
    ensures Scan(answer, p) == Scan(answer, later)
  {
    assert p[1..] == ([mark] + inner) + later;
    ScanFront(answer, p, 1, [], ([mark] + inner) + later);
    PlainSkipped(answer, [mark] + inner, later);
    assert [] + Scan(answer, later).events == Scan(answer, later).events;
  }

  lemma ControlBreaks(inner: seq<byte>, later: seq<byte>)
    requires Inner(inner) && later != [] && (later[0] < 0x20 || later[0] == 0x7f)
    ensures CsiEnd(inner + later) == Broken(|inner|)
  {
    FirstAppend(inner, later, Csi);
    assert First(inner, Csi, 0) == |inner| && First(later, Csi, 0) == 0;
    assert (inner + later)[|inner|] == later[0];
  }

  /** A CSI that a control byte or DEL breaks off is not answered; the scan goes on at that byte. */
  lemma BrokenControl(answer: Replier, inner: seq<byte>, later: seq<byte>)
    requires forall i :: 0 <= i < |inner| ==> 0x20 <= inner[i] < 0x40 || inner[i] >= 0x80
    requires later != [] && (later[0] < 0x20 || later[0] == 0x7f)
    ensures Scan(answer, [ESC, 0x5b] + (inner + later)) == Scan(answer, later)
  {
    var p := [ESC, 0x5b] + (inner + later);
    ControlBreaks(inner, later);
    assert p[2..] == inner + later;
    EscapeDropped(answer, 0x5b, inner, later, p);
  }

  lemma CommandBreaks(body: seq<byte>, later: seq<byte>)
    requires OscInner(body) && later != [] && later[0] < 0x20 && later[0] != BEL
    requires later[0] == ESC ==> |later| == 1 || later[1] != BACKSLASH
    ensures OscEnd(body + later) == Broken(|body|)
  {
    FirstAppend(body, later, Osc);
    assert First(body, Osc, 0) == |body| && First(later, Osc, 0) == 0;
    assert (body + later)[|body|] == later[0];
    assert |later| > 1 ==> (body + later)[|body| + 1] == later[1];
  }

  /** So is an OSC that a control byte other than BEL, or an escape without its backslash, breaks off. */
  lemma BrokenCommand(answer: Replier, body: seq<byte>, later: seq<byte>)
    requires forall i :: 0 <= i < |body| ==> body[i] >= 0x20
    requires later != [] && later[0] < 0x20 && later[0] != BEL
    requires later[0] == ESC ==> |later| == 1 || later[1] != BACKSLASH
    ensures Scan(answer, [ESC, 0x5d] + (body + later)) == Scan(answer, later)
  {
    var p := [ESC, 0x5d] + (body + later);
    CommandBreaks(body, later);
    assert p[2..] == body + later;
    EscapeDropped(answer, 0x5d, body, later, p);
  }

  /** What may yet become a query stays pending, up to the cap of its kind. */
  lemma UnfinishedKept(answer: Replier, inner: seq<byte>)
    requires forall i :: 0 <= i < |inner| ==> 0x20 <= inner[i] < 0x40 || inner[i] >= 0x80
    ensures var p := [ESC, 0x5b] + inner;
            Scan(answer, p) == Scanned([], if |p| <= 256 then p else [])
  {
    assert ([ESC, BRACKET] + inner)[2..] == inner;
  }

  lemma UnfinishedCommandKept(answer: Replier, body: seq<byte>)
    requires forall i :: 0 <= i < |body| ==> body[i] >= 0x20
    ensures var p := [ESC, 0x5d] + body;
            Scan(answer, p) == Scanned([], if |p| <= 4096 then p else [])
  {
    assert ([ESC, CLOSE_BRACKET] + body)[2..] == body;
  }
}
