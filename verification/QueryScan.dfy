/**
  The terminal-query scan as a function of the bytes it sees, and what cutting
  those bytes into chunks changes: nothing, except for one reply in two cases.
 */
module QueryScan {
  import opened Basics

  const BRACKET: byte := 0x5b        // [
  const CLOSE_BRACKET: byte := 0x5d  // ]
  const CSI_LIMIT := 256
  const OSC_LIMIT := 4096

  datatype Kind = Foreground | Background

  /** A reply owed: fixed bytes, or a colour to be looked up. */
  datatype Event = Fixed(reply: seq<byte>) | Color(kind: Kind)

  /** What is answered to a CSI sequence given without its ESC [; empty when it is no query. */
  datatype Replier = Replier(to: seq<byte> -> seq<byte>)

  // ------------------------------------------------------------------ finding ends

  datatype Sequence = Csi | Osc

  predicate IsFinal(b: byte) {
    0x40 <= b <= 0x7e
  }

  /** A byte that ends the search for the end of a sequence: a CSI's final byte or any byte that breaks the sequence. */
  predicate Stops(kind: Sequence, b: byte) {
    b < 0x20 || (kind.Csi? && (IsFinal(b) || b == 0x7f))
  }

  /** The least index from i on whose byte ends the search, or the length. */
  function First(body: seq<byte>, kind: Sequence, i: nat): (f: nat)
    requires i <= |body|
    ensures i <= f <= |body| && (f < |body| ==> Stops(kind, body[f]))
    ensures forall j :: i <= j < f ==> !Stops(kind, body[j])
    decreases |body| - i
  {
    if i == |body| || Stops(kind, body[i]) then i else First(body, kind, i + 1)
  }

  datatype Find = Complete(index: nat) | Broken(index: nat) | Incomplete

  function CsiEnd(body: seq<byte>): Find {
    var f := First(body, Csi, 0);
    if f == |body| then Incomplete else if IsFinal(body[f]) then Complete(f) else Broken(f)
  }

  function OscEnd(body: seq<byte>): Find {
    var f := First(body, Osc, 0);
    if f == |body| then Incomplete
    else if body[f] == BEL || (body[f] == ESC && f + 1 < |body| && body[f + 1] == BACKSLASH) then Complete(f)
    else Broken(f)
  }

  // ---------------------------------------------------------------------- replies

  function CsiEvents(answer: Replier, sequence: seq<byte>): seq<Event> {
    var reply := answer.to(sequence);
    if reply == [] then [] else [Fixed(reply)]
  }

  const FOREGROUND: seq<byte> := [0x31, 0x30, 0x3b, 0x3f] // 10;?
  const BACKGROUND: seq<byte> := [0x31, 0x31, 0x3b, 0x3f] // 11;?

  function ColorEvents(sequence: seq<byte>): seq<Event> {
    if sequence == FOREGROUND then [Color(Foreground)]
    else if sequence == BACKGROUND then [Color(Background)]
    else []
  }

  // ------------------------------------------------------------------------- scan

  /** What the scan does at the front of what is pending: consume n bytes, or stop and keep or drop the rest. */
  datatype Move = Take(n: nat, events: seq<Event>) | Stop(keep: bool)

  /** At ESC [. */
  function FrontCsi(answer: Replier, p: seq<byte>): (m: Move)
    requires |p| >= 2 && p[0] == ESC && p[1] == BRACKET
    ensures m.Take? ==> 0 < m.n <= |p| && forall j :: 0 < j < m.n ==> p[j] != ESC
    ensures m.Stop? ==> forall j :: 0 < j < |p| ==> p[j] != ESC
  {
    assert forall j :: 2 <= j < |p| ==> p[j] == p[2..][j - 2];
    match CsiEnd(p[2..])
    case Complete(f) => Take(f + 3, CsiEvents(answer, p[2..f + 3]))
    case Broken(_) => Take(1, [])
    case Incomplete => Stop(|p| <= CSI_LIMIT)
  }

  /** At ESC ]. */
  function FrontOsc(p: seq<byte>): (m: Move)
    requires |p| >= 2 && p[0] == ESC && p[1] == CLOSE_BRACKET
    ensures m.Take? ==> 0 < m.n <= |p| && forall j :: 0 < j < m.n ==> p[j] != ESC
    ensures m.Stop? ==> forall j :: 0 < j < |p| ==> p[j] != ESC
  {
    assert forall j :: 2 <= j < |p| ==> p[j] == p[2..][j - 2];
    match OscEnd(p[2..])
    case Complete(f) => Take(f + 2, ColorEvents(p[2..f + 2]))
    case Broken(_) => Take(1, [])
    case Incomplete => Stop(|p| <= OSC_LIMIT)
  }

  function Front(answer: Replier, p: seq<byte>): (m: Move)
    requires p != []
    ensures m.Take? ==> 0 < m.n <= |p| && forall j :: 0 < j < m.n ==> p[j] != ESC
    ensures m.Stop? ==> p[0] == ESC && forall j :: 0 < j < |p| ==> p[j] != ESC
  {
    if p[0] != ESC then Take(1, [])
    else if |p| < 2 then Stop(true)
    else if p[1] == BRACKET then FrontCsi(answer, p)
    else if p[1] == CLOSE_BRACKET then FrontOsc(p)
    else Take(1, [])
  }

  datatype Scanned = Scanned(events: seq<Event>, left: seq<byte>)

  function Scan(answer: Replier, p: seq<byte>): Scanned
    decreases |p|
  {
    if p == [] then Scanned([], [])
    else
      match Front(answer, p)
      case Take(n, events) =>
        var rest := Scan(answer, p[n..]);
        Scanned(events + rest.events, rest.left)
      case Stop(keep) => Scanned([], if keep then p else [])
  }

  /** The leftover is a suffix of what was scanned and stays within the cap. */
  lemma {:induction false} LeftoverBounded(answer: Replier, p: seq<byte>)
    ensures |Scan(answer, p).left| <= OSC_LIMIT
    ensures EndsWith(p, Scan(answer, p).left)
    decreases |p|
  {
    if p != [] && Front(answer, p).Take? {
      LeftoverBounded(answer, p[Front(answer, p).n..]);
    }
  }

  // ----------------------------------------------------------- the effect of a cut

  predicate EndsWith(a: seq<byte>, tail: seq<byte>) {
    |tail| <= |a| && a[|a| - |tail|..] == tail
  }

  /** The OSC with this body, cut in the middle of its two-byte terminator. */
  function CutOsc(body: seq<byte>): seq<byte> {
    [ESC, CLOSE_BRACKET] + body + [ESC]
  }

  /** The index of the last escape of a, or its length. */
  function LastEsc(a: seq<byte>): (l: nat)
    ensures l <= |a| && (l < |a| ==> a[l] == ESC) && forall j :: 0 <= j < |a| && a[j] == ESC ==> j <= l < |a|
  {
    if a == [] then 0
    else if a[|a| - 1] == ESC then |a| - 1
    else
      var l := LastEsc(a[..|a| - 1]);
      if l == |a| - 1 then |a| else l
  }

  /** What follows the last escape of a, that escape included. */
  function FromLastEsc(a: seq<byte>): seq<byte> {
    a[LastEsc(a)..]
  }

  /** An unfinished CSI, too long to keep. */
  predicate LongCsi(p: seq<byte>) {
    |p| > CSI_LIMIT && p[0] == ESC && p[1] == BRACKET && CsiEnd(p[2..]).Incomplete?
  }

  /** The scan of a drops an unfinished CSI that b finishes. */
  predicate DropsCsi(a: seq<byte>, b: seq<byte>) {
    var p := FromLastEsc(a);
    LongCsi(p) && CsiEnd(p[2..] + b).Complete?
  }

  /** A colour query whose terminator is cut between ESC and backslash. */
  predicate CutsColorQuery(a: seq<byte>, b: seq<byte>) {
    b != [] && b[0] == BACKSLASH && (EndsWith(a, CutOsc(FOREGROUND)) || EndsWith(a, CutOsc(BACKGROUND)))
  }

  /** The reply that is lost when a and b arrive separately. */
  function Lost(answer: Replier, a: seq<byte>, b: seq<byte>): seq<Event> {
    if CutsColorQuery(a, b) then [Color(if EndsWith(a, CutOsc(FOREGROUND)) then Foreground else Background)]
    else if DropsCsi(a, b) then
      var body := FromLastEsc(a)[2..] + b;
      CsiEvents(answer, body[..CsiEnd(body).index + 1])
    else []
  }

  // -------------------------------------------------------------------- the proof

  /** Bytes without an escape are skipped. */
  lemma {:induction false} PlainSkipped(answer: Replier, x: seq<byte>, y: seq<byte>)
    requires forall j :: 0 <= j < |x| ==> x[j] != ESC
    ensures Scan(answer, x + y) == Scan(answer, y)
    decreases |x|
  {
    if x == [] {
      assert x + y == y;
    } else {
      assert (x + y)[1..] == x[1..] + y;
      PlainSkipped(answer, x[1..], y);
    }
  }

  lemma FirstIs(body: seq<byte>, kind: Sequence, f: nat)
    requires f <= |body| && (f < |body| ==> Stops(kind, body[f])) && forall j :: 0 <= j < f ==> !Stops(kind, body[j])
    ensures First(body, kind, 0) == f
  {
  }

  lemma FirstAppend(x: seq<byte>, y: seq<byte>, kind: Sequence)
    ensures First(x + y, kind, 0) == if First(x, kind, 0) < |x| then First(x, kind, 0) else |x| + First(y, kind, 0)
  {
    assert forall j :: 0 <= j < |x| ==> (x + y)[j] == x[j];
    if First(x, kind, 0) < |x| {
      FirstIs(x + y, kind, First(x, kind, 0));
    } else {
      assert forall j :: |x| <= j < |x + y| ==> (x + y)[j] == y[j - |x|];
      FirstIs(x + y, kind, |x| + First(y, kind, 0));
    }
  }

  lemma CsiAppend(x: seq<byte>, y: seq<byte>)
    ensures !CsiEnd(x).Incomplete? ==> CsiEnd(x + y) == CsiEnd(x)
    ensures CsiEnd(x).Incomplete? ==>
              match CsiEnd(y)
              case Complete(f) => CsiEnd(x + y) == Complete(|x| + f)
              case Broken(f) => CsiEnd(x + y) == Broken(|x| + f)
              case Incomplete => CsiEnd(x + y) == Incomplete
  {
    FirstAppend(x, y, Csi);
  }

  /** A sequence given up on its last byte, which is an escape. */
  predicate AtTrailingEsc(p: seq<byte>) {
    |p| >= 3 && p[0] == ESC && p[1] == CLOSE_BRACKET && First(p[2..], Osc, 0) == |p| - 3 && p[|p| - 1] == ESC
  }

  lemma OscAppend(x: seq<byte>, y: seq<byte>)
    requires !OscEnd(x).Incomplete?
    requires y != [] && y[0] == BACKSLASH ==> !(First(x, Osc, 0) == |x| - 1 && x[|x| - 1] == ESC)
    ensures OscEnd(x + y) == OscEnd(x)
  {
    FirstAppend(x, y, Osc);
    var f := First(x, Osc, 0);
    assert (x + y)[f] == x[f];
    if f + 1 < |x| {
      assert (x + y)[f + 1] == x[f + 1];
    } else if y != [] {
      assert (x + y)[f + 1] == y[0];
    }
  }

  lemma SliceAppend(p: seq<byte>, b: seq<byte>, n: nat)
    requires 2 <= n <= |p|
    ensures (p + b)[2..n] == p[2..n] && (p + b)[2..] == p[2..] + b
  {
  }

  lemma FrontCsiAppend(answer: Replier, p: seq<byte>, b: seq<byte>)
    requires |p| >= 2 && p[0] == ESC && p[1] == BRACKET && FrontCsi(answer, p).Take?
    ensures FrontCsi(answer, p + b) == FrontCsi(answer, p)
  {
    SliceAppend(p, b, 2);
    CsiAppend(p[2..], b);
    if CsiEnd(p[2..]).Complete? {
      SliceAppend(p, b, CsiEnd(p[2..]).index + 3);
    }
  }

  lemma FrontOscAppend(p: seq<byte>, b: seq<byte>)
    requires |p| >= 2 && p[0] == ESC && p[1] == CLOSE_BRACKET && FrontOsc(p).Take?
    requires AtTrailingEsc(p) ==> b == [] || b[0] != BACKSLASH
    ensures FrontOsc(p + b) == FrontOsc(p)
  {
    SliceAppend(p, b, 2);
    assert p[2..] != [] ==> p[2..][|p| - 3] == p[|p| - 1];
    OscAppend(p[2..], b);
    if OscEnd(p[2..]).Complete? {
      SliceAppend(p, b, OscEnd(p[2..]).index + 2);
    }
  }

  /** Whatever the scan consumes, more bytes do not change, except at a trailing escape. */
  lemma FrontAppend(answer: Replier, p: seq<byte>, b: seq<byte>)
    requires p != [] && Front(answer, p).Take?
    requires AtTrailingEsc(p) ==> b == [] || b[0] != BACKSLASH
    ensures Front(answer, p + b) == Front(answer, p)
  {
    if p[0] == ESC {
      if p[1] == BRACKET {
        FrontCsiAppend(answer, p, b);
      } else if p[1] == CLOSE_BRACKET {
        FrontOscAppend(p, b);
      }
    }
  }

  lemma CutOscTrails(body: seq<byte>)
    requires forall j :: 0 <= j < |body| ==> !Stops(Osc, body[j])
    ensures AtTrailingEsc(CutOsc(body)) && CutOsc(body)[2..|body| + 2] == body
  {
    var p := CutOsc(body);
    assert p[2..] == body + [ESC];
    FirstAppend(body, [ESC], Osc);
    assert First([ESC], Osc, 0) == 0;
  }

  lemma SuffixOfSuffix(a: seq<byte>, n: nat, rest: seq<byte>, tail: seq<byte>)
    requires n <= |a| && rest == a[n..] && |tail| <= |rest|
    ensures EndsWith(a, tail) <==> EndsWith(rest, tail)
  {
    assert a[|a| - |tail|..] == rest[|rest| - |tail|..];
  }

  /** The cut OSC at the end of a lies behind any token that starts a. */
  lemma CutOscLater(a: seq<byte>, n: nat, rest: seq<byte>, body: seq<byte>)
    requires 0 < n <= |a| && rest == a[n..] && (forall j :: 0 < j < n ==> a[j] != ESC) && !AtTrailingEsc(a)
    requires forall j :: 0 <= j < |body| ==> !Stops(Osc, body[j])
    ensures EndsWith(a, CutOsc(body)) <==> EndsWith(rest, CutOsc(body))
  {
    var tail := CutOsc(body);
    if |tail| <= |rest| {
      SuffixOfSuffix(a, n, rest, tail);
    } else if EndsWith(a, tail) {
      var k := |a| - |tail|;
      assert a[k] == a[k..][0] == ESC;
      assert a == a[0..];
      CutOscTrails(body);
    }
  }

  lemma LastEscLater(a: seq<byte>, n: nat, rest: seq<byte>)
    requires 0 < n <= |a| && rest == a[n..] && forall j :: 0 < j < n ==> a[j] != ESC
    ensures if LastEsc(rest) < |rest| then LastEsc(a) == n + LastEsc(rest) else LastEsc(a) == |a| || LastEsc(a) == 0
  {
    var l, m := LastEsc(a), LastEsc(rest);
    assert forall j :: n <= j < |a| ==> a[j] == rest[j - n];
    if m < |rest| {
      assert a[n + m] == ESC;
    }
  }

  /** What the scan takes is no CSI too long to keep. */
  lemma TakenNotLong(answer: Replier, a: seq<byte>)
    requires a != [] && a[0] == ESC && Front(answer, a).Take?
    ensures !LongCsi(a)
  {
  }

  lemma DropLater(answer: Replier, a: seq<byte>, n: nat, rest: seq<byte>)
    requires 0 < n <= |a| && rest == a[n..] && forall j :: 0 < j < n ==> a[j] != ESC
    requires a[0] == ESC ==> Front(answer, a).Take?
    ensures FromLastEsc(a) == FromLastEsc(rest) || (!LongCsi(FromLastEsc(a)) && !LongCsi(FromLastEsc(rest)))
  {
    LastEscLater(a, n, rest);
    if LastEsc(rest) < |rest| {
      assert a[n + LastEsc(rest)..] == rest[LastEsc(rest)..];
    } else if LastEsc(a) == 0 {
      assert a[0..] == a;
      TakenNotLong(answer, a);
    }
  }

  lemma ColorCutLater(a: seq<byte>, n: nat, rest: seq<byte>, b: seq<byte>)
    requires 0 < n <= |a| && rest == a[n..] && (forall j :: 0 < j < n ==> a[j] != ESC)
    requires AtTrailingEsc(a) ==> b == [] || b[0] != BACKSLASH
    ensures CutsColorQuery(a, b) <==> CutsColorQuery(rest, b)
    ensures CutsColorQuery(a, b) ==> (EndsWith(a, CutOsc(FOREGROUND)) <==> EndsWith(rest, CutOsc(FOREGROUND)))
  {
    if b != [] && b[0] == BACKSLASH {
      CutOscLater(a, n, rest, FOREGROUND);
      CutOscLater(a, n, rest, BACKGROUND);
    }
  }

  /** What came before the first byte of a token decides nothing about the cut. */
  lemma LostLater(answer: Replier, a: seq<byte>, n: nat, rest: seq<byte>, b: seq<byte>)
    requires 0 < n <= |a| && rest == a[n..] && forall j :: 0 < j < n ==> a[j] != ESC
    requires AtTrailingEsc(a) ==> b == [] || b[0] != BACKSLASH
    requires a[0] == ESC ==> Front(answer, a).Take?
    ensures Lost(answer, a, b) == Lost(answer, rest, b)
  {
    ColorCutLater(a, n, rest, b);
    DropLater(answer, a, n, rest);
  }

  /** An OSC given up at a trailing escape leaves just that escape. */
  lemma TrailingEscAlone(answer: Replier, a: seq<byte>)
    requires AtTrailingEsc(a)
    ensures Scan(answer, a) == Scanned([], [ESC])
  {
    var plain := a[1..|a| - 1];
    assert forall j :: 0 <= j < |a| - 3 ==> a[2..][j] == plain[j + 1];
    assert a[2..][|a| - 3] == ESC;
    assert Front(answer, a) == Take(1, []);
    assert a[1..] == plain + [ESC];
    PlainSkipped(answer, plain, [ESC]);
    assert Scan(answer, [ESC]) == Scanned([], [ESC]);
  }

  lemma TrailingEscFront(answer: Replier, a: seq<byte>, b: seq<byte>)
    requires AtTrailingEsc(a) && b != [] && b[0] == BACKSLASH
    ensures Front(answer, a + b) == Take(|a| - 1, ColorEvents(a[2..|a| - 1]))
    ensures (a + b)[|a| - 1..] == [ESC] + b
  {
    var body := a[2..|a| - 1];
    var all := a + b;
    assert forall j :: 0 <= j < |a| - 3 ==> a[2..][j] == body[j];
    assert all[2..] == body + ([ESC] + b);
    FirstAppend(body, [ESC] + b, Osc);
    assert First([ESC] + b, Osc, 0) == 0;
    assert OscEnd(all[2..]) == Complete(|a| - 3);
    assert all[2..|a| - 1] == body;
  }

  /** A colour query, or any other OSC, cut before the backslash of its terminator. */
  lemma TrailingEsc(answer: Replier, a: seq<byte>, b: seq<byte>)
    requires AtTrailingEsc(a) && b != [] && b[0] == BACKSLASH
    ensures Scan(answer, a) == Scanned([], [ESC])
    ensures var rest := Scan(answer, [ESC] + b);
            Scan(answer, a + b) == Scanned(ColorEvents(a[2..|a| - 1]) + rest.events, rest.left)
  {
    TrailingEscAlone(answer, a);
    TrailingEscFront(answer, a, b);
  }

  lemma TrailingEscLost(answer: Replier, a: seq<byte>, b: seq<byte>)
    requires AtTrailingEsc(a) && b != [] && b[0] == BACKSLASH
    ensures Lost(answer, a, b) == ColorEvents(a[2..|a| - 1])
  {
    var body := a[2..|a| - 1];
    assert forall j :: 0 <= j < |a| - 3 ==> a[2..][j] == a[2 + j] == body[j];
    assert a == CutOsc(body);
    OnlyThatOsc(a, body, FOREGROUND);
    OnlyThatOsc(a, body, BACKGROUND);
    assert LastEsc(a) == |a| - 1;
    assert !DropsCsi(a, b);
  }

  lemma OnlyThatOsc(a: seq<byte>, body: seq<byte>, other: seq<byte>)
    requires a == CutOsc(body)
    requires forall j :: 0 <= j < |body| ==> body[j] != ESC
    ensures EndsWith(a, CutOsc(other)) <==> body == other
  {
    if EndsWith(a, CutOsc(other)) {
      var k := |a| - |CutOsc(other)|;
      assert a[k..][0] == ESC && a[k] == ESC;
      assert k == |a| - 1 || k == 0;
      assert a[0..] == a;
      assert CutOsc(other)[2..|other| + 2] == other && a[2..|body| + 2] == body;
    }
  }

  // One step of the scan.

  lemma ScanFront(answer: Replier, p: seq<byte>, n: nat, events: seq<Event>, rest: seq<byte>)
    requires p != [] && Front(answer, p) == Take(n, events) && rest == p[n..]
    ensures Scan(answer, p) == Scanned(events + Scan(answer, rest).events, Scan(answer, rest).left)
  {
  }

  lemma ScanStop(answer: Replier, p: seq<byte>, keep: bool)
    requires p != [] && Front(answer, p) == Stop(keep)
    ensures Scan(answer, p) == Scanned([], if keep then p else [])
  {
  }

  /** A step that only moves on. */
  lemma ScanOn(answer: Replier, p: seq<byte>, n: nat, rest: seq<byte>)
    requires p != [] && Front(answer, p) == Take(n, []) && rest == p[n..]
    ensures Scan(answer, p) == Scan(answer, rest)
  {
    ScanFront(answer, p, n, [], rest);
    assert [] + Scan(answer, rest).events == Scan(answer, rest).events;
  }

  /** Bytes none of which is an escape leave nothing. */
  lemma PlainAlone(answer: Replier, x: seq<byte>)
    requires forall j :: 0 <= j < |x| ==> x[j] != ESC
    ensures Scan(answer, x) == Scanned([], [])
  {
    PlainSkipped(answer, x, []);
    assert x + [] == x;
  }

  /** The scan skips the first n bytes when none is an escape. */
  lemma PlainFirst(answer: Replier, x: seq<byte>, n: nat, rest: seq<byte>)
    requires n <= |x| && rest == x[n..] && forall j :: 0 <= j < n ==> x[j] != ESC
    ensures Scan(answer, x) == Scan(answer, rest)
  {
    PlainSkipped(answer, x[..n], rest);
    assert x[..n] + rest == x;
  }

  // A CSI too long to keep.

  lemma LongCsiFront(answer: Replier, a: seq<byte>, body: seq<byte>, b: seq<byte>, f: nat)
    requires LongCsi(a) && body == a[2..] && CsiEnd(b) == Complete(f)
    ensures CsiEnd(body + b) == Complete(|body| + f)
    ensures Front(answer, a + b) == Take(|a| + f + 1, CsiEvents(answer, (body + b)[..|body| + f + 1]))
  {
    SliceAppend(a, b, 2);
    CsiAppend(body, b);
    assert (a + b)[2..|a| + f + 1] == (body + b)[..|body| + f + 1];
  }

  /** Where b completes a CSI, its own scan skips the rest of that CSI. */
  lemma CompletionSkipped(answer: Replier, b: seq<byte>, f: nat, rest: seq<byte>)
    requires CsiEnd(b) == Complete(f) && rest == b[f + 1..]
    ensures Scan(answer, b) == Scan(answer, rest)
  {
    PlainFirst(answer, b, f + 1, rest);
  }

  lemma LongCsiScan(answer: Replier, all: seq<byte>, n: nat, events: seq<Event>, b: seq<byte>, f: nat, rest: seq<byte>)
    requires all != [] && Front(answer, all) == Take(n, events) && rest == all[n..]
    requires CsiEnd(b) == Complete(f) && rest == b[f + 1..]
    ensures Scan(answer, all) == Scanned(events + Scan(answer, b).events, Scan(answer, b).left)
  {
    ScanFront(answer, all, n, events, rest);
    CompletionSkipped(answer, b, f, rest);
  }

  lemma DropAppend(a: seq<byte>, b: seq<byte>, n: nat, rest: seq<byte>)
    requires n <= |a| && rest == a[n..]
    ensures (a + b)[n..] == rest + b
  {
  }

  lemma TailAppend(a: seq<byte>, b: seq<byte>, k: nat)
    requires k <= |b|
    ensures (a + b)[|a| + k..] == b[k..]
  {
  }

  lemma LongCsiDone(answer: Replier, a: seq<byte>, body: seq<byte>, b: seq<byte>, f: nat)
    requires LongCsi(a) && body == a[2..] && CsiEnd(b) == Complete(f)
    ensures Scan(answer, a + b)
            == Scanned(CsiEvents(answer, (body + b)[..|body| + f + 1]) + Scan(answer, b).events, Scan(answer, b).left)
  {
    LongCsiFront(answer, a, body, b, f);
    TailAppend(a, b, f + 1);
    LongCsiScan(answer, a + b, |a| + f + 1, CsiEvents(answer, (body + b)[..|body| + f + 1]), b, f, b[f + 1..]);
  }

  lemma LongCsiUndoneFront(answer: Replier, a: seq<byte>, b: seq<byte>)
    requires LongCsi(a) && !CsiEnd(b).Complete?
    ensures Front(answer, a + b) == if CsiEnd(b).Incomplete? then Stop(false) else Take(1, [])
  {
    SliceAppend(a, b, 2);
    CsiAppend(a[2..], b);
  }

  /** Behind a lead that goes nowhere, the rest of an unfinished sequence is plain. */
  lemma LeadDropped(answer: Replier, a: seq<byte>, b: seq<byte>)
    requires a != [] && forall j :: 0 < j < |a| ==> a[j] != ESC
    requires Front(answer, a + b) == Take(1, [])
    ensures Scan(answer, a + b) == Scan(answer, b)
  {
    assert (a + b)[1..] == a[1..] + b;
    ScanOn(answer, a + b, 1, a[1..] + b);
    PlainSkipped(answer, a[1..], b);
  }

  lemma AllDropped(answer: Replier, a: seq<byte>, b: seq<byte>)
    requires a != [] && Front(answer, a + b) == Stop(false) && forall j :: 0 <= j < |b| ==> b[j] != ESC
    ensures Scan(answer, a + b) == Scan(answer, b)
  {
    ScanStop(answer, a + b, false);
    PlainAlone(answer, b);
  }

  lemma LongCsiUndone(answer: Replier, a: seq<byte>, b: seq<byte>)
    requires LongCsi(a) && !CsiEnd(b).Complete? && forall j :: 0 < j < |a| ==> a[j] != ESC
    ensures Scan(answer, a + b) == Scan(answer, b)
  {
    LongCsiUndoneFront(answer, a, b);
    if CsiEnd(b).Incomplete? {
      AllDropped(answer, a, b);
    } else {
      LeadDropped(answer, a, b);
    }
  }

  // An OSC too long to keep: too long to be a colour query as well.

  /** An unfinished OSC, too long to keep. */
  predicate LongOsc(p: seq<byte>) {
    |p| > OSC_LIMIT && p[0] == ESC && p[1] == CLOSE_BRACKET && OscEnd(p[2..]).Incomplete?
  }

  lemma OscSplit(x: seq<byte>, y: seq<byte>)
    requires OscEnd(x).Incomplete?
    ensures match OscEnd(y)
            case Complete(f) => OscEnd(x + y) == Complete(|x| + f)
            case Broken(f) => OscEnd(x + y) == Broken(|x| + f)
            case Incomplete => OscEnd(x + y) == Incomplete
  {
    FirstAppend(x, y, Osc);
    var f := First(y, Osc, 0);
    assert f < |y| ==> (x + y)[|x| + f] == y[f];
    assert f + 1 < |y| ==> (x + y)[|x| + f + 1] == y[f + 1];
  }

  lemma LongIsNoColor(sequence: seq<byte>)
    requires |sequence| > 4
    ensures ColorEvents(sequence) == []
  {
  }

  lemma LongOscFront(answer: Replier, a: seq<byte>, b: seq<byte>)
    requires LongOsc(a)
    ensures Front(answer, a + b)
            == match OscEnd(b)
               case Complete(f) => Take(|a| + f, [])
               case Broken(_) => Take(1, [])
               case Incomplete => Stop(false)
  {
    SliceAppend(a, b, 2);
    OscSplit(a[2..], b);
    if OscEnd(b).Complete? {
      LongIsNoColor((a + b)[2..|a| + OscEnd(b).index]);
    }
  }

  lemma LongOscDone(answer: Replier, a: seq<byte>, b: seq<byte>, f: nat)
    requires LongOsc(a) && OscEnd(b) == Complete(f)
    ensures Scan(answer, a + b) == Scan(answer, b)
  {
    LongOscFront(answer, a, b);
    TailAppend(a, b, f);
    ScanOn(answer, a + b, |a| + f, b[f..]);
    PlainFirst(answer, b, f, b[f..]);
  }

  lemma LongOscScan(answer: Replier, a: seq<byte>, b: seq<byte>)
    requires LongOsc(a) && forall j :: 0 < j < |a| ==> a[j] != ESC
    ensures Scan(answer, a + b) == Scan(answer, b)
  {
    LongOscFront(answer, a, b);
    match OscEnd(b)
    case Complete(f) => LongOscDone(answer, a, b, f);
    case Broken(_) => LeadDropped(answer, a, b);
    case Incomplete => AllDropped(answer, a, b);
  }

  // What a stop loses.

  lemma EndsAlike(a: seq<byte>, tail: seq<byte>)
    requires EndsWith(a, tail) && tail != []
    ensures a != [] && a[|a| - 1] == tail[|tail| - 1]
  {
    assert a[|a| - 1] == a[|a| - |tail|..][|tail| - 1];
  }

  /** Nothing is cut out of a colour query where the last byte is no escape, or is the only one. */
  lemma NoColorCut(a: seq<byte>, b: seq<byte>)
    requires a != [] && forall j :: 0 < j < |a| ==> a[j] != ESC
    ensures !CutsColorQuery(a, b)
  {
    if CutsColorQuery(a, b) {
      var tail := if EndsWith(a, CutOsc(FOREGROUND)) then CutOsc(FOREGROUND) else CutOsc(BACKGROUND);
      EndsAlike(a, tail);
    }
  }

  lemma OneEsc(a: seq<byte>)
    requires a != [] && a[0] == ESC && forall j :: 0 < j < |a| ==> a[j] != ESC
    ensures FromLastEsc(a) == a
  {
    assert LastEsc(a) == 0;
  }

  lemma LostAtCsi(answer: Replier, a: seq<byte>, body: seq<byte>, b: seq<byte>)
    requires LongCsi(a) && body == a[2..] && forall j :: 0 < j < |a| ==> a[j] != ESC
    ensures Lost(answer, a, b)
            == if CsiEnd(b).Complete? then CsiEvents(answer, (body + b)[..|body| + CsiEnd(b).index + 1]) else []
  {
    NoColorCut(a, b);
    OneEsc(a);
    CsiAppend(body, b);
  }

  lemma NothingLost(answer: Replier, a: seq<byte>, b: seq<byte>)
    requires a != [] && a[0] == ESC && !LongCsi(a) && forall j :: 0 < j < |a| ==> a[j] != ESC
    ensures Lost(answer, a, b) == []
  {
    NoColorCut(a, b);
    OneEsc(a);
  }

  /** What the front of an unfinished sequence can be. */
  lemma StopShape(answer: Replier, a: seq<byte>)
    requires a != [] && Front(answer, a).Stop?
    ensures a[0] == ESC && forall j :: 0 < j < |a| ==> a[j] != ESC
    ensures Front(answer, a).keep <==> !LongCsi(a) && !LongOsc(a)
  {
  }

  /** What is dropped for its length costs at most the reply to the CSI that b completes. */
  lemma Dropped(answer: Replier, a: seq<byte>, b: seq<byte>)
    requires a != [] && Front(answer, a) == Stop(false)
    ensures Scan(answer, a + b) == Scanned(Lost(answer, a, b) + Scan(answer, b).events, Scan(answer, b).left)
  {
    StopShape(answer, a);
    if LongCsi(a) {
      DroppedCsi(answer, a, a[2..], b);
    } else {
      NothingLost(answer, a, b);
      LongOscScan(answer, a, b);
      NothingFirst(Scan(answer, b));
    }
  }

  lemma NothingFirst(s: Scanned)
    ensures s == Scanned([] + s.events, s.left)
  {
  }

  lemma DroppedCsi(answer: Replier, a: seq<byte>, body: seq<byte>, b: seq<byte>)
    requires LongCsi(a) && body == a[2..] && forall j :: 0 < j < |a| ==> a[j] != ESC
    ensures Scan(answer, a + b) == Scanned(Lost(answer, a, b) + Scan(answer, b).events, Scan(answer, b).left)
  {
    LostAtCsi(answer, a, body, b);
    if CsiEnd(b).Complete? {
      LongCsiDone(answer, a, body, b, CsiEnd(b).index);
    } else {
      LongCsiUndone(answer, a, b);
      NothingFirst(Scan(answer, b));
    }
  }

  /** Scanning a + b gives what scanning a and then the rest gives, with lost between them. */
  ghost predicate Loses(answer: Replier, a: seq<byte>, b: seq<byte>, lost: seq<Event>) {
    var first := Scan(answer, a);
    var second := Scan(answer, first.left + b);
    Scan(answer, a + b) == Scanned(first.events + lost + second.events, second.left)
  }

  ghost predicate LosesOnly(answer: Replier, a: seq<byte>, b: seq<byte>) {
    Loses(answer, a, b, Lost(answer, a, b))
  }

  lemma Regroup<T>(w: seq<T>, x: seq<T>, y: seq<T>, z: seq<T>)
    ensures w + (x + y + z) == (w + x) + y + z
  {
  }

  lemma Shifted(events: seq<Event>, first: Scanned, lost: seq<Event>, second: Scanned, rest: Scanned)
    requires rest == Scanned(first.events + lost + second.events, second.left)
    ensures Scanned(events + rest.events, rest.left)
            == Scanned((events + first.events) + lost + second.events, second.left)
  {
    Regroup(events, first.events, lost, second.events);
  }

  /** What the rest loses, the whole loses. */
  lemma TakeLoses(answer: Replier, a: seq<byte>, b: seq<byte>, n: nat, events: seq<Event>, rest: seq<byte>,
                  lost: seq<Event>)
    requires a != [] && Front(answer, a) == Take(n, events) == Front(answer, a + b) && rest == a[n..]
    requires Loses(answer, rest, b, lost)
    ensures Loses(answer, a, b, lost)
  {
    ScanFront(answer, a, n, events, rest);
    DropAppend(a, b, n, rest);
    ScanFront(answer, a + b, n, events, rest + b);
    Shifted(events, Scan(answer, rest), lost, Scan(answer, Scan(answer, rest).left + b), Scan(answer, rest + b));
  }

  lemma KeptLoses(answer: Replier, a: seq<byte>, b: seq<byte>)
    requires a != [] && Front(answer, a) == Stop(true)
    ensures Loses(answer, a, b, [])
  {
    ScanStop(answer, a, true);
    NothingFirst(Scan(answer, a + b));
  }

  lemma DroppedLoses(answer: Replier, a: seq<byte>, b: seq<byte>, lost: seq<Event>)
    requires a != [] && Front(answer, a) == Stop(false)
    requires Scan(answer, a + b) == Scanned(lost + Scan(answer, b).events, Scan(answer, b).left)
    ensures Loses(answer, a, b, lost)
  {
    ScanStop(answer, a, false);
    assert [] + b == b && [] + lost == lost;
  }

  lemma StopLosesOnly(answer: Replier, a: seq<byte>, b: seq<byte>)
    requires a != [] && Front(answer, a).Stop?
    ensures LosesOnly(answer, a, b)
  {
    if Front(answer, a).keep {
      KeptLoses(answer, a, b);
      StopShape(answer, a);
      NothingLost(answer, a, b);
    } else {
      Dropped(answer, a, b);
      DroppedLoses(answer, a, b, Lost(answer, a, b));
    }
  }

  lemma TrailingEscLoses(answer: Replier, a: seq<byte>, b: seq<byte>)
    requires AtTrailingEsc(a) && b != [] && b[0] == BACKSLASH
    ensures Loses(answer, a, b, ColorEvents(a[2..|a| - 1]))
  {
    TrailingEsc(answer, a, b);
    assert [] + ColorEvents(a[2..|a| - 1]) == ColorEvents(a[2..|a| - 1]);
  }

  lemma EmptyLosesOnly(answer: Replier, b: seq<byte>)
    ensures LosesOnly(answer, [], b)
  {
    assert [] + b == b && LastEsc([]) == 0;
    NothingFirst(Scan(answer, b));
  }

  /**
    Scanning a and then b, after whatever the scan of a left, ends with the
    leftover of scanning a + b at once, and gives the same replies but for Lost.
   */
  lemma {:induction false} CutLosesOnly(answer: Replier, a: seq<byte>, b: seq<byte>)
    ensures LosesOnly(answer, a, b)
    decreases |a|
  {
    if a == [] {
      EmptyLosesOnly(answer, b);
    } else if AtTrailingEsc(a) && b != [] && b[0] == BACKSLASH {
      TrailingEscLoses(answer, a, b);
      TrailingEscLost(answer, a, b);
    } else {
      match Front(answer, a)
      case Stop(_) => StopLosesOnly(answer, a, b);
      case Take(n, events) =>
        var rest := a[n..];
        CutLosesOnly(answer, rest, b);
        FrontAppend(answer, a, b);
        LostLater(answer, a, n, rest, b);
        TakeLoses(answer, a, b, n, events, rest, Lost(answer, rest, b));
    }
  }

  lemma Inserted<T>(x: seq<T>, lost: seq<T>, y: seq<T>)
    ensures x + lost + y == x + y <==> lost == []
  {
    assert |x + lost + y| == |x + y| + |lost|;
  }

  /** Chunking matters exactly when it loses a reply. */
  lemma CutMattersIff(answer: Replier, a: seq<byte>, b: seq<byte>)
    ensures var first := Scan(answer, a);
            var second := Scan(answer, first.left + b);
            && Scan(answer, a + b).left == second.left
            && (Scan(answer, a + b).events == first.events + second.events <==> Lost(answer, a, b) == [])
  {
    CutLosesOnly(answer, a, b);
    Inserted(Scan(answer, a).events, Lost(answer, a, b), Scan(answer, Scan(answer, a).left + b).events);
  }

  // ------------------------------------------------------------------ any chunking

  /** Feeding chunks one after another, starting from nothing pending. */
  function FeedAll(answer: Replier, chunks: seq<seq<byte>>): Scanned {
    if chunks == [] then Scanned([], [])
    else
      var before := FeedAll(answer, chunks[..|chunks| - 1]);
      var now := Scan(answer, before.left + chunks[|chunks| - 1]);
      Scanned(before.events + now.events, now.left)
  }

  /** How many replies the cuts between the chunks lose. */
  function LostCount(answer: Replier, chunks: seq<seq<byte>>): nat {
    if chunks == [] then 0
    else
      var front := chunks[..|chunks| - 1];
      LostCount(answer, front) + |Lost(answer, Concat(front), chunks[|chunks| - 1])|
  }

  /**
    However the input is cut, the leftover is that of the whole, and the replies
    are if and only if no cut loses one.
   */
  lemma {:induction false} ChunkingMattersIff(answer: Replier, chunks: seq<seq<byte>>)
    ensures var fed, whole := FeedAll(answer, chunks), Scan(answer, Concat(chunks));
            && fed.left == whole.left
            && |whole.events| == |fed.events| + LostCount(answer, chunks)
            && (fed.events == whole.events <==> LostCount(answer, chunks) == 0)
  {
    if chunks != [] {
      var front, last := chunks[..|chunks| - 1], chunks[|chunks| - 1];
      assert chunks == front + [last];
      ConcatAppend(front, last);
      ChunkingMattersIff(answer, front);
      CutMattersIff(answer, Concat(front), last);
      CutCount(answer, Concat(front), last);
    }
  }

  lemma CutCount(answer: Replier, a: seq<byte>, b: seq<byte>)
    ensures |Scan(answer, a + b).events|
            == |Scan(answer, a).events| + |Lost(answer, a, b)| + |Scan(answer, Scan(answer, a).left + b).events|
  {
    CutLosesOnly(answer, a, b);
  }

  // ------------------------------------------------------------- both losses happen

  lemma FeedTwo(answer: Replier, a: seq<byte>, b: seq<byte>, first: Scanned, second: Scanned)
    requires Scan(answer, a) == first && Scan(answer, first.left + b) == second
    ensures FeedAll(answer, [a, b]) == Scanned(first.events + second.events, second.left)
  {
    assert [a, b][..1] == [a] && [a][..0] == [] && [] + a == a;
    assert FeedAll(answer, [a]) == Scanned([] + first.events, first.left);
    NothingFirst(first);
  }

  /**
    A colour query ended by ESC and backslash is answered when it arrives whole
    and not when it is cut between them.
   */
  lemma ColorQueryCanBeLost(answer: Replier)
    ensures var a := CutOsc(FOREGROUND);
            && Scan(answer, a + [BACKSLASH]).events == [Color(Foreground)]
            && FeedAll(answer, [a, [BACKSLASH]]).events == []
  {
    var a, b: seq<byte> := CutOsc(FOREGROUND), [BACKSLASH];
    CutOscTrails(FOREGROUND);
    TrailingEsc(answer, a, b);
    assert [ESC] + b == [ESC, BACKSLASH] && [ESC, BACKSLASH][1..] == b;
    ScanOn(answer, [ESC, BACKSLASH], 1, b);
    PlainAlone(answer, b);
    FeedTwo(answer, a, b, Scanned([], [ESC]), Scanned([], []));
  }
}
