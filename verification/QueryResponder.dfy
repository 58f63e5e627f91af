/** The responder as the object that keeps the pending bytes, proved against the scan. */
module QueryResponder {
  import opened Basics
  import opened QueryScan
  import opened QueryReplies

  /** The index of the CSI's final byte or of the byte that breaks it; -1 while undecided. */
  method CsiFinal(body: seq<byte>) returns (index: int, complete: bool)
    ensures match CsiEnd(body)
            case Complete(f) => index == f && complete
            case Broken(f) => index == f && !complete
            case Incomplete => index == -1 && !complete
  {
    var i := 0;
    while i < |body|
      invariant 0 <= i <= |body| && First(body, Csi, 0) >= i
    {
      if 0x40 <= body[i] <= 0x7e {
        return i, true;
      }
      if body[i] < 0x20 || body[i] == 0x7f {
        return i, false;
      }
      i := i + 1;
    }
    return -1, false;
  }

  /** The index of the BEL or ST that ends the OSC, or of the byte that breaks it; -1 while undecided. */
  method OscTerminator(body: seq<byte>) returns (index: int, complete: bool)
    ensures match OscEnd(body)
            case Complete(f) => index == f && complete
            case Broken(f) => index == f && !complete
            case Incomplete => index == -1 && !complete
  {
    var i := 0;
    while i < |body|
      invariant 0 <= i <= |body| && First(body, Osc, 0) >= i
    {
      if body[i] == BEL {
        return i, true;
      }
      if body[i] == ESC {
        return i, i + 1 < |body| && body[i + 1] == BACKSLASH;
      }
      if body[i] < 0x20 {
        return i, false;
      }
      i := i + 1;
    }
    return -1, false;
  }

  /** The first index of an escape, or -1. */
  method IndexEsc(data: seq<byte>) returns (index: int)
    ensures -1 <= index < |data|
    ensures index >= 0 ==> data[index] == ESC
    ensures forall j :: 0 <= j < (if index < 0 then |data| else index) ==> data[j] != ESC
  {
    index := 0;
    while index < |data|
      invariant 0 <= index <= |data| && forall j :: 0 <= j < index ==> data[j] != ESC
    {
      if data[index] == ESC {
        return;
      }
      index := index + 1;
    }
    index := -1;
  }

  class Responder {
    var pending: seq<byte>
    var rows: nat
    var cols: nat

    constructor ()
      ensures pending == [] && rows == 36 && cols == 120
    {
      pending, rows, cols := [], 36, 120;
    }

    method Resize(columns: int, lines: int)
      modifies this
      ensures pending == old(pending)
      ensures if columns <= 0 || lines <= 0 then rows == old(rows) && cols == old(cols)
              else rows == lines && cols == columns
    {
      if columns > 0 && lines > 0 {
        cols, rows := columns, lines;
      }
    }

    /** What to do with pending bytes that begin with an escape. */
    method AtFront() returns (m: Move)
      requires pending != [] && pending[0] == ESC
      ensures m == Front(Answering(rows, cols), pending)
    {
      if |pending| < 2 {
        return Stop(true);
      }
      if pending[1] == BRACKET {
        var final, complete := CsiFinal(pending[2..]);
        if !complete {
          if final >= 0 {
            return Take(1, []);
          }
          return Stop(|pending| <= CSI_LIMIT);
        }
        var reply := CsiReply(rows, cols, pending[2..final + 3]);
        return Take(final + 3, if |reply| > 0 then [Fixed(reply)] else []);
      }
      if pending[1] == CLOSE_BRACKET {
        var end, complete := OscTerminator(pending[2..]);
        if !complete {
          if end >= 0 {
            return Take(1, []);
          }
          return Stop(|pending| <= OSC_LIMIT);
        }
        return Take(end + 2, ColorEvents(pending[2..end + 2]));
      }
      return Take(1, []);
    }

    /** Scans what was pending and the new bytes; what it leaves never exceeds the OSC cap. */
    method Feed(data: seq<byte>) returns (replies: seq<Event>)
      modifies this
      ensures rows == old(rows) && cols == old(cols)
      ensures Scanned(replies, pending) == Scan(Answering(rows, cols), old(pending) + data)
      ensures |pending| <= OSC_LIMIT
    {
      ghost var all := Scan(Answering(rows, cols), pending + data);
      LeftoverBounded(Answering(rows, cols), pending + data);
      pending := pending + data;
      replies := [];
      Begins(Answering(rows, cols), pending);
      while true
        invariant rows == old(rows) && cols == old(cols)
        invariant Midway(Answering(rows, cols), all, replies, pending)
        decreases |pending|
      {
        var index := IndexEsc(pending);
        if index < 0 {
          Skips(Answering(rows, cols), all, replies, pending, |pending|);
          Ends(Answering(rows, cols), all, replies);
          pending := [];
          return;
        }
        Skips(Answering(rows, cols), all, replies, pending, index);
        pending := pending[index..];
        var move := AtFront();
        match move
        case Stop(keep) =>
          Halts(Answering(rows, cols), all, replies, pending);
          if !keep {
            pending := [];
          }
          return;
        case Take(n, events) =>
          Takes(Answering(rows, cols), all, replies, pending);
          pending := pending[n..];
          replies := replies + events;
      }
    }
  }

  /** The scan whose result is all has found these replies and has p before it. */
  ghost predicate Midway(answer: Replier, all: Scanned, replies: seq<Event>, p: seq<byte>) {
    all == Scanned(replies + Scan(answer, p).events, Scan(answer, p).left)
  }

  lemma Begins(answer: Replier, p: seq<byte>)
    ensures Midway(answer, Scan(answer, p), [], p)
  {
    assert [] + Scan(answer, p).events == Scan(answer, p).events;
  }

  lemma Ends(answer: Replier, all: Scanned, replies: seq<Event>)
    requires Midway(answer, all, replies, [])
    ensures all == Scanned(replies, [])
  {
  }

  lemma Skips(answer: Replier, all: Scanned, replies: seq<Event>, p: seq<byte>, n: nat)
    requires Midway(answer, all, replies, p) && n <= |p| && forall j :: 0 <= j < n ==> p[j] != ESC
    ensures Midway(answer, all, replies, p[n..])
    ensures n == |p| ==> Midway(answer, all, replies, [])
  {
    SkipPlain(answer, p, n);
    assert n == |p| ==> p[n..] == [];
  }

  lemma Halts(answer: Replier, all: Scanned, replies: seq<Event>, p: seq<byte>)
    requires Midway(answer, all, replies, p) && p != [] && Front(answer, p).Stop?
    ensures all == Scanned(replies, if Front(answer, p).keep then p else [])
  {
    assert replies + [] == replies;
  }

  lemma Takes(answer: Replier, all: Scanned, replies: seq<Event>, p: seq<byte>)
    requires Midway(answer, all, replies, p) && p != [] && Front(answer, p).Take?
    ensures Midway(answer, all, replies + Front(answer, p).events, p[Front(answer, p).n..])
  {
    var Take(n, events) := Front(answer, p);
    Associative(replies, events, Scan(answer, p[n..]).events);
  }

  lemma SkipPlain(answer: Replier, p: seq<byte>, n: nat)
    requires n <= |p| && forall j :: 0 <= j < n ==> p[j] != ESC
    ensures Scan(answer, p) == Scan(answer, p[n..])
  {
    assert p == p[..n] + p[n..];
    PlainSkipped(answer, p[..n], p[n..]);
  }
}
