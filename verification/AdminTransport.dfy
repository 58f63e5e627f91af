/**
  The admin socket: newline-terminated frames, descriptors that travel beside
  the bytes, and NUL padding between frames, over messages cut anywhere.
 */
module AdminTransport {
  import opened Basics

  type Fd = nat

  const NUL: byte := 0x00
  const MAX_FRAME := 0x400_0000

  /** A stream socket never delivers a message without a byte; a read of nothing is its end. */
  type Payload = p: seq<byte> | p != [] witness [NUL]

  /** One message of the socket: some bytes, perhaps with a descriptor. */
  datatype Message = Message(payload: Payload, fd: Option<Fd>)

  datatype TransportError = TooLarge | Closed

  // --------------------------------------------------------------- padded streams

  /** The stream without its padding. */
  function Strip(s: seq<byte>): seq<byte> {
    if s == [] then [] else if s[0] == NUL then Strip(s[1..]) else [s[0]] + Strip(s[1..])
  }

  /** Padding stands only where a frame begins; begins says whether one may begin here. */
  predicate Padded(s: seq<byte>, begins: bool) {
    s == [] || (if s[0] == NUL then begins && Padded(s[1..], true) else Padded(s[1..], s[0] == NEWLINE))
  }

  predicate WellPadded(s: seq<byte>) {
    Padded(s, true)
  }

  /** Whether a frame may begin after s. */
  predicate FreshAfter(s: seq<byte>, begins: bool) {
    if s == [] then begins else FreshAfter(s[1..], s[0] == NUL || s[0] == NEWLINE)
  }

  function Trimmed(s: seq<byte>): (r: seq<byte>)
    ensures r != [] ==> r[0] != NUL
  {
    if s != [] && s[0] == NUL then Trimmed(s[1..]) else s
  }

  function Bytes(messages: seq<Message>): seq<byte> {
    if messages == [] then [] else messages[0].payload + Bytes(messages[1..])
  }

  function Fds(messages: seq<Message>): seq<Fd> {
    if messages == [] then []
    else (if messages[0].fd.Some? then [messages[0].fd.value] else []) + Fds(messages[1..])
  }

  lemma {:induction false} StripAppend(x: seq<byte>, y: seq<byte>)
    ensures Strip(x + y) == Strip(x) + Strip(y)
  {
    if x == [] {
      assert x + y == y;
    } else {
      assert (x + y)[1..] == x[1..] + y;
      StripAppend(x[1..], y);
    }
  }

  lemma {:induction false} StripTrimmed(s: seq<byte>)
    ensures Strip(Trimmed(s)) == Strip(s)
  {
    if s != [] && s[0] == NUL {
      StripTrimmed(s[1..]);
    }
  }

  lemma {:induction false} StripClean(s: seq<byte>)
    requires NUL !in s
    ensures Strip(s) == s
  {
    if s != [] {
      StripClean(s[1..]);
    }
  }

  lemma {:induction false} PaddedAppend(x: seq<byte>, y: seq<byte>, begins: bool)
    ensures Padded(x + y, begins) <==> Padded(x, begins) && Padded(y, FreshAfter(x, begins))
  {
    if x == [] {
      assert x + y == y;
    } else {
      assert (x + y)[1..] == x[1..] + y;
      PaddedAppend(x[1..], y, if x[0] == NUL then true else x[0] == NEWLINE);
    }
  }

  lemma {:induction false} FreshAfterNewline(x: seq<byte>, begins: bool)
    requires x != [] && x[|x| - 1] == NEWLINE
    ensures FreshAfter(x, begins)
  {
    if |x| > 1 {
      FreshAfterNewline(x[1..], x[0] == NUL || x[0] == NEWLINE);
    }
  }

  lemma {:induction false} TrimmedPadded(p: seq<byte>, begins: bool)
    requires Padded(p, begins)
    ensures Padded(Trimmed(p), begins) && FreshAfter(Trimmed(p), begins) == FreshAfter(p, begins)
  {
    if p != [] && p[0] == NUL {
      TrimmedPadded(p[1..], true);
    }
  }

  /** Padding taken out in front of what a message brings. */
  lemma TrimInside(b: seq<byte>, p: seq<byte>, t: seq<byte>)
    requires WellPadded(b + (p + t))
    ensures WellPadded(b + (Trimmed(p) + t)) && Strip(b + (Trimmed(p) + t)) == Strip(b + (p + t))
  {
    var q := Trimmed(p);
    var begins := FreshAfter(b, true);
    PaddedAppend(b, p + t, true);
    PaddedAppend(p, t, begins);
    TrimmedPadded(p, begins);
    PaddedAppend(q, t, begins);
    PaddedAppend(b, q + t, true);
    StripAppend(b, p + t);
    StripAppend(p, t);
    StripAppend(q, t);
    StripAppend(b, q + t);
    StripTrimmed(p);
  }

  // --------------------------------------------------------------------- next frame

  /** The index of the first newline, or the length. */
  function NewlineAt(s: seq<byte>): (n: nat)
    ensures n <= |s| && (n < |s| ==> s[n] == NEWLINE) && forall i :: 0 <= i < n ==> s[i] != NEWLINE
  {
    if s == [] || s[0] == NEWLINE then 0 else NewlineAt(s[1..]) + 1
  }

  /** The first frame of an unpadded stream. */
  function NextFrame(s: seq<byte>): Result<seq<byte>, TransportError> {
    var n := NewlineAt(s);
    if n > MAX_FRAME then Err(TooLarge)
    else if n == |s| then Err(Closed)
    else Ok(s[..n])
  }

  /** What follows the first frame; everything, if that cannot be read. */
  function AfterFrame(s: seq<byte>): seq<byte> {
    if NextFrame(s).Ok? then s[NewlineAt(s) + 1..] else s
  }

  /** Inside a frame there is no padding. */
  lemma {:induction false} CleanInside(b: seq<byte>)
    requires Padded(b, false)
    ensures NUL !in b[..NewlineAt(b)]
  {
    if b != [] && b[0] != NEWLINE {
      CleanInside(b[1..]);
      assert b[..NewlineAt(b)] == [b[0]] + b[1..][..NewlineAt(b[1..])];
    }
  }

  /** Up to its first newline, what begins with no padding holds none. */
  lemma CleanUntilNewline(b: seq<byte>, t: seq<byte>)
    requires WellPadded(b + t) && (b != [] ==> b[0] != NUL)
    ensures NUL !in b[..NewlineAt(b)]
  {
    PaddedAppend(b, t, true);
    if b != [] && b[0] != NEWLINE {
      CleanInside(b[1..]);
      assert b[..NewlineAt(b)] == [b[0]] + b[1..][..NewlineAt(b[1..])];
    }
  }

  /** After a newline the stream is as well padded as before. */
  lemma PaddedAfterNewline(x: seq<byte>, rest: seq<byte>)
    requires WellPadded(x + ([NEWLINE] + rest))
    ensures WellPadded(rest)
  {
    Associative(x, [NEWLINE], rest);
    PaddedAppend(x + [NEWLINE], rest, true);
    FreshAfterNewline(x + [NEWLINE], true);
  }

  lemma {:induction false} NewlineAppend(x: seq<byte>, y: seq<byte>)
    requires NEWLINE !in x
    ensures NewlineAt(x + y) == |x| + NewlineAt(y)
  {
    if x == [] {
      assert x + y == y;
    } else {
      assert (x + y)[1..] == x[1..] + y;
      NewlineAppend(x[1..], y);
    }
  }

  /** The frame in front of a newline is the next one. */
  lemma FrontFrame(frame: seq<byte>, rest: seq<byte>)
    requires NEWLINE !in frame
    ensures var s := frame + ([NEWLINE] + rest);
            && NextFrame(s) == (if |frame| > MAX_FRAME then Err(TooLarge) else Ok(frame))
            && (|frame| <= MAX_FRAME ==> AfterFrame(s) == rest)
  {
    var s := frame + ([NEWLINE] + rest);
    NewlineAppend(frame, [NEWLINE] + rest);
    assert s[..|frame|] == frame && s[|frame| + 1..] == rest;
  }

  lemma StripFrame(frame: seq<byte>, rest: seq<byte>)
    requires NUL !in frame
    ensures Strip(frame + ([NEWLINE] + rest)) == frame + ([NEWLINE] + Strip(rest))
  {
    StripClean(frame);
    StripAppend(frame, [NEWLINE] + rest);
    StripAppend([NEWLINE], rest);
    assert Strip([NEWLINE]) == [NEWLINE];
  }

  /** A buffer that holds a newline holds the whole next frame. */
  lemma FrameInBuffer(b: seq<byte>, t: seq<byte>)
    requires WellPadded(b + t) && (b != [] ==> b[0] != NUL) && NewlineAt(b) < |b|
    ensures var n := NewlineAt(b);
            && NextFrame(Strip(b + t)) == (if n > MAX_FRAME then Err(TooLarge) else Ok(b[..n]))
            && (n <= MAX_FRAME ==> AfterFrame(Strip(b + t)) == Strip(b[n + 1..] + t))
            && WellPadded(b[n + 1..] + t)
  {
    var n := NewlineAt(b);
    var rest := b[n + 1..] + t;
    CleanUntilNewline(b, t);
    assert b + t == b[..n] + ([NEWLINE] + rest);
    StripFrame(b[..n], rest);
    FrontFrame(b[..n], Strip(rest));
    PaddedAfterNewline(b[..n], rest);
  }

  /** A buffer without a newline is all of the frame that has come. */
  lemma FrameBeyondBuffer(b: seq<byte>, t: seq<byte>)
    requires WellPadded(b + t) && (b != [] ==> b[0] != NUL) && NewlineAt(b) == |b|
    ensures |b| > MAX_FRAME ==> NextFrame(Strip(b + t)) == Err(TooLarge)
    ensures |b| <= MAX_FRAME && t == [] ==> NextFrame(Strip(b + t)) == Err(Closed)
  {
    CleanUntilNewline(b, t);
    assert b[..|b|] == b;
    StripClean(b);
    StripAppend(b, t);
    NewlineAppend(b, Strip(t));
    assert t == [] ==> Strip(t) == [] && b + [] == b;
  }

  lemma TrimFront(b: seq<byte>, t: seq<byte>)
    requires WellPadded(b + t)
    ensures WellPadded(Trimmed(b) + t) && Strip(Trimmed(b) + t) == Strip(b + t)
  {
    assert [] + (b + t) == b + t && [] + (Trimmed(b) + t) == Trimmed(b) + t;
    TrimInside([], b, t);
  }

  /** With b received and t to come, r is the next frame if it is there, and b' is what is left of b. */
  ghost predicate Serves(b: seq<byte>, t: seq<byte>, b': seq<byte>, r: Option<Result<seq<byte>, TransportError>>) {
    && WellPadded(b' + t)
    && match r
       case Some(frame) => frame == NextFrame(Strip(b + t)) && Strip(b' + t) == AfterFrame(Strip(b + t))
       case None => Strip(b' + t) == Strip(b + t) && (t == [] ==> NextFrame(Strip(b + t)) == Err(Closed))
  }

  lemma ServesFrame(b: seq<byte>, t: seq<byte>)
    requires WellPadded(b + t) && NewlineAt(Trimmed(b)) < |Trimmed(b)|
    ensures var c, n := Trimmed(b), NewlineAt(Trimmed(b));
            if n > MAX_FRAME then Serves(b, t, c, Some(Err(TooLarge))) else Serves(b, t, c[n + 1..], Some(Ok(c[..n])))
  {
    TrimFront(b, t);
    FrameInBuffer(Trimmed(b), t);
  }

  lemma ServesNone(b: seq<byte>, t: seq<byte>)
    requires WellPadded(b + t) && NewlineAt(Trimmed(b)) == |Trimmed(b)|
    ensures if |Trimmed(b)| > MAX_FRAME then Serves(b, t, Trimmed(b), Some(Err(TooLarge)))
            else Serves(b, t, Trimmed(b), None)
  {
    TrimFront(b, t);
    FrameBeyondBuffer(Trimmed(b), t);
  }

  // ------------------------------------------------------------------ the transport

  class Transport {
    var readBuf: seq<byte>
    var received: seq<Fd>
    var unread: seq<Message>   // what the socket will still deliver

    constructor (messages: seq<Message>)
      ensures readBuf == [] && received == [] && unread == messages
    {
      readBuf, received, unread := [], [], messages;
    }

    /** All bytes not yet returned, with their padding. */
    ghost function Stream(): seq<byte>
      reads this
    {
      readBuf + Bytes(unread)
    }

    /** All descriptors not yet returned. */
    ghost function Descriptors(): seq<Fd>
      reads this
    {
      received + Fds(unread)
    }

    /** ReadMsgUnix: the next message's bytes; its descriptor is queued. */
    method Receive() returns (payload: seq<byte>)
      requires unread != []
      modifies this
      ensures readBuf == old(readBuf) && |unread| < |old(unread)|
      ensures old(Bytes(unread)) == payload + Bytes(unread) && Descriptors() == old(Descriptors())
    {
      payload := unread[0].payload;
      if unread[0].fd.Some? {
        received := received + [unread[0].fd.value];
      }
      unread := unread[1..];
    }

    /** The next frame, if all of it has been received or too much of it has. */
    method Buffered() returns (r: Option<Result<seq<byte>, TransportError>>)
      requires WellPadded(Stream())
      modifies this`readBuf
      ensures Serves(old(readBuf), Bytes(unread), readBuf, r)
    {
      readBuf := Trimmed(readBuf);
      var index := NewlineAt(readBuf);
      if index < |readBuf| {
        ServesFrame(old(readBuf), Bytes(unread));
        if index > MAX_FRAME {
          return Some(Err(TooLarge));
        }
        r := Some(Ok(readBuf[..index]));
        readBuf := readBuf[index + 1..];
        return;
      }
      ServesNone(old(readBuf), Bytes(unread));
      if |readBuf| > MAX_FRAME {
        return Some(Err(TooLarge));
      }
      return None;
    }

    /** A call of read returns the next frame of the unpadded stream, and loses neither bytes nor descriptors. */
    method Read() returns (r: Result<seq<byte>, TransportError>)
      requires WellPadded(Stream())
      modifies this
      ensures WellPadded(Stream()) && Descriptors() == old(Descriptors())
      ensures r == NextFrame(old(Strip(Stream()))) && Strip(Stream()) == AfterFrame(old(Strip(Stream())))
    {
      ghost var all := Strip(Stream());
      ghost var fds := Descriptors();
      while true
        invariant WellPadded(Stream()) && Strip(Stream()) == all && Descriptors() == fds
        decreases |unread|
      {
        var frame := Buffered();
        if frame.Some? {
          return frame.value;
        }
        if |unread| == 0 {
          return Err(Closed);
        }
        ghost var coming := Bytes(unread);
        var payload := Receive();
        Associative(readBuf, payload, Bytes(unread));
        readBuf := readBuf + payload;
      }
    }

    /** A call of takeFD returns the first descriptor not yet returned, reading ahead for it without losing a byte. */
    method TakeFd() returns (r: Result<Fd, TransportError>)
      requires WellPadded(Stream())
      modifies this
      ensures WellPadded(Stream()) && Strip(Stream()) == old(Strip(Stream()))
      ensures r == FirstFd(old(Descriptors())) && Descriptors() == AfterFd(old(Descriptors()))
    {
      ghost var all := Strip(Stream());
      ghost var fds := Descriptors();
      while |received| == 0
        invariant WellPadded(Stream()) && Strip(Stream()) == all && Descriptors() == fds
        decreases |unread|
      {
        if |unread| == 0 {
          return Err(Closed);
        }
        ghost var coming := Bytes(unread);
        var payload := Receive();
        TrimInside(readBuf, payload, Bytes(unread));
        Associative(readBuf, Trimmed(payload), Bytes(unread));
        readBuf := readBuf + Trimmed(payload);
      }
      r := Ok(received[0]);
      received := received[1..];
    }
  }

  // ------------------------------------------------------------------- any use of it

  function FirstFd(fds: seq<Fd>): Result<Fd, TransportError> {
    if fds == [] then Err(Closed) else Ok(fds[0])
  }

  function AfterFd(fds: seq<Fd>): seq<Fd> {
    if fds == [] then [] else fds[1..]
  }

  datatype Op = ReadFrame | TakeDescriptor

  datatype Answer = Frame(frame: Result<seq<byte>, TransportError>) | Descriptor(fd: Result<Fd, TransportError>)

  /** What a sequence of calls returns, as a function of the unpadded stream and the descriptors alone. */
  function Answers(s: seq<byte>, fds: seq<Fd>, ops: seq<Op>): seq<Answer> {
    if ops == [] then []
    else if ops[0].ReadFrame? then [Frame(NextFrame(s))] + Answers(AfterFrame(s), fds, ops[1..])
    else [Descriptor(FirstFd(fds))] + Answers(s, AfterFd(fds), ops[1..])
  }

  /** One call on a transport. */
  method Call(t: Transport, op: Op) returns (answer: Answer)
    requires WellPadded(t.Stream())
    modifies t
    ensures WellPadded(t.Stream())
    ensures if op.ReadFrame? then
              && answer == Frame(NextFrame(old(Strip(t.Stream()))))
              && Strip(t.Stream()) == AfterFrame(old(Strip(t.Stream()))) && t.Descriptors() == old(t.Descriptors())
            else
              && answer == Descriptor(FirstFd(old(t.Descriptors())))
              && Strip(t.Stream()) == old(Strip(t.Stream())) && t.Descriptors() == AfterFd(old(t.Descriptors()))
  {
    if op.ReadFrame? {
      var frame := t.Read();
      answer := Frame(frame);
    } else {
      var fd := t.TakeFd();
      answer := Descriptor(fd);
    }
  }

  /** The answers do not depend on how the stream is cut into messages, padded, or accompanied by descriptors. */
  method Use(messages: seq<Message>, ops: seq<Op>) returns (answers: seq<Answer>)
    requires WellPadded(Bytes(messages))
    ensures answers == Answers(Strip(Bytes(messages)), Fds(messages), ops)
  {
    var t := new Transport(messages);
    answers := [];
    assert [] + Bytes(messages) == Bytes(messages) && [] + Fds(messages) == Fds(messages);
    ghost var all := Answers(Strip(Bytes(messages)), Fds(messages), ops);
    assert ops[0..] == ops;
    var i := 0;
    while i < |ops|
      invariant 0 <= i <= |ops| && WellPadded(t.Stream())
      invariant answers + Answers(Strip(t.Stream()), t.Descriptors(), ops[i..]) == all
    {
      ghost var s, fds := Strip(t.Stream()), t.Descriptors();
      var answer := Call(t, ops[i]);
      assert ops[i..][1..] == ops[i + 1..];
      Associative(answers, [answer], Answers(Strip(t.Stream()), t.Descriptors(), ops[i + 1..]));
      answers := answers + [answer];
      i := i + 1;
    }
  }

  // ---------------------------------------------------------------- frames come back

  /** The unpadded stream of a list of frames. */
  function Joined(frames: seq<seq<byte>>): seq<byte> {
    if frames == [] then [] else frames[0] + [NEWLINE] + Joined(frames[1..])
  }

  /** Each read takes the next frame and each takeFD the next descriptor, until there is none. */
  function InOrder(frames: seq<seq<byte>>, fds: seq<Fd>, ops: seq<Op>): seq<Answer> {
    if ops == [] then []
    else if ops[0].ReadFrame? then
      if frames == [] then [Frame(Err(Closed))] + InOrder(frames, fds, ops[1..])
      else [Frame(Ok(frames[0]))] + InOrder(frames[1..], fds, ops[1..])
    else [Descriptor(FirstFd(fds))] + InOrder(frames, AfterFd(fds), ops[1..])
  }

  /** A frame beyond the cap is refused. */
  lemma LongFrameRefused(frame: seq<byte>, rest: seq<byte>)
    requires NEWLINE !in frame && |frame| > 0x400_0000
    ensures NextFrame(frame + ([NEWLINE] + rest)) == Err(TooLarge)
  {
    FrontFrame(frame, rest);
  }

  lemma JoinedNext(frames: seq<seq<byte>>)
    requires frames != [] && NEWLINE !in frames[0] && |frames[0]| <= MAX_FRAME
    ensures NextFrame(Joined(frames)) == Ok(frames[0]) && AfterFrame(Joined(frames)) == Joined(frames[1..])
  {
    Associative(frames[0], [NEWLINE], Joined(frames[1..]));
    FrontFrame(frames[0], Joined(frames[1..]));
  }

  lemma {:induction false} FramesInOrder(frames: seq<seq<byte>>, fds: seq<Fd>, ops: seq<Op>)
    requires forall i :: 0 <= i < |frames| ==> NEWLINE !in frames[i] && |frames[i]| <= 0x400_0000
    ensures Answers(Joined(frames), fds, ops) == InOrder(frames, fds, ops)
    decreases |ops|
  {
    if ops != [] {
      if ops[0].TakeDescriptor? {
        FramesInOrder(frames, AfterFd(fds), ops[1..]);
      } else if frames == [] {
        assert NextFrame([]) == Err(Closed) && AfterFrame([]) == [];
        FramesInOrder(frames, fds, ops[1..]);
      } else {
        JoinedNext(frames);
        FramesInOrder(frames[1..], fds, ops[1..]);
      }
    }
  }
}
