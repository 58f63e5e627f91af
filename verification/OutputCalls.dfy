/**
  Calls of read: looks until one returns, with the rest of the process at the
  log between them and the reader closed or its context cancelled at any time.
 */
module OutputCalls {
  import opened Basics
  import opened OutputModel
  import opened OutputRuns
  import opened OutputReader
  import opened OutputLooks

  /** No operation of another process: a reader lives within one. */
  ghost predicate Ordinary(ops: seq<Op>) {
    forall i :: 0 <= i < |ops| ==> !ops[i].Reopen?
  }

  /** One operation, where the log is one that operations can be applied to. */
  ghost function Perform(out: Output, op: Op): Output {
    if out.log.generation in out.log.segments && out.log.generation in out.history.bytes
       && out.log.generation in out.history.tags
    then Output(Apply(out.log, op), Record(out.log, out.history, op)) else out
  }

  ghost function Performed(out: Output, ops: seq<Op>): Output
    decreases |ops|
  {
    if ops == [] then out else Performed(Perform(out, ops[0]), ops[1..])
  }

  /** Other parties have their turn at the log. */
  ghost function Interrupted(s: Reading, ops: seq<Op>): Reading {
    s.(out := Performed(s.out, ops))
  }

  lemma PerformKeeps(s: Reading, op: Op)
    requires ReadingOk(s) && !op.Reopen?
    ensures ReadingOk(s.(out := Perform(s.out, op)))
  {
    WriteKeeps(s, op, s.(out := Perform(s.out, op)));
  }

  lemma {:induction false} InterruptedOk(s: Reading, ops: seq<Op>)
    requires ReadingOk(s) && Ordinary(ops)
    ensures ReadingOk(Interrupted(s, ops))
    decreases |ops|
  {
    if ops != [] {
      PerformKeeps(s, ops[0]);
      InterruptedOk(s.(out := Perform(s.out, ops[0])), ops[1..]);
    }
  }

  predicate GoesOn(outcome: Outcome) {
    outcome.NextGeneration? || outcome.Waiting?
  }

  /** How many more generations the reader can go through. */
  ghost function Ahead(s: Reading): nat {
    if s.reader.cursor.generation < s.out.log.generation then s.out.log.generation - s.reader.cursor.generation else 0
  }

  /** Why a call is given up without an answer. */
  datatype Quit = ReaderClosed | Cancelled

  /** What happens before a pass: what other parties do to the log, and whether the reader is then to give up. */
  datatype Turn = Turn(ops: seq<Op>, quit: Option<Quit>)

  ghost predicate AllOrdinary(turns: seq<Turn>) {
    forall i :: 0 <= i < |turns| ==> Ordinary(turns[i].ops)
  }

  /** How a call ends: by a look, or given up. */
  datatype CallEnd = Answer(outcome: Outcome) | GaveUp(reason: Quit)

  /**
    A call of read: looks until one returns. quit says whether it is given up
    before the next look; turns is what happens after each look that goes round
    again or blocks; once they are through, a look that would block is the
    call's end.
   */
  ghost function Called(s: Reading, look: Look, quit: Option<Quit>, turns: seq<Turn>): (Reading, CallEnd)
    decreases |turns|, Ahead(s)
  {
    if quit.Some? then (s, GaveUp(quit.value))
    else if GoesOn(Seen(s, look)) && turns != [] then
      Called(Interrupted(Peeked(s, look), turns[0].ops), look, turns[0].quit, turns[1..])
    else if Seen(s, look).NextGeneration? && Ahead(Peeked(s, look)) < Ahead(s) then
      Called(Peeked(s, look), look, None, [])
    else (Peeked(s, look), Answer(Seen(s, look)))
  }

  /** A reading that goes on from s, with data delivered. */
  ghost predicate Continues(s: Reading, s': Reading, data: seq<byte>) {
    ReadingOk(s') && s'.start == s.start && s'.delivered == s.delivered + data
  }

  function DataOf(end: CallEnd): seq<byte> {
    if end.Answer? && end.outcome.Data? then end.outcome.data else []
  }

  lemma PeekContinues(s: Reading, look: Look)
    requires ReadingOk(s)
    ensures Continues(s, Peeked(s, look), DataOf(Answer(Seen(s, look))))
  {
    PeekKeeps(s, look);
    assert s.delivered + [] == s.delivered;
  }

  lemma ContinuesOn(s: Reading, s1: Reading, s2: Reading, x: seq<byte>, y: seq<byte>)
    requires Continues(s, s1, x) && Continues(s1, s2, y)
    ensures Continues(s, s2, x + y)
  {
    Associative(s.delivered, x, y);
  }

  lemma NextIsNearer(s: Reading, look: Look)
    requires ReadingOk(s) && Seen(s, look).NextGeneration?
    ensures Ahead(Peeked(s, look)) < Ahead(s)
  {
    LeavesAtSeen(s, look);
  }

  /** What a call makes of a reading: in order, with what it returned delivered. */
  ghost predicate Answers(s: Reading, answer: (Reading, CallEnd)) {
    Continues(s, answer.0, DataOf(answer.1)) && answer.1 != Answer(NextGeneration)
  }

  lemma AnswersOn(s: Reading, s1: Reading, answer: (Reading, CallEnd))
    requires Continues(s, s1, []) && Answers(s1, answer)
    ensures Answers(s, answer)
  {
    ContinuesOn(s, s1, answer.0, [], DataOf(answer.1));
    assert [] + DataOf(answer.1) == DataOf(answer.1);
  }

  lemma LookAnswers(s: Reading, look: Look)
    requires ReadingOk(s) && !Seen(s, look).NextGeneration?
    ensures Answers(s, (Peeked(s, look), Answer(Seen(s, look))))
  {
    PeekContinues(s, look);
  }

  lemma GivenUpAnswers(s: Reading, reason: Quit)
    requires ReadingOk(s)
    ensures Answers(s, (s, GaveUp(reason)))
  {
    assert s.delivered + [] == s.delivered;
  }

  lemma TurnAnswers(s: Reading, look: Look, turns: seq<Turn>, s1: Reading, answer: (Reading, CallEnd))
    requires GoesOn(Seen(s, look)) && turns != [] && s1 == Interrupted(Peeked(s, look), turns[0].ops)
    requires Continues(s, s1, []) && Answers(s1, answer) && answer == Called(s1, look, turns[0].quit, turns[1..])
    ensures Answers(s, Called(s, look, None, turns))
  {
    AnswersOn(s, s1, answer);
  }

  lemma RoundAnswers(s: Reading, look: Look, s1: Reading, answer: (Reading, CallEnd))
    requires Seen(s, look).NextGeneration? && s1 == Peeked(s, look) && Ahead(s1) < Ahead(s)
    requires Continues(s, s1, []) && Answers(s1, answer) && answer == Called(s1, look, None, [])
    ensures Answers(s, Called(s, look, None, []))
  {
    AnswersOn(s, s1, answer);
  }

  lemma TurnTo(s: Reading, look: Look, ops: seq<Op>) returns (s1: Reading)
    requires ReadingOk(s) && GoesOn(Seen(s, look)) && Ordinary(ops)
    ensures s1 == Interrupted(Peeked(s, look), ops) && ReadingOk(s1) && Continues(s, s1, [])
  {
    s1 := Interrupted(Peeked(s, look), ops);
    PeekContinues(s, look);
    InterruptedOk(Peeked(s, look), ops);
  }

  lemma RoundTo(s: Reading, look: Look) returns (s1: Reading)
    requires ReadingOk(s) && Seen(s, look).NextGeneration?
    ensures s1 == Peeked(s, look) && ReadingOk(s1) && Continues(s, s1, []) && Ahead(s1) < Ahead(s)
  {
    s1 := Peeked(s, look);
    PeekContinues(s, look);
    NextIsNearer(s, look);
  }

  /** A call leaves the reading in order, returns what it delivers, and ends only where a look does or given up. */
  lemma {:induction false} CallContinues(s: Reading, look: Look, quit: Option<Quit>, turns: seq<Turn>)
    requires ReadingOk(s) && AllOrdinary(turns)
    ensures Answers(s, Called(s, look, quit, turns))
    decreases |turns|, Ahead(s)
  {
    if quit.Some? {
      GivenUpAnswers(s, quit.value);
    } else if GoesOn(Seen(s, look)) && turns != [] {
      var s1 := TurnTo(s, look, turns[0].ops);
      CallContinues(s1, look, turns[0].quit, turns[1..]);
      TurnAnswers(s, look, turns, s1, Called(s1, look, turns[0].quit, turns[1..]));
    } else if Seen(s, look).NextGeneration? {
      var s1 := RoundTo(s, look);
      CallContinues(s1, look, None, []);
      RoundAnswers(s, look, s1, Called(s1, look, None, []));
    } else {
      LookAnswers(s, look);
    }
  }

  /** A call blocks or ends only at the very end of the log, and comes back with nothing only without room or bytes. */
  ghost predicate Earned(look: Look, answer: (Reading, CallEnd)) {
    var (s, end) := answer;
    end.Answer? ==>
      match end.outcome
      case Waiting => AtEnd(s) && !s.out.log.closed
      case Finished(failed) => AtEnd(s) && s.out.log.closed && failed == s.out.log.failed
      case Data(data, _) => look.max > 0 && look.got > 0 ==> data != []
      case CursorExpired => s.reader.cursor.generation !in s.out.log.segments
      case OpenFailed => !look.opens
      case _ => true
  }

  lemma LookEarned(s: Reading, look: Look)
    requires ReadingOk(s)
    ensures Earned(look, (Peeked(s, look), Answer(Seen(s, look))))
  {
    LookAnswered(s, look);
    if Seen(s, look).Data? {
      DataFills(s, look);
    }
  }

  /** Nobody asks the call to give up. */
  predicate Undisturbed(quit: Option<Quit>, turns: seq<Turn>) {
    quit.None? && forall i :: 0 <= i < |turns| ==> turns[i].quit.None?
  }

  /** A call answers as it should, and is given up only when asked to. */
  lemma {:induction false} CallEarned(s: Reading, look: Look, quit: Option<Quit>, turns: seq<Turn>)
    requires ReadingOk(s) && AllOrdinary(turns)
    ensures Earned(look, Called(s, look, quit, turns))
    ensures Undisturbed(quit, turns) ==> Called(s, look, quit, turns).1.Answer?
    decreases |turns|, Ahead(s)
  {
    if quit.Some? {
    } else if GoesOn(Seen(s, look)) && turns != [] {
      var s1 := TurnTo(s, look, turns[0].ops);
      CallEarned(s1, look, turns[0].quit, turns[1..]);
    } else if Seen(s, look).NextGeneration? {
      var s1 := RoundTo(s, look);
      CallEarned(s1, look, None, []);
    } else {
      LookEarned(s, look);
    }
  }

  /** before is what other parties do since the last call. */
  datatype ReadCall = ReadCall(before: Turn, look: Look, turns: seq<Turn>)

  ghost predicate OrdinaryCall(call: ReadCall) {
    Ordinary(call.before.ops) && AllOrdinary(call.turns)
  }

  ghost function CalledAmid(s: Reading, call: ReadCall): (Reading, CallEnd) {
    Called(Interrupted(s, call.before.ops), call.look, call.before.quit, call.turns)
  }

  /** Calls one after another, with more going on before each; with all that they returned. */
  ghost function Calls(s: Reading, calls: seq<ReadCall>): (Reading, seq<byte>)
    decreases |calls|
  {
    if calls == [] then (s, [])
    else
      var (s1, data) := Calls(s, calls[..|calls| - 1]);
      var (s2, end) := CalledAmid(s1, calls[|calls| - 1]);
      (s2, data + DataOf(end))
  }

  lemma {:induction false} CallsContinue(s: Reading, calls: seq<ReadCall>)
    requires ReadingOk(s) && forall i :: 0 <= i < |calls| ==> OrdinaryCall(calls[i])
    ensures Continues(s, Calls(s, calls).0, Calls(s, calls).1)
    decreases |calls|
  {
    if calls == [] {
      assert s.delivered + [] == s.delivered;
    } else {
      var n := |calls| - 1;
      CallsContinue(s, calls[..n]);
      var (s1, data) := Calls(s, calls[..n]);
      assert OrdinaryCall(calls[n]);
      AmidContinues(s1, calls[n]);
      var (s2, end) := CalledAmid(s1, calls[n]);
      ContinuesOn(s, s1, s2, data, DataOf(end));
    }
  }

  lemma AmidContinues(s: Reading, call: ReadCall)
    requires ReadingOk(s) && OrdinaryCall(call)
    ensures Continues(s, CalledAmid(s, call).0, DataOf(CalledAmid(s, call).1))
  {
    InterruptedOk(s, call.before.ops);
    CallContinues(Interrupted(s, call.before.ops), call.look, call.before.quit, call.turns);
  }

  /** All that the calls of a reader return is, put together, what it has delivered: the log in order. */
  lemma CallsReadInOrder(s: Reading, calls: seq<ReadCall>)
    requires Opens(s) && forall i :: 0 <= i < |calls| ==> OrdinaryCall(calls[i])
    ensures var (s', data) := Calls(s, calls);
            Delivers(s') && s'.start == s.start && data == s'.delivered
  {
    OpensOk(s);
    CallsContinue(s, calls);
    var (s', data) := Calls(s, calls);
    OrderlyDelivers(s');
    assert [] + data == data;
  }
}
