/** Who owns a session: never two, and exactly one unless the commit's answer is lost. */
module HandoffOwnership {
  import opened Basics
  import opened HandoffState
  import opened HandoffSteps
  import opened HandoffInvariant
  import opened HandoffKeeps
  import opened HandoffCommit
  import opened HandoffTheorems

  /** The session was not given away, whether it is served, deleted, or its server is down. */
  ghost predicate SourceOwns(st: State, sid: SessId) {
    sid in st.sessions && st.sessions[sid].given.None?
  }

  ghost predicate TargetOwns(st: State, c: ConnId, sid: SessId) {
    && c in st.conns && st.conns[c].target.pc.Published?
    && exists i :: 0 <= i < |st.conns[c].target.kept| && st.conns[c].target.kept[i].sid == sid
  }

  lemma TargetOwnsGiven(st: State, c: ConnId, sid: SessId)
    requires TargetInv(st) && TargetOwns(st, c, sid)
    ensures sid in st.sessions && st.sessions[sid].given == Some(c)
  {
    assert TargetOk(st.sessions, c, st.conns[c]);
    var i :| 0 <= i < |st.conns[c].target.kept| && st.conns[c].target.kept[i].sid == sid;
    assert Owned(st.sessions, c, st.conns[c].target.kept[i]);
  }

  lemma NeverTwoOwners(st: State, c: ConnId, d: ConnId, sid: SessId)
    requires Reachable(st) && TargetOwns(st, c, sid)
    ensures !SourceOwns(st, sid)
    ensures TargetOwns(st, d, sid) ==> d == c
  {
    ReachableInv(st);
    TargetOwnsGiven(st, c, sid);
    if TargetOwns(st, d, sid) {
      TargetOwnsGiven(st, d, sid);
    }
  }

  /** A session given away has an owner exactly while the target it was given to is published. */
  lemma OwnedIffPublished(st: State, sid: SessId, c: ConnId)
    requires Inv(st) && sid in st.sessions && st.sessions[sid].given == Some(c)
    requires c in st.conns && !st.conns[c].target.pc.Foreign?
    ensures (exists d :: TargetOwns(st, d, sid)) <==> st.conns[c].target.pc.Published?
  {
    assert GivenKept(st, sid);
    if d :| TargetOwns(st, d, sid) {
      TargetOwnsGiven(st, d, sid);
    }
    assert st.conns[c].target.pc.Published? ==> TargetOwns(st, c, sid);
  }

  // ------------------------------------------------------- the answer decides

  /** In this step the target of c, awaiting its commit, reads the answer that the batch was resolved. */
  predicate ReadsAnswer(st: State, step: Step, c: ConnId) {
    && step.TargetReceives? && step.c == c && CanReceive(st, c)
    && st.conns[c].target.pc.Committing? && st.conns[c].replies[0].body.Resolved?
  }

  lemma AnswerPublishes(ss: Sessions, c: ConnId, conn: Conn, build: Build)
    requires TargetOk(ss, c, conn) && conn.target.pc.Committing? && conn.replies != []
    ensures Received(ss, conn, build).target.pc.Published? <==> conn.replies[0].body.Resolved?
    ensures !Received(ss, conn, build).target.pc.Crashed?
  {
    var p: Progress :| CommittingOk(ss, c, conn, p);
    assert p == Answered;
  }

  lemma FailPublishesNothing(conn: Conn)
    ensures CallFailed(conn).target.pc.Published? <==> conn.target.pc.Published?
    ensures CallFailed(conn).target.pc.Crashed? <==> conn.target.pc.Crashed?
  {
  }

  lemma OtherAnswerPublishesNothing(ss: Sessions, conn: Conn, build: Build)
    requires conn.replies != [] && !conn.target.pc.Committing?
    ensures Received(ss, conn, build).target.pc.Published? <==> conn.target.pc.Published?
    ensures Received(ss, conn, build).target.pc.Crashed? <==> conn.target.pc.Crashed?
  {
    FailPublishesNothing(Popped(conn));
  }

  lemma SendPublishesNothing(conn: Conn)
    requires MaySend(conn.target.pc)
    ensures Sent(conn).target.pc.Published? <==> conn.target.pc.Published?
    ensures !Sent(conn).target.pc.Crashed?
  {
  }

  /**
    From conn to conn' the target comes to be published by reading its answer
    alone, and ceases to be by crashing alone.
   */
  predicate PublishesBy(conn: Conn, conn': Conn, answered: bool) {
    && (conn'.target.pc.Published? <==> !conn'.target.pc.Crashed? && (answered || conn.target.pc.Published?))
    && (conn.target.pc.Crashed? ==> conn'.target.pc.Crashed?)
  }

  lemma ReceivePublishes(st: State, c: ConnId, build: Build)
    requires TargetInv(st) && CanReceive(st, c)
    ensures PublishesBy(st.conns[c], Received(st.sessions, st.conns[c], build),
                        ReadsAnswer(st, TargetReceives(c, build), c))
  {
    if st.conns[c].target.pc.Committing? {
      AnswerPublishes(st.sessions, c, st.conns[c], build);
    } else {
      OtherAnswerPublishesNothing(st.sessions, st.conns[c], build);
    }
  }

  /** A step on the wire other than reading publishes nothing and revives nobody. */
  lemma WirePublishesNothing(st: State, step: Step)
    requires OfWire(step) && step.c in st.conns && !step.TargetReceives?
    ensures PublishesBy(st.conns[step.c], Wired(st, step), false)
  {
    if step.TargetSends? {
      if MaySend(st.conns[step.c].target.pc) {
        SendPublishesNothing(st.conns[step.c]);
      }
    } else if step.TargetCallFails? {
      FailPublishesNothing(st.conns[step.c]);
    }
  }

  lemma TakerPublishesNothing(st: State, c: ConnId, i: nat, n: nat, ok: bool)
    requires CanTake(st, c, i)
    ensures CanTargetRead(st, c, i, n) ==>
              c in TargetRead(st, c, i, n).conns && PublishesBy(st.conns[c], TargetRead(st, c, i, n).conns[c], false)
    ensures CanTargetRecord(st, c, i) ==>
              c in TargetRecorded(st, c, i, ok).conns
              && PublishesBy(st.conns[c], TargetRecorded(st, c, i, ok).conns[c], false)
  {
  }

  lemma OwnPublishes(st: State, step: Step, st': State)
    requires TargetInv(st) && TargetStep(st, step, st') && !step.Connect?
    ensures step.c in st.conns && step.c in st'.conns
    ensures PublishesBy(st.conns[step.c], st'.conns[step.c], ReadsAnswer(st, step, step.c))
  {
    if step.TargetReceives? {
      ReceivePublishes(st, step.c, step.build);
    } else if OfWire(step) {
      WireOnly(st, step, st');
      WirePublishesNothing(st, step);
    } else if step.TargetReads? {
      TakerPublishesNothing(st, step.c, step.i, step.n, true);
    } else {
      TakerPublishesNothing(st, step.c, step.i, 0, step.ok);
    }
  }

  lemma ReadIsOwn(st: State, step: Step, st': State, c: ConnId)
    requires Next(st, step, st') && ReadsAnswer(st, step, c)
    ensures OwnMove(st, step, st', c)
  {
  }

  lemma StepPublishes(st: State, step: Step, st': State, c: ConnId)
    requires TargetInv(st) && Next(st, step, st') && c in st.conns
    ensures c in st'.conns && PublishesBy(st.conns[c], st'.conns[c], ReadsAnswer(st, step, c))
  {
    WhoMoves(st, step, st', c);
    if OwnMove(st, step, st', c) {
      OwnPublishes(st, step, st');
    } else if ReadsAnswer(st, step, c) {
      ReadIsOwn(st, step, st', c);
    }
  }

  /** Before moment j the target of c has read the answer to its commit. */
  ghost predicate AnswerRead(run: seq<State>, steps: seq<Step>, j: nat, c: ConnId)
    requires j <= |steps| < |run|
  {
    exists i :: 0 <= i < j && ReadsAnswer(run[i], steps[i], c)
  }

  /** A target is published exactly when it has read the answer to its commit and has not crashed. */
  lemma {:induction false} PublishedIffAnswerRead(run: seq<State>, steps: seq<Step>, j: nat, c: ConnId)
    requires IsRun(run, steps) && j < |run|
    ensures c !in run[j].conns ==> !AnswerRead(run, steps, j, c)
    ensures c in run[j].conns ==>
              (run[j].conns[c].target.pc.Published? <==>
                 !run[j].conns[c].target.pc.Crashed? && AnswerRead(run, steps, j, c))
  {
    if j > 0 {
      PublishedIffAnswerRead(run, steps, j - 1, c);
      RunInv(run, steps, j - 1);
      if c in run[j - 1].conns {
        StepPublishes(run[j - 1], steps[j - 1], run[j], c);
      } else if c in run[j].conns {
        NewConnection(run[j - 1], steps[j - 1], run[j], c);
      }
      AnswerReadStep(run, steps, j - 1, c);
    }
  }

  lemma AnswerReadStep(run: seq<State>, steps: seq<Step>, j: nat, c: ConnId)
    requires j < |steps| < |run|
    ensures AnswerRead(run, steps, j + 1, c) <==> AnswerRead(run, steps, j, c) || ReadsAnswer(run[j], steps[j], c)
  {
  }

  /**
    "Exactly one owner": a session given to a target is owned if and only if
    that target has read the answer to its commit and has not crashed since.
   */
  lemma OwnedIffAnswerRead(run: seq<State>, steps: seq<Step>, j: nat, sid: SessId, c: ConnId)
    requires IsRun(run, steps) && j < |run| && sid in run[j].sessions && run[j].sessions[sid].given == Some(c)
    requires c in run[j].conns && !run[j].conns[c].target.pc.Foreign?
    ensures (exists d :: TargetOwns(run[j], d, sid)) <==>
              !run[j].conns[c].target.pc.Crashed? && AnswerRead(run, steps, j, c)
  {
    RunInv(run, steps, j);
    OwnedIffPublished(run[j], sid, c);
    PublishedIffAnswerRead(run, steps, j, c);
  }

  // ------------------------------------------------------- a target that gave up

  /** The target has given its attempt up, or is gone. */
  predicate GaveUp(pc: TargetPc) {
    pc.Aborting? || pc.Over? || pc.Crashed?
  }

  lemma WireGaveUp(st: State, step: Step)
    requires OfWire(step) && step.c in st.conns && GaveUp(st.conns[step.c].target.pc)
    ensures GaveUp(Wired(st, step).target.pc)
  {
  }

  lemma OwnGaveUp(st: State, step: Step, st': State)
    requires TargetStep(st, step, st') && !step.Connect?
    requires step.c in st.conns && GaveUp(st.conns[step.c].target.pc)
    ensures step.c in st'.conns && GaveUp(st'.conns[step.c].target.pc)
  {
    if OfWire(step) {
      WireOnly(st, step, st');
      WireGaveUp(st, step);
    }
  }

  lemma StepGaveUp(st: State, step: Step, st': State, c: ConnId)
    requires Next(st, step, st') && c in st.conns && GaveUp(st.conns[c].target.pc)
    ensures c in st'.conns && GaveUp(st'.conns[c].target.pc)
  {
    WhoMoves(st, step, st', c);
    if OwnMove(st, step, st', c) {
      OwnGaveUp(st, step, st');
    }
  }

  lemma {:induction false} GaveUpForever(run: seq<State>, steps: seq<Step>, i: nat, j: nat, c: ConnId)
    requires IsRun(run, steps) && i <= j < |run| && c in run[i].conns && GaveUp(run[i].conns[c].target.pc)
    ensures c in run[j].conns && GaveUp(run[j].conns[c].target.pc)
  {
    if i < j {
      GaveUpForever(run, steps, i, j - 1, c);
      StepGaveUp(run[j - 1], steps[j - 1], run[j], c);
    }
  }

  lemma UnpublishedOrphan(st: State, sid: SessId, c: ConnId)
    requires Inv(st) && sid in st.sessions && st.sessions[sid].given == Some(c)
    requires c in st.conns && !st.conns[c].target.pc.Published?
    ensures !SourceOwns(st, sid) && forall d :: !TargetOwns(st, d, sid)
  {
    forall d ensures !TargetOwns(st, d, sid) {
      if TargetOwns(st, d, sid) {
        TargetOwnsGiven(st, d, sid);
      }
    }
  }

  /** A session whose target gave up after the commit was decided has no owner, then or ever after. */
  lemma OrphanForever(run: seq<State>, steps: seq<Step>, i: nat, j: nat, sid: SessId, c: ConnId)
    requires IsRun(run, steps) && i <= j < |run| && sid in run[i].sessions && run[i].sessions[sid].given == Some(c)
    requires c in run[i].conns && GaveUp(run[i].conns[c].target.pc)
    ensures !SourceOwns(run[j], sid) && forall d :: !TargetOwns(run[j], d, sid)
  {
    GivenStays(run, steps, i, j, sid, c);
    GaveUpForever(run, steps, i, j, c);
    UnpublishedOrphaned(run, steps, j, sid, c);
  }

  // ------------------------------------------------------- an answer that is lost

  /** The handler answers no more and nothing it said is on its way. */
  predicate Mute(conn: Conn) {
    !Live(conn.handler) && conn.replies == []
  }

  lemma WireMute(st: State, step: Step)
    requires OfWire(step) && step.c in st.conns && Mute(st.conns[step.c])
    ensures Mute(Wired(st, step))
  {
    WireHandler(st, step);
  }

  lemma OwnMute(st: State, step: Step, st': State)
    requires TargetStep(st, step, st') && !step.Connect? && step.c in st.conns && Mute(st.conns[step.c])
    ensures step.c in st'.conns && Mute(st'.conns[step.c])
  {
    if OfWire(step) {
      WireOnly(st, step, st');
      WireMute(st, step);
    }
  }

  /** A handler that takes a request or settles an adopt is live. */
  lemma RequestIsLive(st: State, step: Step, st': State)
    requires RequestStep(st, step, st')
    ensures step.c in st.conns && Live(st.conns[step.c].handler)
  {
  }

  lemma WaitIsLive(st: State, step: Step, st': State)
    requires WalkStep(st, step, st') && (step.AdoptSettled? || step.AdoptTimesOut? || step.Disconnects?)
    ensures step.c in st.conns && Live(st.conns[step.c].handler)
  {
  }

  lemma ResolveMute(st: State, c: ConnId)
    requires c in st.conns && Mute(st.conns[c])
    ensures CanChoose(st, c) ==> c in Chosen(st, c).conns && Mute(Chosen(st, c).conns[c])
    ensures CanFinish(st, c) ==> c in Finished(st, c).conns && Mute(Finished(st, c).conns[c])
  {
  }

  lemma EndMute(st: State, c: ConnId, sent: bool)
    requires c in st.conns && Mute(st.conns[c]) && CanEnd(st, c)
    ensures c in Ended(st, c, sent).conns && Mute(Ended(st, c, sent).conns[c])
  {
  }

  lemma WalkMute(st: State, step: Step, st': State)
    requires WalkStep(st, step, st') && step.c in st.conns && Mute(st.conns[step.c])
    ensures step.c in st'.conns && Mute(st'.conns[step.c])
  {
    if step.AdoptSettled? || step.AdoptTimesOut? || step.Disconnects? {
      WaitIsLive(st, step, st');
    } else if step.Chooses? || step.Finishes? {
      ResolveMute(st, step.c);
    } else if step.BatchEnds? {
      EndMute(st, step.c, step.sent);
    }
  }

  lemma HandlerMute(st: State, step: Step, st': State)
    requires HandlerStep(st, step, st') && step.c in st.conns && Mute(st.conns[step.c])
    ensures step.c in st'.conns && Mute(st'.conns[step.c])
  {
    if OfWalk(step) {
      WalkMute(st, step, st');
    } else {
      RequestIsLive(st, step, st');
    }
  }

  lemma StepMute(st: State, step: Step, st': State, c: ConnId)
    requires Next(st, step, st') && c in st.conns && Mute(st.conns[c])
    ensures c in st'.conns && Mute(st'.conns[c])
  {
    WhoMoves(st, step, st', c);
    if OwnMove(st, step, st', c) {
      OwnMute(st, step, st');
    } else if HandlerMove(st, step, st', c) {
      HandlerMute(st, step, st');
    }
  }

  lemma {:induction false} MuteForever(run: seq<State>, steps: seq<Step>, i: nat, j: nat, c: ConnId)
    requires IsRun(run, steps) && i <= j < |run| && c in run[i].conns && Mute(run[i].conns[c])
    ensures c in run[j].conns && Mute(run[j].conns[c])
    ensures AnswerRead(run, steps, j, c) ==> AnswerRead(run, steps, i, c)
  {
    if i < j {
      MuteForever(run, steps, i, j - 1, c);
      StepMute(run[j - 1], steps[j - 1], run[j], c);
      AnswerReadStep(run, steps, j - 1, c);
    }
  }

  /** The walk of a target's commit ends and its answer does not leave the source. */
  predicate LosesAnswer(st: State, step: Step, c: ConnId) {
    step == BatchEnds(c, false) && CanEnd(st, c) && Committed(st.conns[c].handler.pc)
  }

  lemma LosingEnd(st: State, c: ConnId)
    requires LosesAnswer(st, BatchEnds(c, false), c) && WalkOk(st.conns[c].handler)
    ensures Ended(st, c, false).conns[c].handler.pc.Leaving?
    ensures Ended(st, c, false).conns[c].replies == st.conns[c].replies
  {
  }

  /** While a commit is being walked over, nothing else has been said. */
  lemma WalkIsSilent(ss: Sessions, c: ConnId, conn: Conn)
    requires TargetOk(ss, c, conn) && conn.target.pc.Committing? && Committed(conn.handler.pc)
    ensures conn.replies == []
  {
    var p: Progress :| CommittingOk(ss, c, conn, p);
    assert p == Occupied;
  }

  lemma LosingMutes(st: State, c: ConnId)
    requires Inv(st) && LosesAnswer(st, BatchEnds(c, false), c) && st.conns[c].target.pc.Committing?
    ensures Mute(Ended(st, c, false).conns[c])
  {
    assert HandlerOk(st, c);
    LosingEnd(st, c);
    WalkIsSilent(st.sessions, c, st.conns[c]);
  }

  lemma LosingTarget(st: State, c: ConnId)
    requires Inv(st) && LosesAnswer(st, BatchEnds(c, false), c) && !st.conns[c].target.pc.Foreign?
    ensures st.conns[c].target.pc.Committing? || GaveUp(st.conns[c].target.pc)
  {
    assert TargetOk(st.sessions, c, st.conns[c]) && CommitOwn(st.conns[c]);
  }

  lemma LosingStep(st: State, step: Step, st': State, c: ConnId)
    requires Next(st, step, st') && LosesAnswer(st, step, c)
    ensures st' == Ended(st, c, false)
  {
  }

  lemma LosingIsUnread(st: State, step: Step, c: ConnId)
    requires LosesAnswer(st, step, c)
    ensures !ReadsAnswer(st, step, c)
  {
  }

  lemma LostAnswerMutes(run: seq<State>, steps: seq<Step>, i: nat, c: ConnId)
    requires IsRun(run, steps) && i < |steps| && LosesAnswer(run[i], steps[i], c)
    requires run[i].conns[c].target.pc.Committing?
    ensures c in run[i + 1].conns && Mute(run[i + 1].conns[c]) && !AnswerRead(run, steps, i + 1, c)
  {
    RunInv(run, steps, i);
    LosingStep(run[i], steps[i], run[i + 1], c);
    LosingMutes(run[i], c);
    PublishedIffAnswerRead(run, steps, i, c);
    LosingIsUnread(run[i], steps[i], c);
    AnswerReadStep(run, steps, i, c);
  }

  lemma MuteUnpublished(run: seq<State>, steps: seq<Step>, i: nat, j: nat, c: ConnId)
    requires IsRun(run, steps) && i <= j < |run| && c in run[i].conns && Mute(run[i].conns[c])
    requires !AnswerRead(run, steps, i, c)
    ensures c in run[j].conns && !run[j].conns[c].target.pc.Published?
  {
    MuteForever(run, steps, i, j, c);
    PublishedIffAnswerRead(run, steps, j, c);
  }

  lemma GivenStays(run: seq<State>, steps: seq<Step>, i: nat, j: nat, sid: SessId, c: ConnId)
    requires IsRun(run, steps) && i <= j < |run| && sid in run[i].sessions && run[i].sessions[sid].given == Some(c)
    ensures sid in run[j].sessions && run[j].sessions[sid].given == Some(c)
  {
    RunLater(run, steps, i, j);
  }

  lemma UnpublishedOrphaned(run: seq<State>, steps: seq<Step>, j: nat, sid: SessId, c: ConnId)
    requires IsRun(run, steps) && j < |run| && sid in run[j].sessions && run[j].sessions[sid].given == Some(c)
    requires c in run[j].conns && !run[j].conns[c].target.pc.Published?
    ensures !SourceOwns(run[j], sid) && forall d :: !TargetOwns(run[j], d, sid)
  {
    RunInv(run, steps, j);
    UnpublishedOrphan(run[j], sid, c);
  }

  lemma LosingTargetOf(run: seq<State>, steps: seq<Step>, i: nat, c: ConnId)
    requires IsRun(run, steps) && i < |steps| && LosesAnswer(run[i], steps[i], c) && !run[i].conns[c].target.pc.Foreign?
    ensures run[i].conns[c].target.pc.Committing? || GaveUp(run[i].conns[c].target.pc)
  {
    RunInv(run, steps, i);
    LosingTarget(run[i], c);
  }

  /** When the answer to a target's commit is lost, what the commit gave it has no owner from then on. */
  lemma LostAnswerOrphans(run: seq<State>, steps: seq<Step>, i: nat, j: nat, sid: SessId, c: ConnId)
    requires IsRun(run, steps) && i < j < |run| && LosesAnswer(run[i], steps[i], c)
    requires !run[i].conns[c].target.pc.Foreign?
    requires sid in run[i].sessions && run[i].sessions[sid].given == Some(c)
    ensures !SourceOwns(run[j], sid) && forall d :: !TargetOwns(run[j], d, sid)
  {
    LosingTargetOf(run, steps, i, c);
    if GaveUp(run[i].conns[c].target.pc) {
      OrphanForever(run, steps, i, j, sid, c);
    } else {
      LostAnswerMutes(run, steps, i, c);
      MuteUnpublished(run, steps, i + 1, j, c);
      GivenStays(run, steps, i, j, sid, c);
      UnpublishedOrphaned(run, steps, j, sid, c);
    }
  }
}
