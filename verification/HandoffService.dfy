/**
  Who goes on: every party can move unless it waits for one that can, and the
  PTY of a live session is readable by its owner again, after a commit as after
  an abort.
 */
module HandoffService {
  import opened Basics
  import opened HandoffState
  import opened HandoffSteps
  import opened HandoffInvariant
  import opened HandoffHandler
  import opened HandoffKeeps
  import opened HandoffTheorems

  // --------------------------------------------------------- the source goes on

  lemma SourceMayRead(st: State, sid: SessId)
    requires st.up && sid in st.sessions && st.sessions[sid].copier.Running? && st.sessions[sid].queue != []
    ensures MayRead(st, TheSource, sid)
  {
    var step := CopierReads(sid, 1);
    var st' := WithSession(st, sid, CopierStep(st.sessions[sid], step).value);
    assert Next(st, step, st') && ReadBy(st, step, sid) == Some(TheSource);
  }

  /**
    An aborted handoff leaves the source serving: it may read the PTY as soon as
    the copy loop has seen the decision.
   */
  lemma AbortResumes(st: State, sid: SessId, st': State)
    requires Reachable(st) && CopierMoves(st, CopierDecides(sid), st')
    requires var s := st.sessions[sid];
             s.tickets[s.copier.ticket].decision == Some(false) && !s.tickets[s.copier.ticket].failed
    ensures st'.up && sid in st'.sessions && st'.sessions[sid].copier.Running?
    ensures st'.sessions[sid].queue != [] ==> MayRead(st', TheSource, sid)
  {
    SessionIsOk(st, sid);
    Resumes(st.sessions[sid], sid);
    if st'.sessions[sid].queue != [] {
      SourceMayRead(st', sid);
    }
  }

  lemma Resumes(s: Session, sid: SessId)
    requires CopierOk(s) && CopierStep(s, CopierDecides(sid)).Some?
    requires s.tickets[s.copier.ticket].decision == Some(false) && !s.tickets[s.copier.ticket].failed
    ensures CopierStep(s, CopierDecides(sid)).value.copier.Running?
  {
  }

  /** The ticket a copy loop follows. */
  function Followed(s: Session): Option<Ticket> {
    if OnTicket(s.copier) && s.copier.ticket < |s.tickets| then Some(s.tickets[s.copier.ticket]) else None
  }

  /**
    A copy loop ends if and only if its PTY does, its log fails, or the handoff
    it waits for failed to settle or was committed.
   */
  lemma CopierEndsIff(st: State, step: Step, st': State)
    requires Reachable(st) && CopierMoves(st, step, st') && !Finishing(st.sessions[step.sid].copier)
    ensures var s, s' := st.sessions[step.sid], st'.sessions[step.sid];
            Finishing(s'.copier) <==>
            || step.CopierStops? || (step.CopierRecords? && s'.logFailed)
            || (step.CopierDecides? && Followed(s).Some?
                && (Followed(s).value.failed || Followed(s).value.decision == Some(true)))
  {
    SessionIsOk(st, step.sid);
    CopierEnds(st.sessions[step.sid], step);
  }

  lemma CopierEnds(s: Session, step: Step)
    requires CopierOk(s) && !Finishing(s.copier) && CopierStep(s, step).Some?
    ensures var s' := CopierStep(s, step).value;
            Finishing(s'.copier) <==>
            || step.CopierStops? || (step.CopierRecords? && s'.logFailed)
            || (step.CopierDecides? && Followed(s).Some?
                && (Followed(s).value.failed || Followed(s).value.decision == Some(true)))
  {
    match step
    case CopierDecides(_) =>
    case DrainRecords(_, _) =>
    case _ =>
  }

  ghost predicate MaySee(st: State, sid: SessId) {
    exists st' :: Next(st, CopierSees(sid), st')
  }

  /** The session is under a migration of a live child, not yet decided. */
  predicate Undecided(s: Session) {
    s.migration.Some? && Lives(s) && s.tickets[|s.tickets| - 1].decision.None?
  }

  /** A running copy loop can turn to a ticket exactly if the ticket is current, of a live child and undecided. */
  lemma CopierSeesIff(st: State, sid: SessId)
    requires Reachable(st) && st.up && sid in st.sessions && st.sessions[sid].copier.Running?
    ensures MaySee(st, sid) <==> Undecided(st.sessions[sid])
  {
    SessionIsOk(st, sid);
    SeesIff(st.sessions[sid], sid);
    SeesByStep(st, sid);
  }

  lemma SeesIff(s: Session, sid: SessId)
    requires GateOk(s) && s.copier.Running?
    ensures CopierStep(s, CopierSees(sid)).Some? <==> Undecided(s)
  {
  }

  lemma SeesByStep(st: State, sid: SessId)
    requires st.up && sid in st.sessions
    ensures MaySee(st, sid) <==> CopierStep(st.sessions[sid], CopierSees(sid)).Some?
  {
    if CopierStep(st.sessions[sid], CopierSees(sid)).Some? {
      var st' := WithSession(st, sid, CopierStep(st.sessions[sid], CopierSees(sid)).value);
      assert Next(st, CopierSees(sid), st');
    }
  }

  /** A drain's ticket in s' after a step that found s: settled, as failed exactly if the drain failed, or not yet. */
  ghost predicate Settles(s: Session, step: Step, s': Session)
    requires step.DrainEnds? || step.DrainRecords?
  {
    && |s'.tickets| == |s.tickets| > 0
    && var t := s'.tickets[|s.tickets| - 1];
       if step.DrainEnds? || s'.logFailed
       then t.stable && s'.copier.Awaiting? && (t.failed <==> step.DrainRecords? || !step.clean)
       else !t.stable && s'.copier.Draining?
  }

  /** The end of a drain settles its ticket, as failed exactly if the drain failed. */
  lemma DrainSettles(st: State, step: Step, st': State)
    requires Reachable(st) && CopierMoves(st, step, st') && (step.DrainEnds? || step.DrainRecords?)
    ensures Settles(st.sessions[step.sid], step, st'.sessions[step.sid])
  {
    SessionIsOk(st, step.sid);
    DrainStepSettles(st.sessions[step.sid], step);
  }

  lemma DrainStepSettles(s: Session, step: Step)
    requires SessionOk(s) && CopierStep(s, step).Some? && (step.DrainEnds? || step.DrainRecords?)
    ensures Settles(s, step, CopierStep(s, step).value)
  {
  }

  /** s' is s with its current ticket, if nobody decided it, settled as failed and aborted. */
  ghost predicate SettlesUnseen(s: Session, s': Session) {
    && s'.migration == s.migration && s'.copier.Settled?
    && (s.migration.Some? ==>
          && |s'.tickets| == |s.tickets| > 0
          && var t, t' := s.tickets[|s.tickets| - 1], s'.tickets[|s.tickets| - 1];
             if t.decision.None? then t'.decision == Some(false) && t'.stable && t'.failed && t'.stopped
             else t' == t)
  }

  /** A copy loop that has ended leaves no ticket undecided that it never saw. */
  lemma ExitSettles(st: State, sid: SessId, st': State)
    requires Reachable(st) && CopierMoves(st, CopierSettles(sid), st')
    ensures SettlesUnseen(st.sessions[sid], st'.sessions[sid])
  {
    SessionIsOk(st, sid);
    ExitStepSettles(st.sessions[sid], sid);
  }

  lemma ExitStepSettles(s: Session, sid: SessId)
    requires GateOk(s) && CopierStep(s, CopierSettles(sid)).Some?
    ensures SettlesUnseen(s, CopierStep(s, CopierSettles(sid)).value)
  {
  }

  /** The copy loop is blocked on an undecided ticket. */
  predicate Blocked(s: Session) {
    s.copier.Awaiting? && s.copier.ticket < |s.tickets| && s.tickets[s.copier.ticket].decision.None?
  }

  /** The copy loop of sid can step. */
  ghost predicate CopierMoving(st: State, sid: SessId) {
    exists step, st' :: IsCopierStep(step) && step.sid == sid && Next(st, step, st')
  }

  lemma CopierMovesBy(st: State, sid: SessId, step: Step)
    requires st.up && sid in st.sessions && IsCopierStep(step) && step.sid == sid
    requires CopierStep(st.sessions[sid], step).Some?
    ensures CopierMoving(st, sid)
  {
    var st' := WithSession(st, sid, CopierStep(st.sessions[sid], step).value);
    assert Next(st, step, st');
  }

  lemma CopierFree(s: Session, sid: SessId) returns (step: Step)
    requires SessionOk(s) && !s.copier.Done? && !Blocked(s)
    ensures IsCopierStep(step) && step.sid == sid && CopierStep(s, step).Some?
  {
    step := match s.copier
            case Running => CopierStops(sid)
            case Holding(_) => CopierRecords(sid, true)
            case Draining(_) => DrainEnds(sid, true)
            case Drained(_, _) => DrainRecords(sid, true)
            case Awaiting(_, _) => CopierDecides(sid)
            case Exiting => CopierSettles(sid)
            case _ => CopierCloses(sid);
  }

  /** While the source is up, a copy loop can step unless it is done or blocked on an undecided ticket. */
  lemma CopierGoesOnIff(st: State, sid: SessId)
    requires Reachable(st) && st.up && sid in st.sessions
    ensures CopierMoving(st, sid) <==> !st.sessions[sid].copier.Done? && !Blocked(st.sessions[sid])
  {
    SessionIsOk(st, sid);
    if !st.sessions[sid].copier.Done? && !Blocked(st.sessions[sid]) {
      var step := CopierFree(st.sessions[sid], sid);
      CopierMovesBy(st, sid, step);
    } else if CopierMoving(st, sid) {
      var step, st' :| IsCopierStep(step) && step.sid == sid && Next(st, step, st');
      CopierUnblocked(st.sessions[sid], step);
    }
  }

  lemma CopierUnblocked(s: Session, step: Step)
    requires CopierStep(s, step).Some?
    ensures !s.copier.Done? && !Blocked(s)
  {
  }

  // -------------------------------------------------------- the handlers go on

  /** The handler waits in finishMigration for the copy loop of this session to let go. */
  ghost predicate WaitsFor(st: State, c: ConnId, sid: SessId) {
    && InFinish(st, c) && st.conns[c].handler.pc.chosen && !CanFinish(st, c)
    && var h := st.conns[c].handler;
       h.pending[h.pc.batch[h.pc.done]].sid == sid
  }

  ghost predicate HandlerMoving(st: State, c: ConnId) {
    exists step, st' :: (OfWalk(step) || OfRequest(step)) && step.c == c && Next(st, step, st')
  }

  lemma HandlerMovesBy(st: State, c: ConnId, step: Step, st': State)
    requires OfWalk(step) && step.c == c && WalkStep(st, step, st')
    ensures HandlerMoving(st, c)
  {
    assert Next(st, step, st');
  }

  lemma {:induction false} Enumerated(names: set<Name>) returns (order: seq<Name>)
    ensures NoDup(order) && Names(order) == names
  {
    if names == {} {
      order := [];
    } else {
      var name :| name in names;
      var rest := Enumerated(names - {name});
      order := rest + [name];
      assert forall i :: 0 <= i < |rest| ==> rest[i] in Names(rest);
      forall x | x in names ensures x in Names(order) {
        if x == name {
          assert order[|rest|] == x;
        } else {
          assert x in Names(rest);
          var i :| 0 <= i < |rest| && rest[i] == x;
          assert order[i] == x;
        }
      }
    }
  }

  lemma WalkFree(st: State, c: ConnId)
    requires SourceInv(st) && st.up && c in st.conns && st.conns[c].handler.pc.Resolving?
    ensures InFinish(st, c) || CanEnd(st, c)
  {
    assert HandlerOk(st, c);
    var h := st.conns[c].handler;
    if h.pc.done < |h.pc.batch| {
      assert PendingName(st, c, h.pc.batch[h.pc.done]);
    }
  }

  lemma WalkMoves(st: State, c: ConnId)
    requires CanEnd(st, c) || CanChoose(st, c) || CanFinish(st, c)
    ensures HandlerMoving(st, c)
  {
    if CanEnd(st, c) {
      HandlerMovesBy(st, c, BatchEnds(c, true), Ended(st, c, true));
    } else if CanChoose(st, c) {
      HandlerMovesBy(st, c, Chooses(c), Chosen(st, c));
    } else {
      HandlerMovesBy(st, c, Finishes(c), Finished(st, c));
    }
  }

  lemma ResolvingGoesOn(st: State, c: ConnId)
    requires SourceInv(st) && st.up && c in st.conns && st.conns[c].handler.pc.Resolving?
    ensures HandlerMoving(st, c) || exists sid :: WaitsFor(st, c, sid)
  {
    WalkFree(st, c);
    if CanEnd(st, c) || CanChoose(st, c) || CanFinish(st, c) {
      WalkMoves(st, c);
    } else {
      var h := st.conns[c].handler;
      assert WaitsFor(st, c, h.pending[h.pc.batch[h.pc.done]].sid);
    }
  }

  lemma StabilizingGoesOn(st: State, c: ConnId)
    requires SourceInv(st) && st.up && c in st.conns && st.conns[c].handler.pc.Stabilizing?
    ensures HandlerMoving(st, c)
  {
    assert HandlerOk(st, c);
    assert PendingName(st, c, st.conns[c].handler.pc.name);
    HandlerMovesBy(st, c, AdoptTimesOut(c), AdoptExpired(st, c));
  }

  /** No handler of a source that is up is stuck before it is gone: it moves, or waits for a copy loop that moves. */
  lemma HandlerGoesOn(st: State, c: ConnId)
    requires Reachable(st) && st.up && c in st.conns && !st.conns[c].handler.pc.Gone?
    ensures HandlerMoving(st, c) || exists sid :: WaitsFor(st, c, sid) && CopierMoving(st, sid)
  {
    ReachableInv(st);
    var pc := st.conns[c].handler.pc;
    if pc.Ready? {
      HandlerMovesBy(st, c, Disconnects(c), Disconnected(st, c));
    } else if pc.Stabilizing? {
      StabilizingGoesOn(st, c);
    } else if pc.Leaving? {
      var order := Enumerated(st.conns[c].handler.pending.Keys);
      HandlerMovesBy(st, c, Unwinds(c, order), Unwound(st, c, order));
    } else {
      WalkerGoesOn(st, c);
    }
  }

  lemma WalkerGoesOn(st: State, c: ConnId)
    requires Reachable(st) && Inv(st) && st.up && c in st.conns && st.conns[c].handler.pc.Resolving?
    ensures HandlerMoving(st, c) || exists sid :: WaitsFor(st, c, sid) && CopierMoving(st, sid)
  {
    ResolvingGoesOn(st, c);
    if exists sid :: WaitsFor(st, c, sid) {
      var sid :| WaitsFor(st, c, sid);
      WaitedMoves(st, c, sid);
    }
  }

  lemma WaitedMoves(st: State, c: ConnId, sid: SessId)
    requires Reachable(st) && Inv(st) && WaitsFor(st, c, sid)
    ensures CopierMoving(st, sid)
  {
    WalkHead(st, c);
    assert SessionOk(st.sessions[sid]);
    CopierGoesOnIff(st, sid);
  }

  // ------------------------------------------------------------ the target goes on

  /** A published target may read the PTY of any session it runs. */
  lemma TargetMayRead(st: State, c: ConnId, i: nat)
    requires Reachable(st) && c in st.conns && st.conns[c].target.pc.Published? && i < |st.conns[c].target.kept|
    requires st.conns[c].target.kept[i].taker.Taking?
    ensures var sid := st.conns[c].target.kept[i].sid;
            sid in st.sessions && (st.sessions[sid].queue != [] ==> MayRead(st, Adopter(c), sid))
  {
    ReachableInv(st);
    var k := st.conns[c].target.kept[i];
    assert TargetOk(st.sessions, c, st.conns[c]) && Owned(st.sessions, c, k);
    if st.sessions[k.sid].queue != [] {
      TakerMayRead(st, c, i);
    }
  }

  lemma TakerMayRead(st: State, c: ConnId, i: nat)
    requires CanTargetRead(st, c, i, 1)
    ensures MayRead(st, Adopter(c), st.conns[c].target.kept[i].master.value)
  {
    var step := TargetReads(c, i, 1);
    assert Next(st, step, TargetRead(st, c, i, 1));
    assert ReadBy(st, step, st.conns[c].target.kept[i].master.value) == Some(Adopter(c));
  }

  /** A commit whose answer is read leaves every live session served: the target runs each and no other. */
  lemma CommitResumes(st: State, c: ConnId, build: Build, st': State, i: nat)
    requires Reachable(st) && Next(st, TargetReceives(c, build), st')
    requires st.conns[c].target.pc.Committing? && st'.conns[c].target.pc.Published? && i < |st'.conns[c].target.kept|
    ensures var k := st'.conns[c].target.kept[i];
            k.sid in st'.sessions && (k.taker.Taking? <==> Lives(st'.sessions[k.sid]))
  {
    ReachableInv(st);
    assert TargetOk(st.sessions, c, st.conns[c]);
    TakersRun(st.sessions, c, st.conns[c], build, i);
  }

  lemma Publishes(ss: Sessions, conn: Conn, build: Build)
    requires conn.replies != [] && conn.target.pc.Committing? && Received(ss, conn, build).target.pc.Published?
    ensures conn.replies[0].body.Resolved?
    ensures Received(ss, conn, build).target.kept == TakersStarted(conn.target.kept)
  {
  }

  lemma TakersRun(ss: Sessions, c: ConnId, conn: Conn, build: Build, i: nat)
    requires conn.replies != [] && conn.target.pc.Committing? && TargetOk(ss, c, conn)
    requires Received(ss, conn, build).target.pc.Published? && i < |Received(ss, conn, build).target.kept|
    ensures var k := Received(ss, conn, build).target.kept[i];
            k.sid in ss && (k.taker.Taking? <==> Lives(ss[k.sid]))
  {
    Publishes(ss, conn, build);
    var p: Progress :| CommittingOk(ss, c, conn, p);
    assert Granted(ss, c, conn);
    assert Steady(ss, conn.target.kept[i]);
  }

  /** A target's loop ends, in a step of its own, if and only if the PTY does or the log fails. */
  lemma TakerEndsIff(st: State, step: Step, st': State, c: ConnId, i: nat)
    requires OwnMove(st, step, st', c) && c in st.conns && st.conns[c].target.pc.Published?
    requires i < |st.conns[c].target.kept| && !st.conns[c].target.kept[i].taker.Stopped?
    ensures c in st'.conns && i < |st'.conns[c].target.kept|
    ensures st'.conns[c].target.kept[i].taker.Stopped? <==>
            || step == TargetStops(c, i)
            || (step.TargetRecords? && step.i == i
                && (!step.ok || st.sessions[st.conns[c].target.kept[i].sid].logFailed))
  {
    if OfWire(step) {
      WireOnly(st, step, st');
      WireEnds(st, step, i);
    } else if step.TargetReads? {
      ReadingEnds(st, step, st', i);
    } else {
      RecordingEnds(st, step, st', i);
    }
  }

  lemma WireEnds(st: State, step: Step, i: nat)
    requires OfWire(step) && step.c in st.conns && st.conns[step.c].target.pc.Published?
    requires TargetStep(st, step, WithConn(st, step.c, Wired(st, step)))
    requires i < |st.conns[step.c].target.kept| && !st.conns[step.c].target.kept[i].taker.Stopped?
    ensures i < |Wired(st, step).target.kept|
    ensures Wired(st, step).target.kept[i].taker.Stopped? <==> step == TargetStops(step.c, i)
  {
    if !step.TargetStops? {
      WireKeepsKept(st, step);
    }
  }

  lemma WireKeepsKept(st: State, step: Step)
    requires OfWire(step) && step.c in st.conns && st.conns[step.c].target.pc.Published? && !step.TargetStops?
    ensures Wired(st, step).target.kept == st.conns[step.c].target.kept
  {
    if step.TargetReceives? && st.conns[step.c].replies != [] {
      assert Received(st.sessions, st.conns[step.c], step.build) == Popped(st.conns[step.c]);
    }
  }

  lemma ReadingEnds(st: State, step: Step, st': State, i: nat)
    requires step.TargetReads? && TargetStep(st, step, st')
    requires i < |st.conns[step.c].target.kept| && !st.conns[step.c].target.kept[i].taker.Stopped?
    ensures step.c in st'.conns && i < |st'.conns[step.c].target.kept|
    ensures !st'.conns[step.c].target.kept[i].taker.Stopped?
  {
    ReadEndsNone(st, step.c, step.i, step.n, i);
  }

  lemma RecordingEnds(st: State, step: Step, st': State, i: nat)
    requires step.TargetRecords? && TargetStep(st, step, st')
    requires i < |st.conns[step.c].target.kept| && !st.conns[step.c].target.kept[i].taker.Stopped?
    ensures step.c in st'.conns && i < |st'.conns[step.c].target.kept|
    ensures st'.conns[step.c].target.kept[i].taker.Stopped? <==>
            step.i == i && (!step.ok || st.sessions[st.conns[step.c].target.kept[i].sid].logFailed)
  {
    RecordEnds(st, step.c, step.i, step.ok, i);
  }

  lemma ReadEndsNone(st: State, c: ConnId, k: nat, n: nat, i: nat)
    requires CanTargetRead(st, c, k, n) && i < |st.conns[c].target.kept| && !st.conns[c].target.kept[i].taker.Stopped?
    ensures var kept := TargetRead(st, c, k, n).conns[c].target.kept;
            i < |kept| && !kept[i].taker.Stopped?
  {
  }

  lemma RecordEnds(st: State, c: ConnId, k: nat, ok: bool, i: nat)
    requires CanTargetRecord(st, c, k) && i < |st.conns[c].target.kept| && !st.conns[c].target.kept[i].taker.Stopped?
    ensures var kept := TargetRecorded(st, c, k, ok).conns[c].target.kept;
            i < |kept|
            && (kept[i].taker.Stopped? <==>
                k == i && (!ok || st.sessions[st.conns[c].target.kept[i].sid].logFailed))
  {
    RecordedKept(st, c, k, ok);
  }

  lemma RecordedKept(st: State, c: ConnId, k: nat, ok: bool)
    requires CanTargetRecord(st, c, k)
    ensures var kept, kept' := st.conns[c].target.kept, TargetRecorded(st, c, k, ok).conns[c].target.kept;
            && k < |kept'| && kept' == kept[k := kept'[k]]
            && (kept'[k].taker.Stopped? <==> !ok || st.sessions[kept[k].sid].logFailed)
  {
    if ok && !st.sessions[st.conns[c].target.kept[k].sid].logFailed {
      RecordedWell(st, c, k);
    } else {
      RecordedBadly(st, c, k, ok);
    }
  }

  lemma RecordedWell(st: State, c: ConnId, k: nat)
    requires CanTargetRecord(st, c, k) && !st.sessions[st.conns[c].target.kept[k].sid].logFailed
    ensures var kept, kept' := st.conns[c].target.kept, TargetRecorded(st, c, k, true).conns[c].target.kept;
            k < |kept'| && kept' == kept[k := kept'[k]] && !kept'[k].taker.Stopped?
  {
  }

  lemma RecordedBadly(st: State, c: ConnId, k: nat, ok: bool)
    requires CanTargetRecord(st, c, k) && (!ok || st.sessions[st.conns[c].target.kept[k].sid].logFailed)
    ensures var kept, kept' := st.conns[c].target.kept, TargetRecorded(st, c, k, ok).conns[c].target.kept;
            k < |kept'| && kept' == kept[k := kept'[k]] && kept'[k].taker.Stopped?
  {
  }

  /** A target that is not over makes its next call, or waits for an answer and may give up waiting. */
  lemma TargetGoesOn(st: State, c: ConnId)
    requires IsTarget(st, c) && !st.conns[c].target.pc.Over?
    ensures MaySend(st.conns[c].target.pc) ==> exists st' :: Next(st, TargetSends(c), st')
    ensures !MaySend(st.conns[c].target.pc) ==> exists st' :: Next(st, TargetCallFails(c), st')
  {
    var conn := st.conns[c];
    if MaySend(conn.target.pc) {
      assert Next(st, TargetSends(c), WithConn(st, c, Sent(conn)));
    } else {
      assert Next(st, TargetCallFails(c), WithConn(st, c, CallFailed(conn)));
    }
  }

  /** And it reads whatever arrives. */
  lemma TargetListens(st: State, c: ConnId, build: Build)
    requires IsTarget(st, c) && st.conns[c].replies != []
    ensures exists st' :: Next(st, TargetReceives(c, build), st')
  {
    assert Next(st, TargetReceives(c, build), WithConn(st, c, Received(st.sessions, st.conns[c], build)));
  }

  /** The target reads the answer to its call. */
  ghost predicate Hears(st: State, c: ConnId, body: Body) {
    && IsTarget(st, c) && st.conns[c].replies != [] && !st.conns[c].target.skipped
    && st.conns[c].replies[0].id + 1 == st.conns[c].target.nextId && st.conns[c].replies[0].body == body
  }

  /** A target that is granted what it asked for goes on with it: the list, then each session, then all of them. */
  lemma GrantIsUsed(st: State, c: ConnId, build: Build, body: Body)
    requires Reachable(st) && Hears(st, c, body)
    ensures var t, t' := st.conns[c].target, Received(st.sessions, st.conns[c], build).target;
            && (t.pc.Listing? && body.Listed? ==> t'.pc.Preparing? && t'.listed == body.names && t'.next == 0)
            && (t.pc.Adopting? && body.Adopted? ==> t'.pc.Snapshotting? && t'.pc.sid == body.sid)
            && (t.pc.Snapshotting? && body.Snapshot? && !build.Unusable? && (build.Native? ==> body.native) ==>
                  && t'.pc.Preparing? && t'.next == t.next + 1 && |t'.kept| == |t.kept| + 1
                  && t'.kept[|t.kept|].sid == t.pc.sid && t'.kept[|t.kept|].native == build.Native?)
            && (t.pc.Committing? && body.Resolved? ==> t'.pc.Published?)
  {
    ReachableInv(st);
    assert TargetOk(st.sessions, c, st.conns[c]);
    if st.conns[c].target.pc.Adopting? {
      var p: Progress :| AdoptingOk(st.sessions, st.conns[c], p);
    } else if st.conns[c].target.pc.Committing? {
      var p: Progress :| CommittingOk(st.sessions, c, st.conns[c], p);
    }
  }

  /** The attempt is over for this target, or it is about to tell the source so. */
  predicate Ending(pc: TargetPc) {
    pc.Aborting? || pc.Over?
  }

  /** From conn to conn' the target gave its attempt up and asked for the release of all it had prepared. */
  ghost predicate GivesBack(conn: Conn, conn': Conn) {
    && conn'.target.kept == conn.target.kept
    && (conn.target.kept != [] ==>
          conn'.requests == conn.requests + [BatchRequest(conn.target.nextId, KeptNames(conn.target.kept), false)])
  }

  lemma FailureGivesBack(conn: Conn)
    requires !Ending(conn.target.pc) && Ending(CallFailed(conn).target.pc)
    ensures GivesBack(conn, CallFailed(conn)) || conn.target.pc.Listing?
  {
  }

  lemma SendGivesBack(conn: Conn)
    requires MaySend(conn.target.pc) && Ending(Sent(conn).target.pc)
    ensures GivesBack(conn, Sent(conn))
  {
  }

  /** A target that gives up asks for the release of everything it prepared. */
  lemma GivenUpGivesBack(st: State, step: Step, st': State, c: ConnId)
    requires Reachable(st) && Next(st, step, st') && IsTarget(st, c) && IsTarget(st', c)
    requires !Ending(st.conns[c].target.pc) && Ending(st'.conns[c].target.pc)
    ensures step.TargetReceives? || GivesBack(st.conns[c], st'.conns[c])
    ensures step.TargetReceives? ==>
              st.conns[c].replies != [] && GivesBack(Popped(st.conns[c]), st'.conns[c])
  {
    ReachableInv(st);
    WhoMoves(st, step, st', c);
    assert TargetOk(st.sessions, c, st.conns[c]);
    OwnEnding(st, step, st', c);
    if step.TargetSends? {
      SendGivesBack(st.conns[c]);
    } else if step.TargetCallFails? {
      FailureGivesBack(st.conns[c]);
    } else {
      ReadGivesBack(st.sessions, st.conns[c], step.build);
    }
  }

  lemma OwnEnding(st: State, step: Step, st': State, c: ConnId)
    requires OwnMove(st, step, st', c) && IsTarget(st, c) && IsTarget(st', c)
    requires !Ending(st.conns[c].target.pc) && Ending(st'.conns[c].target.pc)
    ensures step.TargetSends? || step.TargetCallFails? || step.TargetReceives?
    ensures step.TargetSends? ==> MaySend(st.conns[c].target.pc) && st'.conns[c] == Sent(st.conns[c])
    ensures step.TargetCallFails? ==> st'.conns[c] == CallFailed(st.conns[c])
    ensures step.TargetReceives? ==>
              st.conns[c].replies != [] && st'.conns[c] == Received(st.sessions, st.conns[c], step.build)
  {
    if OfWire(step) {
      WireOnly(st, step, st');
      WiredEnding(st, step);
    } else {
      TakingKeepsPc(st, step, st');
    }
  }

  lemma WiredEnding(st: State, step: Step)
    requires OfWire(step) && step.c in st.conns
    requires var pc := st.conns[step.c].target.pc;
             var pc' := Wired(st, step).target.pc;
             !pc.Foreign? && !pc'.Crashed? && !Ending(pc) && Ending(pc')
    ensures step.TargetSends? || step.TargetCallFails? || step.TargetReceives?
    ensures step.TargetSends? ==>
              MaySend(st.conns[step.c].target.pc) && Wired(st, step) == Sent(st.conns[step.c])
    ensures step.TargetCallFails? ==> Wired(st, step) == CallFailed(st.conns[step.c])
    ensures step.TargetReceives? ==>
              && st.conns[step.c].replies != []
              && Wired(st, step) == Received(st.sessions, st.conns[step.c], step.build)
  {
  }

  lemma TakingKeepsPc(st: State, step: Step, st': State)
    requires (step.TargetReads? || step.TargetRecords?) && TargetStep(st, step, st')
    ensures step.c in st.conns && step.c in st'.conns && st'.conns[step.c].target.pc == st.conns[step.c].target.pc
  {
  }

  lemma ReadGivesBack(ss: Sessions, conn: Conn, build: Build)
    requires conn.replies != [] && !Ending(conn.target.pc) && Ending(Received(ss, conn, build).target.pc)
    requires conn.target.pc.Listing? ==> conn.target.kept == []
    ensures GivesBack(Popped(conn), Received(ss, conn, build))
  {
    FailureGivesBack(Popped(conn));
  }
}
