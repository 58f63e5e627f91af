/** Every step keeps what each target knows of the sessions it prepares and owns. */
module HandoffTargets {
  import opened Basics
  import opened HandoffState
  import opened HandoffSteps
  import opened HandoffInvariant
  import opened HandoffSource
  import opened HandoffHandler
  import opened HandoffTarget
  import opened HandoffServed
  import opened HandoffAdopting
  import opened HandoffKeeps

  ghost predicate TargetsOk(ss: Sessions, conns: map<ConnId, Conn>) {
    forall c :: c in conns ==> TargetOk(ss, c, conns[c])
  }

  /** A step that touches one connection, whose target it leaves right. */
  lemma OneServed(st: State, st': State, c: ConnId)
    requires TargetsOk(st'.sessions, st.conns) && Touches(st, st', c) && TargetOk(st'.sessions, c, st'.conns[c])
    ensures TargetInv(st')
  {
  }

  /** A step that disturbs no target's sessions. */
  lemma NoneDisturbed(st: State, ss': Sessions)
    requires SourceInv(st) && TargetInv(st) && forall d :: d in st.conns ==> Undisturbed(st, ss', d)
    ensures TargetsOk(ss', st.conns)
  {
    forall d | d in st.conns ensures TargetOk(ss', d, st.conns[d]) {
      TargetFrame(st, ss', d);
    }
  }

  // ------------------------------------------------------------------- requests

  lemma ListTargets(st: State, c: ConnId, order: seq<Name>, sent: bool)
    requires TargetInv(st) && CanList(st, c, order)
    ensures TargetInv(ListedState(st, c, order, sent))
  {
    var conn := st.conns[c];
    RefusalServed(st.sessions, c, conn, sent);
    var h := conn.handler.(frozen := true, pc := if sent then Ready else Leaving);
    ListServed(st.sessions, c, conn, order, h, sent);
    OneServed(st, ListedState(st, c, order, sent), c);
  }

  lemma SameDisturbsNobody(st: State, sid: SessId, s': Session, d: ConnId)
    requires d in st.conns && (sid in st.sessions ==> Same(st.sessions[sid], s'))
    ensures Undisturbed(st, st.sessions[sid := s'], d)
  {
  }

  /** Of the sessions an adopt changes at most the one it names, by beginning its migration. */
  lemma AdoptSessions(st: State, c: ConnId, sent: bool)
    requires CanAdopt(st, c) && AdoptBegun(st, c, sent).sessions != st.sessions
    ensures var name := st.conns[c].requests[0].name;
            && st.conns[c].handler.frozen && name !in st.conns[c].handler.pending
            && name in st.hub && st.hub[name] in st.sessions
            && Begun(st.sessions[st.hub[name]], c).Some?
            && AdoptBegun(st, c, sent).sessions
               == st.sessions[st.hub[name] := Begun(st.sessions[st.hub[name]], c).value]
  {
  }

  /** A session of the hub that no handler holds is guarded for nobody. */
  lemma NewcomerUnguarded(st: State, c: ConnId, name: Name, d: ConnId)
    requires SourceInv(st) && c in st.conns && d in st.conns && st.conns[c].handler.frozen
    requires name in st.hub && st.hub[name] in st.sessions && name !in st.conns[c].handler.pending
    requires st.sessions[st.hub[name]].given.None?
    ensures !Guarded(st, d, st.hub[name])
  {
    assert HandlerOk(st, c) && HandlerOk(st, d);
  }

  lemma UnguardedMoves(st: State, sid: SessId, s': Session, d: ConnId)
    requires d in st.conns && sid in st.sessions && !Guarded(st, d, sid)
    ensures Undisturbed(st, st.sessions[sid := s'], d)
  {
  }

  lemma AdoptDisturbsNobody(st: State, c: ConnId, sent: bool, d: ConnId)
    requires SourceInv(st) && CanAdopt(st, c) && d in st.conns
    ensures Undisturbed(st, AdoptBegun(st, c, sent).sessions, d)
  {
    if AdoptBegun(st, c, sent).sessions != st.sessions {
      AdoptSessions(st, c, sent);
      var name := st.conns[c].requests[0].name;
      FrozenReady(st, c, name);
      NewcomerUnguarded(st, c, name, d);
      UnguardedMoves(st, st.hub[name], Begun(st.sessions[st.hub[name]], c).value, d);
    }
  }

  lemma AdoptRequestServed(st: State, c: ConnId, sent: bool)
    requires SourceInv(st) && CanAdopt(st, c) && TargetOk(AdoptBegun(st, c, sent).sessions, c, st.conns[c])
    ensures TargetOk(AdoptBegun(st, c, sent).sessions, c, AdoptBegun(st, c, sent).conns[c])
  {
    var st' := AdoptBegun(st, c, sent);
    var conn := st.conns[c];
    if st'.conns[c].handler == conn.handler {
      RefusalServed(st'.sessions, c, conn, sent);
    } else {
      var h' := st'.conns[c].handler;
      AdoptServed(st'.sessions, c, conn, h', h'.pending[conn.requests[0].name]);
    }
  }

  lemma AdoptTargets(st: State, c: ConnId, sent: bool)
    requires SourceInv(st) && TargetInv(st) && CanAdopt(st, c)
    ensures TargetInv(AdoptBegun(st, c, sent))
  {
    var st' := AdoptBegun(st, c, sent);
    forall d | d in st.conns ensures Undisturbed(st, st'.sessions, d) {
      AdoptDisturbsNobody(st, c, sent, d);
    }
    NoneDisturbed(st, st'.sessions);
    AdoptRequestServed(st, c, sent);
    OneServed(st, st', c);
  }

  lemma PendingScreen(st: State, c: ConnId, name: Name)
    requires SourceInv(st) && c in st.conns && st.conns[c].handler.pc.Ready? && name in st.conns[c].handler.pending
    ensures var sid := st.conns[c].handler.pending[name].sid;
            sid in st.sessions && st.sessions[sid].screen == st.sessions[sid].log
  {
    assert HandlerOk(st, c) && PendingName(st, c, name);
    assert SessionOk(st.sessions[st.conns[c].handler.pending[name].sid]);
  }

  lemma SnapshotTargets(st: State, c: ConnId, native: bool, sent: bool)
    requires SourceInv(st) && TargetInv(st) && CanSnapshot(st, c)
    ensures TargetInv(SnapshotAnswered(st, c, native, sent))
  {
    var conn := st.conns[c];
    var name := conn.requests[0].name;
    if name in conn.handler.pending {
      var s := st.sessions[conn.handler.pending[name].sid];
      PendingScreen(st, c, name);
      SnapshotServed(st.sessions, c, conn, if native then s.screen else [], native, sent);
    } else {
      RefusalServed(st.sessions, c, conn, sent);
    }
    OneServed(st, SnapshotAnswered(st, c, native, sent), c);
  }

  lemma BatchTargets(st: State, c: ConnId, sent: bool)
    requires SourceInv(st) && TargetInv(st) && CanBatch(st, c)
    ensures TargetInv(BatchBegun(st, c, sent))
  {
    BatchPasses(st, c);
    if BatchPc(st, st.conns[c].handler, st.conns[c].requests[0]).None? {
      RefusalServed(st.sessions, c, st.conns[c], sent);
    } else {
      BatchServed(st.sessions, c, st.conns[c]);
    }
    OneServed(st, BatchBegun(st, c, sent), c);
  }

  lemma ExitTargets(st: State, c: ConnId, sent: bool)
    requires TargetInv(st) && CanExit(st, c)
    ensures TargetInv(ExitAnswered(st, c, sent))
  {
    RefusalServed(st.sessions, c, st.conns[c], sent);
    ExitServed(st.sessions, c, st.conns[c], sent);
    OneServed(st, ExitAnswered(st, c, sent), c);
  }

  lemma OtherTargets(st: State, c: ConnId, sent: bool)
    requires TargetInv(st) && CanOther(st, c)
    ensures TargetInv(OtherAnswered(st, c, sent))
  {
    RefusalServed(st.sessions, c, st.conns[c], sent);
    OneServed(st, OtherAnswered(st, c, sent), c);
  }

  lemma RequestTargets(st: State, step: Step, st': State)
    requires SourceInv(st) && TargetInv(st) && RequestStep(st, step, st')
    ensures TargetInv(st')
  {
    if step.HandleList? {
      ListTargets(st, step.c, step.order, step.sent);
    } else if step.HandleAdopt? {
      AdoptTargets(st, step.c, step.sent);
    } else if step.HandleSnapshot? {
      SnapshotTargets(st, step.c, step.native, step.sent);
    } else if step.HandleBatch? {
      BatchTargets(st, step.c, step.sent);
    } else if step.HandleExit? {
      ExitTargets(st, step.c, step.sent);
    } else {
      OtherTargets(st, step.c, step.sent);
    }
  }

  // ------------------------------------------------------------- waits and walks

  /** The session whose adopt is answered. */
  lemma AnswerIsTrue(st: State, c: ConnId)
    requires SourceInv(st) && CanSettleAdopt(st, c)
    ensures var name := st.conns[c].handler.pc.name;
            var a := st.conns[c].handler.pending[name];
            var s := st.sessions[a.sid];
            && HeldFor(st.conns[c], name, a.sid) && s.name == name
            && s.tickets[a.ticket].alive == Lives(s)
            && (!s.tickets[a.ticket].failed && !s.logFailed ==> (s.copier.Done? <==> !Lives(s)))
  {
    var name := st.conns[c].handler.pc.name;
    assert HandlerOk(st, c) && PendingName(st, c, name);
    assert SessionOk(st.sessions[st.conns[c].handler.pending[name].sid]);
  }

  lemma AnswerTargets(st: State, c: ConnId, sent: bool)
    requires SourceInv(st) && TargetInv(st) && CanSettleAdopt(st, c)
    ensures TargetInv(AdoptAnswered(st, c, sent))
  {
    var conn := st.conns[c];
    var name := conn.handler.pc.name;
    var a := conn.handler.pending[name];
    var s := st.sessions[a.sid];
    AnswerIsTrue(st, c);
    if s.tickets[a.ticket].failed || s.logFailed {
      GivingUpServed(st.sessions, c, conn);
    } else {
      AnswerServed(st.sessions, c, conn, a.sid, Lives(s), sent);
    }
    OneServed(st, AdoptAnswered(st, c, sent), c);
  }

  lemma ExpireTargets(st: State, c: ConnId)
    requires TargetInv(st) && InStabilizing(st, c)
    ensures TargetInv(AdoptExpired(st, c))
  {
    GivingUpServed(st.sessions, c, st.conns[c]);
    OneServed(st, AdoptExpired(st, c), c);
  }

  lemma WalkServed(ss: Sessions, c: ConnId, conn: Conn, h': Handler)
    requires TargetOk(ss, c, conn) && conn.handler.pc.Resolving?
    requires var h := conn.handler;
             && h'.pending == h.pending && h'.pc.Resolving? && h'.pc.id == h.pc.id
             && h'.pc.batch == h.pc.batch && h'.pc.after == h.pc.after
    ensures TargetOk(ss, c, conn.(handler := h'))
  {
    if conn.handler.pc.after.Unwind? {
      HandlerDies(ss, c, conn, h');
    } else {
      WalkGoesOn(ss, c, conn, h');
    }
  }

  lemma ChoiceSame(st: State, c: ConnId)
    requires SourceInv(st) && CanChoose(st, c)
    ensures var h := st.conns[c].handler;
            var sid := h.pending[h.pc.batch[h.pc.done]].sid;
            var ss' := Chosen(st, c).sessions;
            sid in ss' && Same(st.sessions[sid], ss'[sid]) && ss' == st.sessions[sid := ss'[sid]]
  {
    WalkHead(st, c);
  }

  lemma ChoiceDisturbsNobody(st: State, c: ConnId, d: ConnId)
    requires SourceInv(st) && CanChoose(st, c) && d in st.conns
    ensures Undisturbed(st, Chosen(st, c).sessions, d)
  {
    ChoiceSame(st, c);
    var h := st.conns[c].handler;
    var sid := h.pending[h.pc.batch[h.pc.done]].sid;
    SameDisturbsNobody(st, sid, Chosen(st, c).sessions[sid], d);
  }

  lemma ChooseTargets(st: State, c: ConnId)
    requires SourceInv(st) && TargetInv(st) && CanChoose(st, c)
    ensures TargetInv(Chosen(st, c))
  {
    var st' := Chosen(st, c);
    forall d | d in st.conns ensures Undisturbed(st, st'.sessions, d) {
      ChoiceDisturbsNobody(st, c, d);
    }
    NoneDisturbed(st, st'.sessions);
    WalkServed(st'.sessions, c, st.conns[c], st'.conns[c].handler);
    OneServed(st, st', c);
  }

  lemma FinishDisturbsNobody(st: State, c: ConnId, d: ConnId)
    requires CanFinish(st, c) && d in st.conns
    ensures Undisturbed(st, Finished(st, c).sessions, d)
  {
  }

  lemma FinishTargets(st: State, c: ConnId)
    requires SourceInv(st) && TargetInv(st) && CanFinish(st, c)
    ensures TargetInv(Finished(st, c))
  {
    var st' := Finished(st, c);
    forall d | d in st.conns ensures Undisturbed(st, st'.sessions, d) {
      FinishDisturbsNobody(st, c, d);
    }
    NoneDisturbed(st, st'.sessions);
    WalkServed(st'.sessions, c, st.conns[c], st'.conns[c].handler);
    OneServed(st, st', c);
  }

  /** What the end of a batch's walk leaves of its connection. */
  lemma BatchEndShape(st: State, c: ConnId, sent: bool)
    requires CanEnd(st, c) && WalkOk(st.conns[c].handler) && st.conns[c].handler.pc.after.Batch?
    ensures var conn := st.conns[c];
            var conn' := Ended(st, c, sent).conns[c];
            && conn' == Replying(conn.(handler := conn'.handler),
                                 Reply(conn.handler.pc.id, Resolved(|conn.handler.pc.batch|), None), sent)
            && (if sent then conn'.handler.pc.Ready? else conn'.handler.pc.Leaving?)
  {
  }

  lemma BatchEndServed(st: State, c: ConnId, sent: bool)
    requires SourceInv(st) && CanEnd(st, c) && TargetOk(st.sessions, c, st.conns[c])
    requires st.conns[c].handler.pc.after.Batch?
    ensures TargetOk(st.sessions, c, Ended(st, c, sent).conns[c])
  {
    var conn := st.conns[c];
    var h' := Ended(st, c, sent).conns[c].handler;
    assert HandlerOk(st, c);
    BatchEndShape(st, c, sent);
    if CommittingOk(st.sessions, c, conn, Occupied) {
      WalkGrants(st, c);
    }
    CommitServed(st.sessions, c, conn, h', sent);
  }

  lemma EndTargets(st: State, c: ConnId, sent: bool)
    requires SourceInv(st) && TargetInv(st) && CanEnd(st, c)
    ensures TargetInv(Ended(st, c, sent))
  {
    var conn := st.conns[c];
    assert HandlerOk(st, c);
    if conn.handler.pc.after.AdoptFailed? {
      FailureServed(st.sessions, c, conn, sent);
    } else if conn.handler.pc.after.Batch? {
      BatchEndServed(st, c, sent);
    } else {
      HandlerDies(st.sessions, c, conn, Handler(Gone, false, map[]));
    }
    OneServed(st, Ended(st, c, sent), c);
  }

  lemma LeaveTargets(st: State, c: ConnId)
    requires TargetInv(st) && CanDisconnect(st, c)
    ensures TargetInv(Disconnected(st, c))
  {
    HandlerDies(st.sessions, c, st.conns[c], Disconnected(st, c).conns[c].handler);
    OneServed(st, Disconnected(st, c), c);
  }

  lemma UnwindTargets(st: State, c: ConnId, order: seq<Name>)
    requires TargetInv(st) && CanUnwind(st, c, order)
    ensures TargetInv(Unwound(st, c, order))
  {
    HandlerDies(st.sessions, c, st.conns[c], Unwound(st, c, order).conns[c].handler);
    OneServed(st, Unwound(st, c, order), c);
  }

  lemma WaitTargets(st: State, step: Step, st': State)
    requires SourceInv(st) && TargetInv(st) && WalkStep(st, step, st') && (step.AdoptSettled? || step.AdoptTimesOut?)
    ensures TargetInv(st')
  {
    if step.AdoptSettled? {
      AnswerTargets(st, step.c, step.sent);
    } else {
      ExpireTargets(st, step.c);
    }
  }

  lemma WalkTargets(st: State, step: Step, st': State)
    requires SourceInv(st) && TargetInv(st) && WalkStep(st, step, st')
    ensures TargetInv(st')
  {
    if step.AdoptSettled? || step.AdoptTimesOut? {
      WaitTargets(st, step, st');
    } else if step.Chooses? {
      ChooseTargets(st, step.c);
    } else if step.Finishes? {
      FinishTargets(st, step.c);
    } else if step.BatchEnds? {
      EndTargets(st, step.c, step.sent);
    } else if step.Disconnects? {
      LeaveTargets(st, step.c);
    } else {
      UnwindTargets(st, step.c, step.order);
    }
  }

  // ------------------------------------------------------------------- sessions

  lemma QuietTargets(st: State, sid: SessId, s': Session)
    requires SourceInv(st) && TargetInv(st) && sid in st.sessions && Quietly(st.sessions[sid], s')
    ensures TargetInv(WithSession(st, sid, s'))
  {
    forall d | d in st.conns ensures Undisturbed(st, st.sessions[sid := s'], d) {
      QuietDisturbsNobody(st, sid, s', d);
    }
    NoneDisturbed(st, st.sessions[sid := s']);
  }

  lemma KeptQuietly(s: Session, s': Session)
    requires CopierKept(s, s')
    ensures Quietly(s, s')
  {
  }

  lemma CopierTargets(st: State, step: Step, st': State)
    requires SourceInv(st) && TargetInv(st) && CopierMoves(st, step, st')
    ensures TargetInv(st')
  {
    var s' := CopierMoved(st, step, st');
    KeptQuietly(st.sessions[step.sid], s');
    QuietTargets(st, step.sid, s');
  }

  lemma ResizeTargets(st: State, name: Name, n: nat, ok: bool)
    requires SourceInv(st) && TargetInv(st) && CanResize(st, name, n)
    ensures TargetInv(Resized(st, name, n, ok))
  {
    forall d | d in st.conns ensures Undisturbed(st, Resized(st, name, n, ok).sessions, d) {
      ResizeDisturbsNobody(st, name, n, ok, d);
    }
    NoneDisturbed(st, Resized(st, name, n, ok).sessions);
  }

  /** A session that is new, or to every target as good as before. */
  lemma SameTargets(st: State, sid: SessId, s': Session)
    requires SourceInv(st) && TargetInv(st) && (sid in st.sessions ==> Same(st.sessions[sid], s'))
    ensures TargetsOk(st.sessions[sid := s'], st.conns)
  {
    forall d | d in st.conns ensures Undisturbed(st, st.sessions[sid := s'], d) {
      SameDisturbsNobody(st, sid, s', d);
    }
    NoneDisturbed(st, st.sessions[sid := s']);
  }

  lemma ChildTargets(st: State, sid: SessId, data: seq<byte>)
    requires SourceInv(st) && TargetInv(st) && sid in st.sessions
    ensures TargetInv(ChildWritten(st, sid, data))
  {
    SameTargets(st, sid, ChildWritten(st, sid, data).sessions[sid]);
  }

  lemma StartTargets(st: State, name: Name, sid: SessId)
    requires SourceInv(st) && TargetInv(st) && CanStart(st, name, sid)
    ensures TargetInv(Started(st, name, sid))
  {
    SameTargets(st, sid, NewSession(name));
  }

  lemma ClientTargets(st: State, step: Step, st': State)
    requires SourceInv(st) && TargetInv(st) && ClientStep(st, step, st')
    ensures TargetInv(st')
  {
    if step.ChildWrites? {
      ChildTargets(st, step.sid, step.data);
    } else if step.StartSession? {
      StartTargets(st, step.name, step.sid);
    } else if step.ResizeDrains? {
      ResizeTargets(st, step.name, step.n, step.ok);
    }
  }

  // -------------------------------------------------------------------- targets

  lemma ReadServed(st: State, c: ConnId, build: Build)
    requires SourceInv(st) && c in st.conns && st.conns[c].replies != [] && TargetOk(st.sessions, c, st.conns[c])
    ensures TargetOk(st.sessions, c, Received(st.sessions, st.conns[c], build))
  {
    if CanReceive(st, c) {
      ReceiveKeeps(st, c, build);
    } else {
      ReadsIdly(st.sessions, st.conns[c], build);
    }
  }

  /** A target that is gone, or another client, stays what it is whatever arrives. */
  lemma ReadsIdly(ss: Sessions, conn: Conn, build: Build)
    requires conn.replies != [] && (conn.target.pc.Foreign? || conn.target.pc.Crashed?)
    ensures Received(ss, conn, build).target.pc == conn.target.pc
  {
  }

  lemma StillServed(st: State, step: Step)
    requires OfWire(step) && step.c in st.conns && TargetOk(st.sessions, step.c, st.conns[step.c])
    requires step.TargetStops? || step.TargetCrashes? || step.ForeignSends? || step.ForeignReceives?
    ensures TargetOk(st.sessions, step.c, Wired(st, step))
  {
    if step.TargetStops? {
      if CanTargetStop(st, step.c, step.i) {
        TargetStopKeeps(st, step.c, step.i);
      }
    }
  }

  lemma CallServed(st: State, step: Step)
    requires OfWire(step) && step.c in st.conns && TargetOk(st.sessions, step.c, st.conns[step.c])
    requires step.TargetSends? || step.TargetWriteFails? || step.TargetCallFails?
    ensures TargetOk(st.sessions, step.c, Wired(st, step))
  {
    var conn := st.conns[step.c];
    if step.TargetSends? {
      if MaySend(conn.target.pc) {
        SendKeeps(st.sessions, step.c, conn);
      }
    } else if step.TargetWriteFails? {
      if conn.requests != [] {
        UnsentKeeps(st.sessions, step.c, conn);
      }
    } else {
      FailKeeps(st.sessions, step.c, conn);
    }
  }

  lemma WireServed(st: State, step: Step)
    requires SourceInv(st) && OfWire(step) && step.c in st.conns && TargetOk(st.sessions, step.c, st.conns[step.c])
    ensures TargetOk(st.sessions, step.c, Wired(st, step))
  {
    if step.TargetReceives? {
      if st.conns[step.c].replies != [] {
        ReadServed(st, step.c, step.build);
      }
    } else if step.TargetSends? || step.TargetWriteFails? || step.TargetCallFails? {
      CallServed(st, step);
    } else {
      StillServed(st, step);
    }
  }

  /** A session given to c's target may change without any other target noticing. */
  lemma TakerTargets(st: State, c: ConnId, sid: SessId, s': Session, st': State)
    requires SourceInv(st) && TargetInv(st) && sid in st.sessions && st.sessions[sid].given == Some(c)
    requires st'.sessions == st.sessions[sid := s'] && Touches(st, st', c) && TargetOk(st'.sessions, c, st'.conns[c])
    ensures TargetInv(st')
  {
    forall d | d in st.conns && d != c ensures TargetOk(st'.sessions, d, st.conns[d]) {
      GivenGuardsOnlyOne(st, c, d, sid);
      TargetFrame(st, st'.sessions, d);
    }
  }

  lemma TargetReadTargets(st: State, c: ConnId, i: nat, n: nat)
    requires SourceInv(st) && TargetInv(st) && CanTargetRead(st, c, i, n)
    ensures TargetInv(TargetRead(st, c, i, n))
  {
    var st' := TargetRead(st, c, i, n);
    TakerOwns(st, c, i);
    TargetReadKeeps(st, c, i, n);
    TargetReadOnly(st, c, i, n);
    var sid := st.conns[c].target.kept[i].sid;
    TakerTargets(st, c, sid, st'.sessions[sid], st');
  }

  lemma TakerOwns(st: State, c: ConnId, i: nat)
    requires TargetInv(st) && CanTake(st, c, i)
    ensures TargetOk(st.sessions, c, st.conns[c])
    ensures var k := st.conns[c].target.kept[i];
            k.master == Some(k.sid) && st.sessions[k.sid].given == Some(c)
  {
    assert TargetOk(st.sessions, c, st.conns[c]) && Owned(st.sessions, c, st.conns[c].target.kept[i]);
  }

  lemma TargetRecordTargets(st: State, c: ConnId, i: nat, ok: bool)
    requires SourceInv(st) && TargetInv(st) && CanTargetRecord(st, c, i)
    ensures TargetInv(TargetRecorded(st, c, i, ok))
  {
    var st' := TargetRecorded(st, c, i, ok);
    TakerOwns(st, c, i);
    TargetRecordKeeps(st, c, i, ok);
    TargetRecordOnly(st, c, i, ok);
    var sid := st.conns[c].target.kept[i].sid;
    TakerTargets(st, c, sid, st'.sessions[sid], st');
  }

  lemma ConnServed(st: State, c: ConnId, conn': Conn)
    requires TargetInv(st) && TargetOk(st.sessions, c, conn')
    ensures TargetInv(WithConn(st, c, conn'))
  {
  }

  lemma OwnTargets(st: State, step: Step, st': State)
    requires SourceInv(st) && TargetInv(st) && TargetStep(st, step, st')
    ensures TargetInv(st')
  {
    if step.Connect? {
      assert TargetOk(st.sessions, step.c, NewConn(step.foreign));
    } else if step.TargetReads? {
      TargetReadTargets(st, step.c, step.i, step.n);
    } else if step.TargetRecords? {
      TargetRecordTargets(st, step.c, step.i, step.ok);
    } else {
      WireOnly(st, step, st');
      WireServed(st, step);
      ConnServed(st, step.c, Wired(st, step));
    }
  }
}
