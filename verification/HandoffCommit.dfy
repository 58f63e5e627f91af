/** A commit gives each target exactly what that target prepared, and it is remembered. */
module HandoffCommit {
  import opened Basics
  import opened HandoffState
  import opened HandoffSteps
  import opened HandoffInvariant
  import opened HandoffSource
  import opened HandoffHandler
  import opened HandoffKeeps

  predicate Committed(pc: HandlerPc) {
    pc.Resolving? && pc.after == Batch(true)
  }

  // -------------------------------------------------- a commit names what was kept

  lemma OneCommit(st: State, st': State, c: ConnId)
    requires CommitInv(st) && Touches(st, st', c)
    requires !st'.conns[c].target.pc.Foreign? ==> CommitOwn(st'.conns[c])
    ensures CommitInv(st')
  {
  }

  /** A request other than a commit is taken. */
  lemma RequestCommit(conn: Conn, conn': Conn)
    requires CommitOwn(conn) && conn.requests != [] && conn'.requests == conn.requests[1..]
    requires conn'.target == conn.target
    requires !Committed(conn'.handler.pc)
    ensures CommitOwn(conn')
  {
  }

  lemma BatchCommit(conn: Conn, conn': Conn)
    requires CommitOwn(conn) && conn.handler.pc.Ready? && conn.requests != [] && conn.requests[0].BatchRequest?
    requires conn'.requests == conn.requests[1..] && conn'.target == conn.target
    requires conn'.handler.pending == conn.handler.pending
    requires conn'.handler.pc.Resolving? ==>
               conn'.handler.pc.after == Batch(conn.requests[0].commit)
               && conn'.handler.pc.batch == conn.requests[0].names
    ensures CommitOwn(conn')
  {
  }

  /** A handler at work has no commit waiting behind it. */
  lemma BusyCommit(conn: Conn, conn': Conn)
    requires CommitOwn(conn) && conn'.requests == conn.requests && conn'.target == conn.target
    requires !Unoccupied(conn.handler) || !Live(conn'.handler)
    requires Committed(conn'.handler.pc) ==>
               && Committed(conn.handler.pc) && conn'.handler.pc.batch == conn.handler.pc.batch
               && conn'.handler.pending == conn.handler.pending
    ensures CommitOwn(conn')
  {
  }

  lemma ListCommit(st: State, c: ConnId, order: seq<Name>, sent: bool)
    requires CommitInv(st) && CanList(st, c, order)
    ensures CommitInv(ListedState(st, c, order, sent))
  {
    var st' := ListedState(st, c, order, sent);
    if !st.conns[c].target.pc.Foreign? {
      RequestCommit(st.conns[c], st'.conns[c]);
    }
    OneCommit(st, st', c);
  }

  lemma AdoptCommit(st: State, c: ConnId, sent: bool)
    requires CommitInv(st) && CanAdopt(st, c)
    ensures CommitInv(AdoptBegun(st, c, sent))
  {
    var st' := AdoptBegun(st, c, sent);
    if !st.conns[c].target.pc.Foreign? {
      RequestCommit(st.conns[c], st'.conns[c]);
    }
    OneCommit(st, st', c);
  }

  lemma SnapshotCommit(st: State, c: ConnId, native: bool, sent: bool)
    requires CommitInv(st) && CanSnapshot(st, c)
    ensures CommitInv(SnapshotAnswered(st, c, native, sent))
  {
    var st' := SnapshotAnswered(st, c, native, sent);
    if !st.conns[c].target.pc.Foreign? {
      RequestCommit(st.conns[c], st'.conns[c]);
    }
    OneCommit(st, st', c);
  }

  lemma ExitCommit(st: State, c: ConnId, sent: bool)
    requires CommitInv(st) && HasRequest(st, c)
    ensures CommitInv(ExitAnswered(st, c, sent)) && CommitInv(OtherAnswered(st, c, sent))
  {
    var exited, other := ExitAnswered(st, c, sent), OtherAnswered(st, c, sent);
    if !st.conns[c].target.pc.Foreign? {
      RequestCommit(st.conns[c], exited.conns[c]);
      RequestCommit(st.conns[c], other.conns[c]);
    }
    OneCommit(st, exited, c);
    OneCommit(st, other, c);
  }

  lemma BatchesCommit(st: State, c: ConnId, sent: bool)
    requires SourceInv(st) && CommitInv(st) && CanBatch(st, c)
    ensures CommitInv(BatchBegun(st, c, sent))
  {
    BatchPasses(st, c);
    if !st.conns[c].target.pc.Foreign? {
      BatchCommit(st.conns[c], BatchBegun(st, c, sent).conns[c]);
    }
    OneCommit(st, BatchBegun(st, c, sent), c);
  }

  lemma RequestsCommit(st: State, step: Step, st': State)
    requires SourceInv(st) && CommitInv(st) && RequestStep(st, step, st')
    ensures CommitInv(st')
  {
    if step.HandleList? {
      ListCommit(st, step.c, step.order, step.sent);
    } else if step.HandleAdopt? {
      AdoptCommit(st, step.c, step.sent);
    } else if step.HandleSnapshot? {
      SnapshotCommit(st, step.c, step.native, step.sent);
    } else if step.HandleBatch? {
      BatchesCommit(st, step.c, step.sent);
    } else {
      ExitCommit(st, step.c, step.sent);
    }
  }

  lemma EndedConn(st: State, c: ConnId, sent: bool)
    requires CanEnd(st, c) && WalkOk(st.conns[c].handler) && CommitOwn(st.conns[c])
    ensures CommitOwn(Ended(st, c, sent).conns[c])
  {
    BusyCommit(st.conns[c], Ended(st, c, sent).conns[c]);
  }

  lemma EndCommit(st: State, c: ConnId, sent: bool)
    requires SourceInv(st) && CommitInv(st) && CanEnd(st, c)
    ensures CommitInv(Ended(st, c, sent))
  {
    assert HandlerOk(st, c);
    if !st.conns[c].target.pc.Foreign? {
      EndedConn(st, c, sent);
    }
    OneCommit(st, Ended(st, c, sent), c);
  }

  lemma WaitCommit(st: State, c: ConnId, sent: bool)
    requires CommitInv(st) && InStabilizing(st, c)
    ensures CommitInv(AdoptExpired(st, c))
    ensures CanSettleAdopt(st, c) ==> CommitInv(AdoptAnswered(st, c, sent))
  {
    if !st.conns[c].target.pc.Foreign? {
      BusyCommit(st.conns[c], AdoptExpired(st, c).conns[c]);
    }
    OneCommit(st, AdoptExpired(st, c), c);
    if CanSettleAdopt(st, c) {
      if !st.conns[c].target.pc.Foreign? {
        BusyCommit(st.conns[c], AdoptAnswered(st, c, sent).conns[c]);
      }
      OneCommit(st, AdoptAnswered(st, c, sent), c);
    }
  }

  lemma ChooseCommit(st: State, c: ConnId)
    requires CommitInv(st) && CanChoose(st, c)
    ensures CommitInv(Chosen(st, c))
  {
    if !st.conns[c].target.pc.Foreign? {
      BusyCommit(st.conns[c], Chosen(st, c).conns[c]);
    }
    OneCommit(st, Chosen(st, c), c);
  }

  lemma FinishCommit(st: State, c: ConnId)
    requires CommitInv(st) && CanFinish(st, c)
    ensures CommitInv(Finished(st, c))
  {
    if !st.conns[c].target.pc.Foreign? {
      BusyCommit(st.conns[c], Finished(st, c).conns[c]);
    }
    OneCommit(st, Finished(st, c), c);
  }

  lemma LeaveCommit(st: State, c: ConnId, order: seq<Name>)
    requires CommitInv(st) && c in st.conns
    ensures CommitInv(Disconnected(st, c)) && CommitInv(Unwound(st, c, order))
  {
    if !st.conns[c].target.pc.Foreign? {
      BusyCommit(st.conns[c], Disconnected(st, c).conns[c]);
      BusyCommit(st.conns[c], Unwound(st, c, order).conns[c]);
    }
    OneCommit(st, Disconnected(st, c), c);
    OneCommit(st, Unwound(st, c, order), c);
  }

  lemma WalksCommit(st: State, step: Step, st': State)
    requires SourceInv(st) && CommitInv(st) && WalkStep(st, step, st')
    ensures CommitInv(st')
  {
    if step.AdoptSettled? {
      WaitCommit(st, step.c, step.sent);
    } else if step.AdoptTimesOut? {
      WaitCommit(st, step.c, true);
    } else if step.Chooses? {
      ChooseCommit(st, step.c);
    } else if step.Finishes? {
      FinishCommit(st, step.c);
    } else if step.BatchEnds? {
      EndCommit(st, step.c, step.sent);
    } else if step.Disconnects? {
      LeaveCommit(st, step.c, []);
    } else {
      LeaveCommit(st, step.c, step.order);
    }
  }

  // ------------------------------------------------------- what a target remembers

  predicate SameSids(kept: seq<Kept>, kept': seq<Kept>) {
    |kept'| == |kept| && forall i :: 0 <= i < |kept| ==> kept'[i].sid == kept[i].sid && kept'[i].name == kept[i].name
  }

  /** A target that asked for a commit stays past it, with the sessions it prepared. */
  predicate Remembers(t: Target, t': Target) {
    && (t.pc.Foreign? <==> t'.pc.Foreign?)
    && (CommitAsked(t.pc) ==> CommitAsked(t'.pc) && SameSids(t.kept, t'.kept))
  }

  lemma FailedRemembers(conn: Conn)
    ensures Remembers(conn.target, CallFailed(conn).target)
  {
  }

  /** Before a commit is asked for there is nothing to remember. */
  lemma UnaskedRemembers(ss: Sessions, conn: Conn, build: Build)
    requires conn.replies != [] && !CommitAsked(conn.target.pc)
    ensures Remembers(conn.target, Received(ss, conn, build).target)
  {
  }

  lemma ReceivedRemembers(ss: Sessions, conn: Conn, build: Build)
    requires conn.replies != []
    ensures Remembers(conn.target, Received(ss, conn, build).target)
  {
    if CommitAsked(conn.target.pc) {
      FailedRemembers(Popped(conn));
    } else {
      UnaskedRemembers(ss, conn, build);
    }
  }

  lemma SentRemembers(conn: Conn)
    requires MaySend(conn.target.pc)
    ensures Remembers(conn.target, Sent(conn).target)
  {
  }

  lemma StillRemembers(st: State, step: Step)
    requires OfWire(step) && step.c in st.conns && !step.TargetReceives? && !step.TargetCallFails? && !step.TargetSends?
    ensures Remembers(st.conns[step.c].target, Wired(st, step).target)
  {
  }

  lemma WireRemembers(st: State, step: Step)
    requires OfWire(step) && step.c in st.conns
    ensures Remembers(st.conns[step.c].target, Wired(st, step).target)
  {
    var conn := st.conns[step.c];
    if step.TargetReceives? {
      if conn.replies != [] {
        ReceivedRemembers(st.sessions, conn, step.build);
      }
    } else if step.TargetCallFails? {
      FailedRemembers(conn);
    } else if step.TargetSends? {
      if MaySend(conn.target.pc) {
        SentRemembers(conn);
      }
    } else {
      StillRemembers(st, step);
    }
  }

  /** The target queues at most one more request, and no commit. */
  ghost predicate Queues(conn: Conn, conn': Conn) {
    || conn'.requests == conn.requests
    || (exists r :: !IsCommit(r) && conn'.requests == conn.requests + [r])
  }

  lemma TargetCommit(conn: Conn, conn': Conn)
    requires CommitOwn(conn) && conn'.handler == conn.handler
    requires Remembers(conn.target, conn'.target) && Queues(conn, conn')
    ensures CommitOwn(conn')
  {
    if CommitAsked(conn.target.pc) {
      assert KeptNames(conn'.target.kept) == KeptNames(conn.target.kept);
    }
  }

  lemma FailedQueues(conn: Conn)
    ensures Queues(conn, CallFailed(conn))
  {
  }

  lemma ReceivedQueues(ss: Sessions, conn: Conn, build: Build)
    requires conn.replies != []
    ensures Queues(conn, Received(ss, conn, build))
  {
    FailedQueues(Popped(conn));
  }

  lemma UnsentCommit(conn: Conn)
    requires CommitOwn(conn) && conn.requests != []
    ensures CommitOwn(Unsent(conn))
  {
  }

  /** The commit goes out when nothing else is queued and the handler holds all that was prepared. */
  lemma SentCommit(ss: Sessions, c: ConnId, conn: Conn)
    requires MaySend(conn.target.pc) && CommitOwn(conn) && TargetOk(ss, c, conn)
    ensures CommitOwn(Sent(conn))
  {
  }

  lemma WireCommit(st: State, step: Step)
    requires OfWire(step) && step.c in st.conns && TargetOk(st.sessions, step.c, st.conns[step.c])
    requires !st.conns[step.c].target.pc.Foreign? && CommitOwn(st.conns[step.c])
    ensures CommitOwn(Wired(st, step))
  {
    var conn := st.conns[step.c];
    WireHandler(st, step);
    WireRemembers(st, step);
    if step.TargetSends? && MaySend(conn.target.pc) {
      SentCommit(st.sessions, step.c, conn);
    } else if step.TargetWriteFails? && conn.requests != [] {
      UnsentCommit(conn);
    } else {
      if step.TargetReceives? && conn.replies != [] {
        ReceivedQueues(st.sessions, conn, step.build);
      } else if step.TargetCallFails? {
        FailedQueues(conn);
      }
      TargetCommit(conn, Wired(st, step));
    }
  }

  lemma TakerRemembers(st: State, c: ConnId, i: nat, n: nat, ok: bool)
    requires CanTake(st, c, i)
    ensures CanTargetRead(st, c, i, n) ==>
              var conn' := TargetRead(st, c, i, n).conns[c];
              conn' == st.conns[c].(target := conn'.target) && Remembers(st.conns[c].target, conn'.target)
    ensures CanTargetRecord(st, c, i) ==>
              var conn' := TargetRecorded(st, c, i, ok).conns[c];
              conn' == st.conns[c].(target := conn'.target) && Remembers(st.conns[c].target, conn'.target)
  {
  }

  lemma TargetReadCommit(st: State, c: ConnId, i: nat, n: nat)
    requires CommitInv(st) && CanTargetRead(st, c, i, n)
    ensures CommitInv(TargetRead(st, c, i, n))
  {
    TargetReadOnly(st, c, i, n);
    TakerRemembers(st, c, i, n, true);
    TargetCommit(st.conns[c], TargetRead(st, c, i, n).conns[c]);
    OneCommit(st, TargetRead(st, c, i, n), c);
  }

  lemma TargetRecordCommit(st: State, c: ConnId, i: nat, ok: bool)
    requires CommitInv(st) && CanTargetRecord(st, c, i)
    ensures CommitInv(TargetRecorded(st, c, i, ok))
  {
    TargetRecordOnly(st, c, i, ok);
    TakerRemembers(st, c, i, 0, ok);
    TargetCommit(st.conns[c], TargetRecorded(st, c, i, ok).conns[c]);
    OneCommit(st, TargetRecorded(st, c, i, ok), c);
  }

  lemma ConnCommit(st: State, c: ConnId, conn': Conn)
    requires CommitInv(st) && (!conn'.target.pc.Foreign? ==> CommitOwn(conn'))
    ensures CommitInv(WithConn(st, c, conn'))
  {
  }

  lemma WiredCommit(st: State, step: Step)
    requires TargetInv(st) && CommitInv(st) && OfWire(step) && step.c in st.conns
    ensures CommitInv(WithConn(st, step.c, Wired(st, step)))
  {
    WireRemembers(st, step);
    if !st.conns[step.c].target.pc.Foreign? {
      WireCommit(st, step);
    }
    ConnCommit(st, step.c, Wired(st, step));
  }

  lemma OwnCommit(st: State, step: Step, st': State)
    requires TargetInv(st) && CommitInv(st) && TargetStep(st, step, st')
    ensures CommitInv(st')
  {
    if OfWire(step) {
      WireOnly(st, step, st');
      WiredCommit(st, step);
    } else if step.TargetReads? {
      TargetReadCommit(st, step.c, step.i, step.n);
    } else if step.TargetRecords? {
      TargetRecordCommit(st, step.c, step.i, step.ok);
    }
  }

  // ------------------------------------------------------- what a commit gave away

  /** Where the same sessions are given and every target remembers, what was given is still kept. */
  lemma SameGiven(st: State, st': State)
    requires GivenInv(st)
    requires forall sid :: sid in st'.sessions ==>
               st'.sessions[sid].given == if sid in st.sessions then st.sessions[sid].given else None
    requires forall c :: c in st.conns ==> c in st'.conns && Remembers(st.conns[c].target, st'.conns[c].target)
    ensures GivenInv(st')
  {
    forall sid | sid in st'.sessions ensures GivenKept(st', sid) {
      if sid in st.sessions && st.sessions[sid].given.Some? {
        assert GivenKept(st, sid);
      }
    }
  }

  lemma HandledGiven(st: State, st': State, c: ConnId)
    requires GivenInv(st) && Handles(st, st', c)
    requires forall sid :: sid in st'.sessions ==>
               sid in st.sessions && st'.sessions[sid].given == st.sessions[sid].given
    ensures GivenInv(st')
  {
    SameGiven(st, st');
  }

  lemma AdoptGiven(st: State, c: ConnId, sent: bool)
    requires GivenInv(st) && CanAdopt(st, c)
    ensures GivenInv(AdoptBegun(st, c, sent))
  {
    HandledGiven(st, AdoptBegun(st, c, sent), c);
  }

  lemma FinishGiven(st: State, c: ConnId)
    requires GivenInv(st) && CanFinish(st, c)
    ensures GivenInv(Finished(st, c))
  {
    HandledGiven(st, Finished(st, c), c);
  }

  /** The commit's walk decides for the session its own target prepared. */
  lemma ChosenIsKept(st: State, c: ConnId)
    requires CanChoose(st, c) && st.conns[c].handler.pc.after == Batch(true) && CommitOwn(st.conns[c])
    ensures var h := st.conns[c].handler;
            var t := st.conns[c].target;
            && CommitAsked(t.pc) && h.pc.done < |t.kept|
            && t.kept[h.pc.done].sid == h.pending[h.pc.batch[h.pc.done]].sid
  {
    assert st.conns[c].handler.pc.batch[st.conns[c].handler.pc.done]
           == st.conns[c].target.kept[st.conns[c].handler.pc.done].name;
  }

  lemma ChooseGiven(st: State, c: ConnId)
    requires CommitInv(st) && GivenInv(st) && CanChoose(st, c)
    ensures GivenInv(Chosen(st, c))
  {
    var st' := Chosen(st, c);
    var h := st.conns[c].handler;
    if h.pc.after == Batch(true) && !st.conns[c].target.pc.Foreign? {
      ChosenIsKept(st, c);
    }
    forall sid | sid in st'.sessions ensures GivenKept(st', sid) {
      assert GivenKept(st, sid);
    }
  }

  lemma RequestsGiven(st: State, step: Step, st': State)
    requires GivenInv(st) && RequestStep(st, step, st')
    ensures GivenInv(st')
  {
    if step.HandleAdopt? {
      AdoptGiven(st, step.c, step.sent);
    } else {
      RequestOnly(st, step, st');
      HandledGiven(st, st', step.c);
    }
  }

  lemma WalksGiven(st: State, step: Step, st': State)
    requires SourceInv(st) && CommitInv(st) && GivenInv(st) && WalkStep(st, step, st')
    ensures GivenInv(st')
  {
    if step.Chooses? {
      ChooseGiven(st, step.c);
    } else if step.Finishes? {
      FinishGiven(st, step.c);
    } else {
      WalkOnly(st, step, st');
      HandledGiven(st, st', step.c);
    }
  }

  lemma SwapGiven(st: State, sid: SessId, s': Session)
    requires GivenInv(st) && sid in st.sessions && s'.given == st.sessions[sid].given
    ensures GivenInv(WithSession(st, sid, s'))
  {
    SameGiven(st, WithSession(st, sid, s'));
  }

  lemma CopierGiven(st: State, step: Step, st': State)
    requires SourceInv(st) && GivenInv(st) && CopierMoves(st, step, st')
    ensures GivenInv(st')
  {
    var s' := CopierMoved(st, step, st');
    SwapGiven(st, step.sid, s');
  }

  lemma ResizeGiven(st: State, name: Name, n: nat, ok: bool)
    requires GivenInv(st) && CanResize(st, name, n)
    ensures GivenInv(Resized(st, name, n, ok))
  {
    SwapGiven(st, st.hub[name], Resized(st, name, n, ok).sessions[st.hub[name]]);
  }

  lemma ClientGiven(st: State, step: Step, st': State)
    requires GivenInv(st) && ClientStep(st, step, st')
    ensures GivenInv(st')
  {
    if step.ResizeDrains? {
      ResizeGiven(st, step.name, step.n, step.ok);
    } else {
      ClientOnly(st, step, st');
      SameGiven(st, st');
    }
  }

  lemma ConnGiven(st: State, c: ConnId, conn': Conn)
    requires GivenInv(st) && c in st.conns && Remembers(st.conns[c].target, conn'.target)
    ensures GivenInv(WithConn(st, c, conn'))
  {
    SameGiven(st, WithConn(st, c, conn'));
  }

  lemma WiredGiven(st: State, step: Step)
    requires GivenInv(st) && OfWire(step) && step.c in st.conns
    ensures GivenInv(WithConn(st, step.c, Wired(st, step)))
  {
    WireRemembers(st, step);
    ConnGiven(st, step.c, Wired(st, step));
  }

  lemma TargetReadGiven(st: State, c: ConnId, i: nat, n: nat)
    requires GivenInv(st) && CanTargetRead(st, c, i, n)
    ensures GivenInv(TargetRead(st, c, i, n))
  {
    SameGiven(st, TargetRead(st, c, i, n));
  }

  lemma TargetRecordGiven(st: State, c: ConnId, i: nat, ok: bool)
    requires GivenInv(st) && CanTargetRecord(st, c, i)
    ensures GivenInv(TargetRecorded(st, c, i, ok))
  {
    SameGiven(st, TargetRecorded(st, c, i, ok));
  }

  lemma OwnGiven(st: State, step: Step, st': State)
    requires GivenInv(st) && TargetStep(st, step, st')
    ensures GivenInv(st')
  {
    if step.TargetReads? {
      TargetReadGiven(st, step.c, step.i, step.n);
    } else if step.TargetRecords? {
      TargetRecordGiven(st, step.c, step.i, step.ok);
    } else if step.Connect? {
      SameGiven(st, st');
    } else {
      WireOnly(st, step, st');
      WiredGiven(st, step);
    }
  }
}
