/** A target's commit takes everything: it empties the handler's pending names and the hub, and frees the lock. */
module HandoffWhole {
  import opened Basics
  import opened HandoffState
  import opened HandoffSteps
  import opened HandoffInvariant
  import opened HandoffServed
  import opened HandoffHandler
  import opened HandoffKeeps
  import opened HandoffAdopting
  import opened HandoffCommit
  import opened HandoffTheorems

  predicate KeptHas(kept: seq<Kept>, name: Name) {
    exists i :: 0 <= i < |kept| && kept[i].name == name
  }

  /** The handler holds nothing its target has not prepared, but for one name. */
  ghost predicate HoldsOnly(conn: Conn, but: Option<Name>) {
    forall name :: name in conn.handler.pending ==> KeptHas(conn.target.kept, name) || but == Some(name)
  }

  /** A commit is next in line, or being walked over. */
  predicate CommitPending(conn: Conn) {
    (conn.requests != [] && IsCommit(conn.requests[0])) || Committed(conn.handler.pc)
  }

  /** A handler that still answers holds the batch. */
  predicate Firm(h: Handler) {
    Live(h) ==> h.frozen
  }

  /** Whoever reads a list in these replies, the handler holds the batch. */
  ghost predicate ListsFirm(h: Handler, replies: seq<Reply>) {
    forall k :: 0 <= k < |replies| && replies[k].body.Listed? ==> Firm(h)
  }

  /** Before its commit is asked for. */
  ghost predicate EarlyOk(conn: Conn) {
    var t := conn.target;
    match t.pc
    case Begin => conn.handler.pending == map[]
    case Listing => conn.handler.pending == map[] && ListsFirm(conn.handler, conn.replies)
    case Preparing => !t.skipped ==> HoldsOnly(conn, None) && Firm(conn.handler)
    case Adopting => !t.skipped && t.next < |t.listed| ==> HoldsOnly(conn, Some(t.listed[t.next])) && Firm(conn.handler)
    case Snapshotting(_, _, _) =>
      !t.skipped && t.next < |t.listed| ==> HoldsOnly(conn, Some(t.listed[t.next])) && Firm(conn.handler)
    case _ => true
  }

  /** A commit that is asked for names all that the handler holds, which is the whole inventory. */
  ghost predicate CommitWhole(conn: Conn) {
    CommitPending(conn) ==>
      HoldsOnly(conn, None) && conn.inventory == Some(KeptNames(conn.target.kept)) && Firm(conn.handler)
  }

  ghost predicate WholeConn(conn: Conn) {
    conn.target.pc.Foreign? || (EarlyOk(conn) && CommitWhole(conn))
  }

  // --------------------------------------------------------------- handler steps

  /** The handler lets names go, or takes none; it takes at most the first request. */
  ghost predicate Lets(conn: Conn, conn': Conn) {
    && conn'.target == conn.target && conn'.handler.pending.Keys <= conn.handler.pending.Keys
    && (conn'.requests == conn.requests || (conn.requests != [] && conn'.requests == conn.requests[1..]))
    && (Firm(conn.handler) && !Committed(conn.handler.pc) ==> Firm(conn'.handler))
    && Says(conn, conn')
  }

  /** At most one reply more, a list only of a handler that holds the batch. */
  ghost predicate Says(conn: Conn, conn': Conn) {
    || conn'.replies == conn.replies
    || exists r :: conn'.replies == conn.replies + [r] && (r.body.Listed? ==> Firm(conn'.handler))
  }

  /** Neither a walk of a commit nor an inventory comes from nowhere. */
  ghost predicate Follows(conn: Conn, conn': Conn) {
    && (Committed(conn'.handler.pc) ==> CommitPending(conn) && conn'.inventory == conn.inventory)
    && (conn'.requests == conn.requests ==> conn'.inventory == conn.inventory)
    && (Committed(conn'.handler.pc) && Firm(conn.handler) ==> Firm(conn'.handler))
  }

  lemma EarlyLets(conn: Conn, conn': Conn)
    requires Lets(conn, conn') && EarlyOk(conn) && CommitOwn(conn)
    ensures EarlyOk(conn')
  {
    assert conn.handler.pending == map[] ==> conn'.handler.pending == map[];
    if conn.target.pc.Listing? {
      ListsStayFirm(conn, conn');
    }
  }

  lemma ListsStayFirm(conn: Conn, conn': Conn)
    requires Says(conn, conn') && ListsFirm(conn.handler, conn.replies)
    requires Firm(conn.handler) ==> Firm(conn'.handler)
    ensures ListsFirm(conn'.handler, conn'.replies)
  {
  }

  lemma CommitLets(conn: Conn, conn': Conn)
    requires Lets(conn, conn') && Follows(conn, conn') && CommitOwn(conn) && CommitWhole(conn)
    ensures CommitWhole(conn')
  {
  }

  lemma LetsWhole(conn: Conn, conn': Conn)
    requires Lets(conn, conn') && Follows(conn, conn') && CommitOwn(conn) && WholeConn(conn)
    ensures WholeConn(conn')
  {
    if !conn.target.pc.Foreign? {
      EarlyLets(conn, conn');
      CommitLets(conn, conn');
    }
  }

  lemma BatchLets(st: State, c: ConnId, sent: bool)
    requires SourceInv(st) && CanBatch(st, c)
    ensures Lets(st.conns[c], BatchBegun(st, c, sent).conns[c])
    ensures Follows(st.conns[c], BatchBegun(st, c, sent).conns[c])
  {
    BatchPasses(st, c);
  }

  lemma ListLets(st: State, c: ConnId, order: seq<Name>, sent: bool)
    requires CanList(st, c, order)
    ensures Lets(st.conns[c], ListedState(st, c, order, sent).conns[c])
    ensures Follows(st.conns[c], ListedState(st, c, order, sent).conns[c])
  {
  }

  /** A request is taken, and answered or not, with nothing else changed but where the handler goes on. */
  lemma AnswerLets(conn: Conn, conn': Conn, reply: Reply, sent: bool)
    requires conn.requests != [] && conn.handler.pc.Ready? && !reply.body.Listed?
    requires conn'.handler.pc.Ready? || conn'.handler.pc.Leaving?
    requires conn' == Replying(conn.(requests := conn.requests[1..], handler := conn.handler.(pc := conn'.handler.pc)),
                               reply, sent)
    ensures Lets(conn, conn') && Follows(conn, conn')
  {
  }

  lemma SnapshotLets(st: State, c: ConnId, native: bool, sent: bool)
    requires CanSnapshot(st, c)
    ensures Lets(st.conns[c], SnapshotAnswered(st, c, native, sent).conns[c])
    ensures Follows(st.conns[c], SnapshotAnswered(st, c, native, sent).conns[c])
  {
  }

  lemma ExitLets(st: State, c: ConnId, sent: bool)
    requires CanExit(st, c)
    ensures Lets(st.conns[c], ExitAnswered(st, c, sent).conns[c])
    ensures Follows(st.conns[c], ExitAnswered(st, c, sent).conns[c])
  {
    var conn := st.conns[c];
    var body := if conn.handler.pending != map[] then Refused else Fine;
    AnswerLets(conn, ExitAnswered(st, c, sent).conns[c], Reply(conn.requests[0].id, body, None), sent);
  }

  lemma UnknownLets(st: State, c: ConnId, sent: bool)
    requires CanOther(st, c)
    ensures Lets(st.conns[c], OtherAnswered(st, c, sent).conns[c])
    ensures Follows(st.conns[c], OtherAnswered(st, c, sent).conns[c])
  {
  }

  lemma OtherLets(st: State, step: Step, st': State)
    requires RequestStep(st, step, st') && !step.HandleAdopt? && !step.HandleBatch? && !step.HandleList?
    ensures step.c in st.conns && step.c in st'.conns
    ensures Lets(st.conns[step.c], st'.conns[step.c]) && Follows(st.conns[step.c], st'.conns[step.c])
  {
    if step.HandleSnapshot? {
      SnapshotLets(st, step.c, step.native, step.sent);
    } else if step.HandleExit? {
      ExitLets(st, step.c, step.sent);
    } else {
      UnknownLets(st, step.c, step.sent);
    }
  }

  /** The handler leaves a walk, holding less, and says at most that it is over. */
  lemma LeavesWalk(conn: Conn, conn': Conn, reply: Reply, sent: bool)
    requires conn.handler.pc.Resolving? && conn'.target == conn.target && conn'.requests == conn.requests
    requires conn'.handler.pending.Keys <= conn.handler.pending.Keys && conn'.inventory == conn.inventory
    requires conn'.replies == (if sent then conn.replies + [reply] else conn.replies) && !reply.body.Listed?
    requires !conn'.handler.pc.Resolving?
    requires Firm(conn.handler) && !Committed(conn.handler.pc) ==> Firm(conn'.handler)
    ensures Lets(conn, conn') && Follows(conn, conn')
  {
  }

  lemma BatchEndLets(st: State, c: ConnId, sent: bool)
    requires CanEnd(st, c) && WalkOk(st.conns[c].handler) && st.conns[c].handler.pc.after.Batch?
    ensures Lets(st.conns[c], Ended(st, c, sent).conns[c]) && Follows(st.conns[c], Ended(st, c, sent).conns[c])
  {
    var conn := st.conns[c];
    LeavesWalk(conn, Ended(st, c, sent).conns[c], Reply(conn.handler.pc.id, Resolved(|conn.handler.pc.batch|), None),
               sent);
  }

  lemma EndLets(st: State, c: ConnId, sent: bool)
    requires CanEnd(st, c) && WalkOk(st.conns[c].handler)
    ensures Lets(st.conns[c], Ended(st, c, sent).conns[c]) && Follows(st.conns[c], Ended(st, c, sent).conns[c])
  {
    var conn := st.conns[c];
    if conn.handler.pc.after.Batch? {
      BatchEndLets(st, c, sent);
    } else {
      LeavesWalk(conn, Ended(st, c, sent).conns[c], Reply(conn.handler.pc.id, Refused, None),
                 sent && conn.handler.pc.after.AdoptFailed?);
    }
  }

  lemma ResolveLets(st: State, c: ConnId)
    requires c in st.conns
    ensures CanChoose(st, c) ==>
              Lets(st.conns[c], Chosen(st, c).conns[c]) && Follows(st.conns[c], Chosen(st, c).conns[c])
    ensures CanFinish(st, c) ==>
              Lets(st.conns[c], Finished(st, c).conns[c]) && Follows(st.conns[c], Finished(st, c).conns[c])
  {
  }

  lemma SettleLets(st: State, c: ConnId, sent: bool)
    requires InStabilizing(st, c)
    ensures Lets(st.conns[c], AdoptExpired(st, c).conns[c]) && Follows(st.conns[c], AdoptExpired(st, c).conns[c])
    ensures CanSettleAdopt(st, c) ==>
              Lets(st.conns[c], AdoptAnswered(st, c, sent).conns[c])
              && Follows(st.conns[c], AdoptAnswered(st, c, sent).conns[c])
  {
  }

  lemma LeaveLets(st: State, c: ConnId, order: seq<Name>)
    requires c in st.conns
    ensures Lets(st.conns[c], Disconnected(st, c).conns[c]) && Follows(st.conns[c], Disconnected(st, c).conns[c])
    ensures Lets(st.conns[c], Unwound(st, c, order).conns[c]) && Follows(st.conns[c], Unwound(st, c, order).conns[c])
  {
  }

  lemma WaitLets(st: State, step: Step, st': State)
    requires WalkStep(st, step, st') && !step.Chooses? && !step.Finishes? && !step.BatchEnds?
    ensures step.c in st.conns && step.c in st'.conns
    ensures Lets(st.conns[step.c], st'.conns[step.c]) && Follows(st.conns[step.c], st'.conns[step.c])
  {
    if step.AdoptSettled? {
      SettleLets(st, step.c, step.sent);
    } else if step.AdoptTimesOut? {
      SettleLets(st, step.c, true);
    } else if step.Unwinds? {
      LeaveLets(st, step.c, step.order);
    } else {
      LeaveLets(st, step.c, []);
    }
  }

  lemma WalkLets(st: State, step: Step, st': State)
    requires SourceInv(st) && WalkStep(st, step, st')
    ensures step.c in st.conns && step.c in st'.conns
    ensures Lets(st.conns[step.c], st'.conns[step.c]) && Follows(st.conns[step.c], st'.conns[step.c])
  {
    if step.BatchEnds? {
      assert HandlerOk(st, step.c);
      EndLets(st, step.c, step.sent);
    } else if step.Chooses? || step.Finishes? {
      ResolveLets(st, step.c);
    } else {
      WaitLets(st, step, st');
    }
  }

  lemma RequestLets(st: State, step: Step, st': State)
    requires SourceInv(st) && RequestStep(st, step, st') && !step.HandleAdopt?
    ensures step.c in st.conns && step.c in st'.conns
    ensures Lets(st.conns[step.c], st'.conns[step.c]) && Follows(st.conns[step.c], st'.conns[step.c])
  {
    if step.HandleBatch? {
      BatchLets(st, step.c, step.sent);
    } else if step.HandleList? {
      ListLets(st, step.c, step.order, step.sent);
    } else {
      OtherLets(st, step, st');
    }
  }

  // ------------------------------------------------------------------ adopt

  /** An adopt takes its request and may begin to hold its name. */
  lemma AdoptTakes(st: State, c: ConnId, sent: bool)
    requires CanAdopt(st, c)
    ensures var conn, conn' := st.conns[c], AdoptBegun(st, c, sent).conns[c];
            && conn'.target == conn.target && conn'.requests == conn.requests[1..] && !Committed(conn'.handler.pc)
            && conn'.handler.pending.Keys <= conn.handler.pending.Keys + {conn.requests[0].name}
            && (Firm(conn.handler) ==> Firm(conn'.handler))
  {
  }

  /** Of the targets that care, only an adopting one has an adopt waiting, and for its next name. */
  lemma AdoptsNext(ss: Sessions, c: ConnId, conn: Conn)
    requires TargetOk(ss, c, conn) && conn.requests != [] && conn.requests[0].AdoptRequest?
    ensures !conn.target.pc.Begin? && !conn.target.pc.Listing?
    ensures conn.target.pc.Preparing? || conn.target.pc.Snapshotting? ==> conn.target.skipped
    ensures conn.target.pc.Adopting? && !conn.target.skipped ==>
              conn.target.next < |conn.target.listed| && conn.requests[0].name == conn.target.listed[conn.target.next]
  {
    if !Indifferent(conn.target) {
      QueuedRequest(ss, c, conn);
    }
  }

  lemma AdoptWhole(ss: Sessions, c: ConnId, conn: Conn, conn': Conn)
    requires TargetOk(ss, c, conn) && CommitOwn(conn) && WholeConn(conn)
    requires conn.requests != [] && conn.requests[0].AdoptRequest?
    requires conn'.target == conn.target && conn'.requests == conn.requests[1..] && !Committed(conn'.handler.pc)
    requires conn'.handler.pending.Keys <= conn.handler.pending.Keys + {conn.requests[0].name}
    requires Firm(conn.handler) ==> Firm(conn'.handler)
    ensures WholeConn(conn')
  {
    AdoptsNext(ss, c, conn);
    assert conn'.requests != [] ==> conn'.requests[0] == conn.requests[1];
  }

  // ------------------------------------------------------------ target steps

  /** The target moves on: the handler is as it was, and no commit comes to the front of the queue. */
  ghost predicate Proceeds(conn: Conn, conn': Conn) {
    && conn'.handler == conn.handler && conn'.inventory == conn.inventory
    && (CommitPending(conn') ==> CommitPending(conn))
    && Remembers(conn.target, conn'.target)
  }

  lemma ProceedsWhole(conn: Conn, conn': Conn)
    requires Proceeds(conn, conn') && CommitOwn(conn) && CommitWhole(conn)
    ensures CommitWhole(conn')
  {
    if CommitPending(conn') {
      SameNames(conn.target.kept, conn'.target.kept);
    }
  }

  lemma SameNames(kept: seq<Kept>, kept': seq<Kept>)
    requires SameSids(kept, kept')
    ensures KeptNames(kept) == KeptNames(kept')
    ensures forall name :: KeptHas(kept, name) ==> KeptHas(kept', name)
  {
    forall name | KeptHas(kept, name) ensures KeptHas(kept', name) {
      var i :| 0 <= i < |kept| && kept[i].name == name;
      assert kept'[i].name == name;
    }
  }

  lemma QueuesProceed(conn: Conn, conn': Conn)
    requires Queues(conn, conn') && conn'.handler == conn.handler
    ensures CommitPending(conn') ==> CommitPending(conn)
  {
  }

  /** After an error nothing more is held to account before a commit. */
  lemma FailedEarly(conn: Conn)
    requires EarlyOk(conn) && (conn.target.pc.Dropping? ==> conn.target.skipped)
    ensures EarlyOk(CallFailed(conn))
  {
  }

  lemma SentWhole(ss: Sessions, c: ConnId, conn: Conn)
    requires MaySend(conn.target.pc) && TargetOk(ss, c, conn) && CommitOwn(conn) && EarlyOk(conn) && CommitWhole(conn)
    ensures EarlyOk(Sent(conn)) && CommitWhole(Sent(conn))
  {
    var t := conn.target;
    if t.pc.Preparing? && !t.skipped && t.next >= |t.listed| {
      assert KeptNames(t.kept) == t.listed;
    }
  }

  lemma PoppedEarly(conn: Conn)
    requires EarlyOk(conn) && conn.replies != []
    ensures EarlyOk(Popped(conn))
  {
  }

  lemma ListedEarly(conn: Conn, names: seq<Name>)
    requires conn.handler.pending == map[] && Firm(conn.handler)
    ensures EarlyOk(Now(conn, conn.target.(pc := Preparing, listed := names, next := 0)))
  {
  }

  lemma AdoptedEarly(conn: Conn, body: Body)
    requires EarlyOk(conn) && conn.target.pc.Adopting? && body.Adopted? && (body.alive ==> conn.target.fds != [])
    ensures EarlyOk(AdoptReceived(conn, body))
  {
  }

  lemma KeepHolds(conn: Conn, end: nat, name: Name, sid: SessId, master: Option<SessId>, screen: seq<byte>,
                  build: Build)
    requires HoldsOnly(conn, Some(name))
    ensures HoldsOnly(Keep(conn, end, name, sid, master, screen, build), None)
  {
    var conn' := Keep(conn, end, name, sid, master, screen, build);
    var n := |conn.target.kept|;
    forall held | held in conn'.handler.pending ensures KeptHas(conn'.target.kept, held) {
      if held == name {
        assert conn'.target.kept[n].name == name;
      } else {
        var i :| 0 <= i < n && conn.target.kept[i].name == held;
        assert conn'.target.kept[i].name == held;
      }
    }
  }

  lemma SnapshotEarly(ss: Sessions, c: ConnId, conn: Conn, build: Build)
    requires TargetOk(ss, c, conn) && conn.target.pc.Snapshotting? && EarlyOk(conn) && conn.replies != []
    ensures EarlyOk(Received(ss, conn, build))
  {
    var t := conn.target;
    if !t.skipped {
      var p: Progress :| SnapshottingOk(ss, conn, p);
      var reply := conn.replies[0];
      if reply.body.Snapshot? {
        KeepHolds(Popped(conn), LogEnd(ss, t.pc.sid), t.pc.name, t.pc.sid, t.pc.master, reply.body.screen, build);
      }
    }
  }

  lemma ReceivedEarly(ss: Sessions, c: ConnId, conn: Conn, build: Build)
    requires TargetOk(ss, c, conn) && EarlyOk(conn) && conn.replies != []
    ensures EarlyOk(Received(ss, conn, build))
  {
    PoppedEarly(conn);
    FailedEarly(Popped(conn));
    match conn.target.pc
    case Listing =>
      if conn.replies[0].body.Listed? {
        ListedEarly(Popped(conn), conn.replies[0].body.names);
      }
    case Adopting => AdoptingEarly(ss, conn, build);
    case Snapshotting(_, _, _) => SnapshotEarly(ss, c, conn, build);
    case Retrying => RetryingEarly(ss, c, conn, build);
    case _ =>
  }

  lemma AdoptingEarly(ss: Sessions, conn: Conn, build: Build)
    requires EarlyOk(conn) && conn.replies != [] && conn.target.pc.Adopting?
    ensures EarlyOk(Received(ss, conn, build))
  {
    PoppedEarly(conn);
    FailedEarly(Popped(conn));
    var body := conn.replies[0].body;
    if body.Adopted? && (body.alive ==> Popped(conn).target.fds != []) {
      AdoptedEarly(Popped(conn), body);
    }
  }

  lemma RetryingEarly(ss: Sessions, c: ConnId, conn: Conn, build: Build)
    requires TargetOk(ss, c, conn) && conn.replies != [] && conn.target.pc.Retrying?
    ensures EarlyOk(Received(ss, conn, build))
  {
    ReceiveRetrying(ss, c, conn, build);
  }

  lemma ReceivedWhole(ss: Sessions, c: ConnId, conn: Conn, build: Build)
    requires TargetOk(ss, c, conn) && CommitOwn(conn) && EarlyOk(conn) && CommitWhole(conn) && conn.replies != []
    ensures EarlyOk(Received(ss, conn, build)) && CommitWhole(Received(ss, conn, build))
  {
    var conn' := Received(ss, conn, build);
    ReceivedEarly(ss, c, conn, build);
    ReceivedHandler(ss, conn, build);
    ReceivedInventory(ss, conn, build);
    ReceivedQueues(ss, conn, build);
    ReceivedRemembers(ss, conn, build);
    QueuesProceed(conn, conn');
    ProceedsWhole(conn, conn');
  }

  lemma FailedWhole(conn: Conn)
    requires CommitOwn(conn) && EarlyOk(conn) && CommitWhole(conn) && (conn.target.pc.Dropping? ==> conn.target.skipped)
    ensures EarlyOk(CallFailed(conn)) && CommitWhole(CallFailed(conn))
  {
    FailedEarly(conn);
    FailedHandler(conn);
    FailedQueues(conn);
    FailedRemembers(conn);
    QueuesProceed(conn, CallFailed(conn));
    ProceedsWhole(conn, CallFailed(conn));
  }

  lemma UnsentWhole(conn: Conn)
    requires EarlyOk(conn) && CommitWhole(conn) && conn.requests != []
    ensures EarlyOk(Unsent(conn)) && CommitWhole(Unsent(conn))
  {
    assert Unsent(conn).requests != [] ==> Unsent(conn).requests[0] == conn.requests[0];
  }

  lemma CrashedWhole(conn: Conn)
    requires !conn.target.pc.Foreign? && CommitOwn(conn) && CommitWhole(conn)
    ensures EarlyOk(Now(conn, conn.target.(pc := Crashed))) && CommitWhole(Now(conn, conn.target.(pc := Crashed)))
  {
  }

  lemma StoppedWhole(st: State, c: ConnId, i: nat)
    requires CanTargetStop(st, c, i) && CommitOwn(st.conns[c]) && CommitWhole(st.conns[c])
    ensures EarlyOk(TargetStopped(st, c, i).conns[c]) && CommitWhole(TargetStopped(st, c, i).conns[c])
  {
    ProceedsWhole(st.conns[c], TargetStopped(st, c, i).conns[c]);
  }

  lemma StillWhole(st: State, step: Step)
    requires OfWire(step) && step.c in st.conns
    requires step.TargetStops? || step.TargetCrashes? || step.ForeignSends? || step.ForeignReceives?
    requires !st.conns[step.c].target.pc.Foreign?
    requires CommitOwn(st.conns[step.c]) && EarlyOk(st.conns[step.c]) && CommitWhole(st.conns[step.c])
    ensures EarlyOk(Wired(st, step)) && CommitWhole(Wired(st, step))
  {
    if step.TargetCrashes? {
      CrashedWhole(st.conns[step.c]);
    } else if step.TargetStops? {
      if CanTargetStop(st, step.c, step.i) {
        StoppedWhole(st, step.c, step.i);
      }
    }
  }

  lemma WireWhole(st: State, step: Step)
    requires OfWire(step) && step.c in st.conns && TargetOk(st.sessions, step.c, st.conns[step.c])
    requires !st.conns[step.c].target.pc.Foreign?
    requires CommitOwn(st.conns[step.c]) && EarlyOk(st.conns[step.c]) && CommitWhole(st.conns[step.c])
    ensures EarlyOk(Wired(st, step)) && CommitWhole(Wired(st, step))
  {
    var conn := st.conns[step.c];
    if step.TargetSends? {
      if MaySend(conn.target.pc) {
        SentWhole(st.sessions, step.c, conn);
      }
    } else if step.TargetReceives? {
      if conn.replies != [] {
        ReceivedWhole(st.sessions, step.c, conn, step.build);
      }
    } else if step.TargetWriteFails? {
      if conn.requests != [] {
        UnsentWhole(conn);
      }
    } else if step.TargetCallFails? {
      FailedWhole(conn);
    } else {
      StillWhole(st, step);
    }
  }

  lemma TakerWhole(conn: Conn, conn': Conn)
    requires CommitOwn(conn) && WholeConn(conn) && conn.target.pc.Published? && conn'.target.pc.Published?
    requires conn' == conn.(target := conn'.target) && Remembers(conn.target, conn'.target)
    ensures WholeConn(conn')
  {
    ProceedsWhole(conn, conn');
  }

  lemma OwnWireWhole(st: State, step: Step, st': State)
    requires TargetInv(st) && CommitInv(st) && TargetStep(st, step, st') && OfWire(step)
    requires step.c in st.conns && WholeConn(st.conns[step.c])
    ensures step.c in st'.conns && WholeConn(st'.conns[step.c])
  {
    WireOnly(st, step, st');
    if st.conns[step.c].target.pc.Foreign? {
      WireRemembers(st, step);
    } else {
      assert TargetOk(st.sessions, step.c, st.conns[step.c]) && CommitOwn(st.conns[step.c]);
      WireWhole(st, step);
    }
  }

  lemma TakersWhole(st: State, c: ConnId, i: nat, n: nat, ok: bool)
    requires CommitInv(st) && CanTake(st, c, i) && WholeConn(st.conns[c])
    ensures CanTargetRead(st, c, i, n) ==>
              c in TargetRead(st, c, i, n).conns && WholeConn(TargetRead(st, c, i, n).conns[c])
    ensures CanTargetRecord(st, c, i) ==>
              c in TargetRecorded(st, c, i, ok).conns && WholeConn(TargetRecorded(st, c, i, ok).conns[c])
  {
    TakerRemembers(st, c, i, n, ok);
    if CanTargetRead(st, c, i, n) {
      TakerWhole(st.conns[c], TargetRead(st, c, i, n).conns[c]);
    }
    if CanTargetRecord(st, c, i) {
      TakerWhole(st.conns[c], TargetRecorded(st, c, i, ok).conns[c]);
    }
  }

  lemma OwnWhole(st: State, step: Step, st': State)
    requires TargetInv(st) && CommitInv(st) && TargetStep(st, step, st') && !step.Connect?
    requires step.c in st.conns && WholeConn(st.conns[step.c])
    ensures step.c in st'.conns && WholeConn(st'.conns[step.c])
  {
    if OfWire(step) {
      OwnWireWhole(st, step, st');
    } else if step.TargetReads? {
      TakersWhole(st, step.c, step.i, step.n, true);
    } else {
      TakersWhole(st, step.c, step.i, 0, step.ok);
    }
  }

  // ------------------------------------------------------------------ every step

  lemma HandlerWhole(st: State, step: Step, st': State)
    requires Inv(st) && HandlerStep(st, step, st') && step.c in st.conns && WholeConn(st.conns[step.c])
    ensures step.c in st'.conns && WholeConn(st'.conns[step.c])
  {
    if st.conns[step.c].target.pc.Foreign? {
      HandlerInventory(st, step, st');
    } else {
      assert TargetOk(st.sessions, step.c, st.conns[step.c]) && CommitOwn(st.conns[step.c]);
      if step.HandleAdopt? {
        AdoptTakes(st, step.c, step.sent);
        AdoptWhole(st.sessions, step.c, st.conns[step.c], st'.conns[step.c]);
      } else {
        HandlerLets(st, step, st');
        LetsWhole(st.conns[step.c], st'.conns[step.c]);
      }
    }
  }

  lemma HandlerLets(st: State, step: Step, st': State)
    requires SourceInv(st) && HandlerStep(st, step, st') && !step.HandleAdopt?
    ensures step.c in st.conns && step.c in st'.conns
    ensures Lets(st.conns[step.c], st'.conns[step.c]) && Follows(st.conns[step.c], st'.conns[step.c])
  {
    if OfWalk(step) {
      WalkLets(st, step, st');
    } else {
      RequestLets(st, step, st');
    }
  }

  lemma StepWhole(st: State, step: Step, st': State, c: ConnId)
    requires Inv(st) && Next(st, step, st') && c in st.conns && WholeConn(st.conns[c])
    ensures c in st'.conns && WholeConn(st'.conns[c])
  {
    WhoMoves(st, step, st', c);
    if OwnMove(st, step, st', c) {
      OwnMoveWhole(st, step, st', c);
    } else if HandlerMove(st, step, st', c) {
      HandlerMoveWhole(st, step, st', c);
    }
  }

  lemma OwnMoveWhole(st: State, step: Step, st': State, c: ConnId)
    requires Inv(st) && OwnMove(st, step, st', c) && c in st.conns && WholeConn(st.conns[c])
    ensures c in st'.conns && WholeConn(st'.conns[c])
  {
    OwnWhole(st, step, st');
  }

  lemma HandlerMoveWhole(st: State, step: Step, st': State, c: ConnId)
    requires Inv(st) && HandlerMove(st, step, st', c) && c in st.conns && WholeConn(st.conns[c])
    ensures c in st'.conns && WholeConn(st'.conns[c])
  {
    HandlerWhole(st, step, st');
  }

  lemma NewConnWhole(st: State, step: Step, st': State, c: ConnId)
    requires Next(st, step, st') && c !in st.conns && c in st'.conns
    ensures WholeConn(st'.conns[c])
  {
    NewConnection(st, step, st', c);
  }

  lemma {:induction false} RunWhole(run: seq<State>, steps: seq<Step>, i: nat, c: ConnId)
    requires IsRun(run, steps) && i < |run| && c in run[i].conns
    ensures WholeConn(run[i].conns[c])
  {
    if i > 0 {
      if c in run[i - 1].conns {
        RunWhole(run, steps, i - 1, c);
        RunInv(run, steps, i - 1);
        StepWhole(run[i - 1], steps[i - 1], run[i], c);
      } else {
        NewConnWhole(run[i - 1], steps[i - 1], run[i], c);
      }
    }
  }

  // ------------------------------------------------------------- the frozen hub

  /**
    While a target's handler holds the lock, the hub is the inventory it listed,
    or empty once its commit is through.
   */
  ghost predicate HubListed(st: State) {
    st.lock.Some? && st.lock.value in st.conns && !st.conns[st.lock.value].target.pc.Foreign? ==>
      var inventory := st.conns[st.lock.value].inventory;
      inventory.Some? && (st.hub == map[] || st.hub.Keys == Names(inventory.value))
  }

  lemma ListLock(st: State, step: Step, st': State)
    requires RequestStep(st, step, st') && step.HandleList?
    ensures st'.lock == st.lock || Grants(st, step, st')
  {
  }

  lemma RequestLock(st: State, step: Step, st': State)
    requires RequestStep(st, step, st')
    ensures st'.lock == st.lock || (step.HandleList? && Grants(st, step, st'))
  {
    if step.HandleList? {
      ListLock(st, step, st');
    }
  }

  lemma EndLock(st: State, c: ConnId, st': State)
    requires WalkEnds(st, c, st')
    ensures st'.lock == st.lock || st'.lock.None?
  {
  }

  lemma WalkLock(st: State, step: Step, st': State)
    requires SourceInv(st) && WalkStep(st, step, st')
    ensures st'.lock == st.lock || st'.lock.None?
  {
    if step.BatchEnds? {
      assert HandlerOk(st, step.c);
      EndedShape(st, step.c, step.sent);
      EndLock(st, step.c, st');
    }
  }

  lemma TargetLock(st: State, step: Step, st': State)
    requires TargetStep(st, step, st')
    ensures st'.lock == st.lock
  {
    if OfWire(step) {
      WireOnly(st, step, st');
    }
  }

  lemma ClientLock(st: State, step: Step, st': State)
    requires ClientStep(st, step, st')
    ensures st'.lock == st.lock
  {
  }

  lemma CopierLock(st: State, step: Step, st': State)
    requires CopierMoves(st, step, st')
    ensures st'.lock == st.lock
  {
  }

  /** The lock is taken by a granted list alone. */
  lemma LockMoves(st: State, step: Step, st': State)
    requires SourceInv(st) && Next(st, step, st')
    ensures st'.lock == st.lock || st'.lock.None? || (step.HandleList? && Grants(st, step, st'))
  {
    if IsCopierStep(step) {
      CopierLock(st, step, st');
    } else if OfClients(step) {
      ClientLock(st, step, st');
    } else if OfWalk(step) {
      WalkLock(st, step, st');
    } else if OfRequest(step) {
      RequestLock(st, step, st');
    } else {
      TargetLock(st, step, st');
    }
  }

  /** What a target's commit is about to take out of the hub is the whole inventory. */
  lemma WalksInventory(conn: Conn)
    requires WholeConn(conn) && CommitOwn(conn) && !conn.target.pc.Foreign? && Committed(conn.handler.pc)
    ensures conn.inventory == Some(conn.handler.pc.batch)
  {
  }

  lemma CommitHub(st: State, c: ConnId, hub': map<Name, SessId>)
    requires CommitInv(st) && HubListed(st) && st.lock == Some(c) && c in st.conns && WholeConn(st.conns[c])
    requires !st.conns[c].target.pc.Foreign? && Committed(st.conns[c].handler.pc)
    requires hub' == st.hub - Names(st.conns[c].handler.pc.batch)
    ensures hub' == map[]
  {
    WalksInventory(st.conns[c]);
  }

  lemma HeldHub(st: State, step: Step, st': State)
    requires Reachable(st) && Next(st, step, st') && HubListed(st) && st.lock.Some? && st'.lock == st.lock
    requires st.lock.value in st.conns && WholeConn(st.conns[st.lock.value])
    ensures HubListed(st')
  {
    var c := st.lock.value;
    ReachableInv(st);
    WhoMoves(st, step, st', c);
    StepForeign(st, step, st', c);
    StepInventory(st, step, st', c);
    if st'.hub != st.hub {
      HubFrozen(st, step, st');
      if !st.conns[c].target.pc.Foreign? {
        CommitHub(st, c, st'.hub);
      }
    }
  }

  /** A connection stays a target's or another client's. */
  lemma StepForeign(st: State, step: Step, st': State, c: ConnId)
    requires Next(st, step, st') && c in st.conns
    ensures c in st'.conns && (st'.conns[c].target.pc.Foreign? <==> st.conns[c].target.pc.Foreign?)
  {
    WhoMoves(st, step, st', c);
    if OwnMove(st, step, st', c) {
      if OfWire(step) {
        WireOnly(st, step, st');
        WireRemembers(st, step);
      } else if step.TargetReads? {
        TakerRemembers(st, c, step.i, step.n, true);
      } else {
        TakerRemembers(st, c, step.i, 0, step.ok);
      }
    }
  }

  lemma GrantHub(st: State, step: Step, st': State)
    requires RequestStep(st, step, st') && step.HandleList? && Grants(st, step, st')
    ensures HubListed(st')
  {
  }

  ghost predicate AllWhole(st: State) {
    forall c :: c in st.conns ==> WholeConn(st.conns[c])
  }

  lemma StepHub(st: State, step: Step, st': State)
    requires Reachable(st) && Next(st, step, st') && HubListed(st)
    requires AllWhole(st)
    ensures HubListed(st')
  {
    ReachableInv(st);
    LockMoves(st, step, st');
    if st'.lock.Some? {
      if st'.lock == st.lock {
        HeldHub(st, step, st');
      } else {
        GrantHub(st, step, st');
      }
    }
  }

  lemma RunAllWhole(run: seq<State>, steps: seq<Step>, i: nat)
    requires IsRun(run, steps) && i < |run|
    ensures AllWhole(run[i])
  {
    var st := run[i];
    forall c | c in st.conns ensures WholeConn(st.conns[c]) {
      RunWhole(run, steps, i, c);
    }
  }

  lemma {:induction false} RunHub(run: seq<State>, steps: seq<Step>, i: nat)
    requires IsRun(run, steps) && i < |run|
    ensures HubListed(run[i])
  {
    if i > 0 {
      RunHub(run, steps, i - 1);
      assert run[i - 1] in run;
      RunAllWhole(run, steps, i - 1);
      StepHub(run[i - 1], steps[i - 1], run[i]);
    }
  }

  // ------------------------------------------------------------------ theorems

  lemma HeldIsWalked(st: State, c: ConnId)
    requires Inv(st) && c in st.conns && !st.conns[c].target.pc.Foreign? && WholeConn(st.conns[c])
    requires Committed(st.conns[c].handler.pc)
    ensures var conn := st.conns[c];
            && conn.inventory == Some(conn.handler.pc.batch)
            && conn.handler.pending.Keys == Names(conn.handler.pc.batch)
            && conn.handler.frozen && st.lock == Some(c)
  {
    assert HandlerOk(st, c) && CommitOwn(st.conns[c]);
    HeldNames(st.conns[c]);
  }

  lemma HeldNames(conn: Conn)
    requires HoldsOnly(conn, None) && Committed(conn.handler.pc) && WalkOk(conn.handler)
    requires conn.handler.pc.batch == KeptNames(conn.target.kept)
    ensures conn.handler.pending.Keys == Names(conn.handler.pc.batch)
  {
    forall name | name in conn.handler.pending ensures name in Names(conn.handler.pc.batch) {
      var i :| 0 <= i < |conn.target.kept| && conn.target.kept[i].name == name;
      assert conn.handler.pc.batch[i] == name;
    }
  }

  /** What a handler holds while it walks over a target's commit is exactly what it walks over: the whole inventory. */
  lemma CommitNamesAll(run: seq<State>, steps: seq<Step>, i: nat, c: ConnId)
    requires IsRun(run, steps) && i < |run| && c in run[i].conns && !run[i].conns[c].target.pc.Foreign?
    requires Committed(run[i].conns[c].handler.pc)
    ensures var conn := run[i].conns[c];
            && conn.inventory == Some(conn.handler.pc.batch)
            && conn.handler.pending.Keys == Names(conn.handler.pc.batch)
            && conn.handler.frozen && run[i].lock == Some(c)
  {
    RunInv(run, steps, i);
    RunWhole(run, steps, i, c);
    HeldIsWalked(run[i], c);
  }

  lemma EndedLock(st: State, c: ConnId, sent: bool)
    requires SourceInv(st) && CanEnd(st, c) && Committed(st.conns[c].handler.pc) && st.lock == Some(c)
    requires st.conns[c].handler.pending.Keys == Names(st.conns[c].handler.pc.batch)
    ensures var st' := Ended(st, c, sent);
            && st'.conns[c].handler.pending == map[] && st'.hub == st.hub - Names(st.conns[c].handler.pc.batch)
            && st'.lock == (if sent then None else Some(c))
  {
    assert HandlerOk(st, c);
    var h := st.conns[c].handler;
    assert h.pending - Names(h.pc.batch) == map[];
  }

  /**
    The end of a target's commit leaves the source nothing: no name in the hub,
    none pending, and the lock free as soon as the answer is out.
   */
  lemma CommitTakesAll(run: seq<State>, steps: seq<Step>, i: nat, c: ConnId, sent: bool)
    requires IsRun(run, steps) && i < |run| && CanEnd(run[i], c) && !run[i].conns[c].target.pc.Foreign?
    requires Committed(run[i].conns[c].handler.pc)
    ensures var st' := Ended(run[i], c, sent);
            st'.hub == map[] && st'.conns[c].handler.pending == map[] && st'.lock == (if sent then None else Some(c))
  {
    RunInv(run, steps, i);
    CommitNamesAll(run, steps, i, c);
    RunWhole(run, steps, i, c);
    RunHub(run, steps, i);
    EndedLock(run[i], c, sent);
    CommitHub(run[i], c, Ended(run[i], c, sent).hub);
  }
}
