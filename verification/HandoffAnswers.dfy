/** What the source answers to each request, how its walks end, and when the hub is locked, released and closed. */
module HandoffAnswers {
  import opened Basics
  import opened HandoffState
  import opened HandoffSteps
  import opened HandoffInvariant
  import opened HandoffSource
  import opened HandoffHandler
  import opened HandoffKeeps
  import opened HandoffTargets
  import opened HandoffTheorems
  import opened HandoffService

  // --------------------------------------------------------------- what is asked

  /** The session of this name is under a migration that c began. */
  ghost predicate HeldBy(st: State, c: ConnId, name: Name) {
    && name in st.hub && st.hub[name] in st.sessions
    && var s := st.sessions[st.hub[name]];
       s.migration.Some? && s.tickets != [] && s.tickets[|s.tickets| - 1].begunBy == c
  }

  /** Between requests a handler holds exactly the names whose migration it began. */
  lemma PendingIff(st: State, c: ConnId, name: Name)
    requires SourceInv(st) && c in st.conns && st.conns[c].handler.pc.Ready?
    ensures name in st.conns[c].handler.pending <==> HeldBy(st, c, name)
    ensures name in st.conns[c].handler.pending ==> st.conns[c].handler.pending[name].sid == st.hub[name]
  {
    assert HandlerOk(st, c);
    if name in st.conns[c].handler.pending {
      assert PendingName(st, c, name);
      assert SessionOk(st.sessions[st.hub[name]]);
    }
    if HeldBy(st, c, name) {
      assert SessionOk(st.sessions[st.hub[name]]) && Linked(st, st.hub[name]);
    }
  }

  /** The reply the handler of c has just sent. */
  ghost predicate Says(st: State, st': State, c: ConnId, body: Body, fd: Option<SessId>)
    requires HasRequest(st, c)
  {
    c in st'.conns && st'.conns[c].replies == st.conns[c].replies + [Reply(st.conns[c].requests[0].id, body, fd)]
  }

  /** A refusal changes nothing but the wire. */
  ghost predicate Refuses(st: State, st': State, c: ConnId)
    requires HasRequest(st, c)
  {
    && Says(st, st', c, Refused, None)
    && st' == WithConn(st, c, st.conns[c].(requests := st.conns[c].requests[1..], replies := st'.conns[c].replies))
  }

  /** list is granted, with the whole hub, exactly to a connection without the batch, of an open hub of sound logs. */
  lemma ListIsAnswered(st: State, c: ConnId, order: seq<Name>)
    requires Reachable(st) && CanList(st, c, order)
    ensures var st' := ListedState(st, c, order, true);
            if st.lock != Some(c) && !st.closed
               && forall name :: name in st.hub && st.hub[name] in st.sessions ==> !st.sessions[st.hub[name]].logFailed
            then Says(st, st', c, Listed(order), None) && st'.lock == Some(c) && st'.conns[c].handler.frozen
            else Refuses(st, st', c)
  {
    ReachableInv(st);
    assert HandlerOk(st, c);
  }

  /** adopt begins a migration exactly for a session of the hub that has none, and for the holder of the batch. */
  lemma AdoptIsBegun(st: State, c: ConnId)
    requires Reachable(st) && CanAdopt(st, c)
    ensures var AdoptRequest(id, name) := st.conns[c].requests[0];
            var st' := AdoptBegun(st, c, true);
            if st.lock == Some(c) && name in st.hub && st.hub[name] in st.sessions
               && st.sessions[st.hub[name]].gate.None?
            then st'.conns[c].handler.pc == Stabilizing(id, name) && st'.sessions[st.hub[name]].gate.Some?
            else Refuses(st, st', c)
  {
    ReachableInv(st);
    Adoptable(st, c, st.conns[c].requests[0].name);
  }

  lemma Adoptable(st: State, c: ConnId, name: Name)
    requires SourceInv(st) && c in st.conns && st.conns[c].handler.pc.Ready?
    ensures st.conns[c].handler.frozen <==> st.lock == Some(c)
    ensures name in st.hub ==>
              && st.hub[name] in st.sessions
              && (st.sessions[st.hub[name]].gate.None? <==> st.sessions[st.hub[name]].migration.None?)
              && (st.sessions[st.hub[name]].gate.None? ==> name !in st.conns[c].handler.pending)
  {
    assert HandlerOk(st, c);
    PendingIff(st, c, name);
    if name in st.hub {
      assert SessionOk(st.sessions[st.hub[name]]);
    }
  }

  /**
    Once the ticket is stable, adopt answers with the session, and its
    descriptor if the child lives, unless the ticket or the log failed; then the
    name is given up.
   */
  lemma AdoptIsAnswered(st: State, c: ConnId)
    requires Reachable(st) && CanSettleAdopt(st, c)
    ensures var Stabilizing(id, name) := st.conns[c].handler.pc;
            name in st.hub && st.hub[name] in st.sessions
    ensures var Stabilizing(id, name) := st.conns[c].handler.pc;
            AdoptOutcome(st.conns[c], AdoptAnswered(st, c, true).conns[c], id, name, st.hub[name],
                         st.sessions[st.hub[name]])
  {
    ReachableInv(st);
    StabilizingHeld(st, c);
    AdoptComesOut(st, c);
  }

  lemma AdoptComesOut(st: State, c: ConnId)
    requires SourceInv(st) && CanSettleAdopt(st, c)
    ensures var Stabilizing(id, name) := st.conns[c].handler.pc;
            var a := st.conns[c].handler.pending[name];
            AdoptOutcome(st.conns[c], AdoptAnswered(st, c, true).conns[c], id, name, a.sid, st.sessions[a.sid])
  {
    AnswerIsTrue(st, c);
    StabilizingHeld(st, c);
    AdoptFollows(st, c);
  }

  lemma AdoptFollows(st: State, c: ConnId)
    requires CanSettleAdopt(st, c)
    requires var name := st.conns[c].handler.pc.name;
             var a := st.conns[c].handler.pending[name];
             var s := st.sessions[a.sid];
             && s.name == name && a.ticket + 1 == |s.tickets|
             && (!s.tickets[a.ticket].failed && !s.logFailed ==> (s.copier.Done? <==> !Lives(s)))
    ensures var Stabilizing(id, name) := st.conns[c].handler.pc;
            var a := st.conns[c].handler.pending[name];
            AdoptOutcome(st.conns[c], AdoptAnswered(st, c, true).conns[c], id, name, a.sid, st.sessions[a.sid])
  {
  }

  ghost predicate AdoptOutcome(conn: Conn, conn': Conn, id: nat, name: Name, sid: SessId, s: Session) {
    && s.tickets != []
    && if s.tickets[|s.tickets| - 1].failed || s.logFailed then
         conn'.handler.pc == Resolving(id, [name], 0, false, false, false, AdoptFailed(name))
       else
         && conn'.handler.pc.Ready?
         && conn'.replies
            == conn.replies + [Reply(id, Adopted(name, sid, Lives(s)), if Lives(s) then Some(sid) else None)]
  }

  /** The wait of an adopt can end with an answer exactly once the session's ticket is stable. */
  lemma AdoptSettlesIff(st: State, c: ConnId)
    requires Reachable(st) && st.up && c in st.conns && st.conns[c].handler.pc.Stabilizing?
    ensures CanSettleAdopt(st, c) <==> LastStable(st, st.conns[c].handler.pc.name)
  {
    ReachableInv(st);
    StabilizingOn(st, c);
    StabilizingHeld(st, c);
    SettlesWhenStable(st, c);
  }

  lemma SettlesWhenStable(st: State, c: ConnId)
    requires InStabilizing(st, c)
    requires var name := st.conns[c].handler.pc.name;
             var a := st.conns[c].handler.pending[name];
             name in st.hub && st.hub[name] == a.sid && a.ticket + 1 == |st.sessions[a.sid].tickets|
    ensures CanSettleAdopt(st, c) <==> LastStable(st, st.conns[c].handler.pc.name)
  {
  }

  /** The last ticket of the session of this name is stable. */
  ghost predicate LastStable(st: State, name: Name) {
    && name in st.hub && st.hub[name] in st.sessions
    && var tickets := st.sessions[st.hub[name]].tickets;
       tickets != [] && tickets[|tickets| - 1].stable
  }

  lemma StabilizingOn(st: State, c: ConnId)
    requires SourceInv(st) && st.up && c in st.conns && st.conns[c].handler.pc.Stabilizing?
    ensures InStabilizing(st, c)
  {
    assert HandlerOk(st, c);
    assert PendingName(st, c, st.conns[c].handler.pc.name);
  }

  lemma StabilizingHeld(st: State, c: ConnId)
    requires SourceInv(st) && InStabilizing(st, c)
    ensures var name := st.conns[c].handler.pc.name;
            var a := st.conns[c].handler.pending[name];
            && name in st.hub && st.hub[name] == a.sid && a.ticket + 1 == |st.sessions[a.sid].tickets|
  {
    var name := st.conns[c].handler.pc.name;
    assert HandlerOk(st, c) && PendingName(st, c, name);
    assert SessionOk(st.sessions[st.conns[c].handler.pending[name].sid]);
  }

  /** snapshot answers exactly for a name whose migration the connection began, and a native one is the whole log. */
  lemma SnapshotIsAnswered(st: State, c: ConnId, native: bool)
    requires Reachable(st) && CanSnapshot(st, c)
    ensures var name := st.conns[c].requests[0].name;
            var st' := SnapshotAnswered(st, c, native, true);
            if HeldBy(st, c, name) then
              Says(st, st', c, Snapshot(if native then st.sessions[st.hub[name]].log else [], native), None)
            else Refuses(st, st', c)
  {
    ReachableInv(st);
    var name := st.conns[c].requests[0].name;
    PendingIff(st, c, name);
    if name in st.conns[c].handler.pending {
      PendingScreen(st, c, name);
    }
  }

  /** commit and abort are accepted exactly for names without repetition whose migrations the connection began. */
  lemma BatchIsAnswered(st: State, c: ConnId)
    requires Reachable(st) && CanBatch(st, c)
    ensures var BatchRequest(id, names, commit) := st.conns[c].requests[0];
            var st' := BatchBegun(st, c, true);
            if NoDup(names) && forall i :: 0 <= i < |names| ==> HeldBy(st, c, names[i])
            then st'.conns[c].handler.pc == Resolving(id, names, 0, false, false, false, Batch(commit))
            else Refuses(st, st', c)
  {
    ReachableInv(st);
    BatchPasses(st, c);
    var names := st.conns[c].requests[0].names;
    forall i | 0 <= i < |names| ensures names[i] in st.conns[c].handler.pending <==> HeldBy(st, c, names[i]) {
      PendingIff(st, c, names[i]);
    }
    assert Repeats(names) <==> !NoDup(names);
  }

  /** exit is refused exactly while a session is under a migration that the connection began. */
  lemma ExitIsAnswered(st: State, c: ConnId)
    requires Reachable(st) && CanExit(st, c)
    ensures var st' := ExitAnswered(st, c, true);
            if exists name :: HeldBy(st, c, name) then Refuses(st, st', c)
            else Says(st, st', c, Fine, None) && st'.conns[c].handler.pc.Leaving?
  {
    ReachableInv(st);
    var pending := st.conns[c].handler.pending;
    if pending != map[] {
      var name :| name in pending;
      PendingIff(st, c, name);
    } else if exists name :: HeldBy(st, c, name) {
      var name :| HeldBy(st, c, name);
      PendingIff(st, c, name);
    }
  }

  lemma OtherIsRefused(st: State, c: ConnId)
    requires CanOther(st, c)
    ensures Refuses(st, OtherAnswered(st, c, true), c)
  {
  }

  /** The request at the head of c's queue can be taken. */
  ghost predicate Takeable(st: State, c: ConnId) {
    exists step, st' :: OfRequest(step) && step.c == c && RequestStep(st, step, st')
  }

  /** Every request of a ready handler can be taken, except a list while another connection holds the batch. */
  lemma RequestTakenIff(st: State, c: ConnId)
    requires Reachable(st) && HasRequest(st, c)
    ensures Takeable(st, c) <==> !(st.conns[c].requests[0].ListRequest? && st.lock.Some? && st.lock != Some(c))
  {
    ReachableInv(st);
    if st.conns[c].requests[0].ListRequest? {
      ListTakenIff(st, c);
    } else if st.conns[c].requests[0].AdoptRequest? {
      AdoptTaken(st, c);
    } else {
      OthersTaken(st, c);
    }
  }

  lemma TakenBy(st: State, c: ConnId, step: Step, st': State)
    requires OfRequest(step) && step.c == c && RequestStep(st, step, st')
    ensures Takeable(st, c)
  {
  }

  lemma OnlyLists(st: State, c: ConnId, step: Step, st': State)
    requires HasRequest(st, c) && st.conns[c].requests[0].ListRequest?
    requires OfRequest(step) && step.c == c && RequestStep(st, step, st')
    ensures st.conns[c].handler.frozen || st.lock.None?
  {
  }

  lemma ListTakenIff(st: State, c: ConnId)
    requires SourceInv(st) && HasRequest(st, c) && st.conns[c].requests[0].ListRequest?
    ensures Takeable(st, c) <==> st.lock.None? || st.lock == Some(c)
  {
    assert HandlerOk(st, c);
    if st.lock.None? || st.lock == Some(c) {
      var order := Enumerated(st.hub.Keys);
      TakenBy(st, c, HandleList(c, order, true), ListedState(st, c, order, true));
    } else if Takeable(st, c) {
      var step, st' :| OfRequest(step) && step.c == c && RequestStep(st, step, st');
      OnlyLists(st, c, step, st');
    }
  }

  lemma AdoptTaken(st: State, c: ConnId)
    requires SourceInv(st) && HasRequest(st, c) && st.conns[c].requests[0].AdoptRequest?
    ensures Takeable(st, c)
  {
    var name := st.conns[c].requests[0].name;
    if name in st.hub {
      assert SessionOk(st.sessions[st.hub[name]]);
    }
    TakenBy(st, c, HandleAdopt(c, true), AdoptBegun(st, c, true));
  }

  lemma OthersTaken(st: State, c: ConnId)
    requires SourceInv(st) && HasRequest(st, c)
    requires !st.conns[c].requests[0].ListRequest? && !st.conns[c].requests[0].AdoptRequest?
    ensures Takeable(st, c)
  {
    assert HandlerOk(st, c);
    match st.conns[c].requests[0]
    case SnapshotRequest(_, name) =>
      assert name in st.conns[c].handler.pending ==> PendingName(st, c, name);
      TakenBy(st, c, HandleSnapshot(c, true, true), SnapshotAnswered(st, c, true, true));
    case BatchRequest(_, _, _) => TakenBy(st, c, HandleBatch(c, true), BatchBegun(st, c, true));
    case ExitRequest(_) => TakenBy(st, c, HandleExit(c, true), ExitAnswered(st, c, true));
    case OtherRequest(_) => TakenBy(st, c, HandleOther(c, true), OtherAnswered(st, c, true));
    case _ =>
  }

  // --------------------------------------------------------------- how a walk ends

  lemma ReleasedName(st: State, c: ConnId, name: Name)
    requires SourceInv(st) && CanEnd(st, c) && st.conns[c].handler.pc.after != Batch(true)
    requires name in st.conns[c].handler.pc.batch
    ensures name in st.hub && st.hub[name] in st.sessions
    ensures st.sessions[st.hub[name]].given.None? && st.sessions[st.hub[name]].gate.None?
  {
    assert HandlerOk(st, c);
    ResolvedIsPending(st, c, name);
    assert SessionOk(st.sessions[st.hub[name]]);
  }

  lemma ResolvedIsPending(st: State, c: ConnId, name: Name)
    requires CanEnd(st, c) && HandlerOk(st, c) && st.conns[c].handler.pc.after != Batch(true)
    requires name in st.conns[c].handler.pc.batch
    ensures name in st.hub && st.hub[name] in st.sessions
    ensures st.sessions[st.hub[name]].given.None? && st.sessions[st.hub[name]].migration.None?
  {
    assert name in ResolvedNames(st.conns[c].handler);
    assert PendingName(st, c, name);
  }

  /** When a walk that is no commit ends, every session of it is in the hub, its gate free, and still the source's. */
  lemma AbortEnds(st: State, c: ConnId, sent: bool, name: Name)
    requires Reachable(st) && CanEnd(st, c) && st.conns[c].handler.pc.after != Batch(true)
    requires name in st.conns[c].handler.pc.batch
    ensures var st' := Ended(st, c, sent);
            && st'.hub == st.hub && name in st'.hub && st'.hub[name] in st'.sessions
            && st'.sessions[st'.hub[name]].given.None? && st'.sessions[st'.hub[name]].gate.None?
            && name !in st'.conns[c].handler.pending
  {
    ReachableInv(st);
    ReleasedName(st, c, name);
    assert HandlerOk(st, c);
    EndedShape(st, c, sent);
    EndedRelieves(st, c, sent, name);
  }

  lemma InBatch(pending: map<Name, Adoption>, batch: seq<Name>, name: Name)
    requires name in batch
    ensures name !in pending - Names(batch)
  {
    var i :| 0 <= i < |batch| && batch[i] == name;
    assert batch[i] in Names(batch);
  }

  lemma EndedRelieves(st: State, c: ConnId, sent: bool, name: Name)
    requires CanEnd(st, c) && WalkOk(st.conns[c].handler) && name in st.conns[c].handler.pc.batch
    ensures name !in Ended(st, c, sent).conns[c].handler.pending
  {
    InBatch(st.conns[c].handler.pending, st.conns[c].handler.pc.batch, name);
  }

  /** The walk of a commit or an abort is answered with how many it resolved, an adopt given up with a refusal. */
  lemma EndIsAnswered(st: State, c: ConnId)
    requires Reachable(st) && CanEnd(st, c) && !st.conns[c].handler.pc.after.Unwind?
    ensures var pc := st.conns[c].handler.pc;
            var conn' := Ended(st, c, true).conns[c];
            && conn'.handler.pc.Ready?
            && conn'.replies == st.conns[c].replies
                                + [Reply(pc.id, if pc.after.Batch? then Resolved(|pc.batch|) else Refused, None)]
  {
    ReachableInv(st);
    assert HandlerOk(st, c);
    if st.conns[c].handler.pc.after.Batch? {
      BatchEndShape(st, c, true);
    }
  }

  // ------------------------------------------------------------------- the hub lock

  /** The end of a walk that releases the hub: of the deferred cleanup, or of an answered commit of all that is held. */
  ghost predicate Releases(st: State, c: ConnId, sent: bool)
    requires CanEnd(st, c)
  {
    var h := st.conns[c].handler;
    h.pc.after.Unwind? || (h.pc.after == Batch(true) && sent && h.pending.Keys == Names(h.pc.batch))
  }

  lemma NothingHeld(pending: map<Name, Adoption>, batch: seq<Name>)
    requires forall i :: 0 <= i < |batch| ==> batch[i] in pending
    ensures pending - Names(batch) == map[] <==> pending.Keys == Names(batch)
  {
    var rest := pending - Names(batch);
    assert Names(batch) <= pending.Keys;
    assert forall name :: name in rest <==> name in pending && name !in Names(batch);
    if rest != map[] {
      var name :| name in rest;
      assert name in pending.Keys;
    } else {
      assert forall name :: name in pending.Keys ==> name !in rest;
    }
  }

  lemma CommitEndLock(st: State, c: ConnId, sent: bool)
    requires CanEnd(st, c) && !st.conns[c].handler.pc.bad && st.conns[c].handler.pc.after == Batch(true)
    requires st.conns[c].handler.frozen && st.lock == Some(c)
    ensures var h := st.conns[c].handler;
            Ended(st, c, sent).lock == if sent && h.pending - Names(h.pc.batch) == map[] then None else st.lock
  {
  }

  lemma AbortEndLock(st: State, c: ConnId, sent: bool)
    requires CanEnd(st, c) && !st.conns[c].handler.pc.after.Unstable? && st.conns[c].handler.pc.after != Batch(true)
    requires st.conns[c].handler.frozen <==> st.lock == Some(c)
    ensures Ended(st, c, sent).lock
            == if st.conns[c].handler.pc.after.Unwind? && st.lock == Some(c) then None else st.lock
  {
  }

  lemma EndReleasesIff(st: State, c: ConnId, sent: bool)
    requires SourceInv(st) && CanEnd(st, c)
    ensures Ended(st, c, sent).lock == if st.lock == Some(c) && Releases(st, c, sent) then None else st.lock
  {
    assert HandlerOk(st, c);
    var h := st.conns[c].handler;
    NothingHeld(h.pending, h.pc.batch);
    if h.pc.after != Batch(true) {
      AbortEndLock(st, c, sent);
    } else if h.frozen {
      CommitEndLock(st, c, sent);
    } else {
      EmptyEndLock(st, c, sent);
    }
  }

  /** A commit of nothing by a connection that does not hold the batch. */
  lemma EmptyEndLock(st: State, c: ConnId, sent: bool)
    requires CanEnd(st, c) && !st.conns[c].handler.pc.bad && st.conns[c].handler.pc.after == Batch(true)
    requires !st.conns[c].handler.frozen
    ensures Ended(st, c, sent).lock == st.lock
  {
  }

  lemma HandlerKeepsLock(st: State, step: Step, st': State)
    requires HandlerStep(st, step, st') && !step.BatchEnds? && !step.HandleList?
    ensures st'.lock == st.lock && st'.closed == st.closed && st'.up == st.up
  {
    if OfWalk(step) {
      WalkKeepsLock(st, step, st');
    } else {
      RequestKeepsLock(st, step, st');
    }
  }

  lemma WalkKeepsLock(st: State, step: Step, st': State)
    requires WalkStep(st, step, st') && !step.BatchEnds?
    ensures st'.lock == st.lock && st'.closed == st.closed && st'.up == st.up
  {
  }

  lemma RequestKeepsLock(st: State, step: Step, st': State)
    requires RequestStep(st, step, st') && !step.HandleList?
    ensures st'.lock == st.lock && st'.closed == st.closed && st'.up == st.up
  {
    if step.HandleAdopt? {
      AdoptKeepsLock(st, step.c, step.sent);
    } else if step.HandleBatch? {
      BatchKeepsLock(st, step.c, step.sent);
    }
  }

  lemma AdoptKeepsLock(st: State, c: ConnId, sent: bool)
    requires CanAdopt(st, c)
    ensures var st' := AdoptBegun(st, c, sent);
            st'.lock == st.lock && st'.closed == st.closed && st'.up == st.up
  {
  }

  lemma BatchKeepsLock(st: State, c: ConnId, sent: bool)
    requires CanBatch(st, c)
    ensures var st' := BatchBegun(st, c, sent);
            st'.lock == st.lock && st'.closed == st.closed && st'.up == st.up
  {
  }

  lemma TargetKeepsLock(st: State, step: Step, st': State)
    requires TargetStep(st, step, st')
    ensures st'.lock == st.lock && st'.closed == st.closed && st'.up == st.up
  {
    if OfWire(step) {
      WireOnly(st, step, st');
    }
  }

  lemma ClientKeepsLock(st: State, step: Step, st': State)
    requires ClientStep(st, step, st')
    ensures st'.lock == st.lock && (st.closed ==> st'.closed) && (!st.up ==> !st'.up)
  {
  }

  lemma OthersKeepLock(st: State, step: Step, st': State)
    requires Next(st, step, st') && !step.BatchEnds? && !step.HandleList?
    ensures st'.lock == st.lock && (st.closed ==> st'.closed) && (!st.up ==> !st'.up)
  {
    if IsCopierStep(step) {
    } else if OfClients(step) {
      ClientKeepsLock(st, step, st');
    } else if OfWalk(step) || OfRequest(step) {
      HandlerKeepsLock(st, step, st');
    } else {
      TargetKeepsLock(st, step, st');
    }
  }

  /** The hub lock changes hands only so: a granted list takes it when it is free, and its holder's walk releases it. */
  lemma LockChangesIff(st: State, step: Step, st': State)
    requires Reachable(st) && Next(st, step, st')
    ensures st'.lock != st.lock <==>
            || (step.HandleList? && Grants(st, step, st'))
            || (step.BatchEnds? && st.lock == Some(step.c) && Releases(st, step.c, step.sent))
    ensures step.BatchEnds? && st'.lock != st.lock ==> st'.lock.None?
  {
    ReachableInv(st);
    if step.BatchEnds? {
      EndReleasesIff(st, step.c, step.sent);
    } else if step.HandleList? {
      ListLockIff(st, step, st');
    } else {
      OthersKeepLock(st, step, st');
    }
  }

  lemma ListLockIff(st: State, step: Step, st': State)
    requires SourceInv(st) && step.HandleList? && RequestStep(st, step, st')
    ensures st'.lock != st.lock <==> Grants(st, step, st')
  {
    assert HandlerOk(st, step.c);
  }

  // ------------------------------------------------------- clients, closing, crashes

  /** A session's clients can operate on it exactly while the source is up and no batch holds the hub. */
  lemma OperableIff(st: State, name: Name)
    requires Reachable(st)
    ensures CanOperate(st, name) <==> st.up && st.lock.None? && name in st.hub
  {
    ReachableInv(st);
    if st.lock.None? && name in st.hub {
      LockFree(st);
      assert SessionOk(st.sessions[st.hub[name]]);
    }
  }

  /** A session can be started exactly under a free name, in an open hub that no batch holds. */
  lemma StartableIff(st: State, name: Name, sid: SessId)
    requires sid !in st.sessions
    ensures (exists st' :: Next(st, StartSession(name, sid), st')) <==>
            st.up && !st.closed && st.lock.None? && name !in st.hub
  {
    if st.up && !st.closed && st.lock.None? && name !in st.hub {
      assert Next(st, StartSession(name, sid), Started(st, name, sid));
    }
  }

  /** What clients do to the hub. */
  lemma HubOfClients(st: State, step: Step, st': State)
    requires ClientStep(st, step, st')
    ensures step.StartSession? ==> st'.hub == st.hub[step.name := step.sid] && st'.sessions[step.sid].copier.Running?
    ensures step.DeleteSession? ==> step.name !in st'.hub && st'.hub == st.hub - {step.name}
    ensures step.CloseHub? ==> st'.hub == map[] && st'.closed
    ensures step.ResizeDrains? || step.ChildWrites? || step.SourceCrashes? ==> st'.hub == st.hub
    ensures step.SourceCrashes? ==> !st'.up
  {
  }

  lemma NeverReopens(st: State, step: Step, st': State)
    requires Next(st, step, st')
    ensures st.closed ==> st'.closed
    ensures !st.up ==> !st'.up
  {
    if step.BatchEnds? {
      EndKeepsUp(st, step.c, step.sent);
    } else if !step.HandleList? {
      OthersKeepLock(st, step, st');
    }
  }

  lemma EndKeepsUp(st: State, c: ConnId, sent: bool)
    requires CanEnd(st, c)
    ensures Ended(st, c, sent).closed == st.closed && Ended(st, c, sent).up == st.up
  {
    if st.conns[c].handler.pc.after.Batch? {
      BatchEndKeepsUp(st, c, st.conns[c].handler.pc.after.commit, sent);
    }
  }

  lemma BatchEndKeepsUp(st: State, c: ConnId, commit: bool, sent: bool)
    requires CanEnd(st, c)
    ensures BatchEnded(st, c, commit, sent).closed == st.closed && BatchEnded(st, c, commit, sent).up == st.up
  {
  }

  /** What a step may not be once the hub is closed or the source is down. */
  ghost predicate Allowed(st: State, step: Step, st': State) {
    && (st.closed ==> !step.StartSession? && (step.HandleList? ==> st'.lock == st.lock))
    && (!st.up ==> !IsCopierStep(step) && !OfWalk(step) && !OfRequest(step) && !step.ResizeDrains?)
  }

  lemma DownIsStill(st: State, step: Step, st': State)
    requires Next(st, step, st') && !st.up
    ensures !IsCopierStep(step) && !OfWalk(step) && !OfRequest(step) && !step.ResizeDrains?
  {
    if OfWalk(step) {
      DownWalksNot(st, step, st');
    } else if OfRequest(step) {
      DownServesNot(st, step, st');
    }
  }

  lemma DownWalksNot(st: State, step: Step, st': State)
    requires WalkStep(st, step, st')
    ensures st.up
  {
  }

  lemma DownServesNot(st: State, step: Step, st': State)
    requires RequestStep(st, step, st')
    ensures st.up
  {
  }

  lemma ClosedLists(st: State, step: Step, st': State)
    requires Next(st, step, st') && st.closed
    ensures !step.StartSession? && (step.HandleList? ==> st'.lock == st.lock)
  {
  }

  /** What is closed stays closed, and what is down stays down. */
  ghost predicate NoWayBack(st: State, st': State) {
    (st.closed ==> st'.closed) && (!st.up ==> !st'.up)
  }

  lemma StepNoWayBack(run: seq<State>, steps: seq<Step>, k: nat)
    requires IsRun(run, steps) && k < |steps|
    ensures NoWayBack(run[k], run[k + 1])
  {
    NeverReopens(run[k], steps[k], run[k + 1]);
  }

  lemma {:induction false} StaysClosed(run: seq<State>, i: nat, j: nat)
    requires i <= j < |run| && forall k :: 0 <= k < |run| - 1 ==> NoWayBack(run[k], run[k + 1])
    ensures NoWayBack(run[i], run[j])
  {
    if i < j {
      StaysClosed(run, i, j - 1);
      assert NoWayBack(run[j - 1], run[j - 1 + 1]);
    }
  }

  /** Once the hub is closed no session starts and no list is granted; once the source is down it does nothing. */
  lemma ClosedForGood(run: seq<State>, steps: seq<Step>, i: nat, j: nat)
    requires IsRun(run, steps) && i <= j < |steps|
    ensures run[i].closed ==> !steps[j].StartSession? && (steps[j].HandleList? ==> run[j + 1].lock == run[j].lock)
    ensures !run[i].up ==>
              !IsCopierStep(steps[j]) && !OfWalk(steps[j]) && !OfRequest(steps[j]) && !steps[j].ResizeDrains?
  {
    forall k | 0 <= k < |run| - 1 ensures NoWayBack(run[k], run[k + 1]) {
      StepNoWayBack(run, steps, k);
    }
    StaysClosed(run, i, j);
    StepAllowed(run[j], steps[j], run[j + 1]);
  }

  lemma StepAllowed(st: State, step: Step, st': State)
    requires Next(st, step, st')
    ensures Allowed(st, step, st')
  {
    if st.closed {
      ClosedLists(st, step, st');
    }
    if !st.up {
      DownIsStill(st, step, st');
    }
  }
}
