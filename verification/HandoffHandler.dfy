/** Every step of a handler keeps the source side of the invariant. */
module HandoffHandler {
  import opened Basics
  import opened HandoffState
  import opened HandoffSteps
  import opened HandoffInvariant
  import opened HandoffSource

  lemma ListSource(st: State, c: ConnId, order: seq<Name>, sent: bool)
    requires SourceInv(st) && CanList(st, c, order)
    ensures SourceInv(ListedState(st, c, order, sent))
  {
    var st' := ListedState(st, c, order, sent);
    if st'.lock == st.lock {
      WireSource(st, c, st'.conns[c]);
    } else {
      FreezeSource(st, c, st'.conns[c]);
    }
  }

  lemma FreezeSource(st: State, c: ConnId, conn': Conn)
    requires SourceInv(st) && st.lock.None? && c in st.conns
    requires conn'.handler.frozen && (conn'.handler.pc.Ready? || conn'.handler.pc.Leaving?)
    requires conn'.handler.pending == st.conns[c].handler.pending
    ensures SourceInv(WithConn(st.(lock := Some(c)), c, conn'))
  {
    LockFree(st);
    var st' := WithConn(st.(lock := Some(c)), c, conn');
    forall d | d in st'.conns ensures HandlerOk(st', d) {
      assert HandlerOk(st, d);
    }
    forall sid | sid in st'.sessions ensures SessionOk(st'.sessions[sid]) && Linked(st', sid) {
      assert SessionOk(st.sessions[sid]);
    }
    forall name | name in st'.hub ensures GivenInWalk(st', name) {
      assert GivenInWalk(st, name);
    }
  }

  // -------------------------------------------------------------------- adopt

  lemma BegunOk(s: Session, c: ConnId)
    requires SessionOk(s) && s.migration.None? && s.given.None?
    ensures Begun(s, c).Some? && SessionOk(Begun(s, c).value)
  {
  }

  lemma AdoptSource(st: State, c: ConnId, sent: bool)
    requires SourceInv(st) && CanAdopt(st, c)
    ensures SourceInv(AdoptBegun(st, c, sent))
  {
    var st' := AdoptBegun(st, c, sent);
    if st'.sessions == st.sessions {
      WireSource(st, c, st'.conns[c]);
    } else {
      AdoptBeginsSource(st, c, sent);
    }
  }

  /** Nobody else holds a ticket on the session, and it has not been given away. */
  lemma FrozenReady(st: State, c: ConnId, name: Name)
    requires SourceInv(st) && c in st.conns && st.conns[c].handler.frozen && st.conns[c].handler.pc.Ready?
    requires name in st.hub
    ensures st.sessions[st.hub[name]].given.None?
    ensures forall d :: d in st.conns && d != c ==> st.conns[d].handler.pending == map[]
  {
    assert GivenInWalk(st, name);
    forall d | d in st.conns ensures HandlerOk(st, d) {
    }
  }

  /** A fresh ticket joins the pending ones of a frozen handler. */
  ghost predicate Begins(st: State, c: ConnId, name: Name, conn': Conn, s': Session) {
    && c in st.conns && st.conns[c].handler.frozen && st.conns[c].handler.pc.Ready?
    && name in st.hub && st.hub[name] in st.sessions && name !in st.conns[c].handler.pending
    && var s := st.sessions[st.hub[name]];
       var t := |s.tickets|;
       && s.migration.None? && s'.migration == Some(t) && |s'.tickets| == t + 1 && s'.tickets[t].begunBy == c
       && s'.given == s.given && s'.name == s.name && SessionOk(s') && s'.tickets[t].decision.None?
       && conn'.handler.frozen
       && conn'.handler.pending == st.conns[c].handler.pending[name := Adoption(st.hub[name], t)]
       && conn'.handler.pc.Stabilizing? && conn'.handler.pc.name == name
  }

  lemma BeginsPending(st: State, c: ConnId, name: Name, conn': Conn, s': Session, n: Name)
    requires SourceInv(st) && Begins(st, c, name, conn', s') && n in conn'.handler.pending
    ensures PendingName(WithConn(WithSession(st, st.hub[name], s'), c, conn'), c, n)
  {
    FrozenReady(st, c, name);
    assert HandlerOk(st, c);
    if n != name {
      assert PendingName(st, c, n);
    }
  }

  lemma BeginsLinked(st: State, c: ConnId, name: Name, conn': Conn, s': Session, k: SessId)
    requires Begins(st, c, name, conn', s')
    requires k in st.sessions && SessionOk(st.sessions[k]) && Linked(st, k) && st.sessions[st.hub[name]].name == name
    ensures Linked(WithConn(WithSession(st, st.hub[name], s'), c, conn'), k)
  {
  }

  lemma BeginsGiven(st: State, c: ConnId, name: Name, conn': Conn, s': Session, n: Name)
    requires Begins(st, c, name, conn', s')
    requires n in st.hub && st.hub[n] in st.sessions && GivenInWalk(st, n)
    ensures GivenInWalk(WithConn(WithSession(st, st.hub[name], s'), c, conn'), n)
  {
  }

  lemma BeginsSource(st: State, c: ConnId, name: Name, conn': Conn, s': Session)
    requires SourceInv(st) && Begins(st, c, name, conn', s')
    ensures SourceInv(WithConn(WithSession(st, st.hub[name], s'), c, conn'))
  {
    var st' := WithConn(WithSession(st, st.hub[name], s'), c, conn');
    FrozenReady(st, c, name);
    forall d | d in st'.conns ensures HandlerOk(st', d) {
      BeginsHandler(st, c, name, conn', s', d);
    }
    forall k | k in st'.sessions ensures SessionOk(st'.sessions[k]) && Linked(st', k) {
      assert SessionOk(st.sessions[k]);
      assert Linked(st, k);
      BeginsLinked(st, c, name, conn', s', k);
    }
    forall n | n in st'.hub ensures GivenInWalk(st', n) {
      assert GivenInWalk(st, n);
      BeginsGiven(st, c, name, conn', s', n);
    }
  }

  lemma BeginsHandler(st: State, c: ConnId, name: Name, conn': Conn, s': Session, d: ConnId)
    requires SourceInv(st) && Begins(st, c, name, conn', s') && d in st.conns
    ensures HandlerOk(WithConn(WithSession(st, st.hub[name], s'), c, conn'), d)
  {
    var st' := WithConn(WithSession(st, st.hub[name], s'), c, conn');
    FrozenReady(st, c, name);
    assert HandlerOk(st, d);
    if d == c {
      forall n | n in conn'.handler.pending ensures PendingName(st', c, n) {
        BeginsPending(st, c, name, conn', s', n);
      }
    }
  }

  lemma AdoptBeginsSource(st: State, c: ConnId, sent: bool)
    requires SourceInv(st) && CanAdopt(st, c) && AdoptBegun(st, c, sent).sessions != st.sessions
    ensures SourceInv(AdoptBegun(st, c, sent))
    ensures Begins(st, c, st.conns[c].requests[0].name, AdoptBegun(st, c, sent).conns[c],
                   AdoptBegun(st, c, sent).sessions[st.hub[st.conns[c].requests[0].name]])
  {
    var st' := AdoptBegun(st, c, sent);
    var name := st.conns[c].requests[0].name;
    var sid := st.hub[name];
    FrozenReady(st, c, name);
    assert SessionOk(st.sessions[sid]);
    BegunOk(st.sessions[sid], c);
    BeginsSource(st, c, name, st'.conns[c], st'.sessions[sid]);
  }

  /** Leaving the wait with a stable ticket makes it an ordinary pending one. */
  lemma AnswerPhase(h: Handler, h': Handler, c: ConnId, name: Name, s: Session, i: nat)
    requires h.pc.Stabilizing? && i < |s.tickets| && Phase(h, c, name, s, i)
    requires h'.pc.Ready? || h'.pc.Leaving?
             || (h'.pc.Resolving? && h'.pc.after == AdoptFailed(h.pc.name) && h'.pc.done == 0 && !h'.pc.chosen)
    requires !h'.pc.Resolving? && h.pc.name == name ==> s.tickets[i].stable && !s.tickets[i].failed && !s.logFailed
    ensures Phase(h', c, name, s, i)
  {
  }

  lemma AnswerPhases(st: State, c: ConnId, h': Handler)
    requires InStabilizing(st, c) && h'.pending == st.conns[c].handler.pending
    requires var h := st.conns[c].handler;
             h'.pc.Ready? || h'.pc.Leaving?
             || (h'.pc.Resolving? && h'.pc.after == AdoptFailed(h.pc.name) && h'.pc.done == 0 && !h'.pc.chosen)
    requires var h := st.conns[c].handler;
             var a := h.pending[h.pc.name];
             !h'.pc.Resolving? ==>
               st.sessions[a.sid].tickets[a.ticket].stable && !st.sessions[a.sid].tickets[a.ticket].failed
               && !st.sessions[a.sid].logFailed
    ensures NewPhases(st, c, h')
  {
    var h := st.conns[c].handler;
    forall name | name in h.pending && PendingName(st, c, name)
      ensures Phase(h', c, name, st.sessions[h.pending[name].sid], h.pending[name].ticket)
    {
      AnswerPhase(h, h', c, name, st.sessions[h.pending[name].sid], h.pending[name].ticket);
    }
  }

  /** Names that wait in pending are in the phase every later reading or walk expects. */
  lemma ReadyPhases(st: State, c: ConnId, h': Handler)
    requires c in st.conns && h'.pending == st.conns[c].handler.pending
    requires st.conns[c].handler.pc.Ready? || st.conns[c].handler.pc.Leaving?
    requires h'.pc.Ready? || h'.pc.Leaving?
             || (h'.pc.Resolving? && !h'.pc.after.AdoptFailed? && h'.pc.done == 0 && !h'.pc.chosen)
    ensures NewPhases(st, c, h')
  {
  }

  /** The wait is over, well or badly. */
  lemma SettledSource(st: State, c: ConnId, conn': Conn)
    requires SourceInv(st) && InStabilizing(st, c)
    requires var h, h' := st.conns[c].handler, conn'.handler;
             && h'.pending == h.pending && h'.frozen == h.frozen
             && (h'.pc.Ready? || h'.pc.Leaving?
                 || (h'.pc.Resolving?
                     && h'.pc == Resolving(h.pc.id, [h.pc.name], 0, false, false, false, AdoptFailed(h.pc.name))))
    requires var h := st.conns[c].handler;
             var a := h.pending[h.pc.name];
             !conn'.handler.pc.Resolving? ==>
               st.sessions[a.sid].tickets[a.ticket].stable && !st.sessions[a.sid].tickets[a.ticket].failed
               && !st.sessions[a.sid].logFailed
    ensures SourceInv(WithConn(st, c, conn'))
  {
    assert HandlerOk(st, c);
    AnswerPhases(st, c, conn'.handler);
    PcSource(st, c, conn');
  }

  lemma AdoptAnsweredSource(st: State, c: ConnId, sent: bool)
    requires SourceInv(st) && CanSettleAdopt(st, c)
    ensures SourceInv(AdoptAnswered(st, c, sent))
  {
    SettledSource(st, c, AdoptAnswered(st, c, sent).conns[c]);
  }

  lemma AdoptExpiredSource(st: State, c: ConnId)
    requires SourceInv(st) && InStabilizing(st, c)
    ensures SourceInv(AdoptExpired(st, c))
  {
    SettledSource(st, c, AdoptExpired(st, c).conns[c]);
  }

  lemma SnapshotSource(st: State, c: ConnId, native: bool, sent: bool)
    requires SourceInv(st) && CanSnapshot(st, c)
    ensures SourceInv(SnapshotAnswered(st, c, native, sent))
  {
    var conn' := SnapshotAnswered(st, c, native, sent).conns[c];
    ReadyPhases(st, c, conn'.handler);
    PcSource(st, c, conn');
  }

  // ---------------------------------------------------------- commit and abort

  /**
    The preflight always passes: whatever is pending while the handler reads
    its next request is stable, unfailed and still current.
   */
  lemma PendingIsStable(st: State, c: ConnId, name: Name)
    requires SourceInv(st) && c in st.conns && name in st.conns[c].handler.pending
    requires st.conns[c].handler.pc.Ready? || st.conns[c].handler.pc.Leaving?
    ensures Preflight(st, st.conns[c].handler, name)
    ensures var a := st.conns[c].handler.pending[name];
            var s := st.sessions[a.sid];
            var t := s.tickets[a.ticket];
            && t.stable && t.decision.None? && !s.logFailed
            && s.copier == (if t.alive then Awaiting(a.ticket, true) else Done)
  {
    assert HandlerOk(st, c);
    assert PendingName(st, c, name);
    assert SessionOk(st.sessions[st.conns[c].handler.pending[name].sid]);
  }

  /** A batch that is not refused is walked over as asked: the preflight of a commit lets every pending name through. */
  lemma BatchPasses(st: State, c: ConnId)
    requires SourceInv(st) && CanBatch(st, c)
    ensures var r := st.conns[c].requests[0];
            var pc := BatchPc(st, st.conns[c].handler, r);
            pc.Some? ==>
              && pc.value == Resolving(r.id, r.names, 0, false, false, false, Batch(r.commit))
              && NoDup(r.names) && forall i :: 0 <= i < |r.names| ==> r.names[i] in st.conns[c].handler.pending
  {
    var h := st.conns[c].handler;
    var names := st.conns[c].requests[0].names;
    forall i | 0 <= i < |names| && names[i] in h.pending ensures Preflight(st, h, names[i]) {
      PendingIsStable(st, c, names[i]);
    }
  }

  lemma BatchSource(st: State, c: ConnId, sent: bool)
    requires SourceInv(st) && CanBatch(st, c)
    ensures SourceInv(BatchBegun(st, c, sent))
  {
    var r := st.conns[c].requests[0];
    BatchPasses(st, c);
    if BatchPc(st, st.conns[c].handler, r).None? {
      WireSource(st, c, Replying(Taken(st, c), Reply(r.id, Refused, None), sent));
    } else {
      var conn' := WithHandler(Taken(st, c), Resolving(r.id, r.names, 0, false, false, false, Batch(r.commit)));
      ReadyPhases(st, c, conn'.handler);
      PcSource(st, c, conn');
    }
  }

  lemma ExitSource(st: State, c: ConnId, sent: bool)
    requires SourceInv(st) && CanExit(st, c)
    ensures SourceInv(ExitAnswered(st, c, sent))
  {
    var conn' := ExitAnswered(st, c, sent).conns[c];
    ReadyPhases(st, c, conn'.handler);
    PcSource(st, c, conn');
  }

  lemma LeaveSource(st: State, c: ConnId)
    requires SourceInv(st) && CanDisconnect(st, c)
    ensures SourceInv(Disconnected(st, c))
  {
    var conn' := Disconnected(st, c).conns[c];
    ReadyPhases(st, c, conn'.handler);
    PcSource(st, c, conn');
  }

  lemma UnwindSource(st: State, c: ConnId, order: seq<Name>)
    requires SourceInv(st) && CanUnwind(st, c, order)
    ensures SourceInv(Unwound(st, c, order))
  {
    var conn' := Unwound(st, c, order).conns[c];
    assert forall i :: 0 <= i < |order| ==> order[i] in Names(order);
    ReadyPhases(st, c, conn'.handler);
    PcSource(st, c, conn');
  }

  // ------------------------------------------------------------ finishMigration

  /** A pair of a handler and one of its sessions changes together. */
  lemma PairSource(st: State, c: ConnId, conn': Conn, sid: SessId, s': Session)
    requires SourceInv(st) && c in st.conns && st.conns[c].handler.frozen && sid in st.sessions
    requires SessionOk(s') && s'.name == st.sessions[sid].name
    requires conn'.handler.frozen && conn'.handler.pending == st.conns[c].handler.pending
    requires !conn'.handler.pc.Gone? && !conn'.handler.pc.Stabilizing? && WalkOk(conn'.handler)
    requires forall name :: name in conn'.handler.pending ==>
               PendingName(WithConn(WithSession(st, sid, s'), c, conn'), c, name)
    requires forall k :: k in st.sessions ==> Linked(WithConn(WithSession(st, sid, s'), c, conn'), k)
    requires forall name :: name in st.hub && st.hub[name] in st.sessions ==>
               GivenInWalk(WithConn(WithSession(st, sid, s'), c, conn'), name)
    ensures SourceInv(WithConn(WithSession(st, sid, s'), c, conn'))
  {
    var st' := WithConn(WithSession(st, sid, s'), c, conn');
    assert HandlerOk(st, c);
    forall d | d in st'.conns ensures HandlerOk(st', d) {
      assert HandlerOk(st, d);
    }
    forall k | k in st'.sessions ensures SessionOk(st'.sessions[k]) {
      assert SessionOk(st.sessions[k]);
    }
  }

  /** The session under the walk, and what the walk knows of it. */
  ghost predicate AtHead(st: State, c: ConnId)
    requires InFinish(st, c)
  {
    var h := st.conns[c].handler;
    var name := h.pc.batch[h.pc.done];
    var a := h.pending[name];
    && h.frozen && name !in ResolvedNames(h) && PendingName(st, c, name)
    && SessionOk(st.sessions[a.sid]) && st.sessions[a.sid].migration == Some(a.ticket)
    && st.sessions[a.sid].gate == Some(a.ticket)
  }

  lemma WalkHead(st: State, c: ConnId)
    requires SourceInv(st) && InFinish(st, c)
    ensures AtHead(st, c)
  {
    assert HandlerOk(st, c);
    var h := st.conns[c].handler;
    var name := h.pc.batch[h.pc.done];
    assert PendingName(st, c, name);
    assert SessionOk(st.sessions[h.pending[name].sid]);
    assert name !in Names(h.pc.batch[..h.pc.done]);
  }

  lemma ChosenSession(st: State, c: ConnId)
    requires SourceInv(st) && CanChoose(st, c)
    ensures var h := st.conns[c].handler;
            var a := h.pending[h.pc.batch[h.pc.done]];
            var st' := Chosen(st, c);
            && SessionOk(st'.sessions[a.sid])
            && (st'.conns[c].handler.pc.eff <==> h.pc.after == Batch(true))
            && st'.sessions[a.sid].given == (if h.pc.after == Batch(true) then Some(c) else None)
            && st'.sessions[a.sid].tickets[a.ticket].decision.Some?
            && (h.pc.after == Batch(true) ==> !st'.sessions[a.sid].tickets[a.ticket].failed)
  {
    WalkHead(st, c);
  }

  /** How Chosen and Finished change one handler and one session: the head of the walk. */
  ghost predicate HeadMoves(st: State, c: ConnId, conn': Conn, s': Session)
    requires InFinish(st, c)
  {
    var h, h' := st.conns[c].handler, conn'.handler;
    var a := h.pending[h.pc.batch[h.pc.done]];
    var s := st.sessions[a.sid];
    && h'.pending == h.pending && h'.frozen == h.frozen
    && h'.pc.Resolving? && h'.pc.batch == h.pc.batch && h'.pc.after == h.pc.after && h'.pc.id == h.pc.id
    && WalkOk(h')
    && s'.name == s.name && |s'.tickets| == |s.tickets| && SessionOk(s')
    && (forall i :: 0 <= i < |s.tickets| ==> s'.tickets[i].begunBy == s.tickets[i].begunBy)
    && (forall i :: 0 <= i < |s.tickets| && i != a.ticket ==> s'.tickets[i] == s.tickets[i])
  }

  /** The decision is out: the head is in flight. */
  ghost predicate HeadChosen(st: State, c: ConnId, conn': Conn, s': Session)
    requires InFinish(st, c)
  {
    var h, h' := st.conns[c].handler, conn'.handler;
    var a := h.pending[h.pc.batch[h.pc.done]];
    && HeadMoves(st, c, conn', s')
    && !h.pc.chosen && h'.pc.chosen && h'.pc.done == h.pc.done
    && s'.migration == st.sessions[a.sid].migration
    && s'.given == (if h.pc.after == Batch(true) then Some(c) else None)
    && s'.tickets[a.ticket].decision.Some?
    && (h.pc.after == Batch(true) ==> !s'.tickets[a.ticket].failed)
  }

  /** The wait is over: the head is resolved. */
  ghost predicate HeadResolved(st: State, c: ConnId, conn': Conn, s': Session)
    requires InFinish(st, c)
  {
    var h, h' := st.conns[c].handler, conn'.handler;
    var a := h.pending[h.pc.batch[h.pc.done]];
    && HeadMoves(st, c, conn', s')
    && h.pc.chosen && !h'.pc.chosen && h'.pc.done == h.pc.done + 1
    && s'.migration.None? && s'.given == st.sessions[a.sid].given
  }

  lemma HeadResolvedNames(h: Handler, h': Handler)
    requires h.pc.Resolving? && h'.pc.Resolving? && h'.pc.batch == h.pc.batch && h.pc.done < |h.pc.batch|
    requires h'.pc.done == h.pc.done || h'.pc.done == h.pc.done + 1
    ensures ResolvedNames(h') == ResolvedNames(h) + (if h'.pc.done == h.pc.done then {} else {h.pc.batch[h.pc.done]})
  {
    assert h.pc.batch[..h.pc.done + 1] == h.pc.batch[..h.pc.done] + [h.pc.batch[h.pc.done]];
  }

  lemma HeadPending(st: State, c: ConnId, conn': Conn, s': Session, name: Name)
    requires InFinish(st, c) && AtHead(st, c)
    requires HeadChosen(st, c, conn', s') || HeadResolved(st, c, conn', s')
    requires name in conn'.handler.pending && PendingName(st, c, name)
    ensures var h := st.conns[c].handler;
            var a := h.pending[h.pc.batch[h.pc.done]];
            PendingName(WithConn(WithSession(st, a.sid, s'), c, conn'), c, name)
  {
    HeadResolvedNames(st.conns[c].handler, conn'.handler);
  }

  lemma HeadLinked(st: State, c: ConnId, conn': Conn, s': Session, k: SessId)
    requires InFinish(st, c) && AtHead(st, c)
    requires k in st.sessions && Linked(st, k) && SessionOk(st.sessions[k])
    requires HeadChosen(st, c, conn', s') || HeadResolved(st, c, conn', s')
    ensures var h := st.conns[c].handler;
            var a := h.pending[h.pc.batch[h.pc.done]];
            Linked(WithConn(WithSession(st, a.sid, s'), c, conn'), k)
  {
    HeadResolvedNames(st.conns[c].handler, conn'.handler);
  }

  lemma HeadGiven(st: State, c: ConnId, conn': Conn, s': Session, name: Name)
    requires InFinish(st, c) && AtHead(st, c)
    requires name in st.hub && st.hub[name] in st.sessions && GivenInWalk(st, name)
    requires st.sessions[st.hub[name]].name == name
    requires HeadChosen(st, c, conn', s') || HeadResolved(st, c, conn', s')
    ensures var h := st.conns[c].handler;
            var a := h.pending[h.pc.batch[h.pc.done]];
            GivenInWalk(WithConn(WithSession(st, a.sid, s'), c, conn'), name)
  {
    HeadResolvedNames(st.conns[c].handler, conn'.handler);
  }

  lemma HeadSource(st: State, c: ConnId, conn': Conn, s': Session)
    requires SourceInv(st) && InFinish(st, c)
    requires HeadChosen(st, c, conn', s') || HeadResolved(st, c, conn', s')
    ensures var h := st.conns[c].handler;
            var a := h.pending[h.pc.batch[h.pc.done]];
            SourceInv(WithConn(WithSession(st, a.sid, s'), c, conn'))
  {
    WalkHead(st, c);
    var h := st.conns[c].handler;
    var sid := h.pending[h.pc.batch[h.pc.done]].sid;
    var st' := WithConn(WithSession(st, sid, s'), c, conn');
    forall name | name in conn'.handler.pending ensures PendingName(st', c, name) {
      assert HandlerOk(st, c);
      HeadPending(st, c, conn', s', name);
    }
    forall k | k in st.sessions ensures Linked(st', k) {
      HeadLinked(st, c, conn', s', k);
    }
    forall name | name in st.hub && st.hub[name] in st.sessions ensures GivenInWalk(st', name) {
      HeadGiven(st, c, conn', s', name);
    }
    PairSource(st, c, conn', sid, s');
  }

  lemma ChosenHead(st: State, c: ConnId)
    requires SourceInv(st) && CanChoose(st, c)
    ensures var h := st.conns[c].handler;
            var sid := h.pending[h.pc.batch[h.pc.done]].sid;
            var st' := Chosen(st, c);
            && HeadChosen(st, c, st'.conns[c], st'.sessions[sid])
            && st' == WithConn(WithSession(st, sid, st'.sessions[sid]), c, st'.conns[c])
  {
    WalkHead(st, c);
    ChosenSession(st, c);
    assert HandlerOk(st, c);
  }

  lemma ChosenSource(st: State, c: ConnId)
    requires SourceInv(st) && CanChoose(st, c)
    ensures SourceInv(Chosen(st, c))
  {
    ChosenHead(st, c);
    var h := st.conns[c].handler;
    HeadSource(st, c, Chosen(st, c).conns[c], Chosen(st, c).sessions[h.pending[h.pc.batch[h.pc.done]].sid]);
  }

  lemma FinishedSession(st: State, c: ConnId)
    requires SourceInv(st) && CanFinish(st, c)
    ensures var h := st.conns[c].handler;
            var a := h.pending[h.pc.batch[h.pc.done]];
            var st' := Finished(st, c);
            && SessionOk(st'.sessions[a.sid]) && st'.sessions[a.sid].migration.None?
            && st'.sessions[a.sid].given == st.sessions[a.sid].given
            && !st'.conns[c].handler.pc.bad && !st'.panicked
  {
    WalkHead(st, c);
    assert HandlerOk(st, c);
  }

  lemma FinishedHead(st: State, c: ConnId)
    requires SourceInv(st) && CanFinish(st, c)
    ensures var h := st.conns[c].handler;
            var sid := h.pending[h.pc.batch[h.pc.done]].sid;
            var st' := Finished(st, c);
            && HeadResolved(st, c, st'.conns[c], st'.sessions[sid])
            && st' == WithConn(WithSession(st, sid, st'.sessions[sid]), c, st'.conns[c])
  {
    WalkHead(st, c);
    FinishedSession(st, c);
    assert HandlerOk(st, c);
  }

  lemma FinishedSource(st: State, c: ConnId)
    requires SourceInv(st) && CanFinish(st, c)
    ensures SourceInv(Finished(st, c))
  {
    FinishedHead(st, c);
    var h := st.conns[c].handler;
    HeadSource(st, c, Finished(st, c).conns[c], Finished(st, c).sessions[h.pending[h.pc.batch[h.pc.done]].sid]);
  }

  // ---------------------------------------------------------- after the walk

  /** The walk is over: its names leave pending, a commit's leave the hub, and the lock may go. */
  ghost predicate WalkEnds(st: State, c: ConnId, st': State) {
    && CanEnd(st, c) && c in st'.conns
    && var h, h' := st.conns[c].handler, st'.conns[c].handler;
       && st' == st.(conns := st.conns[c := st'.conns[c]], hub := st'.hub, lock := st'.lock)
       && (h'.pc.Ready? || h'.pc.Leaving? || h'.pc.Gone?)
       && h'.pending == h.pending - Names(h.pc.batch)
       && st'.hub == (if h.pc.after == Batch(true) then st.hub - Names(h.pc.batch) else st.hub)
       && (h'.frozen ==> h.frozen) && (h'.pc.Gone? ==> !h'.frozen)
       && (if h'.frozen == h.frozen then st'.lock == st.lock else st'.lock.None? && h'.pending == map[])
  }

  lemma BatchEndedShape(st: State, c: ConnId, sent: bool)
    requires CanEnd(st, c) && WalkOk(st.conns[c].handler) && st.conns[c].handler.pc.after.Batch?
    requires st.conns[c].handler.frozen <==> st.lock == Some(c)
    ensures WalkEnds(st, c, BatchEnded(st, c, st.conns[c].handler.pc.after.commit, sent))
  {
  }

  lemma EndedShape(st: State, c: ConnId, sent: bool)
    requires CanEnd(st, c) && WalkOk(st.conns[c].handler)
    requires st.conns[c].handler.frozen <==> st.lock == Some(c)
    ensures WalkEnds(st, c, Ended(st, c, sent))
  {
    var h := st.conns[c].handler;
    if h.pc.after.Unwind? {
      assert h.pending - Names(h.pc.batch) == map[];
    } else if h.pc.after.Batch? {
      BatchEndedShape(st, c, sent);
    }
  }

  lemma EndPending(st: State, c: ConnId, st': State, name: Name)
    requires WalkEnds(st, c, st') && WalkOk(st.conns[c].handler)
    requires name in st'.conns[c].handler.pending && PendingName(st, c, name)
    ensures PendingName(st', c, name)
  {
    var h := st.conns[c].handler;
    assert h.pc.batch[..h.pc.done] == h.pc.batch;
    assert h.pc.after.AdoptFailed? ==> h.pc.after.name in Names(h.pc.batch) by {
      if h.pc.after.AdoptFailed? {
        assert h.pc.batch[0] == h.pc.after.name;
      }
    }
  }

  /** If c's walk touched anything, c alone holds the lock. */
  lemma EndOthers(st: State, c: ConnId, st': State, d: ConnId)
    requires SourceInv(st) && WalkEnds(st, c, st') && d in st.conns && d != c
    ensures st'.hub == st.hub || st.conns[d].handler.pending == map[]
    ensures st'.lock == st.lock || !st.conns[d].handler.frozen
  {
    assert HandlerOk(st, c);
    assert HandlerOk(st, d);
    var batch := st.conns[c].handler.pc.batch;
    if batch == [] {
      assert Names(batch) == {};
      assert st'.hub == st.hub;
    } else {
      assert batch[0] in st.conns[c].handler.pending;
    }
  }

  lemma EndHandler(st: State, c: ConnId, st': State, d: ConnId)
    requires SourceInv(st) && WalkEnds(st, c, st') && d in st.conns
    ensures HandlerOk(st', d)
  {
    assert HandlerOk(st, d);
    if d == c {
      forall name | name in st'.conns[c].handler.pending ensures PendingName(st', c, name) {
        assert PendingName(st, c, name);
        EndPending(st, c, st', name);
      }
    } else {
      EndOthers(st, c, st', d);
      forall name | name in st'.conns[d].handler.pending ensures PendingName(st', d, name) {
        assert PendingName(st, d, name);
      }
    }
  }

  lemma EndLinked(st: State, c: ConnId, st': State, k: SessId)
    requires WalkEnds(st, c, st') && k in st.sessions && Linked(st, k) && SessionOk(st.sessions[k])
    ensures Linked(st', k)
  {
    var h := st.conns[c].handler;
    assert h.pc.batch[..h.pc.done] == h.pc.batch;
  }

  lemma EndGiven(st: State, c: ConnId, st': State, name: Name)
    requires SourceInv(st) && WalkEnds(st, c, st') && name in st'.hub
    ensures name in st.hub && GivenInWalk(st', name)
  {
    assert HandlerOk(st, c);
    var h := st.conns[c].handler;
    assert h.pc.batch[..h.pc.done] == h.pc.batch;
    assert GivenInWalk(st, name);
  }

  lemma EndedSource(st: State, c: ConnId, sent: bool)
    requires SourceInv(st) && CanEnd(st, c)
    ensures SourceInv(Ended(st, c, sent))
  {
    var st' := Ended(st, c, sent);
    assert HandlerOk(st, c);
    EndedShape(st, c, sent);
    forall d | d in st'.conns ensures HandlerOk(st', d) {
      EndHandler(st, c, st', d);
    }
    forall k | k in st'.sessions ensures SessionOk(st'.sessions[k]) && Linked(st', k) {
      assert SessionOk(st.sessions[k]);
      EndLinked(st, c, st', k);
    }
    forall name | name in st'.hub ensures GivenInWalk(st', name) {
      EndGiven(st, c, st', name);
    }
  }
}
