/** Every step keeps the source side of the invariant, whatever the client sends. */
module HandoffSource {
  import opened Basics
  import opened HandoffState
  import opened HandoffSteps
  import opened HandoffInvariant

  // -------------------------------------------------------------- one session

  /** Recording the chunk in hand keeps every byte accounted for. */
  lemma RecordedBytes(s: Session, chunk: seq<byte>, ok: bool)
    requires s.written == s.log + s.lost + s.hand + s.queue && (s.lost != [] ==> s.logFailed)
    requires s.hand == chunk
    ensures var r := Recorded(s, chunk, ok);
            && r.written == r.log + r.lost + r.hand + r.queue && r.hand == []
            && (r.lost != [] ==> r.logFailed)
            && (s.screen == s.log ==> r.screen == r.log)
            && (s.index == |s.log| ==> r.index == |r.log|)
  {
    var r := Recorded(s, chunk, ok);
    assert Emptied(s.hand, chunk) == [];
    assert s.log + s.lost + s.hand + s.queue == r.log + r.lost + r.hand + r.queue;
  }

  lemma ReadBytes(s: Session, n: nat)
    requires n <= |s.queue| && s.hand == []
    requires s.written == s.log + s.lost + s.hand + s.queue
    ensures var r := ReadFromPty(s, n);
            && r.written == r.log + r.lost + r.hand + r.queue
            && r.hand == s.queue[..n]
  {
    assert s.queue == s.queue[..n] + s.queue[n..];
  }

  lemma CopierReadsOk(s: Session, step: Step)
    requires SessionOk(s) && (step.CopierReads? || step.DrainReads?) && CopierStep(s, step).Some?
    ensures SessionOk(CopierStep(s, step).value)
  {
    ReadBytes(s, step.n);
  }

  lemma CopierRecordsOk(s: Session, step: Step)
    requires SessionOk(s) && (step.CopierRecords? || step.DrainRecords?) && CopierStep(s, step).Some?
    ensures SessionOk(CopierStep(s, step).value)
  {
    RecordedBytes(s, s.copier.chunk, step.ok);
  }

  lemma CopierTurnsOk(s: Session, step: Step)
    requires SessionOk(s) && CopierStep(s, step).Some?
    requires step.CopierStops? || step.CopierSees? || step.DrainEnds? || step.CopierDecides? || step.CopierCloses?
    ensures SessionOk(CopierStep(s, step).value)
  {
  }

  lemma CopierSettlesOk(s: Session, step: Step)
    requires SessionOk(s) && step.CopierSettles? && CopierStep(s, step).Some?
    ensures SessionOk(CopierStep(s, step).value)
  {
  }

  /** Every step of a copy loop keeps its session in order. */
  lemma CopierStepOk(s: Session, step: Step)
    requires SessionOk(s) && CopierStep(s, step).Some?
    ensures SessionOk(CopierStep(s, step).value)
  {
    if step.CopierReads? || step.DrainReads? {
      CopierReadsOk(s, step);
    } else if step.CopierRecords? || step.DrainRecords? {
      CopierRecordsOk(s, step);
    } else if step.CopierSettles? {
      CopierSettlesOk(s, step);
    } else {
      CopierTurnsOk(s, step);
    }
  }

  /** Tickets keep who began them and whether the child lived then, and a decision once taken. */
  ghost predicate TicketsKept(s: Session, r: Session) {
    && |r.tickets| == |s.tickets|
    && (forall i :: 0 <= i < |s.tickets| ==>
          r.tickets[i].begunBy == s.tickets[i].begunBy && r.tickets[i].alive == s.tickets[i].alive)
    && (forall i :: 0 <= i < |s.tickets| && s.tickets[i].decision.Some? ==>
          r.tickets[i].decision == s.tickets[i].decision)
  }

  /** What a copy loop never touches, and what it leaves alone once it no longer reads. */
  ghost predicate CopierKept(s: Session, r: Session) {
    && r.name == s.name && r.migration == s.migration && r.given == s.given && r.gate == s.gate
    && TicketsKept(s, r)
    && (!Reading(s.copier) ==> r.log == s.log && r.hand == s.hand && r.logFailed == s.logFailed)
  }

  lemma CopierBytesKeep(s: Session, step: Step)
    requires CopierStep(s, step).Some?
    requires step.CopierReads? || step.DrainReads? || step.CopierRecords? || step.DrainRecords?
    ensures CopierKept(s, CopierStep(s, step).value)
  {
  }

  lemma CopierTurnKeeps(s: Session, step: Step)
    requires CopierStep(s, step).Some?
    requires step.CopierStops? || step.CopierSees? || step.DrainEnds? || step.CopierDecides? || step.CopierCloses?
    ensures CopierKept(s, CopierStep(s, step).value)
  {
  }

  lemma CopierSettleKeeps(s: Session, step: Step)
    requires CopierStep(s, step).Some? && step.CopierSettles?
    ensures CopierKept(s, CopierStep(s, step).value)
  {
  }

  lemma CopierStepKeeps(s: Session, step: Step)
    requires CopierStep(s, step).Some?
    ensures CopierKept(s, CopierStep(s, step).value)
  {
    if step.CopierReads? || step.DrainReads? || step.CopierRecords? || step.DrainRecords? {
      CopierBytesKeep(s, step);
    } else if step.CopierSettles? {
      CopierSettleKeeps(s, step);
    } else {
      CopierTurnKeeps(s, step);
    }
  }

  /** A stable undecided ticket leaves its copy loop no step. */
  lemma CopierBlocked(s: Session, step: Step, i: nat)
    requires SessionOk(s) && i < |s.tickets| && s.migration == Some(i)
    requires s.tickets[i].stable && !s.tickets[i].failed && s.tickets[i].decision.None?
    ensures CopierStep(s, step).None?
  {
  }

  /** A ticket being waited for stays undecided unless it fails. */
  lemma CopierWaitedFor(s: Session, step: Step, i: nat)
    requires SessionOk(s) && CopierStep(s, step).Some? && i < |s.tickets| && s.migration == Some(i)
    requires s.tickets[i].decision.None? || s.tickets[i].failed
    ensures var t := CopierStep(s, step).value.tickets[i];
            t.decision.None? || t.failed
  {
  }

  /** A ticket decided to commit does not fail any more. */
  lemma CopierCommitted(s: Session, step: Step, i: nat)
    requires SessionOk(s) && CopierStep(s, step).Some? && i < |s.tickets| && s.migration == Some(i)
    requires s.tickets[i].decision.Some? && s.given.Some? && !s.tickets[i].failed
    ensures !CopierStep(s, step).value.tickets[i].failed
  {
  }

  /** A settled handoff keeps its phase. */
  lemma KeptPhase(h: Handler, c: ConnId, name: Name, s: Session, i: nat, s': Session)
    requires i < |s.tickets| && Phase(h, c, name, s, i) && CopierKept(s, s')
    requires s.given.Some? && s.tickets[i].decision.Some? && !s.tickets[i].failed ==> !s'.tickets[i].failed
    requires s.tickets[i].decision.None? || s.tickets[i].failed ==> s'.tickets[i].decision.None? || s'.tickets[i].failed
    requires s.migration == Some(i) ==> !(s.tickets[i].stable && !s.tickets[i].failed && s.tickets[i].decision.None?)
    ensures Phase(h, c, name, s', i)
  {
  }

  lemma CopierStepPhase(h: Handler, c: ConnId, name: Name, s: Session, i: nat, step: Step)
    requires SessionOk(s) && CopierStep(s, step).Some?
    requires i < |s.tickets| && Phase(h, c, name, s, i)
    ensures Phase(h, c, name, CopierStep(s, step).value, i)
  {
    CopierStepKeeps(s, step);
    if s.migration == Some(i) {
      CopierTicket(s, step, i);
      KeptPhase(h, c, name, s, i, CopierStep(s, step).value);
    }
  }

  lemma CopierTicket(s: Session, step: Step, i: nat)
    requires SessionOk(s) && CopierStep(s, step).Some? && i < |s.tickets| && s.migration == Some(i)
    ensures var t := s.tickets[i];
            var t' := CopierStep(s, step).value.tickets[i];
            && (s.given.Some? && t.decision.Some? && !t.failed ==> !t'.failed)
            && (t.decision.None? || t.failed ==> t'.decision.None? || t'.failed)
            && !(t.stable && !t.failed && t.decision.None?)
  {
    var t := s.tickets[i];
    if t.stable && !t.failed && t.decision.None? {
      CopierBlocked(s, step, i);
    } else if t.decision.None? || t.failed {
      CopierWaitedFor(s, step, i);
    } else if s.given.Some? {
      CopierCommitted(s, step, i);
    }
  }

  /** What a step of a copy loop makes of its session. */
  lemma CopierMoved(st: State, step: Step, st': State) returns (s': Session)
    requires SourceInv(st) && CopierMoves(st, step, st')
    ensures step.sid in st.sessions && SessionOk(st.sessions[step.sid])
    ensures CopierStep(st.sessions[step.sid], step) == Some(s')
    ensures SessionOk(s') && CopierKept(st.sessions[step.sid], s') && st' == WithSession(st, step.sid, s')
  {
    s' := CopierStep(st.sessions[step.sid], step).value;
    CopierStepOk(st.sessions[step.sid], step);
    CopierStepKeeps(st.sessions[step.sid], step);
  }

  // --------------------------------------------------------- replacing a part

  /** s' stands where s stood: same identity, same handoff. */
  ghost predicate SameHandoff(s: Session, s': Session) {
    && s'.name == s.name && s'.migration == s.migration && s'.given == s.given
    && |s'.tickets| == |s.tickets|
    && forall i :: 0 <= i < |s.tickets| ==> s'.tickets[i].begunBy == s.tickets[i].begunBy
  }

  /** Every handler that has sid pending sees the phase it saw. */
  ghost predicate SamePhases(st: State, sid: SessId, s': Session) {
    forall c, name :: c in st.conns && name in st.conns[c].handler.pending
                      && st.conns[c].handler.pending[name].sid == sid ==>
      && st.conns[c].handler.pending[name].ticket < |s'.tickets|
      && Phase(st.conns[c].handler, c, name, s', st.conns[c].handler.pending[name].ticket)
  }

  lemma SwapHandler(st: State, sid: SessId, s': Session, c: ConnId)
    requires sid in st.sessions && SameHandoff(st.sessions[sid], s') && SamePhases(st, sid, s')
    requires c in st.conns && HandlerOk(st, c)
    ensures HandlerOk(WithSession(st, sid, s'), c)
  {
    var st' := WithSession(st, sid, s');
    forall name | name in st'.conns[c].handler.pending ensures PendingName(st', c, name) {
      assert PendingName(st, c, name);
    }
  }

  lemma SwapLinked(st: State, sid: SessId, s': Session, k: SessId)
    requires sid in st.sessions && SameHandoff(st.sessions[sid], s') && k in st.sessions && Linked(st, k)
    ensures Linked(WithSession(st, sid, s'), k)
  {
  }

  lemma SessionSwap(st: State, sid: SessId, s': Session)
    requires SourceInv(st) && sid in st.sessions
    requires SessionOk(s') && SameHandoff(st.sessions[sid], s') && SamePhases(st, sid, s')
    ensures SourceInv(WithSession(st, sid, s'))
  {
    var st' := WithSession(st, sid, s');
    forall c | c in st'.conns ensures HandlerOk(st', c) {
      SwapHandler(st, sid, s', c);
    }
    forall k | k in st'.sessions ensures Linked(st', k) {
      SwapLinked(st, sid, s', k);
    }
    forall name | name in st'.hub ensures GivenInWalk(st', name) {
      assert GivenInWalk(st, name);
    }
  }

  lemma CopierPhases(st: State, step: Step, s': Session)
    requires SourceInv(st) && IsCopierStep(step) && step.sid in st.sessions
    requires CopierStep(st.sessions[step.sid], step) == Some(s')
    ensures SamePhases(st, step.sid, s')
  {
    forall c, name | c in st.conns && name in st.conns[c].handler.pending
                     && st.conns[c].handler.pending[name].sid == step.sid
      ensures st.conns[c].handler.pending[name].ticket < |s'.tickets|
      ensures Phase(st.conns[c].handler, c, name, s', st.conns[c].handler.pending[name].ticket)
    {
      assert HandlerOk(st, c);
      assert PendingName(st, c, name);
      CopierStepKeeps(st.sessions[step.sid], step);
      CopierStepPhase(st.conns[c].handler, c, name, st.sessions[step.sid], st.conns[c].handler.pending[name].ticket,
                      step);
    }
  }

  lemma CopierSource(st: State, step: Step, st': State)
    requires SourceInv(st) && CopierMoves(st, step, st')
    ensures SourceInv(st')
  {
    var s' := CopierMoved(st, step, st');
    CopierPhases(st, step, s');
    SessionSwap(st, step.sid, s');
  }

  lemma ChildSource(st: State, sid: SessId, data: seq<byte>)
    requires SourceInv(st) && sid in st.sessions
    ensures SourceInv(ChildWritten(st, sid, data))
  {
    var s := st.sessions[sid];
    var s' := s.(written := s.written + data, queue := s.queue + data);
    assert SessionOk(s);
    assert s'.log + s'.lost + s'.hand + s'.queue == s.log + s.lost + s.hand + s.queue + data;
    forall c, name | c in st.conns && name in st.conns[c].handler.pending
                     && st.conns[c].handler.pending[name].sid == sid
      ensures st.conns[c].handler.pending[name].ticket < |s'.tickets|
      ensures Phase(st.conns[c].handler, c, name, s', st.conns[c].handler.pending[name].ticket)
    {
      assert HandlerOk(st, c);
      assert PendingName(st, c, name);
    }
    SessionSwap(st, sid, s');
  }

  /** With the hub lock free nothing is pending and nothing in the hub is given away. */
  lemma LockFree(st: State)
    requires SourceInv(st) && st.lock.None?
    ensures forall c :: c in st.conns ==> st.conns[c].handler.pending == map[] && !st.conns[c].handler.frozen
    ensures forall name :: name in st.hub ==> st.sessions[st.hub[name]].given.None?
    ensures forall sid :: sid in st.sessions ==> st.sessions[sid].migration.None?
  {
    forall c | c in st.conns ensures st.conns[c].handler.pending == map[] && !st.conns[c].handler.frozen {
      assert HandlerOk(st, c);
    }
    forall name | name in st.hub ensures st.sessions[st.hub[name]].given.None? {
      assert GivenInWalk(st, name);
    }
    forall sid | sid in st.sessions ensures st.sessions[sid].migration.None? {
      assert SessionOk(st.sessions[sid]);
      assert Linked(st, sid);
    }
  }

  lemma ResizeSource(st: State, name: Name, n: nat, ok: bool)
    requires SourceInv(st) && CanResize(st, name, n)
    ensures SourceInv(Resized(st, name, n, ok))
  {
    LockFree(st);
    var sid := st.hub[name];
    var s := st.sessions[sid];
    assert SessionOk(s);
    ReadBytes(s, n);
    RecordedBytes(ReadFromPty(s, n), s.queue[..n], ok);
    SessionSwap(st, sid, Recorded(ReadFromPty(s, n), s.queue[..n], ok));
  }

  lemma StartHandler(st: State, name: Name, sid: SessId, c: ConnId)
    requires c in st.conns && HandlerOk(st, c) && st.conns[c].handler.pending == map[]
    ensures HandlerOk(Started(st, name, sid), c)
  {
  }

  lemma StartLinked(st: State, name: Name, sid: SessId, k: SessId)
    requires CanStart(st, name, sid)
    requires k in st.sessions ==> SessionOk(st.sessions[k]) && st.sessions[k].migration.None?
    requires k in st.sessions || k == sid
    ensures SessionOk(Started(st, name, sid).sessions[k]) && Linked(Started(st, name, sid), k)
  {
  }

  /** Adding or dropping hub entries while the lock is free. */
  lemma StartSource(st: State, name: Name, sid: SessId)
    requires SourceInv(st) && CanStart(st, name, sid)
    ensures SourceInv(Started(st, name, sid))
  {
    LockFree(st);
    var st' := Started(st, name, sid);
    forall c | c in st'.conns ensures HandlerOk(st', c) {
      StartHandler(st, name, sid, c);
    }
    forall k | k in st'.sessions ensures SessionOk(st'.sessions[k]) && Linked(st', k) {
      StartLinked(st, name, sid, k);
    }
  }

  lemma UnhubSource(st: State, hub': map<Name, SessId>, closed: bool)
    requires SourceInv(st) && st.lock.None?
    requires hub'.Keys <= st.hub.Keys && forall name :: name in hub' ==> hub'[name] == st.hub[name]
    ensures SourceInv(st.(hub := hub', closed := closed))
  {
    LockFree(st);
    var st' := st.(hub := hub', closed := closed);
    forall c | c in st'.conns ensures HandlerOk(st', c) {
      assert HandlerOk(st, c);
    }
    forall k | k in st'.sessions ensures SessionOk(st'.sessions[k]) && Linked(st', k) {
      assert SessionOk(st.sessions[k]);
    }
  }

  // ------------------------------------------------------------- the handler

  /** Only the wire or the target of c changes. */
  lemma WireSource(st: State, c: ConnId, conn': Conn)
    requires SourceInv(st) && c in st.conns && conn'.handler == st.conns[c].handler
    ensures SourceInv(WithConn(st, c, conn'))
  {
    var st' := WithConn(st, c, conn');
    forall d | d in st'.conns ensures HandlerOk(st', d) {
      assert HandlerOk(st, d);
      forall name | name in st'.conns[d].handler.pending ensures PendingName(st', d, name) {
        assert PendingName(st, d, name);
      }
    }
    forall sid | sid in st'.sessions ensures SessionOk(st'.sessions[sid]) && Linked(st', sid) {
      assert SessionOk(st.sessions[sid]);
      assert Linked(st, sid);
    }
    forall name | name in st'.hub ensures GivenInWalk(st', name) {
      assert GivenInWalk(st, name);
    }
  }

  /** The handler moves on without touching a session; nothing is resolved yet on either side. */
  ghost predicate MovesOn(h: Handler, h': Handler) {
    && !h.pc.Resolving? && h'.frozen == h.frozen && h'.pending == h.pending
    && !h'.pc.Gone? && WalkOk(h') && (h'.pc.Resolving? ==> h'.pc.done == 0 && !h'.pc.chosen)
    && (h'.pc.Stabilizing? ==> h'.pc.name in h'.pending)
  }

  /** Every pending name is in the phase the new handler expects. */
  ghost predicate NewPhases(st: State, c: ConnId, h': Handler)
    requires c in st.conns && h'.pending == st.conns[c].handler.pending
  {
    forall name :: name in h'.pending && PendingName(st, c, name) ==>
      Phase(h', c, name, st.sessions[h'.pending[name].sid], h'.pending[name].ticket)
  }

  lemma PcHandler(st: State, c: ConnId, conn': Conn, d: ConnId)
    requires c in st.conns && MovesOn(st.conns[c].handler, conn'.handler) && NewPhases(st, c, conn'.handler)
    requires d in st.conns && HandlerOk(st, d)
    ensures HandlerOk(WithConn(st, c, conn'), d)
  {
    var st' := WithConn(st, c, conn');
    forall name | name in st'.conns[d].handler.pending ensures PendingName(st', d, name) {
      assert PendingName(st, d, name);
    }
  }

  lemma PcLinked(st: State, c: ConnId, conn': Conn, sid: SessId)
    requires c in st.conns && MovesOn(st.conns[c].handler, conn'.handler) && sid in st.sessions && Linked(st, sid)
    ensures Linked(WithConn(st, c, conn'), sid)
  {
    assert ResolvedNames(conn'.handler) == {};
  }

  lemma PcSource(st: State, c: ConnId, conn': Conn)
    requires SourceInv(st) && c in st.conns && MovesOn(st.conns[c].handler, conn'.handler)
    requires NewPhases(st, c, conn'.handler)
    ensures SourceInv(WithConn(st, c, conn'))
  {
    var st' := WithConn(st, c, conn');
    forall d | d in st'.conns ensures HandlerOk(st', d) {
      PcHandler(st, c, conn', d);
    }
    forall sid | sid in st'.sessions ensures SessionOk(st'.sessions[sid]) && Linked(st', sid) {
      PcLinked(st, c, conn', sid);
    }
    forall name | name in st'.hub ensures GivenInWalk(st', name) {
      assert GivenInWalk(st, name);
    }
  }
}
