/** What every reachable state of the handoff satisfies. */
module HandoffInvariant {
  import opened Basics
  import opened HandoffState

  // ---------------------------------------------------------------- one session

  /** The copy loop may still read the PTY before it next looks at its ticket. */
  predicate Reading(copier: Copier) {
    copier.Running? || copier.Holding? || copier.Draining? || copier.Drained?
  }

  /** The copy loop will never read again. */
  predicate Finishing(copier: Copier) {
    copier.Exiting? || copier.Settled? || copier.Done?
  }

  predicate OnTicket(copier: Copier) {
    copier.Draining? || copier.Drained? || copier.Awaiting?
  }

  /** Each begun migration is finished exactly once; the gate is held exactly meanwhile. */
  ghost predicate GateOk(s: Session) {
    && s.gate == s.migration
    && s.finished + (if s.migration.Some? then 1 else 0) == |s.tickets|
    && (s.migration.Some? ==> s.migration.value + 1 == |s.tickets|)
  }

  /** The current ticket and where its copy loop must be. */
  ghost predicate TicketOk(s: Session) {
    s.migration.Some? && s.migration.value < |s.tickets| ==>
      var i := s.migration.value;
      var t := s.tickets[i];
      && (!t.alive ==> s.copier.Done? && t.stable && !t.failed && t.stopped)
      && (t.alive && t.stable && t.decision.None? ==> s.copier == Awaiting(i, !t.failed))
      && (t.failed ==> t.stable)
      && (t.alive && t.stopped ==> t.decision.Some?)
      && (t.alive && t.decision == Some(true) ==>
            if t.stopped then Finishing(s.copier) else s.copier == Awaiting(i, true))
      && (t.decision == Some(true) <==> s.given.Some?)
  }

  /** A copy loop that follows a ticket follows the current one. */
  ghost predicate CopierOk(s: Session) {
    OnTicket(s.copier) ==>
      var i := s.copier.ticket;
      && i < |s.tickets| && s.migration == Some(i)
      && s.tickets[i].alive && !s.tickets[i].stopped
      && (!s.copier.Awaiting? ==> !s.tickets[i].stable)
      && (s.copier.Awaiting? ==> s.tickets[i].stable && (s.copier.clean <==> !s.tickets[i].failed))
  }

  ghost predicate GivenOk(s: Session) {
    && (s.migrated <==> s.given.Some?)
    && (s.given.Some? && s.migration.None? ==> Finishing(s.copier))
  }

  /** What the child wrote is what was recorded, was lost, is being recorded, and still waits. */
  ghost predicate BytesOk(s: Session) {
    && s.written == s.log + s.lost + s.hand + s.queue
    && (s.lost != [] ==> s.logFailed)
    && (s.copier.Holding? || s.copier.Drained? ==> s.hand == s.copier.chunk)
    && (s.given.None? && !s.copier.Holding? && !s.copier.Drained? ==> s.hand == [])
    && (s.given.None? ==> s.screen == s.log && s.index == |s.log|)
  }

  ghost predicate SessionOk(s: Session) {
    GateOk(s) && TicketOk(s) && CopierOk(s) && GivenOk(s) && BytesOk(s)
  }

  // ---------------------------------------------------------------- one handler

  /** The names whose finishMigration has returned in the present walk. */
  function ResolvedNames(h: Handler): set<Name> {
    if h.pc.Resolving? && h.pc.done <= |h.pc.batch| then Names(h.pc.batch[..h.pc.done]) else {}
  }

  predicate InFlight(h: Handler, name: Name) {
    h.pc.Resolving? && h.pc.chosen && h.pc.done < |h.pc.batch| && h.pc.batch[h.pc.done] == name
  }

  predicate Failing(h: Handler, name: Name) {
    h.pc.Resolving? && h.pc.after == AdoptFailed(name)
  }

  ghost predicate PendingName(st: State, c: ConnId, name: Name)
    requires c in st.conns && name in st.conns[c].handler.pending
  {
    var h := st.conns[c].handler;
    var a := h.pending[name];
    && a.sid in st.sessions
    && name in st.hub && st.hub[name] == a.sid
    && a.ticket < |st.sessions[a.sid].tickets|
    && st.sessions[a.sid].tickets[a.ticket].begunBy == c
    && st.sessions[a.sid].name == name
    && Phase(h, c, name, st.sessions[a.sid], a.ticket)
  }

  /** How far the handoff of one pending name has got. */
  ghost predicate Phase(h: Handler, c: ConnId, name: Name, s: Session, i: nat)
    requires i < |s.tickets|
  {
    var t := s.tickets[i];
    var commit := h.pc.Resolving? && h.pc.after == Batch(true);
    if name in ResolvedNames(h) then
      s.migration.None? && s.given == (if commit then Some(c) else None)
    else if InFlight(h, name) then
      && s.migration == Some(i) && t.decision.Some?
      && (if commit then s.given == Some(c) && !t.failed else s.given.None?)
    else
      && s.migration == Some(i) && s.given.None?
      && (h.pc.Stabilizing? && h.pc.name == name ==> t.decision.None? || t.failed)
      && (!(h.pc.Stabilizing? && h.pc.name == name) && !Failing(h, name) ==>
            t.stable && !t.failed && t.decision.None? && !s.logFailed)
  }

  ghost predicate WalkOk(h: Handler) {
    h.pc.Resolving? ==>
      && NoDup(h.pc.batch) && h.pc.done <= |h.pc.batch|
      && (forall i :: 0 <= i < |h.pc.batch| ==> h.pc.batch[i] in h.pending)
      && (h.pc.chosen ==> h.pc.done < |h.pc.batch| && (h.pc.eff <==> h.pc.after == Batch(true)))
      && !h.pc.bad
      && !h.pc.after.Unstable?
      && (h.pc.after.AdoptFailed? ==> h.pc.batch == [h.pc.after.name])
      && (h.pc.after.Unwind? ==> Names(h.pc.batch) == h.pending.Keys)
  }

  ghost predicate HandlerOk(st: State, c: ConnId)
    requires c in st.conns
  {
    var h := st.conns[c].handler;
    && (h.frozen <==> st.lock == Some(c))
    && (h.pending != map[] ==> h.frozen)
    && (h.pc.Gone? ==> !h.frozen)
    && (h.pc.Stabilizing? ==> h.pc.name in h.pending)
    && WalkOk(h)
    && forall name :: name in h.pending ==> PendingName(st, c, name)
  }

  // ---------------------------------------------------------------- the source

  ghost predicate HubOk(st: State) {
    && (forall name :: name in st.hub ==> st.hub[name] in st.sessions && st.sessions[st.hub[name]].name == name)
    && (st.lock.Some? ==> st.lock.value in st.conns)
    && !st.panicked && !st.broken
  }

  /** A session under migration is pending at the handler that began it, and not yet resolved there. */
  ghost predicate Linked(st: State, sid: SessId)
    requires sid in st.sessions
  {
    var s := st.sessions[sid];
    s.migration.Some? && s.migration.value < |s.tickets| ==>
      var c := s.tickets[s.migration.value].begunBy;
      && c in st.conns
      && s.name in st.conns[c].handler.pending
      && st.conns[c].handler.pending[s.name] == Adoption(sid, s.migration.value)
      && s.name !in ResolvedNames(st.conns[c].handler)
  }

  /** A session already given away but still in the hub is in its commit's walk. */
  ghost predicate GivenInWalk(st: State, name: Name)
    requires name in st.hub && st.hub[name] in st.sessions
  {
    var s := st.sessions[st.hub[name]];
    s.given.Some? ==>
      && s.given.value in st.conns
      && var h := st.conns[s.given.value].handler;
         && h.pc.Resolving? && h.pc.after == Batch(true)
         && name in h.pending && (name in ResolvedNames(h) || InFlight(h, name))
  }

  ghost predicate SourceInv(st: State) {
    && HubOk(st)
    && (forall sid :: sid in st.sessions ==> SessionOk(st.sessions[sid]))
    && (forall sid :: sid in st.sessions ==> Linked(st, sid))
    && (forall name :: name in st.hub ==> GivenInWalk(st, name))
    && (forall c :: c in st.conns ==> HandlerOk(st, c))
  }

  // ---------------------------------------------------------------- one target

  /** The handler still answers. */
  predicate Live(h: Handler) {
    !h.pc.Gone? && !h.pc.Leaving? && !(h.pc.Resolving? && h.pc.after.Unwind?)
  }

  predicate Unoccupied(h: Handler) {
    h.pc.Ready? || !Live(h)
  }

  predicate OccupiedBy(pc: HandlerPc, r: Request) {
    match r
    case AdoptRequest(id, name) =>
      pc == Stabilizing(id, name) || (pc.Resolving? && pc.id == id && pc.after == AdoptFailed(name))
    case BatchRequest(id, names, commit) =>
      commit && pc.Resolving? && pc.id == id && pc.batch == names && pc.after == Batch(true)
    case _ => false
  }

  datatype Progress = Queued | Occupied | Answered | Silent

  /** The one call r is on its way, being served, answered, or will never be. */
  ghost predicate Sync(conn: Conn, r: Request, p: Progress) {
    match p
    case Queued => conn.requests == [r] && conn.replies == [] && Unoccupied(conn.handler)
    case Occupied => conn.requests == [] && conn.replies == [] && OccupiedBy(conn.handler.pc, r)
    case Answered =>
      conn.requests == [] && |conn.replies| == 1 && conn.replies[0].id == r.id && Unoccupied(conn.handler)
    case Silent => conn.requests == [] && conn.replies == [] && Unoccupied(conn.handler)
  }

  ghost predicate Quiet(conn: Conn) {
    conn.requests == [] && conn.replies == [] && Unoccupied(conn.handler)
  }

  /** The handler holds this name for the session sid. */
  predicate HeldFor(conn: Conn, name: Name, sid: SessId) {
    name in conn.handler.pending && conn.handler.pending[name].sid == sid
  }

  type Sessions = map<SessId, Session>

  /** The session's child was alive when its last migration began. */
  predicate Lives(s: Session) {
    s.tickets != [] && s.tickets[|s.tickets| - 1].alive
  }

  /** A prepared state agrees with a session nobody is reading. */
  ghost predicate Steady(ss: Sessions, k: Kept) {
    && k.sid in ss
    && var s := ss[k.sid];
       && s.name == k.name
       && (k.master.Some? ==> k.master.value == k.sid)
       && (k.master.Some? <==> Lives(s))
       && k.base + k.index == |s.log|
       && (k.native ==> k.base == 0 && k.screen == s.log)
       && s.hand == []
       && k.taker.Idle?
  }

  /** The same once the commit has given it to c's target, which may be reading the PTY. */
  ghost predicate Owned(ss: Sessions, c: ConnId, k: Kept) {
    && k.sid in ss
    && var s := ss[k.sid];
       && s.name == k.name && s.given == Some(c) && s.migration.None?
       && (k.master.Some? ==> k.master.value == k.sid)
       && (k.master.Some? <==> Lives(s))
       && (k.master.None? ==> k.taker.Idle?)
       && k.base + k.index == |s.log|
       && (k.native ==> k.base == 0 && k.screen == s.log)
       && s.hand == (if k.taker.Recording? then k.taker.chunk else [])
  }

  ghost predicate Prepared(ss: Sessions, conn: Conn) {
    forall i :: 0 <= i < |conn.target.kept| ==>
      Steady(ss, conn.target.kept[i]) && HeldFor(conn, conn.target.kept[i].name, conn.target.kept[i].sid)
  }

  ghost predicate Granted(ss: Sessions, c: ConnId, conn: Conn) {
    forall i :: 0 <= i < |conn.target.kept| ==>
      Steady(ss, conn.target.kept[i]) && Owned(ss, c, conn.target.kept[i])
  }

  /** The prepared states are the first names of the frozen inventory, in order. */
  ghost predicate InOrder(conn: Conn) {
    var t := conn.target;
    && conn.inventory == Some(t.listed) && NoDup(t.listed)
    && |t.kept| == t.next <= |t.listed|
    && forall i :: 0 <= i < |t.kept| ==> t.kept[i].name == t.listed[i]
  }

  ghost predicate ListingOk(conn: Conn, p: Progress) {
    var t := conn.target;
    && t.kept == [] && t.fds == [] && t.nextId > 0
    && Sync(conn, ListRequest(t.nextId - 1), p)
    && (p.Answered? && conn.replies[0].body.Listed? ==>
          conn.inventory == Some(conn.replies[0].body.names) && NoDup(conn.replies[0].body.names))
    && (p.Answered? ==> conn.replies[0].fd.None?)
  }

  ghost predicate PreparingOk(ss: Sessions, conn: Conn) {
    && conn.target.nextId > 0 && conn.target.fds == []
    && InOrder(conn) && Quiet(conn)
    && (Live(conn.handler) ==> Prepared(ss, conn))
  }

  ghost predicate AdoptingOk(ss: Sessions, conn: Conn, p: Progress) {
    var t := conn.target;
    && t.nextId > 0 && t.fds == [] && InOrder(conn) && t.next < |t.listed|
    && Sync(conn, AdoptRequest(t.nextId - 1, t.listed[t.next]), p)
    && (Live(conn.handler) ==> Prepared(ss, conn))
    && (p.Answered? && conn.replies[0].body.Adopted? ==>
          var r := conn.replies[0];
          && r.body.name == t.listed[t.next]
          && r.fd == (if r.body.alive then Some(r.body.sid) else None)
          && (Live(conn.handler) ==>
                && HeldFor(conn, r.body.name, r.body.sid)
                && r.body.sid in ss && (r.body.alive <==> Lives(ss[r.body.sid]))))
    && (p.Answered? && !conn.replies[0].body.Adopted? ==> conn.replies[0].fd.None?)
  }

  ghost predicate SnapshottingOk(ss: Sessions, conn: Conn, p: Progress)
    requires conn.target.pc.Snapshotting?
  {
    var t := conn.target;
    && t.nextId > 0 && t.fds == [] && InOrder(conn) && t.next < |t.listed|
    && t.pc.name == t.listed[t.next]
    && (t.pc.master.Some? ==> t.pc.master.value == t.pc.sid)
    && Sync(conn, SnapshotRequest(t.nextId - 1, t.pc.name), p)
    && (Live(conn.handler) ==>
          && Prepared(ss, conn) && HeldFor(conn, t.pc.name, t.pc.sid)
          && t.pc.sid in ss && (t.pc.master.Some? <==> Lives(ss[t.pc.sid])))
    && (p.Answered? ==> conn.replies[0].fd.None?)
    && (p.Answered? && conn.replies[0].body.Snapshot? && conn.replies[0].body.native && Live(conn.handler) ==>
          t.pc.sid in ss && conn.replies[0].body.screen == ss[t.pc.sid].log)
  }

  /** The compatibility retry: the name is still pending, so its second adopt can only be refused. */
  ghost predicate RetryingOk(conn: Conn) {
    var t := conn.target;
    && t.nextId > 1 && t.next < |t.listed|
    && Unoccupied(conn.handler)
    && (Live(conn.handler) ==> t.listed[t.next] in conn.handler.pending)
    && var again := AdoptRequest(t.nextId - 1, t.listed[t.next]);
       var first := SnapshotRequest(t.nextId - 2, t.listed[t.next]);
       && (conn.requests == [] || conn.requests == [first] || conn.requests == [again]
           || conn.requests == [first, again])
       && (forall i :: 0 <= i < |conn.replies| && conn.replies[i].id == t.nextId - 1 ==> conn.replies[i].body.Refused?)
  }

  ghost predicate CommittingOk(ss: Sessions, c: ConnId, conn: Conn, p: Progress) {
    var t := conn.target;
    && t.nextId > 0 && t.fds == [] && InOrder(conn) && t.next == |t.listed|
    && Sync(conn, BatchRequest(t.nextId - 1, KeptNames(t.kept), true), p)
    && ((p.Queued? || p.Occupied?) && Live(conn.handler) ==> Prepared(ss, conn))
    && (p.Answered? && conn.replies[0].body.Resolved? ==>
          Granted(ss, c, conn) && conn.replies[0].body.count == |t.kept|)
    && (p.Answered? ==> conn.replies[0].fd.None?)
  }

  ghost predicate PublishedOk(ss: Sessions, c: ConnId, conn: Conn) {
    && InOrder(conn) && conn.target.next == |conn.target.listed| && Unoccupied(conn.handler)
    && (forall i :: 0 <= i < |conn.requests| ==> conn.requests[i].ExitRequest?)
    && (forall i :: 0 <= i < |conn.target.kept| ==> Owned(ss, c, conn.target.kept[i]))
  }

  ghost predicate TargetOk(ss: Sessions, c: ConnId, conn: Conn) {
    var t := conn.target;
    match t.pc
    case Begin => t.kept == [] && t.fds == [] && !t.skipped && t.next == 0 && t.nextId > 0 && Quiet(conn)
    case Listing => !t.skipped && t.next == 0 && exists p: Progress :: ListingOk(conn, p)
    case Preparing => !t.skipped ==> PreparingOk(ss, conn)
    case Adopting => !t.skipped ==> exists p: Progress :: AdoptingOk(ss, conn, p)
    case Snapshotting(_, _, _) => !t.skipped ==> exists p: Progress :: SnapshottingOk(ss, conn, p)
    case Retrying => !t.skipped ==> RetryingOk(conn)
    case Dropping => t.skipped
    case Committing => !t.skipped && exists p: Progress :: CommittingOk(ss, c, conn, p)
    case Published => !t.skipped && PublishedOk(ss, c, conn)
    case _ => true
  }

  ghost predicate TargetInv(st: State) {
    forall c :: c in st.conns ==> TargetOk(st.sessions, c, st.conns[c])
  }

  /** The target has asked for the commit, so what it prepared no longer changes. */
  predicate CommitAsked(pc: TargetPc) {
    pc.Committing? || pc.Aborting? || pc.Over? || pc.Crashed? || pc.Published?
  }

  predicate IsCommit(r: Request) {
    r.BatchRequest? && r.commit
  }

  ghost predicate AllHeld(conn: Conn) {
    forall i :: 0 <= i < |conn.target.kept| ==> HeldFor(conn, conn.target.kept[i].name, conn.target.kept[i].sid)
  }

  /** A commit a target asked for names exactly what it prepared and the handler holds. */
  ghost predicate CommitOwn(conn: Conn) {
    var t := conn.target;
    var h := conn.handler;
    && (forall i :: 0 < i < |conn.requests| ==> !IsCommit(conn.requests[i]))
    && (conn.requests != [] && IsCommit(conn.requests[0]) ==>
          && CommitAsked(t.pc) && conn.requests[0].names == KeptNames(t.kept)
          && (h.pc.Ready? ==> AllHeld(conn)) && Unoccupied(h))
    && (h.pc.Resolving? && h.pc.after == Batch(true) ==>
          CommitAsked(t.pc) && h.pc.batch == KeptNames(t.kept) && AllHeld(conn))
  }

  /** What a commit gave to a connection's target is among what that target prepared. */
  ghost predicate GivenKept(st: State, sid: SessId)
    requires sid in st.sessions
  {
    var s := st.sessions[sid];
    s.given.Some? ==>
      && s.given.value in st.conns
      && var t := st.conns[s.given.value].target;
         (t.pc.Foreign? || (CommitAsked(t.pc) && exists i :: 0 <= i < |t.kept| && t.kept[i].sid == sid))
  }

  ghost predicate CommitInv(st: State) {
    forall c :: c in st.conns && !st.conns[c].target.pc.Foreign? ==> CommitOwn(st.conns[c])
  }

  ghost predicate GivenInv(st: State) {
    forall sid :: sid in st.sessions ==> GivenKept(st, sid)
  }

  ghost predicate Inv(st: State) {
    && SourceInv(st)
    && TargetInv(st)
    && CommitInv(st)
    && GivenInv(st)
  }
}
