/** What the other parties' steps leave alone of the sessions a target prepares and owns. */
module HandoffTarget {
  import opened Basics
  import opened HandoffState
  import opened HandoffSteps
  import opened HandoffInvariant
  import opened HandoffSource

  /** To a target, s' is as good as s. */
  ghost predicate Same(s: Session, s': Session) {
    && s'.name == s.name && s'.log == s.log && s'.hand == s.hand && Lives(s') == Lives(s)
    && (s.given.Some? ==> s'.given == s.given)
    && (s.given.Some? && s.migration.None? ==> s'.migration.None?)
  }

  /** The session was given to d, or d's live handler holds it and its copy loop is not reading. */
  ghost predicate Guarded(st: State, d: ConnId, sid: SessId)
    requires d in st.conns && sid in st.sessions
  {
    var h := st.conns[d].handler;
    || st.sessions[sid].given == Some(d)
    || (Live(h) && !Reading(st.sessions[sid].copier)
        && st.sessions[sid].name in h.pending && h.pending[st.sessions[sid].name].sid == sid)
  }

  /** Every session guarded for d is left as it was. */
  ghost predicate Undisturbed(st: State, ss': Sessions, d: ConnId)
    requires d in st.conns
  {
    forall sid :: sid in st.sessions ==>
      sid in ss' && (Guarded(st, d, sid) ==> Same(st.sessions[sid], ss'[sid]))
  }

  /** The handler is not waiting on, or giving up, this name. */
  predicate Calm(h: Handler, name: Name) {
    && !(h.pc.Stabilizing? && h.pc.name == name) && !Failing(h, name)
    && (h.pc.Resolving? ==> h.pc.after == Batch(true) || h.pc.after.AdoptFailed?)
  }

  lemma PhaseQuiet(h: Handler, c: ConnId, name: Name, s: Session, i: nat)
    requires SessionOk(s) && i < |s.tickets| && Phase(h, c, name, s, i) && WalkOk(h) && Calm(h, name)
    ensures !Reading(s.copier)
  {
    if h.pc.Resolving? && h.pc.after.AdoptFailed? {
      assert forall j :: 0 <= j < |h.pc.batch| ==> h.pc.batch[j] == h.pc.after.name;
      assert name !in ResolvedNames(h);
    }
  }

  lemma HeldGuarded(st: State, d: ConnId, name: Name, sid: SessId)
    requires SourceInv(st) && d in st.conns && HeldFor(st.conns[d], name, sid)
    requires Live(st.conns[d].handler) && Calm(st.conns[d].handler, name)
    ensures sid in st.sessions && Guarded(st, d, sid)
  {
    var h := st.conns[d].handler;
    assert HandlerOk(st, d);
    assert PendingName(st, d, name);
    assert SessionOk(st.sessions[sid]);
    PhaseQuiet(h, d, name, st.sessions[sid], h.pending[name].ticket);
  }

  lemma PreparedFrame(st: State, ss': Sessions, d: ConnId)
    requires SourceInv(st) && d in st.conns && Undisturbed(st, ss', d)
    requires Live(st.conns[d].handler) && Prepared(st.sessions, st.conns[d])
    requires forall i :: 0 <= i < |st.conns[d].target.kept| ==>
               Calm(st.conns[d].handler, st.conns[d].target.kept[i].name)
    ensures Prepared(ss', st.conns[d])
  {
    var conn := st.conns[d];
    forall i | 0 <= i < |conn.target.kept|
      ensures Steady(ss', conn.target.kept[i]) && HeldFor(conn, conn.target.kept[i].name, conn.target.kept[i].sid)
    {
      var k := conn.target.kept[i];
      assert Steady(st.sessions, k) && HeldFor(conn, k.name, k.sid);
      HeldGuarded(st, d, k.name, k.sid);
    }
  }

  lemma OwnedFrame(st: State, ss': Sessions, d: ConnId, k: Kept)
    requires d in st.conns && Undisturbed(st, ss', d) && Owned(st.sessions, d, k)
    ensures Owned(ss', d, k)
    ensures Steady(st.sessions, k) ==> Steady(ss', k)
  {
    assert Guarded(st, d, k.sid);
  }

  /** With the first names kept, a handler serving the next one is calm about them. */
  lemma KeptCalm(conn: Conn, r: Request, p: Progress)
    requires InOrder(conn) && Live(conn.handler)
    requires Sync(conn, r, p)
    requires r.AdoptRequest? ==>
               conn.target.next < |conn.target.listed| && r.name == conn.target.listed[conn.target.next]
    ensures forall i :: 0 <= i < |conn.target.kept| ==> Calm(conn.handler, conn.target.kept[i].name)
  {
  }

  /** A step that leaves d's connection and its guarded sessions alone leaves d's target right. */
  lemma TargetFrame(st: State, ss': Sessions, d: ConnId)
    requires SourceInv(st) && d in st.conns && Undisturbed(st, ss', d) && TargetOk(st.sessions, d, st.conns[d])
    ensures TargetOk(ss', d, st.conns[d])
  {
    var conn := st.conns[d];
    var t := conn.target;
    match t.pc
    case Preparing =>
      if !t.skipped && Live(conn.handler) {
        PreparedFrame(st, ss', d);
      }
    case Adopting =>
      if !t.skipped {
        AdoptingFrame(st, ss', d);
      }
    case Snapshotting(_, _, _) =>
      if !t.skipped {
        SnapshottingFrame(st, ss', d);
      }
    case Committing => CommittingFrame(st, ss', d);
    case Published =>
      forall i | 0 <= i < |t.kept| ensures Owned(ss', d, t.kept[i]) {
        OwnedFrame(st, ss', d, t.kept[i]);
      }
    case _ =>
  }

  lemma AdoptingFrame(st: State, ss': Sessions, d: ConnId)
    requires SourceInv(st) && d in st.conns && Undisturbed(st, ss', d)
    requires exists p: Progress :: AdoptingOk(st.sessions, st.conns[d], p)
    ensures exists p: Progress :: AdoptingOk(ss', st.conns[d], p)
  {
    var conn := st.conns[d];
    var p: Progress :| AdoptingOk(st.sessions, conn, p);
    if Live(conn.handler) {
      KeptCalm(conn, AdoptRequest(conn.target.nextId - 1, conn.target.listed[conn.target.next]), p);
      PreparedFrame(st, ss', d);
      if p.Answered? && conn.replies[0].body.Adopted? {
        HeldGuarded(st, d, conn.replies[0].body.name, conn.replies[0].body.sid);
      }
    }
    assert AdoptingOk(ss', conn, p);
  }

  lemma SnapshottingFrame(st: State, ss': Sessions, d: ConnId)
    requires SourceInv(st) && d in st.conns && Undisturbed(st, ss', d) && st.conns[d].target.pc.Snapshotting?
    requires exists p: Progress :: SnapshottingOk(st.sessions, st.conns[d], p)
    ensures exists p: Progress :: SnapshottingOk(ss', st.conns[d], p)
  {
    var conn := st.conns[d];
    var p: Progress :| SnapshottingOk(st.sessions, conn, p);
    if Live(conn.handler) {
      KeptCalm(conn, SnapshotRequest(conn.target.nextId - 1, conn.target.pc.name), p);
      PreparedFrame(st, ss', d);
      HeldGuarded(st, d, conn.target.pc.name, conn.target.pc.sid);
    }
    assert SnapshottingOk(ss', conn, p);
  }

  lemma CommittingFrame(st: State, ss': Sessions, d: ConnId)
    requires SourceInv(st) && d in st.conns && Undisturbed(st, ss', d)
    requires exists p: Progress :: CommittingOk(st.sessions, d, st.conns[d], p)
    ensures exists p: Progress :: CommittingOk(ss', d, st.conns[d], p)
  {
    var conn := st.conns[d];
    var t := conn.target;
    var p: Progress :| CommittingOk(st.sessions, d, conn, p);
    if (p.Queued? || p.Occupied?) && Live(conn.handler) {
      KeptCalm(conn, BatchRequest(t.nextId - 1, KeptNames(t.kept), true), p);
      PreparedFrame(st, ss', d);
    }
    if p.Answered? && conn.replies[0].body.Resolved? {
      forall i | 0 <= i < |t.kept| ensures Steady(ss', t.kept[i]) && Owned(ss', d, t.kept[i]) {
        OwnedFrame(st, ss', d, t.kept[i]);
      }
    }
    assert CommittingOk(ss', d, conn, p);
  }

  // ------------------------------------------------- which steps disturb nobody

  /** A session changed by its own copy loop, which leaves alone what it no longer reads. */
  ghost predicate Quietly(s: Session, s': Session) {
    && s'.name == s.name && s'.given == s.given && s'.migration == s.migration && Lives(s') == Lives(s)
    && (!Reading(s.copier) ==> s'.log == s.log && s'.hand == s.hand)
  }

  lemma QuietDisturbsNobody(st: State, sid: SessId, s': Session, d: ConnId)
    requires sid in st.sessions && SessionOk(st.sessions[sid]) && Quietly(st.sessions[sid], s') && d in st.conns
    ensures Undisturbed(st, st.sessions[sid := s'], d)
  {
  }

  lemma ResizeDisturbsNobody(st: State, name: Name, n: nat, ok: bool, d: ConnId)
    requires SourceInv(st) && d in st.conns && CanResize(st, name, n)
    ensures Undisturbed(st, Resized(st, name, n, ok).sessions, d)
  {
    LockFree(st);
  }

  /** A session given to c is guarded for no other connection. */
  lemma GivenGuardsOnlyOne(st: State, c: ConnId, d: ConnId, sid: SessId)
    requires SourceInv(st) && d in st.conns && d != c && sid in st.sessions
    requires st.sessions[sid].given == Some(c)
    ensures !Guarded(st, d, sid)
  {
    assert HandlerOk(st, d);
    var name := st.sessions[sid].name;
    assert name in st.conns[d].handler.pending ==> PendingName(st, d, name);
  }
}
