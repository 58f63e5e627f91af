/** What a handler's steps look like from its own target: each says what becomes of one connection. */
module HandoffServed {
  import opened Basics
  import opened HandoffState
  import opened HandoffSteps
  import opened HandoffInvariant

  /** The target is in a phase that says nothing of its connection. */
  predicate Indifferent(t: Target) {
    match t.pc
    case Begin => false
    case Listing => false
    case Committing => false
    case Published => false
    case Preparing => t.skipped
    case Adopting => t.skipped
    case Snapshotting(_, _, _) => t.skipped
    case Retrying => t.skipped
    case _ => true
  }

  /** An unoccupied handler dies, or stays dead: only what was already answered still counts. */
  lemma HandlerDies(ss: Sessions, c: ConnId, conn: Conn, h': Handler)
    requires TargetOk(ss, c, conn) && Unoccupied(conn.handler) && !Live(h')
    ensures TargetOk(ss, c, conn.(handler := h'))
  {
    var t := conn.target;
    var conn' := conn.(handler := h');
    match t.pc
    case Listing =>
      var p: Progress :| ListingOk(conn, p);
      assert !p.Occupied?;
      assert ListingOk(conn', p);
    case Adopting =>
      if !t.skipped {
        var p: Progress :| AdoptingOk(ss, conn, p);
        assert !p.Occupied?;
        assert AdoptingOk(ss, conn', p);
      }
    case Snapshotting(_, _, _) =>
      if !t.skipped {
        var p: Progress :| SnapshottingOk(ss, conn, p);
        assert SnapshottingOk(ss, conn', p);
      }
    case Committing =>
      var p: Progress :| CommittingOk(ss, c, conn, p);
      assert !p.Occupied?;
      assert CommittingOk(ss, c, conn', p);
    case _ =>
  }

  /** The walk of a live handler goes on. */
  lemma WalkGoesOn(ss: Sessions, c: ConnId, conn: Conn, h': Handler)
    requires TargetOk(ss, c, conn)
    requires var h := conn.handler;
             && h.pc.Resolving? && Live(h) && h'.pending == h.pending
             && h'.pc.Resolving? && h'.pc.id == h.pc.id && h'.pc.batch == h.pc.batch && h'.pc.after == h.pc.after
    ensures TargetOk(ss, c, conn.(handler := h'))
  {
    var t := conn.target;
    var conn' := conn.(handler := h');
    if t.pc.Adopting? && !t.skipped {
      var p: Progress :| AdoptingOk(ss, conn, p);
      assert p.Occupied?;
      assert Prepared(ss, conn');
      assert AdoptingOk(ss, conn', p);
    } else if t.pc.Committing? {
      var p: Progress :| CommittingOk(ss, c, conn, p);
      assert p.Occupied?;
      assert Prepared(ss, conn');
      assert CommittingOk(ss, c, conn', p);
    }
  }

  // ---------------------------------------------------------------- requests

  /** Which request a target that cares can have queued. */
  ghost predicate Expected(ss: Sessions, c: ConnId, conn: Conn)
    requires conn.requests != []
  {
    var t := conn.target;
    var r := conn.requests[0];
    match t.pc
    case Listing => ListingOk(conn, Queued) && r == ListRequest(t.nextId - 1)
    case Adopting => AdoptingOk(ss, conn, Queued) && r == AdoptRequest(t.nextId - 1, t.listed[t.next])
    case Snapshotting(_, _, _) => SnapshottingOk(ss, conn, Queued) && r == SnapshotRequest(t.nextId - 1, t.pc.name)
    case Retrying => RetryingOk(conn) && (r.AdoptRequest? || r.SnapshotRequest?)
    case Committing => CommittingOk(ss, c, conn, Queued) && r == BatchRequest(t.nextId - 1, KeptNames(t.kept), true)
    case Published => r.ExitRequest?
    case _ => false
  }

  lemma QueuedRequest(ss: Sessions, c: ConnId, conn: Conn)
    requires TargetOk(ss, c, conn) && !Indifferent(conn.target) && conn.requests != []
    ensures Expected(ss, c, conn)
  {
    match conn.target.pc
    case Listing =>
      var p: Progress :| ListingOk(conn, p);
      assert p == Queued;
    case Adopting =>
      var p: Progress :| AdoptingOk(ss, conn, p);
      assert p == Queued;
    case Snapshotting(_, _, _) =>
      var p: Progress :| SnapshottingOk(ss, conn, p);
      assert p == Queued;
    case Committing =>
      var p: Progress :| CommittingOk(ss, c, conn, p);
      assert p == Queued;
    case _ =>
  }

  function Took(conn: Conn): Conn
    requires conn.requests != []
  {
    conn.(requests := conn.requests[1..])
  }

  function Refusing(conn: Conn, sent: bool): Conn
    requires conn.requests != []
  {
    Replying(Took(conn), Reply(conn.requests[0].id, Refused, None), sent)
  }

  lemma RefusedPrepared(ss: Sessions, conn: Conn, sent: bool)
    requires conn.requests != [] && Prepared(ss, conn)
    ensures Prepared(ss, Refusing(conn, sent))
  {
  }

  lemma RefusedAdopt(ss: Sessions, conn: Conn, sent: bool)
    requires AdoptingOk(ss, conn, Queued) && conn.handler.pc.Ready?
    ensures AdoptingOk(ss, Refusing(conn, sent), if sent then Answered else Silent)
  {
    RefusedPrepared(ss, conn, sent);
  }

  lemma RefusedSnapshot(ss: Sessions, conn: Conn, sent: bool)
    requires conn.target.pc.Snapshotting? && SnapshottingOk(ss, conn, Queued) && conn.handler.pc.Ready?
    ensures SnapshottingOk(ss, Refusing(conn, sent), if sent then Answered else Silent)
  {
    RefusedPrepared(ss, conn, sent);
  }

  lemma RefusedCommit(ss: Sessions, c: ConnId, conn: Conn, sent: bool)
    requires CommittingOk(ss, c, conn, Queued) && conn.handler.pc.Ready?
    ensures CommittingOk(ss, c, Refusing(conn, sent), if sent then Answered else Silent)
  {
  }

  lemma RefusalServed(ss: Sessions, c: ConnId, conn: Conn, sent: bool)
    requires TargetOk(ss, c, conn) && conn.requests != [] && conn.handler.pc.Ready?
    ensures TargetOk(ss, c, Refusing(conn, sent))
  {
    var t := conn.target;
    if !Indifferent(t) {
      QueuedRequest(ss, c, conn);
      match t.pc
      case Listing => assert ListingOk(Refusing(conn, sent), if sent then Answered else Silent);
      case Adopting => RefusedAdopt(ss, conn, sent);
      case Snapshotting(_, _, _) => RefusedSnapshot(ss, conn, sent);
      case Committing => RefusedCommit(ss, c, conn, sent);
      case _ =>
    }
  }

  lemma ListServed(ss: Sessions, c: ConnId, conn: Conn, order: seq<Name>, h': Handler, sent: bool)
    requires TargetOk(ss, c, conn) && conn.requests != [] && conn.requests[0].ListRequest? && conn.handler.pc.Ready?
    requires NoDup(order) && (if sent then h'.pc.Ready? else h'.pc.Leaving?)
    ensures TargetOk(ss, c, Replying(Took(conn).(handler := h', inventory := Some(order)),
                                     Reply(conn.requests[0].id, Listed(order), None), sent))
  {
    if !Indifferent(conn.target) {
      QueuedRequest(ss, c, conn);
      var conn' := Replying(Took(conn).(handler := h', inventory := Some(order)),
                            Reply(conn.requests[0].id, Listed(order), None), sent);
      assert ListingOk(conn', if sent then Answered else Silent);
    }
  }

  /** adopt begins: the name joins pending and the handler waits. */
  lemma AdoptServed(ss: Sessions, c: ConnId, conn: Conn, h': Handler, a: Adoption)
    requires TargetOk(ss, c, conn) && conn.handler.pc.Ready?
    requires conn.requests != [] && conn.requests[0].AdoptRequest? && conn.requests[0].name !in conn.handler.pending
    requires h'.pc == Stabilizing(conn.requests[0].id, conn.requests[0].name)
    requires h'.pending == conn.handler.pending[conn.requests[0].name := a]
    ensures TargetOk(ss, c, Took(conn).(handler := h'))
  {
    var t := conn.target;
    if !Indifferent(t) {
      QueuedRequest(ss, c, conn);
      var conn' := Took(conn).(handler := h');
      assert t.pc.Adopting?;
      assert Prepared(ss, conn') by {
        assert forall i :: 0 <= i < |t.kept| ==> HeldFor(conn, t.kept[i].name, t.kept[i].sid);
      }
      assert AdoptingOk(ss, conn', Occupied);
    }
  }

  /** A handler waiting on a ticket, or giving one up, serves an adopting target if any that cares. */
  lemma OnlyAdopting(ss: Sessions, c: ConnId, conn: Conn)
    requires TargetOk(ss, c, conn) && !Indifferent(conn.target) && !conn.target.pc.Published?
    requires conn.handler.pc.Stabilizing? || (conn.handler.pc.Resolving? && conn.handler.pc.after.AdoptFailed?)
    ensures conn.target.pc.Adopting? && AdoptingOk(ss, conn, Occupied)
  {
    if conn.target.pc.Adopting? {
      var p: Progress :| AdoptingOk(ss, conn, p);
      assert p == Occupied;
    }
  }

  /** The wait ends in an abort of this one name. */
  lemma GivingUpServed(ss: Sessions, c: ConnId, conn: Conn)
    requires TargetOk(ss, c, conn) && conn.handler.pc.Stabilizing?
    ensures var Stabilizing(id, name) := conn.handler.pc;
            TargetOk(ss, c, WithHandler(conn, Resolving(id, [name], 0, false, false, false, AdoptFailed(name))))
  {
    var t := conn.target;
    if !Indifferent(t) && !t.pc.Published? {
      OnlyAdopting(ss, c, conn);
      var Stabilizing(id, name) := conn.handler.pc;
      var conn' := WithHandler(conn, Resolving(id, [name], 0, false, false, false, AdoptFailed(name)));
      assert Prepared(ss, conn');
      assert AdoptingOk(ss, conn', Occupied);
    }
  }

  /** The wait ends well: meta and descriptor go out, or the handler leaves. */
  lemma AnswerServed(ss: Sessions, c: ConnId, conn: Conn, sid: SessId, alive: bool, sent: bool)
    requires TargetOk(ss, c, conn) && conn.handler.pc.Stabilizing? && HeldFor(conn, conn.handler.pc.name, sid)
    requires sid in ss && alive == Lives(ss[sid])
    ensures var Stabilizing(id, name) := conn.handler.pc;
            TargetOk(ss, c, Replying(WithHandler(conn, if sent then Ready else Leaving),
                                     Reply(id, Adopted(name, sid, alive), if alive then Some(sid) else None), sent))
  {
    var t := conn.target;
    if !Indifferent(t) && !t.pc.Published? {
      OnlyAdopting(ss, c, conn);
      var Stabilizing(id, name) := conn.handler.pc;
      var conn' := Replying(WithHandler(conn, if sent then Ready else Leaving),
                            Reply(id, Adopted(name, sid, alive), if alive then Some(sid) else None), sent);
      assert Prepared(ss, conn');
      assert AdoptingOk(ss, conn', if sent then Answered else Silent);
    }
  }

  lemma SnapshotServed(ss: Sessions, c: ConnId, conn: Conn, screen: seq<byte>, native: bool, sent: bool)
    requires TargetOk(ss, c, conn) && conn.handler.pc.Ready?
    requires conn.requests != [] && conn.requests[0].SnapshotRequest?
    requires var name := conn.requests[0].name;
             name in conn.handler.pending && conn.handler.pending[name].sid in ss
             && (native ==> screen == ss[conn.handler.pending[name].sid].log)
    ensures TargetOk(ss, c, Replying(WithHandler(Took(conn), if sent then Ready else Leaving),
                                     Reply(conn.requests[0].id, Snapshot(screen, native), None), sent))
  {
    var t := conn.target;
    if !Indifferent(t) {
      QueuedRequest(ss, c, conn);
      var conn' := Replying(WithHandler(Took(conn), if sent then Ready else Leaving),
                            Reply(conn.requests[0].id, Snapshot(screen, native), None), sent);
      if t.pc.Snapshotting? {
        assert Prepared(ss, conn');
        assert SnapshottingOk(ss, conn', if sent then Answered else Silent);
      } else {
        assert RetryingOk(conn');
      }
    }
  }

  /** A walk over the requested names begins. */
  lemma BatchServed(ss: Sessions, c: ConnId, conn: Conn)
    requires TargetOk(ss, c, conn) && conn.handler.pc.Ready? && conn.requests != [] && conn.requests[0].BatchRequest?
    ensures var BatchRequest(id, names, commit) := conn.requests[0];
            TargetOk(ss, c, WithHandler(Took(conn), Resolving(id, names, 0, false, false, false, Batch(commit))))
  {
    var t := conn.target;
    if !Indifferent(t) {
      QueuedRequest(ss, c, conn);
      var BatchRequest(id, names, commit) := conn.requests[0];
      var conn' := WithHandler(Took(conn), Resolving(id, names, 0, false, false, false, Batch(commit)));
      assert Prepared(ss, conn');
      assert CommittingOk(ss, c, conn', Occupied);
    }
  }

  lemma ExitServed(ss: Sessions, c: ConnId, conn: Conn, sent: bool)
    requires TargetOk(ss, c, conn) && conn.handler.pc.Ready? && conn.requests != [] && conn.requests[0].ExitRequest?
    ensures TargetOk(ss, c, Replying(WithHandler(Took(conn), Leaving), Reply(conn.requests[0].id, Fine, None), sent))
  {
    if !Indifferent(conn.target) {
      QueuedRequest(ss, c, conn);
    }
  }

  // ------------------------------------------------------------- after the walk

  lemma OnlyCommitting(ss: Sessions, c: ConnId, conn: Conn)
    requires TargetOk(ss, c, conn) && !Indifferent(conn.target) && !conn.target.pc.Published?
    requires conn.handler.pc.Resolving? && conn.handler.pc.after.Batch?
    ensures conn.target.pc.Committing? && CommittingOk(ss, c, conn, Occupied)
  {
    if conn.target.pc.Committing? {
      var p: Progress :| CommittingOk(ss, c, conn, p);
      assert p == Occupied;
    }
  }

  /** One name given up: the others stay held. */
  lemma FailureServed(ss: Sessions, c: ConnId, conn: Conn, sent: bool)
    requires TargetOk(ss, c, conn) && WalkOk(conn.handler)
    requires conn.handler.pc.Resolving? && conn.handler.pc.after.AdoptFailed?
    ensures var h := conn.handler;
            TargetOk(ss, c, Replying(conn.(handler := h.(pc := Ready, pending := h.pending - Names(h.pc.batch))),
                                     Reply(h.pc.id, Refused, None), sent))
  {
    var t := conn.target;
    if !Indifferent(t) && !t.pc.Published? {
      OnlyAdopting(ss, c, conn);
      var h := conn.handler;
      var conn' := Replying(conn.(handler := h.(pc := Ready, pending := h.pending - Names(h.pc.batch))),
                            Reply(h.pc.id, Refused, None), sent);
      assert forall n :: n in Names(h.pc.batch) ==> n == h.pc.after.name;
      assert Prepared(ss, conn') by {
        forall i | 0 <= i < |t.kept| ensures HeldFor(conn', t.kept[i].name, t.kept[i].sid) {
          assert HeldFor(conn, t.kept[i].name, t.kept[i].sid);
        }
      }
      assert AdoptingOk(ss, conn', if sent then Answered else Silent);
    }
  }

  /** The commit's walk is done and its reply sent or lost. */
  lemma CommitServed(ss: Sessions, c: ConnId, conn: Conn, h': Handler, sent: bool)
    requires TargetOk(ss, c, conn) && conn.handler.pc.Resolving? && conn.handler.pc.after.Batch?
    requires if sent then h'.pc.Ready? else h'.pc.Leaving?
    requires CommittingOk(ss, c, conn, Occupied) ==> Granted(ss, c, conn)
    ensures var pc := conn.handler.pc;
            TargetOk(ss, c, Replying(conn.(handler := h'), Reply(pc.id, Resolved(|pc.batch|), None), sent))
  {
    var t := conn.target;
    var pc := conn.handler.pc;
    if !Indifferent(t) && !t.pc.Published? {
      OnlyCommitting(ss, c, conn);
      var conn' := Replying(conn.(handler := h'), Reply(pc.id, Resolved(|pc.batch|), None), sent);
      assert Granted(ss, c, conn');
      assert CommittingOk(ss, c, conn', if sent then Answered else Silent);
    }
  }

  /** Every name of the walk is resolved: every prepared session now belongs to the target. */
  lemma WalkGrants(st: State, c: ConnId)
    requires SourceInv(st) && CanEnd(st, c) && CommittingOk(st.sessions, c, st.conns[c], Occupied)
    ensures Granted(st.sessions, c, st.conns[c])
  {
    var h := st.conns[c].handler;
    var t := st.conns[c].target;
    assert HandlerOk(st, c);
    assert h.pc.batch[..h.pc.done] == h.pc.batch;
    forall i | 0 <= i < |t.kept| ensures Steady(st.sessions, t.kept[i]) && Owned(st.sessions, c, t.kept[i]) {
      var k := t.kept[i];
      assert Steady(st.sessions, k) && HeldFor(st.conns[c], k.name, k.sid);
      assert h.pc.batch[i] == k.name;
      assert PendingName(st, c, k.name);
    }
  }
}
