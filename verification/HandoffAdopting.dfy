/** The target's own steps keep what it knows. */
module HandoffAdopting {
  import opened Basics
  import opened HandoffState
  import opened HandoffSteps
  import opened HandoffInvariant
  import opened HandoffSource

  lemma SendKeeps(ss: Sessions, c: ConnId, conn: Conn)
    requires TargetOk(ss, c, conn) && MaySend(conn.target.pc)
    ensures TargetOk(ss, c, Sent(conn))
  {
    var conn' := Sent(conn);
    var t := conn.target;
    if t.pc.Begin? {
      assert ListingOk(conn', Queued);
    } else if t.pc.Preparing? && !t.skipped {
      assert Prepared(ss, conn) ==> Prepared(ss, conn');
      if t.next < |t.listed| {
        assert AdoptingOk(ss, conn', Queued);
      } else {
        assert CommittingOk(ss, c, conn', Queued);
      }
    }
  }

  lemma SnapshotFails(ss: Sessions, conn: Conn, p: Progress)
    requires conn.target.pc.Snapshotting? && SnapshottingOk(ss, conn, p)
    ensures RetryingOk(CallFailed(conn))
  {
  }

  /** After an error the target gives the attempt up, skips the name, or retries it in vain. */
  lemma FailKeeps(ss: Sessions, c: ConnId, conn: Conn)
    requires TargetOk(ss, c, conn)
    ensures TargetOk(ss, c, CallFailed(conn))
  {
    if conn.target.pc.Snapshotting? && !conn.target.skipped {
      var p: Progress :| SnapshottingOk(ss, conn, p);
      SnapshotFails(ss, conn, p);
    }
  }

  /** A request that never got out leaves its call unanswered. */
  lemma UnsentKeeps(ss: Sessions, c: ConnId, conn: Conn)
    requires TargetOk(ss, c, conn) && conn.requests != []
    ensures TargetOk(ss, c, Unsent(conn))
  {
    var conn' := Unsent(conn);
    var t := conn.target;
    if t.pc.Listing? {
      assert ListingOk(conn', Silent);
    } else if t.pc.Adopting? && !t.skipped {
      assert Prepared(ss, conn) ==> Prepared(ss, conn');
      assert AdoptingOk(ss, conn', Silent);
    } else if t.pc.Snapshotting? && !t.skipped {
      assert Prepared(ss, conn) ==> Prepared(ss, conn');
      assert SnapshottingOk(ss, conn', Silent);
    } else if t.pc.Committing? {
      assert CommittingOk(ss, c, conn', Silent);
    }
  }

  // ------------------------------------------------------------------ receiving

  /** A reply that is read and brings nothing leaves its call unanswered. */
  lemma PoppedListing(conn: Conn)
    requires ListingOk(conn, Answered)
    ensures ListingOk(Popped(conn), Silent)
  {
  }

  lemma PoppedSnapshot(ss: Sessions, conn: Conn)
    requires conn.target.pc.Snapshotting? && SnapshottingOk(ss, conn, Answered)
    ensures SnapshottingOk(ss, Popped(conn), Silent)
  {
  }

  lemma ReceiveListing(ss: Sessions, c: ConnId, conn: Conn, build: Build)
    requires TargetOk(ss, c, conn) && conn.replies != [] && conn.target.pc.Listing?
    ensures TargetOk(ss, c, Received(ss, conn, build))
  {
    var conn' := Received(ss, conn, build);
    var p: Progress :| ListingOk(conn, p);
    PoppedListing(conn);
    if conn'.target.pc.Preparing? {
      assert PreparingOk(ss, conn');
    }
  }

  /** The adopt's answer: its descriptor is the first in the queue, and the snapshot is asked for. */
  lemma AdoptUnderstood(ss: Sessions, conn: Conn)
    requires AdoptingOk(ss, conn, Answered) && conn.replies[0].body.Adopted?
    ensures conn.replies[0].body.alive ==> Popped(conn).target.fds == [conn.replies[0].body.sid]
    ensures SnapshottingOk(ss, AdoptReceived(Popped(conn), conn.replies[0].body), Queued)
  {
    var conn' := AdoptReceived(Popped(conn), conn.replies[0].body);
    assert Prepared(ss, conn) ==> Prepared(ss, conn');
  }

  lemma AdoptReplyRead(ss: Sessions, conn: Conn, build: Build)
    requires AdoptingOk(ss, conn, Answered) && conn.target.pc.Adopting?
    ensures Received(ss, conn, build)
            == if conn.replies[0].body.Adopted? then AdoptReceived(Popped(conn), conn.replies[0].body)
               else Skip(Popped(conn))
  {
  }

  lemma ReceiveAdopting(ss: Sessions, c: ConnId, conn: Conn, build: Build)
    requires TargetOk(ss, c, conn) && conn.replies != [] && conn.target.pc.Adopting?
    ensures TargetOk(ss, c, Received(ss, conn, build))
  {
    if !conn.target.skipped {
      var p: Progress :| AdoptingOk(ss, conn, p);
      AdoptReplyRead(ss, conn, build);
      if conn.replies[0].body.Adopted? {
        AdoptUnderstood(ss, conn);
      }
    }
  }

  /** A pending name's session, as the handler holds it between requests, is what a prepared state needs. */
  lemma HeldIsSteady(st: State, c: ConnId, name: Name, sid: SessId)
    requires SourceInv(st) && c in st.conns && st.conns[c].handler.pc.Ready? && HeldFor(st.conns[c], name, sid)
    ensures sid in st.sessions && st.sessions[sid].name == name && st.sessions[sid].hand == []
  {
    assert HandlerOk(st, c);
    assert PendingName(st, c, name);
    assert SessionOk(st.sessions[sid]);
  }

  /** The session under the snapshot being awaited is nobody's to read. */
  ghost predicate Untouched(ss: Sessions, conn: Conn)
    requires conn.target.pc.Snapshotting?
  {
    var pc := conn.target.pc;
    conn.handler.pc.Ready? && HeldFor(conn, pc.name, pc.sid) ==>
      pc.sid in ss && ss[pc.sid].name == pc.name && ss[pc.sid].hand == []
  }

  lemma SnapshotUnderstood(ss: Sessions, conn: Conn, build: Build)
    requires conn.target.pc.Snapshotting? && SnapshottingOk(ss, conn, Answered) && Untouched(ss, conn)
    requires conn.replies[0].body.Snapshot? && !build.Unusable? && (build.Native? ==> conn.replies[0].body.native)
    ensures var pc := conn.target.pc;
            PreparingOk(ss, Keep(Popped(conn), LogEnd(ss, pc.sid), pc.name, pc.sid, pc.master,
                                 conn.replies[0].body.screen, build))
  {
    var pc := conn.target.pc;
    var conn' := Keep(Popped(conn), LogEnd(ss, pc.sid), pc.name, pc.sid, pc.master, conn.replies[0].body.screen, build);
    if Live(conn.handler) {
      assert Steady(ss, conn'.target.kept[|conn.target.kept|]);
      assert Prepared(ss, conn');
    }
  }

  lemma ReceiveSnapshot(ss: Sessions, c: ConnId, conn: Conn, build: Build)
    requires TargetOk(ss, c, conn) && conn.replies != [] && conn.target.pc.Snapshotting? && Untouched(ss, conn)
    ensures TargetOk(ss, c, Received(ss, conn, build))
  {
    var conn' := Received(ss, conn, build);
    if !conn.target.skipped {
      var p: Progress :| SnapshottingOk(ss, conn, p);
      if conn'.target.pc.Preparing? {
        SnapshotUnderstood(ss, conn, build);
      } else if conn'.target.pc.Retrying? {
        PoppedSnapshot(ss, conn);
        SnapshotFails(ss, Popped(conn), Silent);
      }
    }
  }

  lemma CommitUnderstood(ss: Sessions, c: ConnId, conn: Conn)
    requires CommittingOk(ss, c, conn, Answered) && conn.replies[0].body.Resolved?
    ensures PublishedOk(ss, c,
                        Now(Popped(conn), conn.target.(pc := Published, kept := TakersStarted(conn.target.kept))))
  {
    var t := conn.target;
    var kept := TakersStarted(t.kept);
    forall i | 0 <= i < |t.kept| ensures Owned(ss, c, kept[i]) {
      assert Steady(ss, t.kept[i]) && Owned(ss, c, t.kept[i]);
    }
  }

  lemma ReceiveCommitting(ss: Sessions, c: ConnId, conn: Conn, build: Build)
    requires TargetOk(ss, c, conn) && conn.replies != [] && conn.target.pc.Committing?
    ensures TargetOk(ss, c, Received(ss, conn, build))
  {
    var conn' := Received(ss, conn, build);
    if conn'.target.pc.Published? {
      var p: Progress :| CommittingOk(ss, c, conn, p);
      CommitUnderstood(ss, c, conn);
    }
  }

  /** The second adopt of a name that is still pending is never answered with a session. */
  lemma ReceiveRetrying(ss: Sessions, c: ConnId, conn: Conn, build: Build)
    requires TargetOk(ss, c, conn) && conn.replies != [] && conn.target.pc.Retrying?
    ensures TargetOk(ss, c, Received(ss, conn, build))
    ensures !conn.target.skipped ==> Received(ss, conn, build) == Skip(Popped(conn))
  {
  }

  lemma ReceiveHeld(st: State, c: ConnId, build: Build)
    requires SourceInv(st) && CanReceive(st, c) && TargetOk(st.sessions, c, st.conns[c])
    requires st.conns[c].target.pc.Snapshotting?
    ensures TargetOk(st.sessions, c, Received(st.sessions, st.conns[c], build))
  {
    var conn := st.conns[c];
    if conn.handler.pc.Ready? && HeldFor(conn, conn.target.pc.name, conn.target.pc.sid) {
      HeldIsSteady(st, c, conn.target.pc.name, conn.target.pc.sid);
    }
    ReceiveSnapshot(st.sessions, c, conn, build);
  }

  lemma ReceivePublished(ss: Sessions, c: ConnId, conn: Conn, build: Build)
    requires TargetOk(ss, c, conn) && conn.replies != [] && conn.target.pc.Published?
    ensures TargetOk(ss, c, Received(ss, conn, build))
  {
    assert Received(ss, conn, build) == Popped(conn);
  }

  /** A target that awaits nothing in particular. */
  lemma ReceiveIdle(ss: Sessions, c: ConnId, conn: Conn, build: Build)
    requires TargetOk(ss, c, conn) && conn.replies != []
    requires var pc := conn.target.pc;
             !pc.Listing? && !pc.Adopting? && !pc.Snapshotting? && !pc.Committing? && !pc.Retrying? && !pc.Published?
    ensures TargetOk(ss, c, Received(ss, conn, build))
  {
  }

  lemma ReceiveKeeps(st: State, c: ConnId, build: Build)
    requires SourceInv(st) && CanReceive(st, c) && TargetOk(st.sessions, c, st.conns[c])
    ensures TargetOk(st.sessions, c, Received(st.sessions, st.conns[c], build))
  {
    var ss, conn := st.sessions, st.conns[c];
    match conn.target.pc
    case Listing => ReceiveListing(ss, c, conn, build);
    case Adopting => ReceiveAdopting(ss, c, conn, build);
    case Snapshotting(_, _, _) => ReceiveHeld(st, c, build);
    case Committing => ReceiveCommitting(ss, c, conn, build);
    case Retrying => ReceiveRetrying(ss, c, conn, build);
    case Published => ReceivePublished(ss, c, conn, build);
    case _ => ReceiveIdle(ss, c, conn, build);
  }

  // ------------------------------------------------------------ reading the PTY

  /** Two prepared sessions of one target are different sessions. */
  lemma KeptDistinct(ss: Sessions, c: ConnId, conn: Conn, i: nat, j: nat)
    requires PublishedOk(ss, c, conn) && i < j < |conn.target.kept|
    ensures conn.target.kept[i].sid != conn.target.kept[j].sid
  {
    assert Owned(ss, c, conn.target.kept[i]) && Owned(ss, c, conn.target.kept[j]);
  }

  /** One owned session and its taker move together; the others stay owned. */
  lemma TakerKeeps(ss: Sessions, c: ConnId, conn: Conn, i: nat, s': Session, k': Kept)
    requires conn.target.pc.Published? && TargetOk(ss, c, conn) && i < |conn.target.kept|
    requires conn.target.kept[i].sid in ss
    requires k'.name == conn.target.kept[i].name && k'.sid == conn.target.kept[i].sid
    requires Owned(ss[k'.sid := s'], c, k')
    ensures TargetOk(ss[k'.sid := s'], c, conn.(target := conn.target.(kept := conn.target.kept[i := k'])))
  {
    var conn' := conn.(target := conn.target.(kept := conn.target.kept[i := k']));
    forall j | 0 <= j < |conn'.target.kept| ensures Owned(ss[k'.sid := s'], c, conn'.target.kept[j]) {
      if j != i {
        assert Owned(ss, c, conn.target.kept[j]);
        if j < i {
          KeptDistinct(ss, c, conn, j, i);
        } else {
          KeptDistinct(ss, c, conn, i, j);
        }
      }
    }
  }

  lemma TargetReadKeeps(st: State, c: ConnId, i: nat, n: nat)
    requires CanTargetRead(st, c, i, n) && TargetOk(st.sessions, c, st.conns[c])
    ensures TargetOk(TargetRead(st, c, i, n).sessions, c, TargetRead(st, c, i, n).conns[c])
  {
    var k := st.conns[c].target.kept[i];
    assert Owned(st.sessions, c, k);
    var s := st.sessions[k.sid];
    TakerKeeps(st.sessions, c, st.conns[c], i, ReadFromPty(s, n), k.(taker := Recording(s.queue[..n])));
  }

  lemma TargetRecordKeeps(st: State, c: ConnId, i: nat, ok: bool)
    requires CanTargetRecord(st, c, i) && TargetOk(st.sessions, c, st.conns[c])
    ensures TargetOk(TargetRecorded(st, c, i, ok).sessions, c, TargetRecorded(st, c, i, ok).conns[c])
  {
    var st' := TargetRecorded(st, c, i, ok);
    var k := st.conns[c].target.kept[i];
    assert Owned(st.sessions, c, k);
    TakerKeeps(st.sessions, c, st.conns[c], i, st'.sessions[k.sid], st'.conns[c].target.kept[i]);
  }

  lemma TargetStopKeeps(st: State, c: ConnId, i: nat)
    requires CanTargetStop(st, c, i) && TargetOk(st.sessions, c, st.conns[c])
    ensures TargetOk(st.sessions, c, TargetStopped(st, c, i).conns[c])
  {
    var k := st.conns[c].target.kept[i];
    assert Owned(st.sessions, c, k);
    TakerKeeps(st.sessions, c, st.conns[c], i, st.sessions[k.sid], k.(taker := Stopped));
    assert st.sessions[k.sid := st.sessions[k.sid]] == st.sessions;
  }

  /** What the target reads and records stays accounted for on the source side. */
  lemma TargetReadSource(st: State, c: ConnId, i: nat, n: nat)
    requires SourceInv(st) && CanTargetRead(st, c, i, n) && TargetOk(st.sessions, c, st.conns[c])
    ensures SourceInv(TargetRead(st, c, i, n))
  {
    var st' := TargetRead(st, c, i, n);
    var k := st.conns[c].target.kept[i];
    assert Owned(st.sessions, c, k);
    var s := st.sessions[k.sid];
    assert SessionOk(s);
    ReadBytes(s, n);
    GivenSwap(st, k.sid, ReadFromPty(s, n));
    WireSource(WithSession(st, k.sid, ReadFromPty(s, n)), c, st'.conns[c]);
  }

  lemma TargetRecordSource(st: State, c: ConnId, i: nat, ok: bool)
    requires SourceInv(st) && CanTargetRecord(st, c, i) && TargetOk(st.sessions, c, st.conns[c])
    ensures SourceInv(TargetRecorded(st, c, i, ok))
  {
    var st' := TargetRecorded(st, c, i, ok);
    var k := st.conns[c].target.kept[i];
    assert Owned(st.sessions, c, k);
    var s := st.sessions[k.sid];
    assert SessionOk(s);
    RecordedBytes(s, k.taker.chunk, ok);
    GivenSwap(st, k.sid, st'.sessions[k.sid]);
    WireSource(WithSession(st, k.sid, st'.sessions[k.sid]), c, st'.conns[c]);
  }

  /** Bytes of a session that was given away and resolved may move. */
  lemma GivenSwap(st: State, sid: SessId, s': Session)
    requires SourceInv(st) && sid in st.sessions
    requires var s := st.sessions[sid];
             && s.given.Some? && s.migration.None? && SessionOk(s')
             && s' == s.(queue := s'.queue, hand := s'.hand, lost := s'.lost, log := s'.log, logFailed := s'.logFailed)
    ensures SourceInv(WithSession(st, sid, s'))
  {
    forall c, name | c in st.conns && name in st.conns[c].handler.pending
                     && st.conns[c].handler.pending[name].sid == sid
      ensures st.conns[c].handler.pending[name].ticket < |s'.tickets|
      ensures Phase(st.conns[c].handler, c, name, s', st.conns[c].handler.pending[name].ticket)
    {
      assert HandlerOk(st, c);
      assert PendingName(st, c, name);
    }
    SessionSwap(st, sid, s');
  }
}
