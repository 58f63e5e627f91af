/** Every step keeps what the source side of the handoff promises. */
module HandoffKeeps {
  import opened Basics
  import opened HandoffState
  import opened HandoffSteps
  import opened HandoffInvariant
  import opened HandoffSource
  import opened HandoffHandler
  import opened HandoffAdopting

  lemma ConnectHandler(st: State, c: ConnId, conn': Conn, d: ConnId)
    requires c !in st.conns && d in st.conns && HandlerOk(st, d)
    ensures HandlerOk(WithConn(st, c, conn'), d)
  {
    assert forall name :: name in st.conns[d].handler.pending ==>
        PendingName(st, d, name) ==> PendingName(WithConn(st, c, conn'), d, name);
  }

  lemma ConnectLinked(st: State, c: ConnId, conn': Conn, sid: SessId)
    requires c !in st.conns && sid in st.sessions && Linked(st, sid)
    ensures Linked(WithConn(st, c, conn'), sid)
  {
  }

  lemma ConnectWalk(st: State, c: ConnId, conn': Conn, name: Name)
    requires c !in st.conns && name in st.hub && st.hub[name] in st.sessions && GivenInWalk(st, name)
    ensures GivenInWalk(WithConn(st, c, conn'), name)
  {
  }

  lemma ConnectFresh(st: State, c: ConnId, foreign: bool)
    requires HubOk(st) && c !in st.conns
    ensures HubOk(WithConn(st, c, NewConn(foreign))) && HandlerOk(WithConn(st, c, NewConn(foreign)), c)
  {
  }

  lemma ConnectSource(st: State, c: ConnId, foreign: bool)
    requires SourceInv(st) && c !in st.conns
    ensures SourceInv(WithConn(st, c, NewConn(foreign)))
  {
    var st' := WithConn(st, c, NewConn(foreign));
    ConnectFresh(st, c, foreign);
    forall sid | sid in st'.sessions ensures Linked(st', sid) {
      ConnectLinked(st, c, NewConn(foreign), sid);
    }
    forall name | name in st'.hub ensures GivenInWalk(st', name) {
      ConnectWalk(st, c, NewConn(foreign), name);
    }
    forall d | d in st'.conns ensures HandlerOk(st', d) {
      if d != c {
        ConnectHandler(st, c, NewConn(foreign), d);
      }
    }
  }

  lemma CrashSource(st: State)
    requires SourceInv(st)
    ensures SourceInv(st.(up := false))
  {
    var st' := st.(up := false);
    assert forall sid :: sid in st.sessions ==> Linked(st, sid) ==> Linked(st', sid);
    assert forall name :: name in st.hub ==> GivenInWalk(st, name) ==> GivenInWalk(st', name);
    forall d | d in st'.conns ensures HandlerOk(st', d) {
      assert HandlerOk(st, d);
      assert forall name :: name in st.conns[d].handler.pending ==>
          PendingName(st, d, name) ==> PendingName(st', d, name);
    }
  }

  lemma ClientSource(st: State, step: Step, st': State)
    requires SourceInv(st) && ClientStep(st, step, st')
    ensures SourceInv(st')
  {
    if step.ChildWrites? {
      ChildSource(st, step.sid, step.data);
    } else if step.StartSession? {
      StartSource(st, step.name, step.sid);
    } else if step.DeleteSession? {
      UnhubSource(st, st.hub - {step.name}, st.closed);
    } else if step.CloseHub? {
      UnhubSource(st, map[], true);
    } else if step.ResizeDrains? {
      ResizeSource(st, step.name, step.n, step.ok);
    } else {
      CrashSource(st);
    }
  }

  lemma RequestSource(st: State, step: Step, st': State)
    requires SourceInv(st) && RequestStep(st, step, st')
    ensures SourceInv(st')
  {
    if step.HandleList? {
      ListSource(st, step.c, step.order, step.sent);
    } else if step.HandleAdopt? {
      AdoptSource(st, step.c, step.sent);
    } else if step.HandleSnapshot? {
      SnapshotSource(st, step.c, step.native, step.sent);
    } else if step.HandleBatch? {
      BatchSource(st, step.c, step.sent);
    } else if step.HandleExit? {
      ExitSource(st, step.c, step.sent);
    } else {
      WireSource(st, step.c, st'.conns[step.c]);
    }
  }

  lemma WaitSource(st: State, step: Step, st': State)
    requires SourceInv(st) && WalkStep(st, step, st') && (step.AdoptSettled? || step.AdoptTimesOut?)
    ensures SourceInv(st')
  {
    if step.AdoptSettled? {
      AdoptAnsweredSource(st, step.c, step.sent);
    } else {
      AdoptExpiredSource(st, step.c);
    }
  }

  lemma WalkSource(st: State, step: Step, st': State)
    requires SourceInv(st) && WalkStep(st, step, st')
    ensures SourceInv(st')
  {
    if step.AdoptSettled? || step.AdoptTimesOut? {
      WaitSource(st, step, st');
    } else if step.Chooses? {
      ChosenSource(st, step.c);
    } else if step.Finishes? {
      FinishedSource(st, step.c);
    } else if step.BatchEnds? {
      EndedSource(st, step.c, step.sent);
    } else if step.Disconnects? {
      LeaveSource(st, step.c);
    } else {
      UnwindSource(st, step.c, step.order);
    }
  }

  /** Steps of a target, or of another client, on the wire alone. */
  predicate OfWire(step: Step) {
    || step.TargetSends? || step.TargetReceives? || step.TargetWriteFails? || step.TargetCallFails? || step.TargetStops?
    || step.TargetCrashes? || step.ForeignSends? || step.ForeignReceives?
  }

  /** The connection of a wire step after it. */
  function Wired(st: State, step: Step): Conn
    requires OfWire(step) && step.c in st.conns
  {
    var conn := st.conns[step.c];
    if step.TargetSends? && MaySend(conn.target.pc) then Sent(conn)
    else if step.TargetReceives? && conn.replies != [] then Received(st.sessions, conn, step.build)
    else if step.TargetWriteFails? && !conn.target.pc.Foreign? && conn.requests != [] then Unsent(conn)
    else if step.TargetCallFails? then CallFailed(conn)
    else if step.TargetStops? && CanTargetStop(st, step.c, step.i) then TargetStopped(st, step.c, step.i).conns[step.c]
    else if step.TargetCrashes? && !conn.target.pc.Foreign? then Now(conn, conn.target.(pc := Crashed))
    else if step.ForeignSends? && conn.target.pc.Foreign? then conn.(requests := conn.requests + [step.request])
    else if step.ForeignReceives? && conn.target.pc.Foreign? && conn.replies != [] then
      conn.(replies := conn.replies[1..])
    else conn
  }

  lemma WireOnly(st: State, step: Step, st': State)
    requires TargetStep(st, step, st') && OfWire(step)
    ensures step.c in st.conns && st' == WithConn(st, step.c, Wired(st, step))
  {
  }

  lemma SentHandler(conn: Conn)
    requires MaySend(conn.target.pc)
    ensures Sent(conn).handler == conn.handler
  {
  }

  lemma FailedHandler(conn: Conn)
    ensures CallFailed(conn).handler == conn.handler
  {
  }

  lemma ReceivedHandler(ss: Sessions, conn: Conn, build: Build)
    requires conn.replies != []
    ensures Received(ss, conn, build).handler == conn.handler
  {
    FailedHandler(Popped(conn));
  }

  lemma WireHandler(st: State, step: Step)
    requires OfWire(step) && step.c in st.conns
    ensures Wired(st, step).handler == st.conns[step.c].handler
  {
    var conn := st.conns[step.c];
    if MaySend(conn.target.pc) {
      SentHandler(conn);
    }
    if step.TargetReceives? && conn.replies != [] {
      ReceivedHandler(st.sessions, conn, step.build);
    }
    FailedHandler(conn);
  }

  lemma TargetSource(st: State, step: Step, st': State)
    requires SourceInv(st) && TargetInv(st) && TargetStep(st, step, st')
    ensures SourceInv(st')
  {
    if step.Connect? {
      ConnectSource(st, step.c, step.foreign);
    } else if step.TargetReads? {
      TargetReadSource(st, step.c, step.i, step.n);
    } else if step.TargetRecords? {
      TargetRecordSource(st, step.c, step.i, step.ok);
    } else {
      WireOnly(st, step, st');
      WireHandler(st, step);
      WireSource(st, step.c, Wired(st, step));
    }
  }

  // ------------------------------------------------------------ what steps leave alone

  /** The list is granted: its connection's inventory is the hub as it is, and the hub is locked. */
  ghost predicate Grants(st: State, step: Step, st': State)
    requires step.HandleList?
  {
    && NoDup(step.order) && Names(step.order) == st.hub.Keys && st.lock.None?
    && st'.lock == Some(step.c) && step.c in st'.conns && st'.conns[step.c].inventory == Some(step.order)
  }

  lemma RequestOnly(st: State, step: Step, st': State)
    requires RequestStep(st, step, st') && !step.HandleAdopt?
    ensures Handles(st, st', step.c) && st'.sessions == st.sessions && st'.hub == st.hub
    ensures Serves(st, st', step.c) || (step.HandleList? && Grants(st, step, st'))
  {
  }

  lemma WalkOnly(st: State, step: Step, st': State)
    requires WalkStep(st, step, st') && !step.Chooses? && !step.Finishes?
    ensures Serves(st, st', step.c) && st'.sessions == st.sessions && (step.BatchEnds? || st'.hub == st.hub)
  {
  }

  /** Of a handler's steps, only beginning, deciding and finishing a migration change a session. */
  lemma HandlerOnly(st: State, step: Step, st': State)
    requires HandlerStep(st, step, st') && !step.HandleAdopt? && !step.Chooses? && !step.Finishes?
    ensures Handles(st, st', step.c) && st'.sessions == st.sessions
  {
    if OfWalk(step) {
      WalkOnly(st, step, st');
    } else {
      RequestOnly(st, step, st');
    }
  }

  /** Of a handler's steps, only a list sets the inventory, to the hub as it then is. */
  lemma HandlerInventory(st: State, step: Step, st': State)
    requires HandlerStep(st, step, st')
    ensures Handles(st, st', step.c)
    ensures || st'.conns[step.c].inventory == st.conns[step.c].inventory
            || (step.HandleList? && Grants(st, step, st'))
  {
    if step.HandleAdopt? || step.Chooses? || step.Finishes? {
      assert Serves(st, st', step.c);
    } else if OfWalk(step) {
      WalkOnly(st, step, st');
    } else {
      RequestOnly(st, step, st');
    }
  }

  lemma CopierOnly(st: State, step: Step, st': State)
    requires CopierMoves(st, step, st')
    ensures st'.conns == st.conns && st'.hub == st.hub
  {
  }

  lemma ClientOnly(st: State, step: Step, st': State)
    requires ClientStep(st, step, st')
    ensures st'.conns == st.conns && (st.lock.Some? ==> st'.hub == st.hub)
  {
    if step.ResizeDrains? {
      ResizedOnly(st, step.name, step.n, step.ok);
    }
  }

  lemma ResizedOnly(st: State, name: Name, n: nat, ok: bool)
    requires CanResize(st, name, n)
    ensures Resized(st, name, n, ok).conns == st.conns && Resized(st, name, n, ok).hub == st.hub
  {
  }

  lemma TargetReadOnly(st: State, c: ConnId, i: nat, n: nat)
    requires CanTargetRead(st, c, i, n)
    ensures var st' := TargetRead(st, c, i, n);
            var sid := st.conns[c].target.kept[i].master.value;
            && Touches(st, st', c) && st'.conns[c].inventory == st.conns[c].inventory
            && sid in st'.sessions && st'.sessions == st.sessions[sid := st'.sessions[sid]]
  {
  }

  lemma TargetRecordOnly(st: State, c: ConnId, i: nat, ok: bool)
    requires CanTargetRecord(st, c, i)
    ensures var st' := TargetRecorded(st, c, i, ok);
            var sid := st.conns[c].target.kept[i].sid;
            && Touches(st, st', c) && st'.conns[c].inventory == st.conns[c].inventory
            && sid in st'.sessions && st'.sessions == st.sessions[sid := st'.sessions[sid]]
  {
  }

  lemma WireInventory(st: State, step: Step)
    requires OfWire(step) && step.c in st.conns
    ensures Wired(st, step).inventory == st.conns[step.c].inventory
  {
    var conn := st.conns[step.c];
    if step.TargetReceives? && conn.replies != [] {
      ReceivedInventory(st.sessions, conn, step.build);
    }
  }

  lemma ReceivedInventory(ss: Sessions, conn: Conn, build: Build)
    requires conn.replies != []
    ensures Received(ss, conn, build).inventory == conn.inventory
  {
  }
}
