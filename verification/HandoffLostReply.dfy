/**
  Two runs that differ in one step. In one the commit's answer is lost: the
  source has let go, the target gives up, nobody owns the session. In the
  other it arrives, and the target owns the session.
 */
module HandoffLostReply {
  import opened Basics
  import opened HandoffState
  import opened HandoffSteps
  import opened HandoffTheorems
  import opened HandoffOwnership

  lemma NextAt(run: seq<State>, steps: seq<Step>, step: Step, st': State, j: nat)
    requires IsRun(run, steps) && Next(run[|steps|], step, st') && j <= |steps|
    ensures Next((run + [st'])[j], (steps + [step])[j], (run + [st'])[j + 1])
  {
    if j < |steps| {
      assert (run + [st'])[j] == run[j] && (steps + [step])[j] == steps[j] && (run + [st'])[j + 1] == run[j + 1];
    }
  }

  lemma RunGoesOn(run: seq<State>, steps: seq<Step>, step: Step, st': State)
    requires IsRun(run, steps) && Next(run[|steps|], step, st')
    ensures IsRun(run + [st'], steps + [step])
  {
    forall j | 0 <= j < |steps + [step]| ensures Next((run + [st'])[j], (steps + [step])[j], (run + [st'])[j + 1]) {
      NextAt(run, steps, step, st', j);
    }
  }

  lemma RunTo(st: State) returns (run: seq<State>, steps: seq<Step>)
    requires Reachable(st)
    ensures IsRun(run, steps) && run[|steps|] == st
  {
    var run0, steps0 :| IsRun(run0, steps0) && st in run0;
    var i :| 0 <= i < |run0| && run0[i] == st;
    run, steps := run0[..i + 1], steps0[..i];
  }

  /** A run that reaches st and goes on by two steps. */
  lemma TwoMore(st: State, step: Step, st': State, last: Step, end: State) returns (run: seq<State>, steps: seq<Step>)
    requires Reachable(st) && Next(st, step, st') && Next(st', last, end)
    ensures IsRun(run, steps) && |steps| >= 2
    ensures run[|steps| - 2] == st && run[|steps| - 1] == st' && run[|steps|] == end
    ensures steps[|steps| - 2] == step && steps[|steps| - 1] == last
  {
    run, steps := RunTo(st);
    RunGoesOn(run, steps, step, st');
    run, steps := run + [st'], steps + [step];
    RunGoesOn(run, steps, last, end);
    run, steps := run + [end], steps + [last];
  }

  lemma ReachableNext(st: State, step: Step, st': State)
    requires Reachable(st) && Next(st, step, st')
    ensures Reachable(st')
  {
    var run, steps := RunTo(st);
    RunGoesOn(run, steps, step, st');
    assert st' in run + [st'];
  }

  // One session "a" and one connection, both numbered 0.

  function At(hub: map<Name, SessId>, lock: Option<ConnId>, s: Session, conn: Conn): State {
    State(true, false, hub, lock, map[0 := s], map[0 := conn], false, false)
  }

  /** The session as the handoff goes on. */
  function Stage(tickets: seq<Ticket>, current: Option<nat>, finished: nat, given: Option<ConnId>,
                 copier: Copier): Session {
    NewSession("a").(tickets := tickets, migration := current, gate := current, finished := finished,
                     migrated := given.Some?, given := given, copier := copier)
  }

  function Undecided(stable: bool): seq<Ticket> {
    [Ticket(true, stable, false, None, false, 0)]
  }

  function Decided(stopped: bool): seq<Ticket> {
    [Ticket(true, true, false, Some(true), stopped, 0)]
  }

  function Aim(pc: TargetPc, nextId: nat, next: nat, kept: seq<Kept>): Target {
    Target(pc, nextId, ["a"], next, kept, false, [])
  }

  function Link(pc: HandlerPc, pending: map<Name, Adoption>, requests: seq<Request>, replies: seq<Reply>,
                target: Target): Conn {
    Conn(Handler(pc, true, pending), requests, replies, target, Some(["a"]))
  }

  const HUB: map<Name, SessId> := map["a" := 0]
  const FREE: Session := NewSession("a")
  const ASKED: Session := Stage(Undecided(false), Some(0), 0, None, Running)
  const STABLE: Session := Stage(Undecided(true), Some(0), 0, None, Awaiting(0, true))
  const KEPT: Kept := Kept("a", 0, Some(0), true, 0, 0, [], Idle)
  const HELD: map<Name, Adoption> := map["a" := Adoption(0, 0)]
  const ASKING: Conn :=
    NewConn(false).(requests := [ListRequest(1)], target := Target(Listing, 2, [], 0, [], false, []))
  const ANSWERED: Conn := Link(Ready, map[], [], [Reply(1, Listed(["a"]), None)], ASKING.target)
  const LISTED: Conn := Link(Ready, map[], [], [], Aim(Preparing, 2, 0, []))
  const WANTING: Conn := Link(Ready, map[], [AdoptRequest(2, "a")], [], Aim(Adopting, 3, 0, []))
  const WAITING: Conn := Link(Stabilizing(2, "a"), HELD, [], [], Aim(Adopting, 3, 0, []))
  const ADOPTED: Conn := Link(Ready, HELD, [], [Reply(2, Adopted("a", 0, true), Some(0))], Aim(Adopting, 3, 0, []))
  const LOOKING: Conn := Link(Ready, HELD, [SnapshotRequest(3, "a")], [], Aim(Snapshotting("a", 0, Some(0)), 4, 0, []))
  const SHOWN: Conn := Link(Ready, HELD, [], [Reply(3, Snapshot([], true), None)],
                            Aim(Snapshotting("a", 0, Some(0)), 4, 0, []))
  const PREPARED: Conn := Link(Ready, HELD, [], [], Aim(Preparing, 4, 1, [KEPT]))
  const COMMITTING: Conn := Link(Ready, HELD, [BatchRequest(4, ["a"], true)], [], Aim(Committing, 5, 1, [KEPT]))

  const GIVEN: Session := Stage(Decided(false), Some(0), 0, Some(0), Awaiting(0, true))
  const LEFT: Session := Stage(Decided(true), Some(0), 0, Some(0), Exiting)
  const GONE: Session := Stage(Decided(true), None, 1, Some(0), Exiting)

  function Walking(done: nat, chosen: bool): Conn {
    Link(Resolving(4, ["a"], done, chosen, chosen, false, Batch(true)), HELD, [], [], COMMITTING.target)
  }

  // ------------------------------------------------------ steps of these states

  lemma ConnSet(hub: map<Name, SessId>, lock: Option<ConnId>, s: Session, conn: Conn, conn': Conn)
    ensures WithConn(At(hub, lock, s, conn), 0, conn') == At(hub, lock, s, conn')
  {
    assert map[0 := conn][0 := conn'] == map[0 := conn'];
  }

  lemma SessionSet(hub: map<Name, SessId>, lock: Option<ConnId>, s: Session, conn: Conn, s': Session)
    ensures WithSession(At(hub, lock, s, conn), 0, s') == At(hub, lock, s', conn)
  {
    assert map[0 := s][0 := s'] == map[0 := s'];
  }

  /** The target makes its next call. */
  lemma TargetCalls(hub: map<Name, SessId>, lock: Option<ConnId>, s: Session, conn: Conn, conn': Conn)
    requires Reachable(At(hub, lock, s, conn)) && MaySend(conn.target.pc) && Sent(conn) == conn'
    ensures Reachable(At(hub, lock, s, conn'))
  {
    ConnSet(hub, lock, s, conn, conn');
    ReachableNext(At(hub, lock, s, conn), TargetSends(0), At(hub, lock, s, conn'));
  }

  lemma ReadNext(hub: map<Name, SessId>, lock: Option<ConnId>, s: Session, conn: Conn, conn': Conn)
    requires !conn.target.pc.Foreign? && !conn.target.pc.Crashed? && conn.replies != []
    requires Received(map[0 := s], conn, Native) == conn'
    ensures Next(At(hub, lock, s, conn), TargetReceives(0, Native), At(hub, lock, s, conn'))
  {
    ConnSet(hub, lock, s, conn, conn');
  }

  /** The target reads a reply. */
  lemma TargetReadsReply(s: Session, conn: Conn, conn': Conn)
    requires Reachable(At(HUB, Some(0), s, conn)) && ReceivedBy(s, conn) == Some(conn')
    requires !conn.target.pc.Foreign? && !conn.target.pc.Crashed?
    ensures Reachable(At(HUB, Some(0), s, conn'))
  {
    ReadNext(HUB, Some(0), s, conn, conn');
    ReachableNext(At(HUB, Some(0), s, conn), TargetReceives(0, Native), At(HUB, Some(0), s, conn'));
  }

  function ReceivedBy(s: Session, conn: Conn): Option<Conn> {
    if conn.replies == [] then None else Some(Received(map[0 := s], conn, Native))
  }

  /** The copy loop steps. */
  lemma CopierGoesOn(s: Session, conn: Conn, step: Step, s': Session)
    requires Reachable(At(HUB, Some(0), s, conn)) && IsCopierStep(step) && step.sid == 0
    requires CopierStep(s, step) == Some(s')
    ensures Reachable(At(HUB, Some(0), s', conn))
  {
    SessionSet(HUB, Some(0), s, conn, s');
    ReachableNext(At(HUB, Some(0), s, conn), step, At(HUB, Some(0), s', conn));
  }

  // ------------------------------------------------------------- up to the list

  lemma FirstSession()
    ensures Started(INITIAL, "a", 0) == INITIAL.(hub := HUB, sessions := map[0 := FREE])
    ensures WithConn(Started(INITIAL, "a", 0), 0, NewConn(false)) == At(HUB, None, FREE, NewConn(false))
  {
    assert map[]["a" := 0] == HUB && map[][0 := FREE] == map[0 := FREE];
    assert map[][0 := NewConn(false)] == map[0 := NewConn(false)];
  }

  lemma SessionStarts()
    ensures Reachable(Started(INITIAL, "a", 0))
  {
    assert IsRun([INITIAL], []) && INITIAL in [INITIAL];
    ReachableNext(INITIAL, StartSession("a", 0), Started(INITIAL, "a", 0));
  }

  lemma Starts()
    ensures Reachable(At(HUB, None, FREE, NewConn(false)))
  {
    FirstSession();
    SessionStarts();
    ReachableNext(Started(INITIAL, "a", 0), Connect(0, false), At(HUB, None, FREE, NewConn(false)));
  }

  lemma Asks()
    requires Reachable(At(HUB, None, FREE, NewConn(false)))
    ensures Reachable(At(HUB, None, FREE, ASKING))
  {
    assert [] + [ListRequest(1)] == [ListRequest(1)];
    TargetCalls(HUB, None, FREE, NewConn(false), ASKING);
  }

  lemma ListsAll()
    ensures CanList(At(HUB, None, FREE, ASKING), 0, ["a"])
    ensures ListedState(At(HUB, None, FREE, ASKING), 0, ["a"], true) == At(HUB, Some(0), FREE, ANSWERED)
  {
    assert ["a"][0] in Names(["a"]);
    assert Names(["a"]) == HUB.Keys;
    assert !SomeLogFailed(At(HUB, None, FREE, ASKING));
    assert [ListRequest(1)][1..] == [] && [] + [Reply(1, Listed(["a"]), None)] == [Reply(1, Listed(["a"]), None)];
    ConnSet(HUB, None, FREE, ASKING, ANSWERED);
  }

  lemma Lists()
    requires Reachable(At(HUB, None, FREE, ASKING))
    ensures Reachable(At(HUB, Some(0), FREE, ANSWERED))
  {
    ListsAll();
    ReachableNext(At(HUB, None, FREE, ASKING), HandleList(0, ["a"], true), At(HUB, Some(0), FREE, ANSWERED));
  }

  lemma ListRead()
    ensures Received(map[0 := FREE], ANSWERED, Native) == LISTED
  {
    assert ANSWERED.replies[1..] == [];
  }

  // ---------------------------------------------------------------- the adoption

  lemma Wants()
    requires Reachable(At(HUB, Some(0), FREE, ANSWERED))
    ensures Reachable(At(HUB, Some(0), FREE, WANTING))
  {
    ListRead();
    TargetReadsReply(FREE, ANSWERED, LISTED);
    assert [] + [AdoptRequest(2, "a")] == [AdoptRequest(2, "a")];
    TargetCalls(HUB, Some(0), FREE, LISTED, WANTING);
  }

  lemma AdoptBegins()
    ensures CanAdopt(At(HUB, Some(0), FREE, WANTING), 0)
    ensures AdoptBegun(At(HUB, Some(0), FREE, WANTING), 0, true) == At(HUB, Some(0), ASKED, WAITING)
  {
    assert [AdoptRequest(2, "a")][1..] == [] && [] + Undecided(false) == Undecided(false);
    assert map[]["a" := Adoption(0, 0)] == HELD;
    SessionSet(HUB, Some(0), FREE, WANTING, ASKED);
    ConnSet(HUB, Some(0), ASKED, WANTING, WAITING);
  }

  lemma Adopts()
    requires Reachable(At(HUB, Some(0), FREE, WANTING))
    ensures Reachable(At(HUB, Some(0), ASKED, WAITING))
  {
    AdoptBegins();
    ReachableNext(At(HUB, Some(0), FREE, WANTING), HandleAdopt(0, true), At(HUB, Some(0), ASKED, WAITING));
  }

  lemma Drains()
    requires Reachable(At(HUB, Some(0), ASKED, WAITING))
    ensures Reachable(At(HUB, Some(0), STABLE, WAITING))
  {
    var draining := ASKED.(copier := Draining(0));
    CopierGoesOn(ASKED, WAITING, CopierSees(0), draining);
    assert Undecided(false)[0 := Undecided(true)[0]] == Undecided(true);
    CopierGoesOn(draining, WAITING, DrainEnds(0, true), STABLE);
  }

  lemma AdoptSettles()
    ensures CanSettleAdopt(At(HUB, Some(0), STABLE, WAITING), 0)
    ensures AdoptAnswered(At(HUB, Some(0), STABLE, WAITING), 0, true) == At(HUB, Some(0), STABLE, ADOPTED)
  {
    assert [] + [Reply(2, Adopted("a", 0, true), Some(0))] == [Reply(2, Adopted("a", 0, true), Some(0))];
    ConnSet(HUB, Some(0), STABLE, WAITING, ADOPTED);
  }

  lemma AdoptRead()
    ensures Received(map[0 := STABLE], ADOPTED, Native) == LOOKING
  {
    assert ADOPTED.replies[1..] == [] && [] + [SnapshotRequest(3, "a")] == [SnapshotRequest(3, "a")];
    assert Popped(ADOPTED).target.fds == [0] && [0][1..] == [];
  }

  lemma Answers()
    requires Reachable(At(HUB, Some(0), STABLE, WAITING))
    ensures Reachable(At(HUB, Some(0), STABLE, LOOKING))
  {
    AdoptSettles();
    ReachableNext(At(HUB, Some(0), STABLE, WAITING), AdoptSettled(0, true), At(HUB, Some(0), STABLE, ADOPTED));
    AdoptRead();
    TargetReadsReply(STABLE, ADOPTED, LOOKING);
  }

  lemma SnapshotTaken()
    ensures CanSnapshot(At(HUB, Some(0), STABLE, LOOKING), 0)
    ensures SnapshotAnswered(At(HUB, Some(0), STABLE, LOOKING), 0, true, true) == At(HUB, Some(0), STABLE, SHOWN)
  {
    assert [] + [Reply(3, Snapshot([], true), None)] == [Reply(3, Snapshot([], true), None)];
    assert [SnapshotRequest(3, "a")][1..] == [];
    ConnSet(HUB, Some(0), STABLE, LOOKING, SHOWN);
  }

  lemma SnapshotRead()
    ensures Received(map[0 := STABLE], SHOWN, Native) == PREPARED
  {
    assert SHOWN.replies[1..] == [] && [] + [KEPT] == [KEPT];
  }

  lemma Shows()
    requires Reachable(At(HUB, Some(0), STABLE, LOOKING))
    ensures Reachable(At(HUB, Some(0), STABLE, SHOWN))
  {
    SnapshotTaken();
    ReachableNext(At(HUB, Some(0), STABLE, LOOKING), HandleSnapshot(0, true, true), At(HUB, Some(0), STABLE, SHOWN));
  }

  lemma SnapshotPending()
    ensures Reachable(At(HUB, Some(0), STABLE, SHOWN))
  {
    Starts();
    Asks();
    Lists();
    Wants();
    Adopts();
    Drains();
    Answers();
    Shows();
  }

  lemma Prepares()
    requires Reachable(At(HUB, Some(0), STABLE, SHOWN))
    ensures Reachable(At(HUB, Some(0), STABLE, PREPARED))
  {
    SnapshotRead();
    TargetReadsReply(STABLE, SHOWN, PREPARED);
  }

  // ------------------------------------------------------------------ the commit

  lemma CommitCalled()
    ensures Sent(PREPARED) == COMMITTING
  {
    assert KeptNames([KEPT]) == ["a"] && [] + [BatchRequest(4, ["a"], true)] == [BatchRequest(4, ["a"], true)];
  }

  lemma Commits()
    requires Reachable(At(HUB, Some(0), STABLE, PREPARED))
    ensures Reachable(At(HUB, Some(0), STABLE, COMMITTING))
  {
    CommitCalled();
    TargetCalls(HUB, Some(0), STABLE, PREPARED, COMMITTING);
  }

  lemma WalkBegins()
    ensures CanBatch(At(HUB, Some(0), STABLE, COMMITTING), 0)
    ensures BatchBegun(At(HUB, Some(0), STABLE, COMMITTING), 0, true) == At(HUB, Some(0), STABLE, Walking(0, false))
  {
    var st := At(HUB, Some(0), STABLE, COMMITTING);
    assert BatchPc(st, COMMITTING.handler, COMMITTING.requests[0]) == Some(Walking(0, false).handler.pc) by {
      assert Preflight(st, COMMITTING.handler, "a");
    }
    assert [BatchRequest(4, ["a"], true)][1..] == [];
    ConnSet(HUB, Some(0), STABLE, COMMITTING, Walking(0, false));
  }

  lemma Walks()
    requires Reachable(At(HUB, Some(0), STABLE, COMMITTING))
    ensures Reachable(At(HUB, Some(0), STABLE, Walking(0, false)))
  {
    WalkBegins();
    ReachableNext(At(HUB, Some(0), STABLE, COMMITTING), HandleBatch(0, true),
                  At(HUB, Some(0), STABLE, Walking(0, false)));
  }

  lemma CommitChosen()
    ensures CanChoose(At(HUB, Some(0), STABLE, Walking(0, false)), 0)
    ensures Chosen(At(HUB, Some(0), STABLE, Walking(0, false)), 0) == At(HUB, Some(0), GIVEN, Walking(0, true))
  {
    assert Undecided(true)[0 := Decided(false)[0]] == Decided(false);
    SessionSet(HUB, Some(0), STABLE, Walking(0, false), GIVEN);
    ConnSet(HUB, Some(0), GIVEN, Walking(0, false), Walking(0, true));
  }

  lemma Decides()
    requires Reachable(At(HUB, Some(0), STABLE, Walking(0, false)))
    ensures Reachable(At(HUB, Some(0), GIVEN, Walking(0, true)))
  {
    CommitChosen();
    ReachableNext(At(HUB, Some(0), STABLE, Walking(0, false)), Chooses(0), At(HUB, Some(0), GIVEN, Walking(0, true)));
  }

  lemma Stops()
    requires Reachable(At(HUB, Some(0), GIVEN, Walking(0, true)))
    ensures Reachable(At(HUB, Some(0), LEFT, Walking(0, true)))
  {
    assert Decided(false)[0 := Decided(true)[0]] == Decided(true);
    CopierGoesOn(GIVEN, Walking(0, true), CopierDecides(0), LEFT);
  }

  lemma CommitFinished()
    ensures CanFinish(At(HUB, Some(0), LEFT, Walking(0, true)), 0)
    ensures Finished(At(HUB, Some(0), LEFT, Walking(0, true)), 0) == RESOLVED
  {
    SessionSet(HUB, Some(0), LEFT, Walking(0, true), GONE);
    ConnSet(HUB, Some(0), GONE, Walking(0, true), Walking(1, false));
  }

  /** The commit's walk is over and only its answer is missing. */
  const RESOLVED: State := At(HUB, Some(0), GONE, Walking(1, false))

  lemma Finishes()
    requires Reachable(At(HUB, Some(0), LEFT, Walking(0, true)))
    ensures Reachable(RESOLVED)
  {
    CommitFinished();
    ReachableNext(At(HUB, Some(0), LEFT, Walking(0, true)), Step.Finishes(0), RESOLVED);
  }

  lemma AnswerPending()
    ensures Reachable(RESOLVED)
  {
    SnapshotPending();
    Prepares();
    Commits();
    Walks();
    Decides();
    Stops();
    Finishes();
  }

  // --------------------------------------------------------- the answer is lost

  const CUT: Conn := Link(Leaving, map[], [], [], COMMITTING.target)
  const GIVING_UP: Conn := Link(Leaving, map[], [BatchRequest(5, ["a"], false)], [], Aim(Aborting, 6, 1, [KEPT]))

  lemma HubEmptied()
    ensures HELD - Names(["a"]) == map[] && HUB - Names(["a"]) == map[]
  {
    assert ["a"][0] in Names(["a"]);
  }

  lemma AnswerLost()
    ensures CanEnd(RESOLVED, 0) && Ended(RESOLVED, 0, false) == At(map[], Some(0), GONE, CUT)
  {
    HubEmptied();
    ConnSet(map[], Some(0), GONE, Walking(1, false), CUT);
  }

  lemma Abandons()
    ensures CallFailed(CUT) == GIVING_UP
  {
    assert KeptNames([KEPT]) == ["a"] && [] + [BatchRequest(5, ["a"], false)] == [BatchRequest(5, ["a"], false)];
  }

  lemma GivesUp()
    ensures Next(At(map[], Some(0), GONE, CUT), TargetCallFails(0), At(map[], Some(0), GONE, GIVING_UP))
  {
    Abandons();
    ConnSet(map[], Some(0), GONE, CUT, GIVING_UP);
  }

  /**
    "Exactly one owner" is not an invariant. In this run the answer to the
    commit of c's target is lost in step i; the target gives up; and the session
    it had prepared and been given has no owner at any moment after i.
   */
  lemma ReplyCanBeLost() returns (run: seq<State>, steps: seq<Step>, i: nat, sid: SessId, c: ConnId)
    ensures IsRun(run, steps) && i + 1 < |steps| && LosesAnswer(run[i], steps[i], c)
    ensures run[i].conns[c].target.pc.Committing? && sid in run[i].sessions && run[i].sessions[sid].given == Some(c)
    ensures c in run[|steps|].conns && GaveUp(run[|steps|].conns[c].target.pc)
    ensures forall j :: i < j < |run| ==> !SourceOwns(run[j], sid) && forall d :: !TargetOwns(run[j], d, sid)
  {
    AnswerPending();
    AnswerLost();
    GivesUp();
    run, steps := TwoMore(RESOLVED, BatchEnds(0, false), At(map[], Some(0), GONE, CUT),
                          TargetCallFails(0), At(map[], Some(0), GONE, GIVING_UP));
    sid, c, i := 0, 0, |steps| - 2;
    OrphanedAfter(run, steps, i, sid, c);
  }

  lemma OrphanedAfter(run: seq<State>, steps: seq<Step>, i: nat, sid: SessId, c: ConnId)
    requires IsRun(run, steps) && i < |steps| && LosesAnswer(run[i], steps[i], c)
    requires !run[i].conns[c].target.pc.Foreign? && sid in run[i].sessions && run[i].sessions[sid].given == Some(c)
    ensures forall j :: i < j < |run| ==> !SourceOwns(run[j], sid) && forall d :: !TargetOwns(run[j], d, sid)
  {
    forall j | i < j < |run| ensures !SourceOwns(run[j], sid) && forall d :: !TargetOwns(run[j], d, sid) {
      LostAnswerOrphans(run, steps, i, j, sid, c);
    }
  }

  // ---------------------------------------------------------- the answer arrives

  const TOLD: Conn := Conn(Handler(Ready, false, map[]), [], [Reply(4, Resolved(1), None)], COMMITTING.target,
                           Some(["a"]))
  const TAKEN: Kept := KEPT.(taker := Taking)
  const OWNING: Conn := TOLD.(replies := [], target := Aim(Published, 5, 1, [TAKEN]))

  lemma AnswerSent()
    ensures CanEnd(RESOLVED, 0) && Ended(RESOLVED, 0, true) == At(map[], None, GONE, TOLD)
  {
    HubEmptied();
    assert [] + [Reply(4, Resolved(1), None)] == [Reply(4, Resolved(1), None)];
    ConnSet(map[], None, GONE, Walking(1, false), TOLD);
  }

  lemma AnswerLearnt()
    ensures Received(map[0 := GONE], TOLD, Native) == OWNING
  {
    assert TOLD.replies[1..] == [] && TakersStarted([KEPT]) == [TAKEN];
  }

  /** The same run with the answer sent and read: the target owns the session, whose log and PTY it has. */
  lemma ReplyCanArrive() returns (run: seq<State>, steps: seq<Step>, sid: SessId, c: ConnId)
    ensures IsRun(run, steps) && AnswerRead(run, steps, |steps|, c) && TargetOwns(run[|steps|], c, sid)
    ensures run[|steps|].lock.None? && run[|steps|].conns[c].target.kept[0].taker.Taking?
  {
    AnswerPending();
    AnswerSent();
    AnswerLearnt();
    ReadNext(map[], None, GONE, TOLD, OWNING);
    run, steps := TwoMore(RESOLVED, BatchEnds(0, true), At(map[], None, GONE, TOLD),
                          TargetReceives(0, Native), At(map[], None, GONE, OWNING));
    sid, c := 0, 0;
    assert ReadsAnswer(run[|steps| - 1], steps[|steps| - 1], c);
    assert OWNING.target.kept[0].sid == sid;
  }
}
