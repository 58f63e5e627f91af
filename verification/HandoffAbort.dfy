/**
  A run in which the target cannot use what it was offered and aborts: what the
  child wrote while its session was paused ends up in the source's log.
 */
module HandoffAbort {
  import opened Basics
  import opened HandoffState
  import opened HandoffSteps
  import opened HandoffTheorems
  import opened HandoffLostReply

  /** A state of the run while the batch is held. */
  function Held(s: Session, conn: Conn): State {
    At(HUB, Some(0), s, conn)
  }

  const SPOKEN: seq<byte> := [7]

  const PAUSED: Session := STABLE.(written := SPOKEN, queue := SPOKEN)
  const REFUSED: Session := PAUSED.(tickets := Settled(false))
  const RESUMED: Session := PAUSED.(tickets := Settled(true), copier := Running)
  const READING: Session := RESUMED.(queue := [], hand := SPOKEN, copier := Holding(SPOKEN))
  const HEARD: Session := RESUMED.(queue := [], log := SPOKEN, index := 1, screen := SPOKEN)
  const KEEPING: Session := HEARD.(migration := None, gate := None, finished := 1)

  function Settled(stopped: bool): seq<Ticket> {
    [Ticket(true, true, false, Some(false), stopped, 0)]
  }

  const SKIPPING: Target := Aim(Dropping, 5, 0, []).(skipped := true)
  const DROPPING: Conn := Link(Ready, HELD, [BatchRequest(4, ["a"], false)], [], SKIPPING)
  const DROPPED: Conn := Link(Ready, map[], [], [Reply(4, Resolved(1), None)], SKIPPING)

  function Releasing(done: nat, chosen: bool): Conn {
    Link(Resolving(4, ["a"], done, chosen, false, false, Batch(false)), HELD, [], [], SKIPPING)
  }

  lemma Writes()
    ensures Next(Held(STABLE, SHOWN), ChildWrites(0, SPOKEN), Held(PAUSED, SHOWN))
  {
    var none: seq<byte> := [];
    assert none + SPOKEN == SPOKEN;
    SessionSet(HUB, Some(0), STABLE, SHOWN, PAUSED);
  }

  lemma Unused()
    ensures Received(map[0 := PAUSED], SHOWN, Unusable) == DROPPING
  {
    assert SHOWN.replies[1..] == [];
    assert [] + [BatchRequest(4, ["a"], false)] == [BatchRequest(4, ["a"], false)];
  }

  lemma Skips()
    ensures Next(Held(PAUSED, SHOWN), TargetReceives(0, Unusable), Held(PAUSED, DROPPING))
  {
    Unused();
    ConnSet(HUB, Some(0), PAUSED, SHOWN, DROPPING);
  }

  lemma ReleaseAsked()
    ensures CanBatch(Held(PAUSED, DROPPING), 0)
    ensures BatchBegun(Held(PAUSED, DROPPING), 0, true) == Held(PAUSED, Releasing(0, false))
  {
    assert !Repeats(["a"]);
    assert [BatchRequest(4, ["a"], false)][1..] == [];
    ConnSet(HUB, Some(0), PAUSED, DROPPING, Releasing(0, false));
  }

  lemma AbortBegins()
    ensures Next(Held(PAUSED, DROPPING), HandleBatch(0, true), Held(PAUSED, Releasing(0, false)))
  {
    ReleaseAsked();
  }

  lemma AbortChosen()
    ensures CanChoose(Held(PAUSED, Releasing(0, false)), 0)
    ensures Chosen(Held(PAUSED, Releasing(0, false)), 0) == Held(REFUSED, Releasing(0, true))
  {
    assert Undecided(true)[0 := Settled(false)[0]] == Settled(false);
    SessionSet(HUB, Some(0), PAUSED, Releasing(0, false), REFUSED);
    ConnSet(HUB, Some(0), REFUSED, Releasing(0, false), Releasing(0, true));
  }

  lemma AbortDecides()
    ensures Next(Held(PAUSED, Releasing(0, false)), Chooses(0), Held(REFUSED, Releasing(0, true)))
  {
    AbortChosen();
  }

  lemma CopierSteps(s: Session, step: Step, s': Session, conn: Conn)
    requires IsCopierStep(step) && step.sid == 0 && CopierStep(s, step) == Some(s')
    ensures Next(Held(s, conn), step, Held(s', conn))
  {
    SessionSet(HUB, Some(0), s, conn, s');
  }

  lemma Resumes()
    ensures CopierStep(REFUSED, CopierDecides(0)) == Some(RESUMED)
  {
    assert Settled(false)[0 := Settled(true)[0]] == Settled(true);
  }

  lemma Reads()
    ensures CopierStep(RESUMED, CopierReads(0, 1)) == Some(READING)
  {
    var none: seq<byte> := [];
    assert SPOKEN[1..] == none && SPOKEN[..1] == SPOKEN && none + SPOKEN == SPOKEN;
  }

  lemma Records()
    ensures CopierStep(READING, CopierRecords(0, true)) == Some(HEARD)
  {
    var none: seq<byte> := [];
    assert SPOKEN[1..] == none && none + SPOKEN == SPOKEN;
    assert Emptied(SPOKEN, SPOKEN) == none;
  }

  lemma AbortFinished()
    ensures CanFinish(Held(HEARD, Releasing(0, true)), 0)
    ensures Finished(Held(HEARD, Releasing(0, true)), 0) == Held(KEEPING, Releasing(1, false))
  {
    SessionSet(HUB, Some(0), HEARD, Releasing(0, true), KEEPING);
    ConnSet(HUB, Some(0), KEEPING, Releasing(0, true), Releasing(1, false));
  }

  lemma AbortFinishes()
    ensures Next(Held(HEARD, Releasing(0, true)), Finishes(0), Held(KEEPING, Releasing(1, false)))
  {
    AbortFinished();
  }

  lemma AbortEnded()
    ensures CanEnd(Held(KEEPING, Releasing(1, false)), 0)
    ensures Ended(Held(KEEPING, Releasing(1, false)), 0, true) == Held(KEEPING, DROPPED)
  {
    HubEmptied();
    assert [] + [Reply(4, Resolved(1), None)] == [Reply(4, Resolved(1), None)];
    ConnSet(HUB, Some(0), KEEPING, Releasing(1, false), DROPPED);
  }

  lemma AbortIsAnswered()
    ensures Next(Held(KEEPING, Releasing(1, false)), BatchEnds(0, true), Held(KEEPING, DROPPED))
  {
    AbortEnded();
  }

  lemma OneMore(run: seq<State>, steps: seq<Step>, step: Step, st': State)
    returns (run': seq<State>, steps': seq<Step>)
    requires IsRun(run, steps) && Next(run[|steps|], step, st')
    ensures IsRun(run', steps') && run' == run + [st'] && steps' == steps + [step]
  {
    RunGoesOn(run, steps, step, st');
    run', steps' := run + [st'], steps + [step];
  }

  lemma UpToTheSkip() returns (run: seq<State>, steps: seq<Step>, i: nat)
    ensures IsRun(run, steps) && run[|steps|] == Held(PAUSED, DROPPING)
    ensures i < |steps| && steps[i] == ChildWrites(0, SPOKEN) && run[i] == Held(STABLE, SHOWN)
  {
    SnapshotPending();
    run, steps := RunTo(Held(STABLE, SHOWN));
    i := |steps|;
    Writes();
    run, steps := OneMore(run, steps, ChildWrites(0, SPOKEN), Held(PAUSED, SHOWN));
    Skips();
    run, steps := OneMore(run, steps, TargetReceives(0, Unusable), Held(PAUSED, DROPPING));
  }

  lemma UpToTheAbort(run0: seq<State>, steps0: seq<Step>) returns (run: seq<State>, steps: seq<Step>)
    requires IsRun(run0, steps0) && run0[|steps0|] == Held(PAUSED, DROPPING)
    ensures IsRun(run, steps) && run0 <= run && steps0 <= steps && run[|steps|] == Held(REFUSED, Releasing(0, true))
  {
    AbortBegins();
    run, steps := OneMore(run0, steps0, HandleBatch(0, true), Held(PAUSED, Releasing(0, false)));
    AbortDecides();
    run, steps := OneMore(run, steps, Chooses(0), Held(REFUSED, Releasing(0, true)));
  }

  lemma FromTheAbort(run0: seq<State>, steps0: seq<Step>) returns (run: seq<State>, steps: seq<Step>)
    requires IsRun(run0, steps0) && run0[|steps0|] == Held(REFUSED, Releasing(0, true))
    ensures IsRun(run, steps) && run0 <= run && steps0 <= steps && run[|steps|] == Held(READING, Releasing(0, true))
  {
    Resumes();
    CopierSteps(REFUSED, CopierDecides(0), RESUMED, Releasing(0, true));
    run, steps := OneMore(run0, steps0, CopierDecides(0), Held(RESUMED, Releasing(0, true)));
    Reads();
    CopierSteps(RESUMED, CopierReads(0, 1), READING, Releasing(0, true));
    run, steps := OneMore(run, steps, CopierReads(0, 1), Held(READING, Releasing(0, true)));
  }

  lemma UpToTheRecord(run0: seq<State>, steps0: seq<Step>) returns (run: seq<State>, steps: seq<Step>)
    requires IsRun(run0, steps0) && run0[|steps0|] == Held(READING, Releasing(0, true))
    ensures IsRun(run, steps) && run0 <= run && steps0 <= steps && run[|steps|] == Held(HEARD, Releasing(0, true))
  {
    Records();
    CopierSteps(READING, CopierRecords(0, true), HEARD, Releasing(0, true));
    run, steps := OneMore(run0, steps0, CopierRecords(0, true), Held(HEARD, Releasing(0, true)));
  }

  lemma ToTheEnd(run0: seq<State>, steps0: seq<Step>) returns (run: seq<State>, steps: seq<Step>)
    requires IsRun(run0, steps0) && run0[|steps0|] == Held(HEARD, Releasing(0, true))
    ensures IsRun(run, steps) && run0 <= run && steps0 <= steps && run[|steps|] == Held(KEEPING, DROPPED)
  {
    AbortFinishes();
    run, steps := OneMore(run0, steps0, Finishes(0), Held(KEEPING, Releasing(1, false)));
    AbortIsAnswered();
    run, steps := OneMore(run, steps, BatchEnds(0, true), Held(KEEPING, DROPPED));
  }

  /**
    In this run the child writes in step i, while the copy loop is blocked on the
    handoff; the target aborts; and at the end the source, which owns the
    session still, has recorded what was written.
   */
  lemma AbortLosesNothing() returns (run: seq<State>, steps: seq<Step>, i: nat, sid: SessId)
    ensures IsRun(run, steps) && i < |steps| && steps[i].ChildWrites? && steps[i].sid == sid && steps[i].data != []
    ensures sid in run[i].sessions && run[i].sessions[sid].copier.Awaiting? && run[i].sessions[sid].log == []
    ensures sid in run[|steps|].sessions
    ensures var end := run[|steps|];
            var s := end.sessions[sid];
            && s.log == steps[i].data && s.queue == [] && s.given.None? && s.gate.None? && s.copier.Running?
            && s.name in end.hub && end.hub[s.name] == sid
  {
    var run0, steps0;
    run0, steps0, i := UpToTheSkip();
    var run1, steps1 := UpToTheAbort(run0, steps0);
    run1, steps1 := FromTheAbort(run1, steps1);
    run1, steps1 := UpToTheRecord(run1, steps1);
    run, steps := ToTheEnd(run1, steps1);
    sid := 0;
    assert run[i] == run0[i] && steps[i] == steps0[i];
  }
}
