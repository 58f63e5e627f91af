/** What holds in every run of the handoff. */
module HandoffTheorems {
  import opened Basics
  import opened HandoffState
  import opened HandoffSteps
  import opened HandoffInvariant
  import opened HandoffSource
  import opened HandoffHandler
  import opened HandoffKeeps
  import opened HandoffTargets
  import opened HandoffCommit
  import opened HandoffHistory

  /** run starts with no session and no connection and goes on by steps. */
  ghost predicate IsRun(run: seq<State>, steps: seq<Step>) {
    && |run| == |steps| + 1 && run[0] == INITIAL
    && forall i :: 0 <= i < |steps| ==> Next(run[i], steps[i], run[i + 1])
  }

  lemma CopierInv(st: State, step: Step, st': State)
    requires Inv(st) && CopierMoves(st, step, st')
    ensures Inv(st')
  {
    CopierOnly(st, step, st');
    CopierSource(st, step, st');
    CopierTargets(st, step, st');
    CopierGiven(st, step, st');
  }

  lemma ClientInv(st: State, step: Step, st': State)
    requires Inv(st) && ClientStep(st, step, st')
    ensures Inv(st')
  {
    ClientOnly(st, step, st');
    ClientSource(st, step, st');
    ClientTargets(st, step, st');
    ClientGiven(st, step, st');
  }

  lemma WalkInv(st: State, step: Step, st': State)
    requires Inv(st) && WalkStep(st, step, st')
    ensures Inv(st')
  {
    WalkSource(st, step, st');
    WalkTargets(st, step, st');
    WalksCommit(st, step, st');
    WalksGiven(st, step, st');
  }

  lemma RequestInv(st: State, step: Step, st': State)
    requires Inv(st) && RequestStep(st, step, st')
    ensures Inv(st')
  {
    RequestSource(st, step, st');
    RequestTargets(st, step, st');
    RequestsCommit(st, step, st');
    RequestsGiven(st, step, st');
  }

  lemma TargetStepInv(st: State, step: Step, st': State)
    requires Inv(st) && TargetStep(st, step, st')
    ensures Inv(st')
  {
    TargetSource(st, step, st');
    OwnTargets(st, step, st');
    OwnCommit(st, step, st');
    OwnGiven(st, step, st');
  }

  lemma StepInv(st: State, step: Step, st': State)
    requires Inv(st) && Next(st, step, st')
    ensures Inv(st')
  {
    if IsCopierStep(step) {
      CopierInv(st, step, st');
    } else if OfClients(step) {
      ClientInv(st, step, st');
    } else if OfWalk(step) {
      WalkInv(st, step, st');
    } else if OfRequest(step) {
      RequestInv(st, step, st');
    } else {
      TargetStepInv(st, step, st');
    }
  }

  lemma {:induction false} RunInv(run: seq<State>, steps: seq<Step>, i: nat)
    requires IsRun(run, steps) && i < |run|
    ensures Inv(run[i])
  {
    if i > 0 {
      RunInv(run, steps, i - 1);
      StepInv(run[i - 1], steps[i - 1], run[i]);
    }
  }

  /** Some run passes through st. */
  ghost predicate Reachable(st: State) {
    exists run, steps :: IsRun(run, steps) && st in run
  }

  lemma ReachableInv(st: State)
    requires Reachable(st)
    ensures Inv(st)
  {
    var run, steps :| IsRun(run, steps) && st in run;
    var i :| 0 <= i < |run| && run[i] == st;
    RunInv(run, steps, i);
  }

  lemma SessionIsOk(st: State, sid: SessId)
    requires Reachable(st) && sid in st.sessions
    ensures SessionOk(st.sessions[sid])
  {
    ReachableInv(st);
  }

  // -------------------------------------------------------------- one reader per PTY

  datatype Party = TheSource | Adopter(c: ConnId)

  /** The process that reads bytes from the PTY of sid in this step. */
  function ReadBy(st: State, step: Step, sid: SessId): Option<Party> {
    match step
    case CopierReads(k, n) => if k == sid && n > 0 then Some(TheSource) else None
    case DrainReads(k, n) => if k == sid && n > 0 then Some(TheSource) else None
    case ResizeDrains(name, n, _) => if name in st.hub && st.hub[name] == sid && n > 0 then Some(TheSource) else None
    case TargetReads(c, i, n) =>
      if c in st.conns && i < |st.conns[c].target.kept| && st.conns[c].target.kept[i].master == Some(sid) && n > 0
      then Some(Adopter(c)) else None
    case _ => None
  }

  lemma SourceReadOwns(s: Session, step: Step)
    requires SessionOk(s) && (step.CopierReads? || step.DrainReads?) && CopierStep(s, step).Some?
    ensures s.given.None?
  {
  }

  lemma TargetReadOwns(st: State, c: ConnId, i: nat, n: nat)
    requires TargetInv(st) && CanTargetRead(st, c, i, n)
    ensures st.conns[c].target.kept[i].master.value == st.conns[c].target.kept[i].sid
    ensures st.sessions[st.conns[c].target.kept[i].sid].given == Some(c)
  {
    assert TargetOk(st.sessions, c, st.conns[c]);
    assert Owned(st.sessions, c, st.conns[c].target.kept[i]);
  }

  /** The connection a session must have been given to for this process to read it. */
  function OwnerOf(reader: Party): Option<ConnId> {
    match reader
    case TheSource => None
    case Adopter(c) => Some(c)
  }

  lemma CopierIsReader(st: State, step: Step, sid: SessId)
    requires IsCopierStep(step) && ReadBy(st, step, sid).Some?
    ensures (step.CopierReads? || step.DrainReads?) && step.sid == sid && ReadBy(st, step, sid) == Some(TheSource)
  {
  }

  lemma CopierReadOwns(st: State, step: Step, st': State, sid: SessId)
    requires SourceInv(st) && CopierMoves(st, step, st') && ReadBy(st, step, sid).Some?
    ensures sid in st.sessions && st.sessions[sid].given == OwnerOf(ReadBy(st, step, sid).value)
  {
    CopierIsReader(st, step, sid);
    var s' := CopierMoved(st, step, st');
    SourceReadOwns(st.sessions[sid], step);
  }

  lemma ClientReadOwns(st: State, step: Step, st': State, sid: SessId)
    requires SourceInv(st) && ClientStep(st, step, st') && ReadBy(st, step, sid).Some?
    ensures sid in st.sessions && st.sessions[sid].given == OwnerOf(ReadBy(st, step, sid).value)
  {
    LockFree(st);
  }

  lemma AdopterReadOwns(st: State, step: Step, st': State, sid: SessId)
    requires TargetInv(st) && TargetStep(st, step, st') && ReadBy(st, step, sid).Some?
    ensures sid in st.sessions && st.sessions[sid].given == OwnerOf(ReadBy(st, step, sid).value)
  {
    TargetReadOwns(st, step.c, step.i, step.n);
  }

  /** The source reads only what it has not given away; a target only what it was given. */
  lemma ReaderOwns(st: State, step: Step, st': State, sid: SessId)
    requires Inv(st) && Next(st, step, st') && ReadBy(st, step, sid).Some?
    ensures sid in st.sessions && st.sessions[sid].given == OwnerOf(ReadBy(st, step, sid).value)
  {
    if IsCopierStep(step) {
      CopierReadOwns(st, step, st', sid);
    } else if OfClients(step) {
      ClientReadOwns(st, step, st', sid);
    } else {
      AdopterReadOwns(st, step, st', sid);
    }
  }

  /** In st this process is able to read the PTY of sid. */
  ghost predicate MayRead(st: State, reader: Party, sid: SessId) {
    exists step, st' :: Next(st, step, st') && ReadBy(st, step, sid) == Some(reader)
  }

  lemma MayReadOwns(st: State, reader: Party, sid: SessId)
    requires Inv(st) && MayRead(st, reader, sid)
    ensures sid in st.sessions && st.sessions[sid].given == OwnerOf(reader)
  {
    var step, st' :| Next(st, step, st') && ReadBy(st, step, sid) == Some(reader);
    ReaderOwns(st, step, st', sid);
  }

  /** No state lets two processes read one PTY. */
  lemma NeverTwoReaders(st: State, sid: SessId, p: Party, q: Party)
    requires Reachable(st) && MayRead(st, p, sid) && MayRead(st, q, sid)
    ensures p == q
  {
    ReachableInv(st);
    MayReadOwns(st, p, sid);
    MayReadOwns(st, q, sid);
  }

  lemma {:induction false} RunLater(run: seq<State>, steps: seq<Step>, i: nat, j: nat)
    requires IsRun(run, steps) && i <= j < |run|
    ensures AllLater(run[i].sessions, run[j].sessions)
  {
    if i < j {
      RunLater(run, steps, i, j - 1);
      RunInv(run, steps, j - 1);
      StepLater(run[j - 1], steps[j - 1], run[j]);
    }
  }

  lemma ReadGiven(run: seq<State>, steps: seq<Step>, i: nat, sid: SessId)
    requires IsRun(run, steps) && i < |steps| && ReadBy(run[i], steps[i], sid).Some?
    ensures sid in run[i].sessions && run[i].sessions[sid].given == OwnerOf(ReadBy(run[i], steps[i], sid).value)
  {
    RunInv(run, steps, i);
    ReaderOwns(run[i], steps[i], run[i + 1], sid);
  }

  /** Once a target has read a PTY, in the rest of the run nobody else ever reads it. */
  lemma ReaderNeverChanges(run: seq<State>, steps: seq<Step>, i: nat, j: nat, sid: SessId, c: ConnId)
    requires IsRun(run, steps) && i < j < |steps|
    requires ReadBy(run[i], steps[i], sid) == Some(Adopter(c))
    ensures ReadBy(run[j], steps[j], sid).Some? ==> ReadBy(run[j], steps[j], sid) == Some(Adopter(c))
  {
    if ReadBy(run[j], steps[j], sid).Some? {
      ReadGiven(run, steps, i, sid);
      ReadGiven(run, steps, j, sid);
      RunLater(run, steps, i, j);
    }
  }

  // ------------------------------------------------ what a target publishes

  /** The names a target has published: none before its commit is answered. */
  function PublishedNames(t: Target): seq<Name> {
    if t.pc.Published? then KeptNames(t.kept) else []
  }

  /** A target publishes nothing, or exactly the frozen inventory, each name once and each session its own. */
  lemma PublishesAllOrNothing(st: State, c: ConnId)
    requires Reachable(st) && c in st.conns && st.conns[c].target.pc.Published?
    ensures st.conns[c].inventory == Some(PublishedNames(st.conns[c].target))
    ensures NoDup(PublishedNames(st.conns[c].target))
    ensures forall k :: k in st.conns[c].target.kept ==>
              k.sid in st.sessions && st.sessions[k.sid].name == k.name && st.sessions[k.sid].given == Some(c)
  {
    ReachableInv(st);
    assert TargetOk(st.sessions, c, st.conns[c]);
    assert InOrder(st.conns[c]);
    assert KeptNames(st.conns[c].target.kept) == st.conns[c].target.listed;
    forall k | k in st.conns[c].target.kept
      ensures k.sid in st.sessions && st.sessions[k.sid].name == k.name && st.sessions[k.sid].given == Some(c)
    {
      var j :| 0 <= j < |st.conns[c].target.kept| && st.conns[c].target.kept[j] == k;
      assert Owned(st.sessions, c, st.conns[c].target.kept[j]);
    }
  }

  lemma TargetInventory(st: State, step: Step, st': State)
    requires TargetStep(st, step, st') && !step.Connect?
    ensures Touches(st, st', step.c) && step.c in st.conns && st'.conns[step.c].inventory == st.conns[step.c].inventory
  {
    if OfWire(step) {
      WireOnly(st, step, st');
      WireInventory(st, step);
    } else if step.TargetReads? {
      TargetReadOnly(st, step.c, step.i, step.n);
    } else {
      TargetRecordOnly(st, step.c, step.i, step.ok);
    }
  }

  /** A step of c's handler. */
  ghost predicate HandlerMove(st: State, step: Step, st': State, c: ConnId) {
    (OfWalk(step) || OfRequest(step)) && step.c == c && HandlerStep(st, step, st')
  }

  /** A step of the process at the other end of c. */
  ghost predicate OwnMove(st: State, step: Step, st': State, c: ConnId) {
    TargetStep(st, step, st') && !step.Connect? && step.c == c
  }

  lemma HandlerMovesOne(st: State, step: Step, st': State, c: ConnId)
    requires HandlerStep(st, step, st') && (OfWalk(step) || OfRequest(step)) && c in st.conns
    ensures c in st'.conns && st'.conns[c].target == st.conns[c].target
    ensures st'.conns[c] == st.conns[c] || HandlerMove(st, step, st', c)
  {
    HandlerInventory(st, step, st');
  }

  lemma TargetMovesOne(st: State, step: Step, st': State, c: ConnId)
    requires TargetStep(st, step, st') && c in st.conns
    ensures c in st'.conns && (st'.conns[c] == st.conns[c] || OwnMove(st, step, st', c))
  {
    if !step.Connect? {
      TargetInventory(st, step, st');
    }
  }

  /** A connection changes only by a step of its own handler, which leaves its target alone, or of its other end. */
  lemma WhoMoves(st: State, step: Step, st': State, c: ConnId)
    requires Next(st, step, st') && c in st.conns
    ensures c in st'.conns
    ensures st'.conns[c] == st.conns[c] || HandlerMove(st, step, st', c) || OwnMove(st, step, st', c)
    ensures !OwnMove(st, step, st', c) ==> st'.conns[c].target == st.conns[c].target
  {
    if IsCopierStep(step) {
      CopierOnly(st, step, st');
    } else if OfClients(step) {
      ClientOnly(st, step, st');
    } else if OfWalk(step) || OfRequest(step) {
      HandlerMovesOne(st, step, st', c);
    } else {
      TargetMovesOne(st, step, st', c);
    }
  }

  lemma NewConnection(st: State, step: Step, st': State, c: ConnId)
    requires Next(st, step, st') && c !in st.conns && c in st'.conns
    ensures step.Connect? && st'.conns[c] == NewConn(step.foreign)
  {
    if IsCopierStep(step) {
      CopierOnly(st, step, st');
    } else if OfClients(step) {
      ClientOnly(st, step, st');
    } else if OfWalk(step) || OfRequest(step) {
      HandlerInventory(st, step, st');
    } else if !step.Connect? {
      TargetInventory(st, step, st');
    }
  }

  lemma StepInventory(st: State, step: Step, st': State, c: ConnId)
    requires Next(st, step, st') && c in st'.conns
    ensures || st'.conns[c].inventory == (if c in st.conns then st.conns[c].inventory else None)
            || (step.HandleList? && step.c == c && Grants(st, step, st'))
  {
    if IsCopierStep(step) {
      CopierOnly(st, step, st');
    } else if OfClients(step) {
      ClientOnly(st, step, st');
    } else if OfWalk(step) || OfRequest(step) {
      HandlerInventory(st, step, st');
    } else if !step.Connect? {
      TargetInventory(st, step, st');
    }
  }

  /** What a connection holds as inventory is the whole hub as one of its granted lists found and locked it. */
  lemma {:induction false} InventoryWasListed(run: seq<State>, steps: seq<Step>, i: nat, c: ConnId)
    requires IsRun(run, steps) && i < |run| && c in run[i].conns && run[i].conns[c].inventory.Some?
    ensures exists j :: 0 <= j < i && steps[j].HandleList? && steps[j].c == c && Grants(run[j], steps[j], run[j + 1])
                        && run[i].conns[c].inventory == Some(steps[j].order)
  {
    if i > 0 {
      var st, step := run[i - 1], steps[i - 1];
      StepInventory(st, step, run[i], c);
      if c in st.conns && run[i].conns[c].inventory == st.conns[c].inventory {
        InventoryWasListed(run, steps, i - 1, c);
      }
    }
  }

  /** What a target has published is the whole hub as one of its granted lists found and locked it. */
  lemma PublishesFrozenHub(run: seq<State>, steps: seq<Step>, i: nat, c: ConnId)
    requires IsRun(run, steps) && i < |run| && c in run[i].conns && run[i].conns[c].target.pc.Published?
    ensures exists j :: 0 <= j < i && steps[j].HandleList? && steps[j].c == c && Grants(run[j], steps[j], run[j + 1])
                        && PublishedNames(run[i].conns[c].target) == steps[j].order
  {
    assert run[i] in run;
    PublishesAllOrNothing(run[i], c);
    InventoryWasListed(run, steps, i, c);
  }

  // --------------------------------------------------------- the hub stays frozen

  lemma EndedHub(st: State, c: ConnId, sent: bool)
    requires SourceInv(st) && CanEnd(st, c) && Ended(st, c, sent).hub != st.hub
    ensures st.lock == Some(c)
    ensures st.conns[c].handler.pc.after == Batch(true)
    ensures Ended(st, c, sent).hub == st.hub - Names(st.conns[c].handler.pc.batch)
  {
    assert HandlerOk(st, c);
    EndedShape(st, c, sent);
  }

  lemma TargetHub(st: State, step: Step, st': State)
    requires TargetStep(st, step, st')
    ensures st'.hub == st.hub
  {
    if OfWire(step) {
      WireOnly(st, step, st');
    }
  }

  lemma OtherHub(st: State, step: Step, st': State)
    requires Next(st, step, st') && st.lock.Some? && !step.BatchEnds?
    ensures st'.hub == st.hub
  {
    if IsCopierStep(step) {
      CopierOnly(st, step, st');
    } else if OfClients(step) {
      ClientOnly(st, step, st');
    } else if OfWalk(step) || OfRequest(step) {
      HandlerHub(st, step, st');
    } else {
      TargetHub(st, step, st');
    }
  }

  lemma HandlerHub(st: State, step: Step, st': State)
    requires HandlerStep(st, step, st') && !step.BatchEnds?
    ensures st'.hub == st.hub
  {
    if step.HandleAdopt? || step.Chooses? || step.Finishes? {
      assert Serves(st, st', step.c);
    } else if OfWalk(step) {
      WalkOnly(st, step, st');
    } else {
      RequestOnly(st, step, st');
    }
  }

  /** While a connection holds the batch, only its own commit takes names out of the hub, and none come in. */
  lemma HubFrozen(st: State, step: Step, st': State)
    requires Reachable(st) && Next(st, step, st') && st.lock.Some? && st'.hub != st.hub
    ensures step.BatchEnds? && st.lock == Some(step.c) && step.c in st.conns
    ensures var pc := st.conns[step.c].handler.pc;
            pc.Resolving? && pc.after == Batch(true) && st'.hub == st.hub - Names(pc.batch)
  {
    ReachableInv(st);
    if step.BatchEnds? {
      EndedHub(st, step.c, step.sent);
    } else {
      OtherHub(st, step, st');
    }
  }

  // -------------------------------------------------- a commit cannot half succeed

  /** Between requests every pending ticket is stable without error, its copy loop blocked on it or done. */
  lemma PendingSettled(st: State, c: ConnId, name: Name)
    requires Reachable(st) && c in st.conns && st.conns[c].handler.pc.Ready? && name in st.conns[c].handler.pending
    ensures Preflight(st, st.conns[c].handler, name)
    ensures var a := st.conns[c].handler.pending[name];
            var s := st.sessions[a.sid];
            var t := s.tickets[a.ticket];
            && t.stable && t.decision.None? && !s.logFailed
            && s.copier == (if t.alive then Awaiting(a.ticket, true) else Done)
  {
    ReachableInv(st);
    PendingIsStable(st, c, name);
  }

  /** A commit of names the handler holds, none repeated, passes the preflight and walks over all of them. */
  lemma CommitIsAccepted(st: State, c: ConnId, sent: bool)
    requires Reachable(st) && CanBatch(st, c)
    requires var r := st.conns[c].requests[0];
             r.commit && !Repeats(r.names)
             && forall k :: 0 <= k < |r.names| ==> r.names[k] in st.conns[c].handler.pending
    ensures var r := st.conns[c].requests[0];
            BatchBegun(st, c, sent).conns[c].handler.pc == Resolving(r.id, r.names, 0, false, false, false, Batch(true))
  {
    var names := st.conns[c].requests[0].names;
    forall k | 0 <= k < |names| ensures Preflight(st, st.conns[c].handler, names[k]) {
      PendingSettled(st, c, names[k]);
    }
  }

  /** In a commit's walk every decision is to commit, for a ticket without error. */
  lemma CommitDecides(st: State, c: ConnId)
    requires Reachable(st) && CanChoose(st, c) && st.conns[c].handler.pc.after == Batch(true)
    ensures var h := st.conns[c].handler;
            var a := h.pending[h.pc.batch[h.pc.done]];
            var s := Chosen(st, c).sessions[a.sid];
            s.given == Some(c) && s.tickets[a.ticket].decision == Some(true) && !s.tickets[a.ticket].failed
  {
    ReachableInv(st);
    WalkHead(st, c);
    ChosenSession(st, c);
  }

  lemma ResolvedGiven(st: State, c: ConnId, name: Name)
    requires SourceInv(st) && CanEnd(st, c) && st.conns[c].handler.pc.after == Batch(true)
    requires name in st.conns[c].handler.pc.batch
    ensures name in st.hub && st.hub[name] in st.sessions
    ensures var s := st.sessions[st.hub[name]];
            s.name == name && s.given == Some(c) && s.migration.None? && Finishing(s.copier)
  {
    assert HandlerOk(st, c);
    assert name in ResolvedNames(st.conns[c].handler);
    assert PendingName(st, c, name);
    assert SessionOk(st.sessions[st.hub[name]]);
  }

  /** When the walk of a commit ends, every session of it has been given away and is out of the hub. */
  lemma CommitEnds(st: State, c: ConnId, sent: bool, name: Name)
    requires Reachable(st) && CanEnd(st, c) && st.conns[c].handler.pc.after == Batch(true)
    requires name in st.conns[c].handler.pc.batch
    ensures name in st.hub && name !in Ended(st, c, sent).hub && !Ended(st, c, sent).broken
    ensures st.hub[name] in st.sessions
    ensures var s := Ended(st, c, sent).sessions[st.hub[name]];
            s.name == name && s.given == Some(c) && s.migration.None? && Finishing(s.copier)
  {
    ReachableInv(st);
    ResolvedGiven(st, c, name);
    assert HandlerOk(st, c);
    EndedShape(st, c, sent);
  }

  /** Neither the abort after a failed preflight nor the branch for a resolve that fails after it is ever taken. */
  lemma FallbacksNeverTaken(st: State, c: ConnId)
    requires Reachable(st) && c in st.conns
    ensures !st.broken
    ensures st.conns[c].handler.pc.Resolving? ==> !st.conns[c].handler.pc.bad && !st.conns[c].handler.pc.after.Unstable?
  {
    ReachableInv(st);
    assert HandlerOk(st, c);
  }

  // ------------------------------------------------------------------------- bytes

  /** Nothing a child writes is lost, repeated or reordered: it is recorded, in somebody's hands, or queued. */
  lemma BytesConserved(st: State, sid: SessId)
    requires Reachable(st) && sid in st.sessions
    ensures var s := st.sessions[sid];
            && s.written == s.log + s.lost + s.hand + s.queue
            && (!s.logFailed ==> s.written == s.log + s.hand + s.queue)
            && (s.given.None? ==> s.screen == s.log && s.index == |s.log|)
  {
    ReachableInv(st);
    assert SessionOk(st.sessions[sid]);
    var s := st.sessions[sid];
    assert s.lost == [] ==> s.log + s.lost == s.log;
  }

  /**
    A natively adopted session continues the source's log: screen and index are
    those of everything recorded so far.
   */
  lemma NativeContinues(run: seq<State>, steps: seq<Step>, i: nat, j: nat, c: ConnId, k: Kept)
    requires IsRun(run, steps) && i <= j < |run| && c in run[j].conns && run[j].conns[c].target.pc.Published?
    requires k in run[j].conns[c].target.kept && k.native
    ensures k.sid in run[j].sessions
    ensures var s := run[j].sessions[k.sid];
            && k.screen == s.log && k.index == |s.log|
            && (k.sid in run[i].sessions ==> run[i].sessions[k.sid].log <= k.screen)
            && (!s.logFailed ==> s.written == k.screen + (if k.taker.Recording? then k.taker.chunk else []) + s.queue)
  {
    RunInv(run, steps, j);
    var st := run[j];
    assert TargetOk(st.sessions, c, st.conns[c]);
    var n :| 0 <= n < |st.conns[c].target.kept| && st.conns[c].target.kept[n] == k;
    assert Owned(st.sessions, c, st.conns[c].target.kept[n]);
    assert st in run;
    BytesConserved(st, k.sid);
    RunLater(run, steps, i, j);
  }

  // ------------------------------------------------------------------------- gates

  lemma MigratingPending(st: State, sid: SessId)
    requires sid in st.sessions && GateOk(st.sessions[sid]) && Linked(st, sid) && st.sessions[sid].gate.Some?
    ensures var s := st.sessions[sid];
            |s.tickets| > 0 && var c := s.tickets[|s.tickets| - 1].begunBy;
            c in st.conns && s.name in st.conns[c].handler.pending
  {
  }

  lemma PendingLocks(st: State, c: ConnId)
    requires SourceInv(st) && c in st.conns && st.conns[c].handler.pending != map[]
    ensures st.lock == Some(c)
  {
    assert HandlerOk(st, c);
  }

  lemma GateHolder(st: State, sid: SessId)
    requires SourceInv(st) && sid in st.sessions && st.sessions[sid].gate.Some?
    ensures var s := st.sessions[sid];
            |s.tickets| > 0 && var c := s.tickets[|s.tickets| - 1].begunBy;
            c in st.conns && s.name in st.conns[c].handler.pending && st.lock == Some(c)
  {
    assert SessionOk(st.sessions[sid]);
    MigratingPending(st, sid);
    var s := st.sessions[sid];
    PendingLocks(st, s.tickets[|s.tickets| - 1].begunBy);
  }

  /** A session's gate is held exactly while a begun migration is unfinished; each begun one is finished once. */
  lemma GateDiscipline(st: State, sid: SessId)
    requires Reachable(st) && sid in st.sessions
    ensures var s := st.sessions[sid];
            && s.gate == s.migration && s.finished + (if s.gate.Some? then 1 else 0) == |s.tickets|
            && (s.gate.Some? ==>
                  var c := s.tickets[|s.tickets| - 1].begunBy;
                  c in st.conns && s.name in st.conns[c].handler.pending && st.lock == Some(c))
  {
    ReachableInv(st);
    assert SessionOk(st.sessions[sid]);
    if st.sessions[sid].gate.Some? {
      GateHolder(st, sid);
    }
  }

  /** The hub lock is held exactly by the frozen handler, never released twice, and by no handler that is gone. */
  lemma LockDiscipline(st: State, c: ConnId)
    requires Reachable(st) && c in st.conns
    ensures !st.panicked
    ensures st.conns[c].handler.frozen <==> st.lock == Some(c)
    ensures st.conns[c].handler.pc.Gone? ==> st.conns[c].handler.pending == map[] && st.lock != Some(c)
    ensures st.lock.None? ==>
              && st.conns[c].handler.pending == map[]
              && forall sid :: sid in st.sessions ==> st.sessions[sid].gate.None?
  {
    ReachableInv(st);
    assert HandlerOk(st, c);
    if st.lock.None? {
      LockFree(st);
      assert forall sid :: sid in st.sessions ==> SessionOk(st.sessions[sid]);
    }
  }
}
