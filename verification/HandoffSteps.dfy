/** What each step of the handoff does, party by party. */
module HandoffSteps {
  import opened Basics
  import opened HandoffState

  // ------------------------------------------- children and clients of the source

  function ChildWritten(st: State, sid: SessId, data: seq<byte>): State
    requires sid in st.sessions
  {
    var s := st.sessions[sid];
    WithSession(st, sid, s.(written := s.written + data, queue := s.queue + data))
  }

  predicate CanStart(st: State, name: Name, sid: SessId) {
    st.up && !st.closed && st.lock.None? && name !in st.hub && sid !in st.sessions
  }

  function Started(st: State, name: Name, sid: SessId): State {
    WithSession(st.(hub := st.hub[name := sid]), sid, NewSession(name))
  }

  /** Session operations share the hub lock and the session's gate. */
  predicate CanOperate(st: State, name: Name) {
    st.up && st.lock.None? && name in st.hub && st.hub[name] in st.sessions && st.sessions[st.hub[name]].gate.None?
  }

  function Deleted(st: State, name: Name): State {
    st.(hub := st.hub - {name})
  }

  predicate CanClose(st: State) {
    st.up && st.lock.None?
  }

  function HubClosed(st: State): State {
    st.(hub := map[], closed := true)
  }

  /** A resize drains the PTY while holding the output lock, so not while the copy loop holds it. */
  predicate CanResize(st: State, name: Name, n: nat) {
    && CanOperate(st, name)
    && var s := st.sessions[st.hub[name]];
       !s.copier.Holding? && !s.copier.Done? && n <= |s.queue|
  }

  function Resized(st: State, name: Name, n: nat, ok: bool): State
    requires CanResize(st, name, n)
  {
    var sid := st.hub[name];
    var s := st.sessions[sid];
    WithSession(st, sid, Recorded(ReadFromPty(s, n), s.queue[..n], ok))
  }

  // ----------------------------------------------------------------- copy loop

  predicate CanCopy(st: State, sid: SessId) {
    st.up && sid in st.sessions
  }

  /** What one step of the copy loop makes of its session; None where it cannot step. */
  function CopierStep(s: Session, step: Step): Option<Session> {
    match step
    case CopierReads(_, n) =>
      if s.copier.Running? && 0 < n <= |s.queue| then Some(ReadFromPty(s, n).(copier := Holding(s.queue[..n])))
      else None
    case CopierRecords(_, ok) =>
      if s.copier.Holding? then
        var r := Recorded(s, s.copier.chunk, ok);
        Some(r.(copier := if r.logFailed then Exiting else Running))
      else None
    case CopierStops(_) => if s.copier.Running? then Some(s.(copier := Exiting)) else None
    case CopierSees(_) =>
      if s.copier.Running? && s.migration.Some? && s.migration.value < |s.tickets|
         && s.tickets[s.migration.value].alive && s.tickets[s.migration.value].decision.None?
      then Some(s.(copier := Draining(s.migration.value))) else None
    case DrainReads(_, n) =>
      if s.copier.Draining? && 0 < n <= |s.queue|
      then Some(ReadFromPty(s, n).(copier := Drained(s.copier.ticket, s.queue[..n]))) else None
    case DrainRecords(_, ok) =>
      if s.copier.Drained? && s.copier.ticket < |s.tickets| then
        var t := s.copier.ticket;
        var r := Recorded(s, s.copier.chunk, ok);
        if r.logFailed then Some(WithTicket(r, t, MarkStable(r.tickets[t], false)).(copier := Awaiting(t, false)))
        else Some(r.(copier := Draining(t)))
      else None
    case DrainEnds(_, clean) =>
      if s.copier.Draining? && s.copier.ticket < |s.tickets| then
        var t := s.copier.ticket;
        Some(WithTicket(s, t, MarkStable(s.tickets[t], clean)).(copier := Awaiting(t, clean)))
      else None
    case CopierDecides(_) =>
      if s.copier.Awaiting? && s.copier.ticket < |s.tickets| && s.tickets[s.copier.ticket].decision.Some? then
        var t := s.copier.ticket;
        var commit := s.tickets[t].decision.value;
        var copier := if !s.copier.clean || commit then Exiting else Running;
        Some(WithTicket(s, t, s.tickets[t].(stopped := true)).(copier := copier))
      else None
    case CopierSettles(_) =>
      if s.copier.Exiting? then
        if s.migration.Some? && s.migration.value < |s.tickets| && s.tickets[s.migration.value].decision.None? then
          var t := s.migration.value;
          Some(WithTicket(s, t, Choose(MarkStable(s.tickets[t], false), false).(stopped := true)).(copier := Settled))
        else Some(s.(copier := Settled))
      else None
    case CopierCloses(_) => if s.copier.Settled? then Some(s.(copier := Done)) else None
    case _ => None
  }

  // --------------------------------------------------------------- the handler

  predicate HasRequest(st: State, c: ConnId) {
    st.up && c in st.conns && st.conns[c].handler.pc.Ready? && st.conns[c].requests != []
  }

  /** The connection once its first request is taken off. */
  function Taken(st: State, c: ConnId): Conn
    requires HasRequest(st, c)
  {
    st.conns[c].(requests := st.conns[c].requests[1..])
  }

  function Unlocked(st: State, c: ConnId): State {
    if st.lock == Some(c) then st.(lock := None) else st.(panicked := true)
  }

  /** endBatchIfIdle, for the connection as it will be. */
  function EndIfIdle(st: State, c: ConnId, conn: Conn): (st': State)
    ensures Touches(st, st', c) && st'.sessions == st.sessions && st'.up == st.up && st'.closed == st.closed
    ensures st'.conns[c].target == conn.target && st'.conns[c].inventory == conn.inventory
  {
    if conn.handler.frozen && conn.handler.pending == map[] then
      WithConn(Unlocked(st, c), c, conn.(handler := conn.handler.(frozen := false)))
    else WithConn(st, c, conn)
  }

  /** list: a frozen handler refuses; another's batch blocks it, so it needs the lock free. */
  ghost predicate CanList(st: State, c: ConnId, order: seq<Name>) {
    && HasRequest(st, c) && st.conns[c].requests[0].ListRequest?
    && (st.conns[c].handler.frozen || st.lock.None?)
    && NoDup(order) && Names(order) == st.hub.Keys
  }

  function ListedState(st: State, c: ConnId, order: seq<Name>, sent: bool): (st': State)
    requires HasRequest(st, c)
    ensures Handles(st, st', c) && st'.sessions == st.sessions && st'.hub == st.hub
    ensures || st'.conns[c].inventory == st.conns[c].inventory
            || (st'.conns[c].inventory == Some(order) && !st.conns[c].handler.frozen && st'.lock == Some(c))
  {
    var id := st.conns[c].requests[0].id;
    var conn := Taken(st, c);
    if conn.handler.frozen || st.closed || SomeLogFailed(st) then
      WithConn(st, c, Replying(conn, Reply(id, Refused, None), sent))
    else
      var h := conn.handler.(frozen := true, pc := if sent then Ready else Leaving);
      WithConn(st.(lock := Some(c)), c,
               Replying(conn.(handler := h, inventory := Some(order)), Reply(id, Listed(order), None), sent))
  }

  predicate SomeLogFailed(st: State) {
    exists name :: name in st.hub && st.hub[name] in st.sessions && st.sessions[st.hub[name]].logFailed
  }

  /** beginMigration under the gate; None when the session is busy. */
  function Begun(s: Session, c: ConnId): Option<Session> {
    if s.migration.Some? then None
    else
      var t := |s.tickets|;
      var ticket := if s.copier.Done? then Ticket(false, true, false, None, true, c)
                    else Ticket(true, false, false, None, false, c);
      Some(s.(tickets := s.tickets + [ticket], migration := Some(t), gate := Some(t)))
  }

  /** adopt waits for the session's gate unless it refuses first. */
  predicate CanAdopt(st: State, c: ConnId) {
    && HasRequest(st, c) && st.conns[c].requests[0].AdoptRequest?
    && var h := st.conns[c].handler;
       var name := st.conns[c].requests[0].name;
       (h.frozen && name !in h.pending && name in st.hub && st.hub[name] in st.sessions
        && st.sessions[st.hub[name]].migration.None?) ==> st.sessions[st.hub[name]].gate.None?
  }

  function AdoptBegun(st: State, c: ConnId, sent: bool): (st': State)
    requires HasRequest(st, c) && st.conns[c].requests[0].AdoptRequest?
    ensures Serves(st, st', c) && st'.hub == st.hub
  {
    var AdoptRequest(id, name) := st.conns[c].requests[0];
    var conn := Taken(st, c);
    var refused := WithConn(st, c, Replying(conn, Reply(id, Refused, None), sent));
    if !conn.handler.frozen || name in conn.handler.pending || name !in st.hub
       || st.hub[name] !in st.sessions
    then refused
    else
      var sid := st.hub[name];
      match Begun(st.sessions[sid], c)
      case None => refused
      case Some(s) =>
        var h := conn.handler.(pending := conn.handler.pending[name := Adoption(sid, |st.sessions[sid].tickets|)],
                               pc := Stabilizing(id, name));
        WithConn(WithSession(st, sid, s), c, conn.(handler := h))
  }

  predicate InStabilizing(st: State, c: ConnId) {
    && st.up && c in st.conns && st.conns[c].handler.pc.Stabilizing?
    && var h := st.conns[c].handler;
       && h.pc.name in h.pending && h.pending[h.pc.name].sid in st.sessions
       && h.pending[h.pc.name].ticket < |st.sessions[h.pending[h.pc.name].sid].tickets|
  }

  predicate CanSettleAdopt(st: State, c: ConnId) {
    && InStabilizing(st, c)
    && var h := st.conns[c].handler;
       var a := h.pending[h.pc.name];
       st.sessions[a.sid].tickets[a.ticket].stable
  }

  /** adopt after the wait: a failed ticket or log is aborted, otherwise meta and descriptor go out. */
  function AdoptAnswered(st: State, c: ConnId, sent: bool): (st': State)
    requires CanSettleAdopt(st, c)
    ensures Serves(st, st', c) && st'.sessions == st.sessions && st'.hub == st.hub
  {
    var conn := st.conns[c];
    var Stabilizing(id, name) := conn.handler.pc;
    var a := conn.handler.pending[name];
    var s := st.sessions[a.sid];
    var t := s.tickets[a.ticket];
    if t.failed || s.logFailed then
      WithConn(st, c, WithHandler(conn, Resolving(id, [name], 0, false, false, false, AdoptFailed(name))))
    else
      var reply := Reply(id, Adopted(s.name, a.sid, !s.copier.Done?), if t.alive then Some(a.sid) else None);
      WithConn(st, c, Replying(WithHandler(conn, if sent then Ready else Leaving), reply, sent))
  }

  function AdoptExpired(st: State, c: ConnId): (st': State)
    requires InStabilizing(st, c)
    ensures Serves(st, st', c) && st'.sessions == st.sessions && st'.hub == st.hub
  {
    var conn := st.conns[c];
    var Stabilizing(id, name) := conn.handler.pc;
    WithConn(st, c, WithHandler(conn, Resolving(id, [name], 0, false, false, false, AdoptFailed(name))))
  }

  predicate CanSnapshot(st: State, c: ConnId) {
    && HasRequest(st, c) && st.conns[c].requests[0].SnapshotRequest?
    && var h := st.conns[c].handler;
       var name := st.conns[c].requests[0].name;
       name in h.pending ==> h.pending[name].sid in st.sessions
  }

  function SnapshotAnswered(st: State, c: ConnId, native: bool, sent: bool): (st': State)
    requires CanSnapshot(st, c)
    ensures Serves(st, st', c) && st'.sessions == st.sessions && st'.hub == st.hub
  {
    var SnapshotRequest(id, name) := st.conns[c].requests[0];
    var conn := Taken(st, c);
    if name !in conn.handler.pending then
      WithConn(st, c, Replying(conn, Reply(id, Refused, None), sent))
    else
      var s := st.sessions[conn.handler.pending[name].sid];
      var reply := Reply(id, Snapshot(if native then s.screen else [], native), None);
      WithConn(st, c, Replying(WithHandler(conn, if sent then Ready else Leaving), reply, sent))
  }

  /** Whether the preflight lets this pending name through. */
  predicate Preflight(st: State, h: Handler, name: Name) {
    && name in h.pending
    && var a := h.pending[name];
       && a.sid in st.sessions
       && st.sessions[a.sid].migration == Some(a.ticket)
       && a.ticket < |st.sessions[a.sid].tickets|
       && !st.sessions[a.sid].tickets[a.ticket].failed
  }

  predicate CanBatch(st: State, c: ConnId) {
    HasRequest(st, c) && st.conns[c].requests[0].BatchRequest?
  }

  predicate Repeats(names: seq<Name>) {
    exists i, j :: 0 <= i < j < |names| && names[i] == names[j]
  }

  /** How commit or abort goes on: None refuses; a commit that fails its preflight aborts what is still current. */
  ghost function BatchPc(st: State, h: Handler, r: Request): Option<HandlerPc>
    requires r.BatchRequest?
  {
    if Repeats(r.names) || exists i :: 0 <= i < |r.names| && r.names[i] !in h.pending then None
    else if r.commit && exists i :: 0 <= i < |r.names| && !Preflight(st, h, r.names[i]) then
      Some(Resolving(r.id, Current(st, h, r.names), 0, false, false, false, Unstable(r.names)))
    else Some(Resolving(r.id, r.names, 0, false, false, false, Batch(r.commit)))
  }

  ghost function BatchBegun(st: State, c: ConnId, sent: bool): (st': State)
    requires CanBatch(st, c)
    ensures Serves(st, st', c) && st'.sessions == st.sessions && st'.hub == st.hub
    ensures st'.conns[c].requests == st.conns[c].requests[1..]
    ensures st'.conns[c].handler.pending == st.conns[c].handler.pending
  {
    var r := st.conns[c].requests[0];
    match BatchPc(st, st.conns[c].handler, r)
    case None => WithConn(st, c, Replying(Taken(st, c), Reply(r.id, Refused, None), sent))
    case Some(pc) => WithConn(st, c, WithHandler(Taken(st, c), pc))
  }

  /** The names whose ticket is still their session's current one. */
  function Current(st: State, h: Handler, names: seq<Name>): seq<Name> {
    if names == [] then []
    else
      var front := Current(st, h, names[..|names| - 1]);
      var name := names[|names| - 1];
      if name in h.pending && h.pending[name].sid in st.sessions
         && st.sessions[h.pending[name].sid].migration == Some(h.pending[name].ticket)
      then front + [name] else front
  }

  predicate CanExit(st: State, c: ConnId) {
    HasRequest(st, c) && st.conns[c].requests[0].ExitRequest?
  }

  function ExitAnswered(st: State, c: ConnId, sent: bool): (st': State)
    requires HasRequest(st, c)
    ensures Serves(st, st', c) && st'.sessions == st.sessions && st'.hub == st.hub
  {
    var id := st.conns[c].requests[0].id;
    var conn := Taken(st, c);
    if conn.handler.pending != map[] then WithConn(st, c, Replying(conn, Reply(id, Refused, None), sent))
    else WithConn(st, c, Replying(WithHandler(conn, Leaving), Reply(id, Fine, None), sent))
  }

  predicate CanOther(st: State, c: ConnId) {
    HasRequest(st, c) && st.conns[c].requests[0].OtherRequest?
  }

  function OtherAnswered(st: State, c: ConnId, sent: bool): (st': State)
    requires HasRequest(st, c)
    ensures Serves(st, st', c) && st'.sessions == st.sessions && st'.hub == st.hub
  {
    WithConn(st, c, Replying(Taken(st, c), Reply(st.conns[c].requests[0].id, Refused, None), sent))
  }

  /** The handler is in finishMigration for batch[done]. */
  predicate InFinish(st: State, c: ConnId) {
    && st.up && c in st.conns && st.conns[c].handler.pc.Resolving?
    && var h := st.conns[c].handler;
       && h.pc.done < |h.pc.batch|
       && var name := h.pc.batch[h.pc.done];
          && name in h.pending && h.pending[name].sid in st.sessions
          && h.pending[name].ticket < |st.sessions[h.pending[name].sid].tickets|
  }

  predicate CanChoose(st: State, c: ConnId) {
    InFinish(st, c) && !st.conns[c].handler.pc.chosen
  }

  /** finishMigration up to its wait: commit falls back to abort on a failed ticket. */
  function Chosen(st: State, c: ConnId): (st': State)
    requires CanChoose(st, c)
    ensures Serves(st, st', c) && st'.hub == st.hub
  {
    var conn := st.conns[c];
    var pc := conn.handler.pc;
    var a := conn.handler.pending[pc.batch[pc.done]];
    var s := st.sessions[a.sid];
    var t := s.tickets[a.ticket];
    var eff := pc.after == Batch(true) && !t.failed;
    var s' := WithTicket(s, a.ticket, Choose(t, eff)).(
                migrated := s.migrated || eff, given := if eff then Some(c) else s.given);
    WithConn(WithSession(st, a.sid, s'), c, WithHandler(conn, pc.(chosen := true, eff := eff)))
  }

  predicate CanFinish(st: State, c: ConnId) {
    && InFinish(st, c) && st.conns[c].handler.pc.chosen
    && var h := st.conns[c].handler;
       var a := h.pending[h.pc.batch[h.pc.done]];
       st.sessions[a.sid].tickets[a.ticket].stopped || st.sessions[a.sid].copier.Done?
  }

  /** finishMigration after its wait: clear the ticket, release the gate. */
  function Finished(st: State, c: ConnId): (st': State)
    requires CanFinish(st, c)
    ensures Serves(st, st', c) && st'.hub == st.hub
  {
    var conn := st.conns[c];
    var pc := conn.handler.pc;
    var a := conn.handler.pending[pc.batch[pc.done]];
    var s := st.sessions[a.sid];
    var stale := s.migration != Some(a.ticket);
    var err := stale || s.tickets[a.ticket].failed;
    var s' := s.(migration := if stale then s.migration else None, gate := None, finished := s.finished + 1);
    var bad := pc.bad || (pc.after == Batch(true) && err);
    var pc' := pc.(done := pc.done + 1, chosen := false, eff := false, bad := bad);
    WithConn(WithSession(st, a.sid, s').(panicked := st.panicked || s.gate.None?), c, WithHandler(conn, pc'))
  }

  predicate CanEnd(st: State, c: ConnId) {
    && st.up && c in st.conns && st.conns[c].handler.pc.Resolving?
    && st.conns[c].handler.pc.done == |st.conns[c].handler.pc.batch|
  }

  /** The connection once its walk is over. */
  function Relieved(conn: Conn, pc: HandlerPc, names: seq<Name>): Conn {
    conn.(handler := conn.handler.(pc := pc, pending := conn.handler.pending - Names(names)))
  }

  /** The end of a commit or abort request. */
  function BatchEnded(st: State, c: ConnId, commit: bool, sent: bool): (st': State)
    requires CanEnd(st, c)
    ensures Serves(st, st', c) && st'.sessions == st.sessions
  {
    var Resolving(id, batch, _, _, _, bad, _) := st.conns[c].handler.pc;
    var said := Replying(Relieved(st.conns[c], if sent then Ready else Leaving, batch),
                         Reply(id, Resolved(|batch|), None), sent);
    if !commit then WithConn(st, c, said)
    else if bad then st.(broken := true)
    else if sent then EndIfIdle(st.(hub := st.hub - Names(batch)), c, said)
    else WithConn(st.(hub := st.hub - Names(batch)), c, said)
  }

  /** What follows the last finishMigration of a walk. */
  function Ended(st: State, c: ConnId, sent: bool): (st': State)
    requires CanEnd(st, c)
    ensures Serves(st, st', c) && st'.sessions == st.sessions
  {
    var conn := st.conns[c];
    var pc := conn.handler.pc;
    match pc.after
    case AdoptFailed(name) =>
      WithConn(st, c, Replying(Relieved(conn, Ready, pc.batch), Reply(pc.id, Refused, None), sent))
    case Unstable(all) => EndIfIdle(st, c, Replying(Relieved(conn, Ready, all), Reply(pc.id, Refused, None), sent))
    case Batch(commit) => BatchEnded(st, c, commit, sent)
    case Unwind =>
      WithConn(if conn.handler.frozen then Unlocked(st, c) else st, c, conn.(handler := Handler(Gone, false, map[])))
  }

  predicate CanDisconnect(st: State, c: ConnId) {
    st.up && c in st.conns && st.conns[c].handler.pc.Ready?
  }

  function Disconnected(st: State, c: ConnId): (st': State)
    requires c in st.conns
    ensures Serves(st, st', c) && st'.sessions == st.sessions && st'.hub == st.hub
  {
    WithConn(st, c, WithHandler(st.conns[c], Leaving))
  }

  /** The deferred cleanup starts: every pending adoption, in some order. */
  ghost predicate CanUnwind(st: State, c: ConnId, order: seq<Name>) {
    && st.up && c in st.conns && st.conns[c].handler.pc.Leaving?
    && NoDup(order) && Names(order) == st.conns[c].handler.pending.Keys
  }

  function Unwound(st: State, c: ConnId, order: seq<Name>): (st': State)
    requires c in st.conns
    ensures Serves(st, st', c) && st'.sessions == st.sessions && st'.hub == st.hub
  {
    WithConn(st, c, WithHandler(st.conns[c], Resolving(0, order, 0, false, false, false, Unwind)))
  }

  // ---------------------------------------------------------------- the target

  predicate IsTarget(st: State, c: ConnId) {
    c in st.conns && !st.conns[c].target.pc.Foreign? && !st.conns[c].target.pc.Crashed?
  }

  /** A call goes out: the request is queued and the target waits in pc. */
  function Calling(conn: Conn, request: Request, pc: TargetPc): Conn {
    conn.(requests := conn.requests + [request], target := conn.target.(pc := pc, nextId := conn.target.nextId + 1))
  }

  /** The call under way never got its request out: the target waits for an answer that cannot come. */
  predicate CanLoseCall(conn: Conn) {
    conn.requests != [] && conn.requests[|conn.requests| - 1].id + 1 == conn.target.nextId
  }

  function Unsent(conn: Conn): Conn
    requires conn.requests != []
  {
    conn.(requests := conn.requests[..|conn.requests| - 1])
  }

  function Now(conn: Conn, target: Target): Conn {
    conn.(target := target)
  }

  predicate CanSend(st: State, c: ConnId) {
    IsTarget(st, c) && MaySend(st.conns[c].target.pc)
  }

  predicate MaySend(pc: TargetPc) {
    pc.Begin? || pc.Preparing? || pc.Published?
  }

  /** The next call of the adoption: list, then adopt each name, then commit or abort; exit once published. */
  function Sent(conn: Conn): Conn
    requires MaySend(conn.target.pc)
  {
    var t := conn.target;
    if t.pc.Begin? then Calling(conn, ListRequest(t.nextId), Listing)
    else if t.pc.Published? then Calling(conn, ExitRequest(t.nextId), Published)
    else if t.next < |t.listed| then Calling(conn, AdoptRequest(t.nextId, t.listed[t.next]), Adopting)
    else if !t.skipped then Calling(conn, BatchRequest(t.nextId, KeptNames(t.kept), true), Committing)
    else GiveUp(conn)
  }

  /** Skips the current name and aborts it alone. */
  function Skip(conn: Conn): Conn {
    var t := conn.target;
    var skipping := Now(conn, t.(skipped := true));
    if t.next < |t.listed| then Calling(skipping, BatchRequest(t.nextId, [t.listed[t.next]], false), Dropping)
    else skipping
  }

  /** The deferred abort: every prepared name at once, and the states are closed. */
  function GiveUp(conn: Conn): Conn {
    var t := conn.target;
    if t.kept == [] then Now(conn, t.(pc := Over))
    else Calling(conn, BatchRequest(t.nextId, KeptNames(t.kept), false), Aborting)
  }

  /** What an error does to each waiting call. */
  function CallFailed(conn: Conn): Conn {
    var t := conn.target;
    match t.pc
    case Listing => Now(conn, t.(pc := Over))
    case Adopting => Skip(conn)
    case Snapshotting(_, _, _) =>
      if t.next < |t.listed| then Calling(conn, AdoptRequest(t.nextId, t.listed[t.next]), Retrying) else conn
    case Retrying => Skip(conn)
    case Dropping => Now(conn, t.(pc := Preparing, next := t.next + 1))
    case Committing => GiveUp(conn)
    case Aborting => Now(conn, t.(pc := Over))
    case _ => conn
  }

  /** The target keeps a state built on the session's PTY and on its log, end bytes long. */
  function Keep(conn: Conn, end: nat, name: Name, sid: SessId, master: Option<SessId>, screen: seq<byte>,
                build: Build): Conn {
    var t := conn.target;
    var anew := build == Lossy(true);
    var kept := Kept(name, sid, master, build.Native?, if anew then end else 0, if anew then 0 else end,
                     if build.Native? then screen else [], Idle);
    Now(conn, t.(pc := Preparing, next := t.next + 1, kept := t.kept + [kept]))
  }

  function LogEnd(ss: map<SessId, Session>, sid: SessId): nat {
    if sid in ss then |ss[sid].log| else 0
  }

  predicate CanReceive(st: State, c: ConnId) {
    IsTarget(st, c) && st.conns[c].replies != []
  }

  /** The next frame is read; its descriptor joins the queue of received ones. */
  function Popped(conn: Conn): Conn
    requires conn.replies != []
  {
    var r := conn.replies[0];
    conn.(replies := conn.replies[1..],
          target := conn.target.(fds := if r.fd.Some? then conn.target.fds + [r.fd.value] else conn.target.fds))
  }

  /** A reply is read, whatever it answers; ss is where logs are found on disk. */
  function Received(ss: map<SessId, Session>, conn: Conn, build: Build): Conn
    requires conn.replies != []
  {
    var reply := conn.replies[0];
    if reply.id + 1 != conn.target.nextId || reply.body.Refused? then CallFailed(Popped(conn))
    else Understood(ss, Popped(conn), reply.body, build)
  }

  /** The answer the target was waiting for. */
  function Understood(ss: map<SessId, Session>, conn: Conn, body: Body, build: Build): Conn {
    var t := conn.target;
    match t.pc
    case Listing =>
      if body.Listed? then Now(conn, t.(pc := Preparing, listed := body.names, next := 0)) else CallFailed(conn)
    case Adopting =>
      if body.Adopted? && (body.alive ==> t.fds != []) then AdoptReceived(conn, body) else CallFailed(conn)
    case Snapshotting(name, sid, master) =>
      if !body.Snapshot? then CallFailed(conn)
      else if build.Unusable? || (build.Native? && !body.native) then Skip(conn)
      else Keep(conn, LogEnd(ss, sid), name, sid, master, body.screen, build)
    case Retrying =>
      if body.Adopted? && (body.alive ==> t.fds != []) && build.Lossy? then
        Keep(FdTaken(conn, body), LogEnd(ss, body.sid), body.name, body.sid, Master(conn, body), [], build)
      else CallFailed(conn)
    case Committing =>
      if body == Resolved(|t.kept|) then Now(conn, t.(pc := Published, kept := TakersStarted(t.kept)))
      else CallFailed(conn)
    case _ => CallFailed(conn)
  }

  /** takeFD: the first descriptor received, if the session is alive. */
  function Master(conn: Conn, body: Body): Option<SessId>
    requires body.Adopted? && (body.alive ==> conn.target.fds != [])
  {
    if body.alive then Some(conn.target.fds[0]) else None
  }

  function FdTaken(conn: Conn, body: Body): Conn
    requires body.Adopted? && (body.alive ==> conn.target.fds != [])
  {
    if body.alive then Now(conn, conn.target.(fds := conn.target.fds[1..])) else conn
  }

  /** adopt answered: take the descriptor if the session is alive, then ask for the snapshot. */
  function AdoptReceived(conn: Conn, body: Body): Conn
    requires body.Adopted? && (body.alive ==> conn.target.fds != [])
  {
    Calling(FdTaken(conn, body), SnapshotRequest(conn.target.nextId, body.name),
            Snapshotting(body.name, body.sid, Master(conn, body)))
  }

  function TakersStarted(kept: seq<Kept>): seq<Kept> {
    seq(|kept|, i requires 0 <= i < |kept| => if kept[i].master.Some? then kept[i].(taker := Taking) else kept[i])
  }

  predicate CanFail(st: State, c: ConnId) {
    IsTarget(st, c) && !st.conns[c].target.pc.Begin? && !st.conns[c].target.pc.Preparing?
  }

  predicate CanTake(st: State, c: ConnId, i: nat) {
    && IsTarget(st, c) && st.conns[c].target.pc.Published? && i < |st.conns[c].target.kept|
    && st.conns[c].target.kept[i].master.Some?
    && st.conns[c].target.kept[i].master.value in st.sessions
    && st.conns[c].target.kept[i].sid in st.sessions
  }

  function WithKept(st: State, c: ConnId, i: nat, kept: Kept): State
    requires c in st.conns && i < |st.conns[c].target.kept|
  {
    WithTarget(st, c, st.conns[c].target.(kept := st.conns[c].target.kept[i := kept]))
  }

  predicate CanTargetRead(st: State, c: ConnId, i: nat, n: nat) {
    && CanTake(st, c, i) && st.conns[c].target.kept[i].taker.Taking?
    && 0 < n <= |st.sessions[st.conns[c].target.kept[i].master.value].queue|
  }

  function TargetRead(st: State, c: ConnId, i: nat, n: nat): State
    requires CanTargetRead(st, c, i, n)
  {
    var k := st.conns[c].target.kept[i];
    var s := st.sessions[k.master.value];
    WithKept(WithSession(st, k.master.value, ReadFromPty(s, n)), c, i, k.(taker := Recording(s.queue[..n])))
  }

  predicate CanTargetRecord(st: State, c: ConnId, i: nat) {
    CanTake(st, c, i) && st.conns[c].target.kept[i].taker.Recording?
  }

  /** The target appends to the log it opened and feeds its own screen. */
  function TargetRecorded(st: State, c: ConnId, i: nat, ok: bool): State
    requires CanTargetRecord(st, c, i)
  {
    var k := st.conns[c].target.kept[i];
    var chunk := k.taker.chunk;
    var s := st.sessions[k.sid];
    var emptied := s.(hand := Emptied(s.hand, chunk));
    if ok && !s.logFailed then
      WithKept(WithSession(st, k.sid, emptied.(log := s.log + chunk)), c, i,
               k.(index := k.index + |chunk|, screen := k.screen + chunk, taker := Taking))
    else
      WithKept(WithSession(st, k.sid, emptied.(lost := s.lost + chunk, logFailed := true)), c, i, k.(taker := Stopped))
  }

  predicate CanTargetStop(st: State, c: ConnId, i: nat) {
    CanTake(st, c, i) && st.conns[c].target.kept[i].taker.Taking?
  }

  function TargetStopped(st: State, c: ConnId, i: nat): State
    requires CanTargetStop(st, c, i)
  {
    WithKept(st, c, i, st.conns[c].target.kept[i].(taker := Stopped))
  }

  function ForeignSent(st: State, c: ConnId, request: Request): State
    requires c in st.conns
  {
    WithConn(st, c, st.conns[c].(requests := st.conns[c].requests + [request]))
  }

  function ForeignReceived(st: State, c: ConnId): State
    requires c in st.conns && st.conns[c].replies != []
  {
    WithConn(st, c, st.conns[c].(replies := st.conns[c].replies[1..]))
  }

  // ------------------------------------------------------------------ all steps

  predicate IsCopierStep(step: Step) {
    || step.CopierReads? || step.CopierRecords? || step.CopierStops? || step.CopierSees? || step.DrainReads?
    || step.DrainRecords? || step.DrainEnds? || step.CopierDecides? || step.CopierSettles? || step.CopierCloses?
  }

  /** Steps of children and clients, and the crash of the source. */
  predicate OfClients(step: Step) {
    || step.ChildWrites? || step.StartSession? || step.DeleteSession? || step.CloseHub? || step.ResizeDrains?
    || step.SourceCrashes?
  }

  /** Steps of a handler between taking a request and being ready for the next. */
  predicate OfWalk(step: Step) {
    || step.AdoptSettled? || step.AdoptTimesOut? || step.Chooses? || step.Finishes? || step.BatchEnds?
    || step.Disconnects? || step.Unwinds?
  }

  /** Steps in which a handler takes a request. */
  predicate OfRequest(step: Step) {
    || step.HandleList? || step.HandleAdopt? || step.HandleSnapshot? || step.HandleBatch? || step.HandleExit?
    || step.HandleOther?
  }

  predicate CopierMoves(st: State, step: Step, st': State) {
    && IsCopierStep(step) && CanCopy(st, step.sid)
    && CopierStep(st.sessions[step.sid], step).Some?
    && st' == WithSession(st, step.sid, CopierStep(st.sessions[step.sid], step).value)
  }

  predicate ClientStep(st: State, step: Step, st': State) {
    match step
    case ChildWrites(sid, data) => sid in st.sessions && st' == ChildWritten(st, sid, data)
    case StartSession(name, sid) => CanStart(st, name, sid) && st' == Started(st, name, sid)
    case DeleteSession(name) => CanOperate(st, name) && st' == Deleted(st, name)
    case CloseHub => CanClose(st) && st' == HubClosed(st)
    case ResizeDrains(name, n, ok) => CanResize(st, name, n) && st' == Resized(st, name, n, ok)
    case SourceCrashes => st' == st.(up := false)
    case _ => false
  }

  ghost predicate RequestStep(st: State, step: Step, st': State) {
    match step
    case HandleList(c, order, sent) => CanList(st, c, order) && st' == ListedState(st, c, order, sent)
    case HandleAdopt(c, sent) => CanAdopt(st, c) && st' == AdoptBegun(st, c, sent)
    case HandleSnapshot(c, native, sent) => CanSnapshot(st, c) && st' == SnapshotAnswered(st, c, native, sent)
    case HandleBatch(c, sent) => CanBatch(st, c) && st' == BatchBegun(st, c, sent)
    case HandleExit(c, sent) => CanExit(st, c) && st' == ExitAnswered(st, c, sent)
    case HandleOther(c, sent) => CanOther(st, c) && st' == OtherAnswered(st, c, sent)
    case _ => false
  }

  ghost predicate WalkStep(st: State, step: Step, st': State) {
    match step
    case AdoptSettled(c, sent) => CanSettleAdopt(st, c) && st' == AdoptAnswered(st, c, sent)
    case AdoptTimesOut(c) => InStabilizing(st, c) && st' == AdoptExpired(st, c)
    case Chooses(c) => CanChoose(st, c) && st' == Chosen(st, c)
    case Finishes(c) => CanFinish(st, c) && st' == Finished(st, c)
    case BatchEnds(c, sent) => CanEnd(st, c) && st' == Ended(st, c, sent)
    case Disconnects(c) => CanDisconnect(st, c) && st' == Disconnected(st, c)
    case Unwinds(c, order) => CanUnwind(st, c, order) && st' == Unwound(st, c, order)
    case _ => false
  }

  predicate TargetStep(st: State, step: Step, st': State) {
    match step
    case Connect(c, foreign) => c !in st.conns && st' == WithConn(st, c, NewConn(foreign))
    case TargetSends(c) => CanSend(st, c) && st' == WithConn(st, c, Sent(st.conns[c]))
    case TargetReceives(c, build) =>
      CanReceive(st, c) && st' == WithConn(st, c, Received(st.sessions, st.conns[c], build))
    case TargetWriteFails(c) =>
      IsTarget(st, c) && CanLoseCall(st.conns[c]) && st' == WithConn(st, c, Unsent(st.conns[c]))
    case TargetCallFails(c) => CanFail(st, c) && st' == WithConn(st, c, CallFailed(st.conns[c]))
    case TargetReads(c, i, n) => CanTargetRead(st, c, i, n) && st' == TargetRead(st, c, i, n)
    case TargetRecords(c, i, ok) => CanTargetRecord(st, c, i) && st' == TargetRecorded(st, c, i, ok)
    case TargetStops(c, i) => CanTargetStop(st, c, i) && st' == TargetStopped(st, c, i)
    case TargetCrashes(c) => IsTarget(st, c) && st' == WithTarget(st, c, st.conns[c].target.(pc := Crashed))
    case ForeignSends(c, request) =>
      c in st.conns && st.conns[c].target.pc.Foreign? && st' == ForeignSent(st, c, request)
    case ForeignReceives(c) =>
      c in st.conns && st.conns[c].target.pc.Foreign? && st.conns[c].replies != [] && st' == ForeignReceived(st, c)
    case _ => false
  }

  /** A step of a handler. */
  ghost predicate HandlerStep(st: State, step: Step, st': State) {
    if OfWalk(step) then WalkStep(st, step, st') else RequestStep(st, step, st')
  }

  /** st goes to st' by step. */
  ghost predicate Next(st: State, step: Step, st': State) {
    if IsCopierStep(step) then CopierMoves(st, step, st')
    else if OfClients(step) then ClientStep(st, step, st')
    else if OfWalk(step) || OfRequest(step) then HandlerStep(st, step, st')
    else TargetStep(st, step, st')
  }
}
