/**
  The rolling-upgrade handoff as a step system. One source server, any number
  of admin connections to it, each with its handler in the source and a target
  process at the other end, and under each session a child writing to a PTY.
  Every step is one atomic action of one party; any enabled step may come next,
  so a timeout, a failed write, a disconnect and a crash are steps like others.
 */
module HandoffState {
  import opened Basics

  type Name = string
  type ConnId = nat
  type SessId = nat

  // ------------------------------------------------------ sessions in the source

  /** One handoff attempt. begunBy is the connection whose handler began it. */
  datatype Ticket = Ticket(
    alive: bool, stable: bool, failed: bool, decision: Option<bool>, stopped: bool, begunBy: ConnId)

  /** Where a session's copy loop is. */
  datatype Copier =
    | Running
    | Holding(chunk: seq<byte>)               // read under the output lock, not yet recorded
    | Draining(ticket: nat)                   // saw an undecided ticket
    | Drained(ticket: nat, chunk: seq<byte>)  // read while draining, not yet recorded
    | Awaiting(ticket: nat, clean: bool)      // marked stable, blocked on the decision
    | Exiting                                 // the loop returned
    | Settled                                 // undecided ticket settled, done not yet closed
    | Done

  /**
    A session object. queue is what the PTY holds; hand is what some process
    has read from the PTY and not yet recorded; lost is what could not be
    recorded. written, finished and given are history: everything the child
    wrote, how many finishMigration calls completed, and the connection a
    commit was decided for.
   */
  datatype Session = Session(
    name: Name,
    tickets: seq<Ticket>, migration: Option<nat>, gate: Option<nat>, finished: nat,
    migrated: bool, given: Option<ConnId>,
    copier: Copier,
    written: seq<byte>, queue: seq<byte>, hand: seq<byte>, lost: seq<byte>,
    log: seq<byte>, logFailed: bool, index: nat, screen: seq<byte>)

  function NewSession(name: Name): Session {
    Session(name, [], None, None, 0, false, None, Running, [], [], [], [], [], false, 0, [])
  }

  // ------------------------------------------------------------- the wire

  datatype Request =
    | ListRequest(id: nat)
    | AdoptRequest(id: nat, name: Name)
    | SnapshotRequest(id: nat, name: Name)
    | BatchRequest(id: nat, names: seq<Name>, commit: bool)
    | ExitRequest(id: nat)
    | OtherRequest(id: nat)

  datatype Body =
    | Refused
    | Listed(names: seq<Name>)
    | Adopted(name: Name, sid: SessId, alive: bool)
    | Snapshot(screen: seq<byte>, native: bool)
    | Resolved(count: nat)
    | Fine

  /** fd is the descriptor travelling with the frame, named by its session. */
  datatype Reply = Reply(id: nat, body: Body, fd: Option<SessId>)

  // ----------------------------------------------------- the source's handler

  datatype Adoption = Adoption(sid: SessId, ticket: nat)

  datatype After = AdoptFailed(name: Name) | Unstable(all: seq<Name>) | Batch(commit: bool) | Unwind

  /** Resolving walks batch; done of them are resolved; chosen says the next one's decision is out. */
  datatype HandlerPc =
    | Ready
    | Stabilizing(id: nat, name: Name)
    | Resolving(id: nat, batch: seq<Name>, done: nat, chosen: bool, eff: bool, bad: bool, after: After)
    | Leaving
    | Gone

  datatype Handler = Handler(pc: HandlerPc, frozen: bool, pending: map<Name, Adoption>)

  // ------------------------------------------------------- the target process

  /** The target's copy loop for one session. */
  datatype Taker = Idle | Taking | Recording(chunk: seq<byte>) | Stopped

  /** A session state the target has prepared: base is where its log starts, index its segment size. */
  datatype Kept = Kept(
    name: Name, sid: SessId, master: Option<SessId>, native: bool, base: nat, index: nat,
    screen: seq<byte>, taker: Taker)

  datatype TargetPc =
    | Begin
    | Listing
    | Preparing
    | Adopting
    | Snapshotting(name: Name, sid: SessId, master: Option<SessId>)
    | Retrying
    | Dropping
    | Committing
    | Aborting
    | Published
    | Over
    | Crashed
    | Foreign      // some other client of the admin socket

  datatype Target = Target(
    pc: TargetPc, nextId: nat, listed: seq<Name>, next: nat, kept: seq<Kept>, skipped: bool, fds: seq<SessId>)

  /** inventory is history: the names frozen by this connection's last list, None before one is granted. */
  datatype Conn = Conn(
    handler: Handler, requests: seq<Request>, replies: seq<Reply>, target: Target, inventory: Option<seq<Name>>)

  function NewConn(foreign: bool): Conn {
    Conn(Handler(Ready, false, map[]), [], [],
         Target(if foreign then Foreign else Begin, 1, [], 0, [], false, []), None)
  }

  /**
    lock is the write side of the hub's lifecycle lock. panicked records the
    unlock of a lock that is not held; broken records the branch of the commit
    handler that its own comment calls unreachable.
   */
  datatype State = State(
    up: bool, closed: bool, hub: map<Name, SessId>, lock: Option<ConnId>,
    sessions: map<SessId, Session>, conns: map<ConnId, Conn>, panicked: bool, broken: bool)

  const INITIAL := State(true, false, map[], None, map[], map[], false, false)

  // ------------------------------------------------------------------ helpers

  function WithSession(st: State, sid: SessId, s: Session): State {
    st.(sessions := st.sessions[sid := s])
  }

  function WithConn(st: State, c: ConnId, conn: Conn): State {
    st.(conns := st.conns[c := conn])
  }

  function WithHandler(conn: Conn, pc: HandlerPc): Conn {
    conn.(handler := conn.handler.(pc := pc))
  }

  function WithTarget(st: State, c: ConnId, target: Target): State
    requires c in st.conns
  {
    WithConn(st, c, st.conns[c].(target := target))
  }

  function WithTicket(s: Session, t: nat, ticket: Ticket): Session
    requires t < |s.tickets|
  {
    s.(tickets := s.tickets[t := ticket])
  }

  /** From st to st', of all connections only c's changed. */
  predicate Touches(st: State, st': State, c: ConnId) {
    c in st'.conns && st'.conns == st.conns[c := st'.conns[c]]
  }

  /** The same, and c's target did not move. */
  predicate Handles(st: State, st': State, c: ConnId) {
    Touches(st, st', c) && c in st.conns && st'.conns[c].target == st.conns[c].target
  }

  /** The same, and nothing was listed. */
  predicate Serves(st: State, st': State, c: ConnId) {
    Handles(st, st', c) && st'.conns[c].inventory == st.conns[c].inventory
  }

  /** A reply that may fail to leave. */
  function Replying(conn: Conn, reply: Reply, sent: bool): Conn {
    if sent then conn.(replies := conn.replies + [reply]) else conn
  }

  ghost predicate NoDup<T>(s: seq<T>) {
    forall i, j :: 0 <= i < j < |s| ==> s[i] != s[j]
  }

  function Names(s: seq<Name>): set<Name> {
    set i | 0 <= i < |s| :: s[i]
  }

  function KeptNames(kept: seq<Kept>): seq<Name> {
    seq(|kept|, i requires 0 <= i < |kept| => kept[i].name)
  }

  // ------------------------------------------------------- bytes of a session

  /** A process reads n bytes from the PTY. */
  function ReadFromPty(s: Session, n: nat): Session
    requires n <= |s.queue|
  {
    s.(queue := s.queue[n..], hand := s.hand + s.queue[..n])
  }

  /** hand without the chunk that was recorded or lost. */
  function Emptied(hand: seq<byte>, chunk: seq<byte>): seq<byte> {
    if chunk <= hand then hand[|chunk|..] else hand
  }

  /** The source appends a chunk to the log and feeds its screen; a failed log takes nothing. */
  function Recorded(s: Session, chunk: seq<byte>, ok: bool): Session {
    var s := s.(hand := Emptied(s.hand, chunk));
    if ok && !s.logFailed then s.(log := s.log + chunk, index := s.index + |chunk|, screen := s.screen + chunk)
    else s.(lost := s.lost + chunk, logFailed := true)
  }

  // ---------------------------------------------------------- finishMigration

  /** Sets the decision unless one is already out. */
  function Choose(t: Ticket, commit: bool): Ticket {
    if t.decision.None? then t.(decision := Some(commit)) else t
  }

  function MarkStable(t: Ticket, clean: bool): Ticket {
    t.(stable := true, failed := t.failed || !clean)
  }

  // ------------------------------------------------------------------- steps

  datatype Build = Native | Lossy(anew: bool) | Unusable

  datatype Step =
    // children and clients of the source
    | ChildWrites(sid: SessId, data: seq<byte>)
    | StartSession(name: Name, sid: SessId)
    | DeleteSession(name: Name)
    | CloseHub
    | ResizeDrains(name: Name, n: nat, ok: bool)
    // copy loops
    | CopierReads(sid: SessId, n: nat)
    | CopierRecords(sid: SessId, ok: bool)
    | CopierStops(sid: SessId)
    | CopierSees(sid: SessId)
    | DrainReads(sid: SessId, n: nat)
    | DrainRecords(sid: SessId, ok: bool)
    | DrainEnds(sid: SessId, clean: bool)
    | CopierDecides(sid: SessId)
    | CopierSettles(sid: SessId)
    | CopierCloses(sid: SessId)
    // the handler of connection c
    | HandleList(c: ConnId, order: seq<Name>, sent: bool)
    | HandleAdopt(c: ConnId, sent: bool)
    | AdoptSettled(c: ConnId, sent: bool)
    | AdoptTimesOut(c: ConnId)
    | HandleSnapshot(c: ConnId, native: bool, sent: bool)
    | HandleBatch(c: ConnId, sent: bool)
    | HandleExit(c: ConnId, sent: bool)
    | HandleOther(c: ConnId, sent: bool)
    | Chooses(c: ConnId)
    | Finishes(c: ConnId)
    | BatchEnds(c: ConnId, sent: bool)
    | Disconnects(c: ConnId)
    | Unwinds(c: ConnId, order: seq<Name>)
    // the target of connection c
    | Connect(c: ConnId, foreign: bool)
    | TargetSends(c: ConnId)
    | TargetReceives(c: ConnId, build: Build)
    | TargetWriteFails(c: ConnId)
    | TargetCallFails(c: ConnId)
    | TargetReads(c: ConnId, i: nat, n: nat)
    | TargetRecords(c: ConnId, i: nat, ok: bool)
    | TargetStops(c: ConnId, i: nat)
    | TargetCrashes(c: ConnId)
    | ForeignSends(c: ConnId, request: Request)
    | ForeignReceives(c: ConnId)
    | SourceCrashes
}
