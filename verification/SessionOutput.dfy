/**
  A session's output side: its log, the terminal as the bytes fed to it and the
  grid they are laid out on, and the PTY queue. Each method is one or more
  critical sections of the output lock; whenever the lock is free, what was fed
  is what was recorded, and the log attributes what comes next to the session's
  size.
 */
module SessionOutput {
  import opened Basics
  import opened OutputModel
  import opened OutputStore
  import opened OutputReader
  import opened CheckpointModel

  const HANDOFF_BUDGET := 0x80_0000
  const RESIZE_BUDGET := 0x10_0000
  const RESIZE_BUFFER := 0x8000

  /**
    What a round of reading the PTY meets: what the child writes before it, how
    many bytes are read, whether the log takes them, whether the read fails
    after all.
   */
  datatype Pull = Pull(arrives: seq<byte>, n: nat, wrote: bool, bad: bool)

  /** What the child writes in these rounds. */
  function Arrivals(pulls: seq<Pull>): seq<byte> {
    if pulls == [] then [] else Arrivals(pulls[..|pulls| - 1]) + pulls[|pulls| - 1].arrives
  }

  /** size is the session's; grid is the one the replayed terminal was captured on. */
  datatype Checkpoint = Checkpoint(replay: seq<byte>, cursor: Cursor, size: Size, grid: Size)

  /** How a drain ends. */
  datatype Drain = Drained | ReadFailed | AppendFailed

  predicate ValidSize(size: Size) {
    0 < size.columns <= 0xffff && 0 < size.rows <= 0xffff
  }

  // ------------------------------------------------------------ what moves

  /** h' is h with moved appended to generation g under size, and then current in force. */
  ghost predicate Turned(h: History, h': History, g: nat, moved: seq<byte>, size: Size, current: Size) {
    && g in h.bytes && g in h.tags
    && h' == h.(bytes := h.bytes[g := h.bytes[g] + moved],
                tags := h.tags[g := h.tags[g] + Repeat(size, |moved|)],
                current := current)
  }

  /** h' is h with moved appended to generation g under size. */
  ghost predicate Grown(h: History, h': History, g: nat, moved: seq<byte>, size: Size) {
    Turned(h, h', g, moved, size, h.current)
  }

  lemma GrownNothing(h: History, g: nat, size: Size)
    requires g in h.bytes && g in h.tags
    ensures Grown(h, h, g, [], size)
  {
    assert h.bytes[g] + [] == h.bytes[g] && h.tags[g] + Repeat(size, 0) == h.tags[g];
    assert h.bytes[g := h.bytes[g]] == h.bytes && h.tags[g := h.tags[g]] == h.tags;
  }

  lemma GrownTwice(h: History, h1: History, h2: History, g: nat, x: seq<byte>, y: seq<byte>, size: Size)
    requires Grown(h, h1, g, x, size) && Grown(h1, h2, g, y, size)
    ensures Grown(h, h2, g, x + y, size)
  {
    assert h.bytes[g] + x + y == h.bytes[g] + (x + y);
    assert h.tags[g] + Repeat(size, |x|) + Repeat(size, |y|) == h.tags[g] + Repeat(size, |x + y|);
  }

  /** A session's bytes at one moment: its record, what the terminal was fed, what the PTY holds. */
  datatype Flow = Flow(history: History, fed: seq<byte>, queue: seq<byte>)

  /** What the PTY held and what came are what was taken from it and what it holds. */
  ghost predicate Drawn(queue: seq<byte>, came: seq<byte>, moved: seq<byte>, queue': seq<byte>) {
    queue + came == moved + queue'
  }

  lemma DrawnTwice(q: seq<byte>, q1: seq<byte>, q2: seq<byte>, came: seq<byte>, more: seq<byte>, x: seq<byte>,
                   y: seq<byte>)
    requires Drawn(q, came, x, q1) && q1 + more == y + q2
    ensures Drawn(q, came + more, x + y, q2)
  {
    Associative(q, came, more);
    Associative(x, q1, more);
    Associative(x, y, q2);
  }

  /**
    From a to b, while came arrived, moved went from the front of the PTY into
    the log, tagged with size, and into the terminal.
   */
  ghost predicate Moves(a: Flow, b: Flow, g: nat, came: seq<byte>, moved: seq<byte>, size: Size) {
    Drawn(a.queue, came, moved, b.queue) && b.fed == a.fed + moved && Grown(a.history, b.history, g, moved, size)
  }

  lemma MovesTwice(a: Flow, b: Flow, c: Flow, g: nat, came: seq<byte>, more: seq<byte>, x: seq<byte>, y: seq<byte>,
                   size: Size)
    requires Moves(a, b, g, came, x, size) && Moves(b, c, g, more, y, size)
    ensures Moves(a, c, g, came + more, x + y, size)
  {
    GrownTwice(a.history, b.history, c.history, g, x, y, size);
    DrawnTwice(a.queue, b.queue, c.queue, came, more, x, y);
    Associative(a.fed, x, y);
  }

  lemma MovesNothing(a: Flow, g: nat, size: Size)
    requires g in a.history.bytes && g in a.history.tags
    ensures Moves(a, a, g, [], [], size)
  {
    GrownNothing(a.history, g, size);
    assert a.fed + [] == a.fed && a.queue + [] == [] + a.queue;
  }

  /** A drain from a to b that ends so: a failed append leaves the log closed, with its chunk taken and not recorded. */
  ghost predicate Drains(a: Flow, b: Flow, g: nat, came: seq<byte>, moved: seq<byte>, size: Size, end: Drain,
                         closed: bool) {
    && Drawn(a.queue, came, moved, b.queue)
    && if end.AppendFailed? then closed else Moves(a, b, g, came, moved, size)
  }

  lemma DrainsOn(a: Flow, b: Flow, c: Flow, g: nat, came: seq<byte>, more: seq<byte>, x: seq<byte>, y: seq<byte>,
                 size: Size, end: Drain, closed: bool)
    requires Moves(a, b, g, came, x, size) && Drains(b, c, g, more, y, size, end, closed)
    ensures Drains(a, c, g, came + more, x + y, size, end, closed)
  {
    DrawnTwice(a.queue, b.queue, c.queue, came, more, x, y);
    if !end.AppendFailed? {
      MovesTwice(a, b, c, g, came, more, x, y, size);
    }
  }

  lemma ArrivalsNext(pulls: seq<Pull>, k: nat)
    requires k < |pulls|
    ensures Arrivals(pulls[..k + 1]) == Arrivals(pulls[..k]) + pulls[k].arrives
  {
    assert pulls[..k + 1][..k] == pulls[..k];
  }

  lemma DrainsNext(a: Flow, b: Flow, c: Flow, g: nat, pulls: seq<Pull>, k: nat, x: seq<byte>, y: seq<byte>, size: Size,
                   end: Drain, closed: bool)
    requires k < |pulls| && Moves(a, b, g, Arrivals(pulls[..k]), x, size)
    requires Drains(b, c, g, pulls[k].arrives, y, size, end, closed)
    ensures Drains(a, c, g, Arrivals(pulls[..k + 1]), x + y, size, end, closed)
  {
    ArrivalsNext(pulls, k);
    DrainsOn(a, b, c, g, Arrivals(pulls[..k]), pulls[k].arrives, x, y, size, end, closed);
  }

  // ------------------------------------------------- how a drain goes

  /** Whether an append takes its chunk. */
  predicate Takes(log: Log, chunk: seq<byte>, wrote: bool)
    requires log.generation in log.segments
  {
    !log.closed && !Appended(log, chunk, wrote).closed
  }

  /** How many bytes a round reads of what the PTY holds. */
  function ReadCount(pull: Pull, room: nat, queue: seq<byte>): (n: nat)
    ensures n <= pull.n && n <= room && n <= |queue| && n in {pull.n, room, |queue|}
  {
    Min(Min(pull.n, room), |queue|)
  }

  /**
    Whether a drain comes to a chunk that the log refuses, told from what it
    starts with: the log, what the PTY holds and what its rounds will meet. It
    gets to the next round while it has budget, something to read, and no read
    that failed or, unless it is patient, brought nothing.
   */
  predicate Refuses(log: Log, queue: seq<byte>, pulls: seq<Pull>, k: nat, budget: int, room: nat, patient: bool)
    requires log.generation in log.segments && k <= |pulls|
    decreases |pulls| - k
  {
    if k == |pulls| || budget <= 0 then false
    else
      var pull, held := pulls[k], queue + pulls[k].arrives;
      var n := ReadCount(pull, room, held);
      if n > 0 && !Takes(log, held[..n], pull.wrote) then true
      else
        && held != [] && !pull.bad && (n > 0 || patient)
        && Refuses(Appended(log, held[..n], pull.wrote), held[n..], pulls, k + 1, budget - n, room, patient)
  }

  /** The log and the PTY around a round that read chunk, and how it ended. */
  datatype Round = Round(log: Log, queue: seq<byte>, log': Log, queue': seq<byte>, chunk: seq<byte>, end: Drain)

  /** What a round of a drain does with the log and the PTY where there is something to read. */
  ghost predicate Reads(r: Round, pull: Pull, room: nat) {
    && r.log.generation in r.log.segments
    && Drawn(r.queue, pull.arrives, r.chunk, r.queue')
    && |r.chunk| == ReadCount(pull, room, r.queue + pull.arrives)
    && r.log' == Appended(r.log, r.chunk, pull.wrote)
    && r.end == if r.chunk != [] && !Takes(r.log, r.chunk, pull.wrote) then AppendFailed
                else if pull.bad then ReadFailed else Drained
  }

  /** The same where there may be nothing; go says whether another round may follow. */
  ghost predicate ReadsAny(r: Round, pull: Pull, room: nat, patient: bool, go: bool) {
    if r.queue + pull.arrives == [] then r.log' == r.log && r.chunk == [] && r.end.Drained? && !go
    else Reads(r, pull, room) && go == (r.end.Drained? && (r.chunk != [] || patient))
  }

  /** Why a drain goes no further: it has all there is, a read failed, or an impatient one read nothing. */
  predicate StopsFor(end: Drain, queue: seq<byte>, pull: Pull, room: nat, patient: bool) {
    match end
    case Drained => queue == [] || (!patient && ReadCount(pull, room, queue) == 0)
    case ReadFailed => pull.bad
    case AppendFailed => true
  }

  /** A drain refuses if the rest of it does, while it goes on, and if it ended so after that. */
  ghost predicate WillRefuse(log: Log, queue: seq<byte>, pulls: seq<Pull>, k: nat, budget: nat, moved: seq<byte>,
                             room: nat, patient: bool, end: Drain, go: bool)
  {
    if go then
      && log.generation in log.segments && k <= |pulls|
      && Refuses(log, queue, pulls, k, budget - |moved|, room, patient)
    else end.AppendFailed?
  }

  lemma WillRefuseNext(r: Round, pulls: seq<Pull>, k: nat, budget: nat, moved: seq<byte>, room: nat, patient: bool,
                       go: bool)
    requires k < |pulls| && |moved| < budget && ReadsAny(r, pulls[k], room, patient, go)
    ensures WillRefuse(r.log, r.queue, pulls, k, budget, moved, room, patient, Drained, true)
            == WillRefuse(r.log', r.queue', pulls, k + 1, budget, moved + r.chunk, room, patient, r.end, go)
  {
    var held := r.queue + pulls[k].arrives;
    if held != [] {
      assert held[..|r.chunk|] == r.chunk && held[|r.chunk|..] == r.queue';
    }
  }

  // --------------------------------------------- the resizes that got so far

  /** A resize that reached the terminal: what it asked for, and whether the PTY accepted it. */
  datatype Reach = Reach(asked: Size, accepted: bool)

  function SizeAfter(initial: Size, reached: seq<Reach>): Size {
    if reached == [] then initial
    else
      var last := reached[|reached| - 1];
      if last.accepted then last.asked else SizeAfter(initial, reached[..|reached| - 1])
  }

  function GridAfter(initial: Size, reached: seq<Reach>): Size {
    if reached == [] then initial else reached[|reached| - 1].asked
  }

  /** The last resize that reached the terminal was accepted, or asked for the size then in force. */
  predicate LastFits(initial: Size, reached: seq<Reach>) {
    var n := |reached| - 1;
    reached != [] ==> reached[n].accepted || reached[n].asked == SizeAfter(initial, reached[..n])
  }

  lemma AfterReach(initial: Size, reached: seq<Reach>, r: Reach)
    ensures GridAfter(initial, reached + [r]) == r.asked
    ensures SizeAfter(initial, reached + [r]) == if r.accepted then r.asked else SizeAfter(initial, reached)
  {
    assert (reached + [r])[..|reached|] == reached;
  }

  // ------------------------------------------------- what every operation keeps

  /**
    Of a log that has recorded h since start: what the terminal was fed is what
    was recorded, unless the log failed; and while the log is open the size in
    force is the session's.
   */
  ghost predicate Sound(log: Log, h: History, start: Cursor, fed: seq<byte>, size: Size) {
    && Consistent(log, h) && Since(log, h, start)
    && (!log.failed ==> fed == Taken(log, h, start))
    && (!log.closed ==> h.current == size)
  }

  lemma StartSound(log: Log, size: Size)
    requires Opened(log)
    ensures Sound(Marked(log, size), Record(log, Initial(log), Mark(size)), End(log), [], size)
    ensures Sound(Closed(log), Initial(log), End(log), [], size)
  {
    InitialConsistent(log);
    MarkKeeps(log, Initial(log), size);
    MarkTakes(log, Initial(log), End(log), size);
  }

  lemma AppendGrows(log: Log, h: History, chunk: seq<byte>, wrote: bool)
    requires WellFormed(log) && SameBytes(log, h) && chunk != []
    ensures var h' := Record(log, h, Append(chunk, wrote));
            if Takes(log, chunk, wrote) then Grown(h, h', log.generation, chunk, h.current) else h' == h
  {
    if Takes(log, chunk, wrote) {
      assert |Appended(log, chunk, wrote).segments[log.generation]| > |log.segments[log.generation]|;
    }
  }

  lemma AppendSound(log: Log, h: History, start: Cursor, fed: seq<byte>, size: Size, chunk: seq<byte>, wrote: bool)
    requires Sound(log, h, start, fed, size) && chunk != []
    ensures Sound(Appended(log, chunk, wrote), Record(log, h, Append(chunk, wrote)), start,
                  if Takes(log, chunk, wrote) then fed + chunk else fed, size)
  {
    AppendKeeps(log, h, chunk, wrote);
    AppendTakes(log, h, start, chunk, wrote);
    AppendGrows(log, h, chunk, wrote);
  }

  lemma MarkSound(log: Log, h: History, start: Cursor, fed: seq<byte>, size: Size, grid: Size)
    requires Sound(log, h, start, fed, size)
    ensures Sound(Marked(log, grid), Record(log, h, Mark(grid)), start, fed, grid)
  {
    MarkKeeps(log, h, grid);
    MarkTakes(log, h, start, grid);
  }

  lemma RotateSound(log: Log, h: History, start: Cursor, fed: seq<byte>, size: Size, created: bool)
    requires Sound(log, h, start, fed, size)
    ensures Sound(Rotated(log, created), Record(log, h, Rotate(created)), start, fed, size)
  {
    RotateKeeps(log, h, created);
    RotateTakes(log, h, start, created);
  }

  lemma PruneSound(log: Log, h: History, start: Cursor, fed: seq<byte>, size: Size, before: Cursor, removed: set<nat>,
                   done: bool)
    requires Sound(log, h, start, fed, size)
    ensures Sound(Pruned(log, before, removed, done), Record(log, h, Prune(before, removed, done)), start, fed, size)
  {
    PruneKeeps(log, h, before, removed, done);
    PruneTakes(log, h, start, before, removed, done);
  }

  class SessionState {
    const output: OutputLog
    var queue: seq<byte>
    var fed: seq<byte>
    var size: Size
    var grid: Size
    ghost var history: History
    ghost const start: Cursor
    ghost const initial: Size
    ghost var reached: seq<Reach>

    ghost predicate Recording()
      reads this, output
    {
      Sound(output.View(), history, start, fed, size)
    }

    /** Whenever the output lock is free. */
    ghost predicate Valid()
      reads this, output
    {
      Recording() && size == SizeAfter(initial, reached) && grid == GridAfter(initial, reached)
    }

    ghost function Flows(): Flow
      reads this
    {
      Flow(history, fed, queue)
    }

    /**
      A process starts a session on an open log or takes one over, with a
      terminal that has been fed nothing yet: what is recorded from here on is
      produced for this size. The log of an exited session is only closed.
     */
    constructor (log: OutputLog, size: Size, alive: bool)
      requires Opened(log.View())
      modifies log
      ensures Valid() && output == log && queue == [] && fed == [] && this.size == grid == size && reached == []
      ensures start == old(End(log.View())) == End(log.View()) && log.closed == !alive
      ensures alive ==> history.current == size
    {
      output := log;
      queue, fed, this.size, grid := [], [], size, size;
      initial, reached := size, [];
      start := End(log.View());
      history := if alive then OutputModel.Record(log.View(), Initial(log.View()), Mark(size)) else Initial(log.View());
      new;
      StartSound(log.View(), size);
      if alive {
        log.MarkSize(size);
      } else {
        log.Close();
      }
    }

    /** The child writes; the PTY holds it until somebody reads. */
    method ChildWrites(data: seq<byte>)
      requires Valid()
      modifies this`queue
      ensures Valid() && queue == old(queue) + data
    {
      queue := queue + data;
    }

    /** Under the lock: record what was read, and feed it only once it is recorded. */
    method Record(chunk: seq<byte>, wrote: bool) returns (ok: bool)
      requires Valid() && chunk != []
      modifies this`fed, this`history, output
      ensures Valid() && output.generation == old(output.generation)
      ensures fed == if ok then old(fed) + chunk else old(fed)
      ensures if ok then Grown(old(history), history, output.generation, chunk, size) else history == old(history)
      ensures !ok ==> output.closed
      ensures ok == Takes(old(output.View()), chunk, wrote)
      ensures output.View() == Appended(old(output.View()), chunk, wrote)
    {
      AppendSound(output.View(), history, start, fed, size, chunk, wrote);
      AppendGrows(output.View(), history, chunk, wrote);
      history := OutputModel.Record(output.View(), history, Append(chunk, wrote));
      ok := output.Append(chunk, wrote);
      if ok {
        fed := fed + chunk;
      }
    }

    /** Reads some of what the PTY holds. */
    method ReadPty(pull: Pull, room: nat) returns (chunk: seq<byte>)
      requires Valid()
      modifies this`queue
      ensures Valid() && old(queue) == chunk + queue && |chunk| == ReadCount(pull, room, old(queue))
    {
      var count := ReadCount(pull, room, queue);
      assert queue == queue[..count] + queue[count..];
      chunk, queue := queue[..count], queue[count..];
    }

    /** The chunk of a round is recorded, if it holds anything. */
    method RecordAny(chunk: seq<byte>, wrote: bool) returns (ok: bool)
      requires Valid()
      modifies this`fed, this`history, output
      ensures Valid() && output.generation == old(output.generation)
      ensures if ok then fed == old(fed) + chunk && Grown(old(history), history, output.generation, chunk, size)
              else output.closed
      ensures ok <==> chunk == [] || Takes(old(output.View()), chunk, wrote)
      ensures output.View() == Appended(old(output.View()), chunk, wrote)
    {
      if |chunk| > 0 {
        ok := Record(chunk, wrote);
      } else {
        GrownNothing(history, output.generation, size);
        assert fed + chunk == fed;
        ok := true;
      }
    }

    /** One round of a drain, at which some bytes have arrived. */
    method DrainRound(pull: Pull, room: nat) returns (chunk: seq<byte>, end: Drain)
      requires Valid()
      modifies this`queue, this`fed, this`history, output
      ensures Valid() && |chunk| <= room && output.generation == old(output.generation)
      ensures Drains(old(Flows()), Flows(), output.generation, pull.arrives, chunk, size, end, output.closed)
      ensures Reads(Round(old(output.View()), old(queue), output.View(), queue, chunk, end), pull, room)
    {
      ChildWrites(pull.arrives);
      chunk := ReadPty(pull, room);
      var ok := RecordAny(chunk, pull.wrote);
      end := if !ok then AppendFailed else if pull.bad then ReadFailed else Drained;
    }

    /** A round of the copy loop: it reads only what is there, and goes on unless the log or the read failed. */
    method CopyRound(pull: Pull, room: nat) returns (moved: seq<byte>, end: Drain)
      requires Valid()
      modifies this`queue, this`fed, this`history, output
      ensures Valid() && |moved| <= room
      ensures Drains(old(Flows()), Flows(), output.generation, pull.arrives, moved, size, end, output.closed)
      ensures old(queue) == [] && pull.arrives == [] ==> moved == [] && end.Drained?
      ensures old(queue) + pull.arrives != [] ==>
                Reads(Round(old(output.View()), old(queue), output.View(), queue, moved, end), pull, room)
    {
      if |queue| == 0 && |pull.arrives| == 0 {
        MovesNothing(Flows(), output.generation, size);
        return [], Drained;
      }
      moved, end := DrainRound(pull, room);
    }

    /** A round of a drain where there is something to read; go says whether another may follow. */
    method DrainNext(pull: Pull, room: nat, patient: bool) returns (chunk: seq<byte>, end: Drain, go: bool)
      requires Valid()
      modifies this`queue, this`fed, this`history, output
      ensures Valid() && |chunk| <= room && output.generation == old(output.generation)
      ensures Drains(old(Flows()), Flows(), output.generation, pull.arrives, chunk, size, end, output.closed)
      ensures go ==> end.Drained?
      ensures !go ==> StopsFor(end, queue, pull, room, patient)
      ensures ReadsAny(Round(old(output.View()), old(queue), output.View(), queue, chunk, end), pull, room, patient, go)
    {
      if |queue| == 0 && |pull.arrives| == 0 {
        MovesNothing(Flows(), output.generation, size);
        return [], Drained, false;
      }
      chunk, end := DrainRound(pull, room);
      go := end.Drained? && (|chunk| > 0 || patient);
    }

    /** A drain that began with before has moved so much in k rounds, and ended so unless it goes on. */
    ghost predicate Midway(before: Flow, pulls: seq<Pull>, k: nat, moved: seq<byte>, room: nat, patient: bool,
                           end: Drain, go: bool)
      reads this, output
    {
      && k <= |pulls| && Valid()
      && Drains(before, Flows(), output.generation, Arrivals(pulls[..k]), moved, size, end, output.closed)
      && (go ==> end.Drained?) && (!go ==> k > 0 && StopsFor(end, queue, pulls[k - 1], room, patient))
    }

    /** The next round of a drain, after which it refuses exactly if it did before. */
    method DrainDeciding(pulls: seq<Pull>, k: nat, room: nat, patient: bool, ghost budget: nat,
                         ghost moved: seq<byte>, ghost refuses: bool)
      returns (chunk: seq<byte>, end: Drain, go: bool)
      requires Valid() && k < |pulls| && |moved| < budget
      requires refuses == WillRefuse(output.View(), queue, pulls, k, budget, moved, room, patient, Drained, true)
      modifies this`queue, this`fed, this`history, output
      ensures Valid() && |chunk| <= room && output.generation == old(output.generation)
      ensures Drains(old(Flows()), Flows(), output.generation, pulls[k].arrives, chunk, size, end, output.closed)
      ensures (go ==> end.Drained?) && (!go ==> StopsFor(end, queue, pulls[k], room, patient))
      ensures refuses == WillRefuse(output.View(), queue, pulls, k + 1, budget, moved + chunk, room, patient, end, go)
    {
      ghost var held, log := queue, output.View();
      chunk, end, go := DrainNext(pulls[k], room, patient);
      WillRefuseNext(Round(log, held, output.View(), queue, chunk, end), pulls, k, budget, moved, room, patient, go);
    }

    /** The same, with what the drain has moved so far. */
    method DrainMore(pulls: seq<Pull>, k: nat, budget: nat, room: nat, patient: bool, moved: seq<byte>,
                     ghost before: Flow, ghost refuses: bool)
      returns (moved': seq<byte>, end: Drain, go: bool)
      requires k < |pulls| && |moved| < budget && Midway(before, pulls, k, moved, room, patient, Drained, true)
      requires refuses == WillRefuse(output.View(), queue, pulls, k, budget, moved, room, patient, Drained, true)
      modifies this`queue, this`fed, this`history, output
      ensures Midway(before, pulls, k + 1, moved', room, patient, end, go)
      ensures refuses == WillRefuse(output.View(), queue, pulls, k + 1, budget, moved', room, patient, end, go)
      ensures |moved'| <= |moved| + room && output.generation == old(output.generation)
    {
      ghost var now := Flows();
      var chunk;
      chunk, end, go := DrainDeciding(pulls, k, room, patient, budget, moved, refuses);
      DrainsNext(before, now, Flows(), output.generation, pulls, k, moved, chunk, size, end, output.closed);
      moved' := moved + chunk;
    }

    /** The loop of a drain, which began with before and is to refuse or not. */
    method DrainLoop(budget: nat, room: nat, patient: bool, pulls: seq<Pull>, ghost before: Flow, ghost refuses: bool)
      returns (moved: seq<byte>, end: Drain, rounds: nat, go: bool)
      requires Midway(before, pulls, 0, [], room, patient, Drained, true)
      requires refuses == WillRefuse(output.View(), queue, pulls, 0, budget, [], room, patient, Drained, true)
      modifies this`queue, this`fed, this`history, output
      ensures rounds <= |pulls| && output.generation == old(output.generation)
      ensures rounds == 0 ==> output.closed == old(output.closed)
      ensures moved == [] || |moved| < budget + room
      ensures Midway(before, pulls, rounds, moved, room, patient, end, go)
      ensures refuses == WillRefuse(output.View(), queue, pulls, rounds, budget, moved, room, patient, end, go)
      ensures go ==> rounds == |pulls| || |moved| >= budget
    {
      moved, end, rounds, go := [], Drained, 0, true;
      while go && rounds < |pulls| && |moved| < budget
        invariant rounds <= |pulls| && output.generation == old(output.generation)
        invariant rounds == 0 ==> output.closed == old(output.closed)
        invariant moved == [] || |moved| < budget + room
        invariant Midway(before, pulls, rounds, moved, room, patient, end, go)
        invariant refuses == WillRefuse(output.View(), queue, pulls, rounds, budget, moved, room, patient, end, go)
      {
        moved, end, go := DrainMore(pulls, rounds, budget, room, patient, moved, before, refuses);
        rounds := rounds + 1;
      }
    }

    /**
      Drains what is readable until a budget is spent, the PTY is empty or time
      is up (no pull is left); patient says whether a read of nothing is
      retried. The child may write all the while: rounds is how many rounds it
      had. However much it writes, less than the budget and one buffer is moved.
     */
    method DrainUpTo(budget: nat, room: nat, patient: bool, pulls: seq<Pull>)
      returns (moved: seq<byte>, end: Drain, rounds: nat)
      requires Valid()
      modifies this`queue, this`fed, this`history, output
      ensures Valid() && rounds <= |pulls| && output.generation == old(output.generation)
      ensures moved == [] || |moved| < budget + room
      ensures Drains(old(Flows()), Flows(), output.generation, Arrivals(pulls[..rounds]), moved, size, end,
                     output.closed)
      ensures end.AppendFailed? <==> Refuses(old(output.View()), old(queue), pulls, 0, budget, room, patient)
      ensures rounds == 0 ==> output.closed == old(output.closed)
      ensures rounds < |pulls| && |moved| < budget ==>
                rounds > 0 && StopsFor(end, queue, pulls[rounds - 1], room, patient)
    {
      MovesNothing(Flows(), output.generation, size);
      var go;
      moved, end, rounds, go := DrainLoop(budget, room, patient, pulls, Flows(),
                                          Refuses(output.View(), queue, pulls, 0, budget, room, patient));
    }

    /** The drain of a handoff reports both kinds of failure to its ticket. */
    method DrainOutput(room: nat, pulls: seq<Pull>) returns (moved: seq<byte>, clean: bool, rounds: nat)
      requires Valid()
      modifies this`queue, this`fed, this`history, output
      ensures Valid() && rounds <= |pulls| && Drawn(old(queue), Arrivals(pulls[..rounds]), moved, queue)
      ensures |moved| < 0x80_0000 + room
      ensures clean ==> Moves(old(Flows()), Flows(), output.generation, Arrivals(pulls[..rounds]), moved, size)
      ensures clean ==> rounds == |pulls| || |moved| >= HANDOFF_BUDGET || queue == []
    {
      var end;
      moved, end, rounds := DrainUpTo(HANDOFF_BUDGET, room, true, pulls);
      clean := end.Drained?;
    }

    /** From here on the log attributes bytes to this size. */
    method MarkGrid(grid: Size)
      requires Recording()
      modifies this`size, this`history, output
      ensures Recording() && size == grid
      ensures output.generation == old(output.generation) && output.closed == old(output.closed)
      ensures history == if output.closed then old(history) else old(history).(current := grid)
    {
      MarkSound(output.View(), history, start, fed, size, grid);
      history := OutputModel.Record(output.View(), history, Mark(grid));
      output.MarkSize(grid);
      size := grid;
    }

    /** The terminal takes the new grid; the session and the log follow if the PTY does. */
    method Settle(size': Size, accepted: bool)
      requires Valid()
      modifies this`size, this`grid, this`reached, this`history, output
      ensures Valid() && grid == size' && size == (if accepted then size' else old(size))
      ensures reached == old(reached) + [Reach(size', accepted)]
      ensures output.generation == old(output.generation) && output.closed == old(output.closed)
      ensures history == if accepted && !output.closed then old(history).(current := size') else old(history)
    {
      AfterReach(initial, reached, Reach(size', accepted));
      grid, reached := size', reached + [Reach(size', accepted)];
      if accepted {
        MarkGrid(size');
      }
    }

    /** What a resize does first: an invalid size stops it, and so does a drain that the log refuses. */
    method DrainForResize(size': Size, pulls: seq<Pull>) returns (drained: bool, moved: seq<byte>, rounds: nat)
      requires Valid()
      modifies this`queue, this`fed, this`history, output
      ensures Valid() && rounds <= |pulls| && output.generation == old(output.generation)
      ensures Drawn(old(queue), Arrivals(pulls[..rounds]), moved, queue) && |moved| < 0x10_0000 + 0x8000
      ensures drained <==> 0 < size'.columns <= 65535 && 0 < size'.rows <= 65535
                           && !Refuses(old(output.View()), old(queue), pulls, 0, RESIZE_BUDGET, RESIZE_BUFFER, false)
      ensures drained ==> Moves(old(Flows()), Flows(), output.generation, Arrivals(pulls[..rounds]), moved, size)
      ensures !ValidSize(size') ==> moved == [] && fed == old(fed) && history == old(history)
      ensures ValidSize(size') && !output.closed ==> drained
      ensures rounds == 0 ==> output.closed == old(output.closed)
      ensures drained && rounds < |pulls| && |moved| < RESIZE_BUDGET ==>
                rounds > 0 && (StopsFor(Drained, queue, pulls[rounds - 1], RESIZE_BUFFER, false)
                               || StopsFor(ReadFailed, queue, pulls[rounds - 1], RESIZE_BUFFER, false))
    {
      if !ValidSize(size') {
        assert queue + [] == [] + queue;
        return false, [], 0;
      }
      var end;
      moved, end, rounds := DrainUpTo(RESIZE_BUDGET, RESIZE_BUFFER, false, pulls);
      drained := !end.AppendFailed?;
    }

    /**
      Under the lock: what the child wrote for the old size is recorded and
      tagged with it before the terminal, the PTY and the log move to the new
      one. A read error is left to the copy loop. drained says whether the
      terminal was reached; it keeps the new grid even where the PTY refuses it.
     */
    method Resize(size': Size, pulls: seq<Pull>, ptySet: bool)
      returns (ok: bool, drained: bool, moved: seq<byte>, rounds: nat)
      requires Valid()
      modifies this, output
      ensures Valid() && rounds <= |pulls| && output.generation == old(output.generation)
      ensures Drawn(old(queue), Arrivals(pulls[..rounds]), moved, queue) && |moved| < 0x10_0000 + 0x8000
      ensures drained <==> 0 < size'.columns <= 65535 && 0 < size'.rows <= 65535
                           && !Refuses(old(output.View()), old(queue), pulls, 0, RESIZE_BUDGET, RESIZE_BUFFER, false)
      ensures reached == old(reached) + if drained then [Reach(size', ptySet)] else []
      ensures ok <==> drained && ptySet
      ensures size == (if ok then size' else old(size)) && grid == (if drained then size' else old(grid))
      ensures !ValidSize(size') ==> !drained && moved == [] && fed == old(fed) && history == old(history)
      ensures ValidSize(size') && !output.closed ==> drained
      ensures rounds == 0 ==> output.closed == old(output.closed)
      ensures drained && rounds < |pulls| && |moved| < RESIZE_BUDGET ==>
                rounds > 0 && (StopsFor(Drained, queue, pulls[rounds - 1], RESIZE_BUFFER, false)
                               || StopsFor(ReadFailed, queue, pulls[rounds - 1], RESIZE_BUFFER, false))
      ensures drained ==> fed == old(fed) + moved
      ensures drained ==>
                Turned(old(history), history, output.generation, moved, old(size),
                       if ok && !output.closed then size' else old(history).current)
      ensures grid == size <==> if drained then ptySet || size' == old(size) else old(grid) == old(size)
    {
      drained, moved, rounds := DrainForResize(size', pulls);
      ok := drained && ptySet;
      if drained {
        Settle(size', ptySet);
      } else {
        assert reached + [] == reached;
      }
    }

    /**
      A checkpoint or atomic state: the terminal, the cursor and the size are
      taken under one lock. While the log is open the size is the one in force
      at the cursor, for the record and for any reader's marks. It is the grid of
      the terminal exactly where the last resize to reach that fits.
     */
    method TakeCheckpoint(encoded: bool) returns (r: Option<Checkpoint>)
      requires Valid()
      ensures r.Some? <==> encoded && !output.failed
      ensures r.Some? ==>
                && r.value.size == size && r.value.grid == grid && r.value.cursor == End(output.View())
                && r.value.replay == Recorded(history.bytes, start, r.value.cursor)
                && (r.value.size == r.value.grid <==> LastFits(initial, reached))
      ensures r.Some? && !output.closed ==>
                && r.value.size == history.current
                && r.value.size == SizeAt(output.sizes, r.value.cursor.generation, r.value.cursor.offset)
    {
      if !encoded {
        return None;
      }
      var cursor := output.CurrentCursor();
      if cursor.None? {
        return None;
      }
      SizeAtEnd(output.View(), history);
      return Some(Checkpoint(fed, cursor.value, size, grid));
    }

    method RotateOutput(created: bool) returns (r: Option<Cursor>)
      requires Valid()
      modifies this`history, output
      ensures Valid() && history.current == old(history).current
      ensures r.Some? <==> !old(output.closed) && old(output.generation) < MAX_GENERATION && created
      ensures r.Some? ==> r.value == End(output.View()) && r.value == Cursor(old(output.generation) + 1, 0)
    {
      RotateSound(output.View(), history, start, fed, size, created);
      history := OutputModel.Record(output.View(), history, Rotate(created));
      r := output.Rotate(created);
    }

    method PruneOutput(before: Cursor, removable: set<nat>) returns (ok: bool)
      requires Valid()
      modifies this`history, output
      ensures Valid() && history.bytes == old(history).bytes && history.current == old(history).current
      ensures ok ==> forall g :: g in output.segments <==> g in old(output.segments) && g >= before.generation
      ensures !ok ==> output.sizes == old(output.sizes)
    {
      ghost var log, h := output.View(), history;
      ghost var removed;
      ok, removed := output.Prune(before, removable);
      PruneSound(log, h, start, fed, size, before, removed, ok);
      history := OutputModel.Record(log, h, Prune(before, removed, ok));
    }
  }

  /** A resize that the PTY refuses leaves an atomic state whose size is not the grid its payload was captured on. */
  method RefusedResize() returns (r: Checkpoint)
    ensures r.size == Size(80, 24) && r.grid == Size(100, 30)
  {
    var log := new OutputLog(map[1 := []], 1);
    var session := new SessionState(log, Size(80, 24), true);
    var ok, drained, moved, rounds := session.Resize(Size(100, 30), [], false);
    assert !log.closed;
    var taken := session.TakeCheckpoint(true);
    r := taken.value;
  }
}
