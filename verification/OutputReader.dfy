/**
  A reader of the output log, one look at a time. Between two looks any number
  of log operations may run; a look itself happens under the log's lock.
 */
module OutputReader {
  import opened Basics
  import opened OutputModel
  import opened OutputRuns

  /** file is the generation whose file the reader holds open, if any. */
  datatype Reader = Reader(cursor: Cursor, reported: Size, file: Option<nat>, limit: nat, complete: bool)

  /** max: room in the buffer; opens: the segment file can be opened; got: bytes the file read yields. */
  datatype Look = Look(max: nat, sized: bool, opens: bool, got: nat)

  datatype Outcome =
    | CursorExpired
    | Resized(size: Size)               // zero bytes, a new size
    | OpenFailed
    | Data(data: seq<byte>, size: Size)
    | NextGeneration                    // the loop goes round again
    | Finished(failed: bool)            // EOF, or the log's terminal error
    | Waiting                           // blocks until the log signals

  /** pin: reader opens at a resolved cursor. */
  function Pinned(log: Log, from: Cursor): Reader
    requires from.generation in log.segments
  {
    Reader(from, UNKNOWN, Some(from.generation), |log.segments[from.generation]|,
           from.generation < log.generation)
  }

  /** The file's limit and completeness as this look finds them. */
  function Refreshed(log: Log, r: Reader): Reader {
    var g := r.cursor.generation;
    if g in log.segments then r.(limit := |log.segments[g]|, complete := g < log.generation)
    else if r.file == Some(g) then r.(complete := g < log.generation)
    else r
  }

  /** Where this look must stop: the limit, or for a sized read the next mark before it. */
  function Stop(log: Log, r: Reader, sized: bool): nat {
    match NextMark(log.sizes, r.cursor.generation, r.cursor.offset)
    case Some(next) => if sized && next < r.limit then next else r.limit
    case None => r.limit
  }

  /** One pass of the read loop. bytes is what the segment files hold. */
  function Looked(log: Log, bytes: map<nat, seq<byte>>, r0: Reader, look: Look): (Reader, Outcome) {
    LookedAfresh(log, bytes, Refreshed(log, r0), look)
  }

  /** The rest of the pass, once the reader is refreshed. */
  function LookedAfresh(log: Log, bytes: map<nat, seq<byte>>, r: Reader, look: Look): (Reader, Outcome) {
    var g := r.cursor.generation;
    if g !in log.segments && !(r.file == Some(g) && r.complete) then (r, CursorExpired)
    else
      var size := if look.sized then SizeAt(log.sizes, g, r.cursor.offset) else UNKNOWN;
      if size != UNKNOWN && size != r.reported then (r.(reported := size), Resized(size))
      else if r.cursor.offset < Stop(log, r, look.sized) then
        LookedData(bytes, r, look, size, Stop(log, r, look.sized))
      else LookedBeyond(log, r)
  }

  /** The pass when there is something to read before end. */
  function LookedData(bytes: map<nat, seq<byte>>, r: Reader, look: Look, size: Size, end: nat): (Reader, Outcome)
    requires r.cursor.offset < end
  {
    var Cursor(g, from) := r.cursor;
    if r.file != Some(g) && !look.opens then (r, OpenFailed)
    else
      var upto := from + Min(Min(look.max, end - from), look.got);
      (r.(file := Some(g), cursor := Cursor(g, upto)), Data(Slice(bytes, g, from, upto), size))
  }

  /** The pass when there is nothing to read at the cursor. */
  function LookedBeyond(log: Log, r: Reader): (Reader, Outcome) {
    if r.complete && r.cursor.offset >= r.limit then
      (r.(file := None, cursor := Cursor(r.cursor.generation + 1, 0)), NextGeneration)
    else if log.closed then (r, Finished(log.failed))
    else (r, Waiting)
  }

  function Slice(bytes: map<nat, seq<byte>>, g: nat, lo: nat, hi: nat): seq<byte> {
    if g in bytes && lo <= hi <= |bytes[g]| then bytes[g][lo..hi] else []
  }

  // --------------------------------------------------------------- the stream

  /**
    The bytes from one cursor to another when each generation g before the last
    is left at ends[g].
   */
  function Stream(bytes: map<nat, seq<byte>>, ends: map<nat, nat>, from: Cursor, upto: Cursor): seq<byte>
    decreases upto.generation
  {
    if upto.generation <= from.generation then Slice(bytes, upto.generation, from.offset, upto.offset)
    else
      var g := upto.generation - 1;
      var end := if g in ends then ends[g] else 0;
      Stream(bytes, ends, from, Cursor(g, end)) + Slice(bytes, upto.generation, 0, upto.offset)
  }

  /** Each generation's full length. */
  function Lengths(bytes: map<nat, seq<byte>>): map<nat, nat> {
    map g | g in bytes :: |bytes[g]|
  }

  /** Everything recorded from one cursor to another. */
  function Recorded(bytes: map<nat, seq<byte>>, from: Cursor, upto: Cursor): seq<byte> {
    Stream(bytes, Lengths(bytes), from, upto)
  }

  lemma {:induction false} StreamStable(b: map<nat, seq<byte>>, b': map<nat, seq<byte>>, ends: map<nat, nat>,
                                        from: Cursor, upto: Cursor)
    requires from.generation <= upto.generation
    requires forall g :: from.generation <= g <= upto.generation && g in b ==> g in b' && b[g] <= b'[g]
    requires upto.generation in b ==> upto.offset <= |b[upto.generation]|
    requires upto.generation !in b ==> upto.offset == 0
    requires forall g :: from.generation <= g < upto.generation ==> g in b && g in ends && ends[g] <= |b[g]|
    ensures Stream(b', ends, from, upto) == Stream(b, ends, from, upto)
    decreases upto.generation
  {
    if from.generation < upto.generation {
      var g := upto.generation - 1;
      StreamStable(b, b', ends, from, Cursor(g, ends[g]));
    }
  }

  /** ends of later generations do not matter. */
  lemma {:induction false} StreamEnds(b: map<nat, seq<byte>>, ends: map<nat, nat>, ends': map<nat, nat>, from: Cursor,
                                      upto: Cursor)
    requires forall g :: from.generation <= g < upto.generation ==>
               (g in ends <==> g in ends') && (g in ends ==> ends[g] == ends'[g])
    ensures Stream(b, ends, from, upto) == Stream(b, ends', from, upto)
    decreases upto.generation
  {
    if from.generation < upto.generation {
      var g := upto.generation - 1;
      StreamEnds(b, ends, ends', from, Cursor(g, if g in ends then ends[g] else 0));
    }
  }

  /** A stream that leaves generations early is shorter; equally long only if it never does. */
  lemma {:induction false} StreamShortfall(b: map<nat, seq<byte>>, ends: map<nat, nat>, from: Cursor, upto: Cursor)
    requires from.generation <= upto.generation
    requires forall g :: from.generation <= g < upto.generation ==> g in b && g in ends && ends[g] <= |b[g]|
    requires from.generation < upto.generation ==> from.offset <= ends[from.generation]
    ensures |Stream(b, ends, from, upto)| <= |Recorded(b, from, upto)|
    ensures |Stream(b, ends, from, upto)| == |Recorded(b, from, upto)|
            <==> forall g :: from.generation <= g < upto.generation ==> ends[g] == |b[g]|
    decreases upto.generation
  {
    if from.generation < upto.generation {
      var g := upto.generation - 1;
      StreamShortfall(b, ends, from, Cursor(g, ends[g]));
      RecordedGrows(b, from, g, ends[g], |b[g]|);
    }
  }

  lemma RecordedGrows(b: map<nat, seq<byte>>, from: Cursor, g: nat, lo: nat, hi: nat)
    requires from.generation <= g && g in b && lo <= hi <= |b[g]|
    requires from.generation == g ==> from.offset <= lo
    ensures |Recorded(b, from, Cursor(g, hi))| == |Recorded(b, from, Cursor(g, lo))| + (hi - lo)
  {
  }

  // ------------------------------------------------------------- reading runs

  /**
    One reader over a log. seen[g] is the size generation g had when a look
    (or the opening) last found it retained; delivered is everything read.
   */
  datatype Reading = Reading(
    out: Output, reader: Reader, start: Cursor, seen: map<nat, nat>, delivered: seq<byte>)

  datatype Act = Write(op: Op) | Peek(look: Look)

  ghost predicate Opens(s: Reading) {
    && Consistent(s.out.log, s.out.history)
    && s.start.generation in s.out.log.segments
    && s.start.offset <= |s.out.log.segments[s.start.generation]|
    && s.reader == Pinned(s.out.log, s.start)
    && s.seen == map[s.start.generation := |s.out.log.segments[s.start.generation]|]
    && s.delivered == []
  }

  /** What one look finds. */
  ghost function Seen(s: Reading, look: Look): Outcome {
    Looked(s.out.log, s.out.history.bytes, s.reader, look).1
  }

  /** What one look does to the reading. */
  function Peeked(s: Reading, look: Look): Reading {
    var log := s.out.log;
    var g := s.reader.cursor.generation;
    var (r, outcome) := Looked(log, s.out.history.bytes, s.reader, look);
    s.(reader := r,
       seen := if g in log.segments then s.seen[g := |log.segments[g]|] else s.seen,
       delivered := if outcome.Data? then s.delivered + outcome.data else s.delivered)
  }

  /** A log operation or a look. A reader never outlives its process, so no Reopen. */
  ghost predicate Acts(a: Reading, act: Act, b: Reading) {
    match act
    case Write(op) => !op.Reopen? && Steps(a.out, op, b.out) && b == a.(out := b.out)
    case Peek(look) => b == Peeked(a, look)
  }

  ghost predicate IsReading(run: seq<Reading>, acts: seq<Act>) {
    && |run| == |acts| + 1
    && Opens(run[0])
    && forall i :: 0 <= i < |acts| ==> Acts(run[i], acts[i], run[i + 1])
  }

  /** What the reader knows of the generation under its cursor. */
  ghost predicate Placed(s: Reading) {
    var r := s.reader;
    var g := r.cursor.generation;
    var bytes := s.out.history.bytes;
    && 1 <= s.start.generation <= g <= s.out.log.generation
    && (r.file.Some? ==> r.file == Some(g) && g in bytes && g in s.seen
                         && r.cursor.offset <= r.limit == s.seen[g] <= |bytes[g]|)
    && (r.file.None? ==> r.cursor.offset == 0 && s.start.generation < g)
    && (g == s.start.generation ==> s.start.offset <= r.cursor.offset)
  }

  /** Each generation left behind is complete and was left at the size last seen. */
  ghost predicate Behind(s: Reading) {
    var bytes := s.out.history.bytes;
    && (forall g :: s.start.generation <= g < s.reader.cursor.generation ==>
          g in bytes && g in s.seen && s.seen[g] <= |bytes[g]|)
    && (forall g :: s.start.generation <= g < s.reader.cursor.generation && g in s.out.log.segments ==>
          s.seen[g] == |bytes[g]|)
    && (s.start.generation < s.reader.cursor.generation ==> s.start.offset <= s.seen[s.start.generation])
  }

  ghost predicate ReadingOk(s: Reading) {
    && Consistent(s.out.log, s.out.history)
    && Placed(s)
    && Behind(s)
    && s.delivered == Stream(s.out.history.bytes, s.seen, s.start, s.reader.cursor)
  }

  lemma OpensOk(s: Reading)
    requires Opens(s)
    ensures ReadingOk(s)
  {
    assert s.delivered == Stream(s.out.history.bytes, s.seen, s.start, s.reader.cursor);
  }

  lemma WriteKeeps(a: Reading, op: Op, b: Reading)
    requires ReadingOk(a) && Acts(a, Write(op), b)
    ensures ReadingOk(b)
  {
    ApplyKeeps(a.out.log, a.out.history, op);
    OperationGrows(a.out.log, a.out.history, op);
    GrowthIsSafe(a, b);
  }

  /** A log that grew underneath leaves the reader in place. */
  lemma GrowthIsSafe(a: Reading, b: Reading)
    requires SameBytes(a.out.log, a.out.history) && SameBytes(b.out.log, b.out.history)
    requires Placed(a) && Behind(a) && Grew(a.out, b.out) && b == a.(out := b.out)
    requires a.delivered == Stream(a.out.history.bytes, a.seen, a.start, a.reader.cursor)
    ensures Placed(b) && Behind(b)
    ensures b.delivered == Stream(b.out.history.bytes, b.seen, b.start, b.reader.cursor)
  {
    StreamStable(a.out.history.bytes, b.out.history.bytes, a.seen, a.start, a.reader.cursor);
  }

  /** Bytes read extend the stream from the cursor. */
  lemma DataKeeps(a: Reading, look: Look)
    requires ReadingOk(a) && Looked(a.out.log, a.out.history.bytes, a.reader, look).1.Data?
    ensures ReadingOk(Peeked(a, look))
  {
    DataIsNext(a, look);
    var bytes := a.out.history.bytes;
    var b := Peeked(a, look);
    StreamEnds(bytes, a.seen, b.seen, a.start, a.reader.cursor);
    DataExtends(bytes, b.seen, a.start, a.reader.cursor, b.reader.cursor);
  }

  /** A read stays in its generation, within what was recorded, and looks afresh at no other. */
  lemma DataInPlace(a: Reading, look: Look)
    requires WellFormed(a.out.log) && SameBytes(a.out.log, a.out.history) && Placed(a)
    requires Looked(a.out.log, a.out.history.bytes, a.reader, look).1.Data?
    ensures var b := Peeked(a, look);
            var Cursor(g, from) := a.reader.cursor;
            && b.reader.cursor.generation == g && g in a.out.history.bytes
            && from <= b.reader.cursor.offset <= |a.out.history.bytes[g]|
            && b.delivered == a.delivered + Slice(a.out.history.bytes, g, from, b.reader.cursor.offset)
  {
  }

  lemma DataKeepsPlace(a: Reading, look: Look)
    requires WellFormed(a.out.log) && SameBytes(a.out.log, a.out.history) && Placed(a)
    requires Looked(a.out.log, a.out.history.bytes, a.reader, look).1.Data?
    ensures Placed(Peeked(a, look))
  {
  }

  lemma PeekSees(a: Reading, look: Look, k: nat)
    requires k != a.reader.cursor.generation
    ensures var b := Peeked(a, look);
            (k in b.seen <==> k in a.seen) && (k in a.seen ==> b.seen[k] == a.seen[k])
  {
  }

  /** A read returns exactly the log's bytes at the cursor, and keeps its place. */
  lemma DataIsNext(a: Reading, look: Look)
    requires WellFormed(a.out.log) && SameBytes(a.out.log, a.out.history) && Placed(a) && Behind(a)
    requires Looked(a.out.log, a.out.history.bytes, a.reader, look).1.Data?
    ensures var b := Peeked(a, look);
            var Cursor(g, from) := a.reader.cursor;
            && Placed(b) && Behind(b)
            && b.reader.cursor.generation == g && g in a.out.history.bytes
            && from <= b.reader.cursor.offset <= |a.out.history.bytes[g]|
            && b.delivered == a.delivered + Slice(a.out.history.bytes, g, from, b.reader.cursor.offset)
            && (forall k :: k != g ==> (k in b.seen <==> k in a.seen) && (k in a.seen ==> b.seen[k] == a.seen[k]))
  {
    DataInPlace(a, look);
    DataKeepsPlace(a, look);
    var b := Peeked(a, look);
    forall k: nat | k != a.reader.cursor.generation
      ensures (k in b.seen <==> k in a.seen) && (k in a.seen ==> b.seen[k] == a.seen[k])
    {
      PeekSees(a, look, k);
    }
  }

  /** A generation is left only when complete, at the size last seen. */
  lemma LeavesAtSeen(a: Reading, look: Look)
    requires WellFormed(a.out.log) && SameBytes(a.out.log, a.out.history) && Placed(a)
    requires Looked(a.out.log, a.out.history.bytes, a.reader, look).1.NextGeneration?
    ensures var g := a.reader.cursor.generation;
            var b := Peeked(a, look);
            && g < a.out.log.generation && g in a.out.history.bytes
            && b.reader.cursor == Cursor(g + 1, 0) && b.reader.file == None
            && g in b.seen && b.seen[g] == a.reader.cursor.offset <= |a.out.history.bytes[g]|
            && (g in a.out.log.segments ==> b.seen[g] == |a.out.history.bytes[g]|)
            && (forall k :: k != g ==> (k in b.seen <==> k in a.seen) && (k in a.seen ==> b.seen[k] == a.seen[k]))
  {
  }

  lemma NextKeeps(a: Reading, look: Look)
    requires ReadingOk(a) && Looked(a.out.log, a.out.history.bytes, a.reader, look).1.NextGeneration?
    ensures ReadingOk(Peeked(a, look))
  {
    LeavesAtSeen(a, look);
    LeavingKeeps(a, Peeked(a, look));
  }

  lemma LeavingKeeps(a: Reading, b: Reading)
    requires ReadingOk(a)
    requires var g := a.reader.cursor.generation;
             && g < a.out.log.generation && g in a.out.history.bytes
             && b.reader.cursor == Cursor(g + 1, 0) && b.reader.file == None
             && g in b.seen && b.seen[g] == a.reader.cursor.offset <= |a.out.history.bytes[g]|
             && (g in a.out.log.segments ==> b.seen[g] == |a.out.history.bytes[g]|)
             && (forall k :: k != g ==> (k in b.seen <==> k in a.seen) && (k in a.seen ==> b.seen[k] == a.seen[k]))
    requires b == a.(reader := b.reader, seen := b.seen)
    ensures ReadingOk(b)
  {
    var bytes := a.out.history.bytes;
    StreamEnds(bytes, a.seen, b.seen, a.start, a.reader.cursor);
    assert Slice(bytes, b.reader.cursor.generation, 0, 0) == [];
  }

  /** The other outcomes leave the cursor where it is. */
  lemma StayKeeps(a: Reading, look: Look)
    requires ReadingOk(a)
    requires var outcome := Looked(a.out.log, a.out.history.bytes, a.reader, look).1;
             !outcome.Data? && !outcome.NextGeneration?
    ensures ReadingOk(Peeked(a, look))
  {
    var b := Peeked(a, look);
    StreamEnds(a.out.history.bytes, a.seen, b.seen, a.start, a.reader.cursor);
    assert b.reader.cursor == a.reader.cursor;
    assert Placed(b) && Behind(b);
  }

  lemma PeekKeeps(a: Reading, look: Look)
    requires ReadingOk(a)
    ensures ReadingOk(Peeked(a, look))
  {
    match Looked(a.out.log, a.out.history.bytes, a.reader, look).1
    case Data(_, _) => DataKeeps(a, look);
    case NextGeneration => NextKeeps(a, look);
    case _ => StayKeeps(a, look);
  }

  lemma DataExtends(bytes: map<nat, seq<byte>>, ends: map<nat, nat>, from: Cursor, a: Cursor, b: Cursor)
    requires a.generation == b.generation && from.generation <= a.generation && a.generation in bytes
    requires a.offset <= b.offset <= |bytes[a.generation]|
    requires from.generation == a.generation ==> from.offset <= a.offset
    ensures Stream(bytes, ends, from, b)
            == Stream(bytes, ends, from, a) + Slice(bytes, a.generation, a.offset, b.offset)
  {
  }

  // ---------------------------------------------------------------- theorems

  lemma ActKeeps(a: Reading, act: Act, b: Reading)
    requires ReadingOk(a) && Acts(a, act, b)
    ensures ReadingOk(b) && b.start == a.start
  {
    match act
    case Write(op) => WriteKeeps(a, op, b);
    case Peek(look) => PeekKeeps(a, look);
  }

  /** In order, and opened at start. */
  ghost predicate InPlace(s: Reading, start: Cursor) {
    ReadingOk(s) && s.start == start
  }

  lemma ActInPlace(a: Reading, act: Act, b: Reading, start: Cursor)
    requires InPlace(a, start) && Acts(a, act, b)
    ensures InPlace(b, start)
  {
    ActKeeps(a, act, b);
  }

  lemma OpensInPlace(s: Reading)
    requires Opens(s)
    ensures InPlace(s, s.start)
  {
    OpensOk(s);
  }

  lemma {:induction false} ReadingInPlace(run: seq<Reading>, acts: seq<Act>, i: nat)
    requires IsReading(run, acts) && i <= |acts|
    ensures InPlace(run[i], run[0].start)
  {
    if i == 0 {
      OpensInPlace(run[0]);
    } else {
      ReadingInPlace(run, acts, i - 1);
      ActInPlace(run[i - 1], acts[i - 1], run[i], run[0].start);
    }
  }

  lemma ReadingStays(run: seq<Reading>, acts: seq<Act>, i: nat)
    requires IsReading(run, acts) && i <= |acts|
    ensures ReadingOk(run[i])
    ensures run[i].start == run[0].start
  {
    ReadingInPlace(run, acts, i);
  }

  /**
    What was delivered is the recorded stream from the opening cursor to the
    present cursor, each generation g up to seen[g]; a generation left short of
    its final size has been pruned; and nothing is missing exactly when every
    generation left behind was last seen at its final size.
   */
  ghost predicate Delivers(s: Reading) {
    var bytes := s.out.history.bytes;
    && s.delivered == Stream(bytes, s.seen, s.start, s.reader.cursor)
    && (forall g :: s.start.generation <= g < s.reader.cursor.generation ==> g in bytes && g in s.seen)
    && (forall g :: s.start.generation <= g < s.reader.cursor.generation && s.seen[g] < |bytes[g]|
          ==> g !in s.out.log.segments)
    && (s.delivered == Recorded(bytes, s.start, s.reader.cursor) <==> SeenInFull(s))
  }

  lemma OrderlyDelivers(s: Reading)
    requires ReadingOk(s)
    ensures Delivers(s)
  {
    var bytes := s.out.history.bytes;
    StreamShortfall(bytes, s.seen, s.start, s.reader.cursor);
    if SeenInFull(s) {
      StreamEnds(bytes, s.seen, Lengths(bytes), s.start, s.reader.cursor);
    }
  }

  /** Readers deliver the log in order, over any interleaving of their looks with appends, rotations and prunes. */
  lemma ReadsInOrder(run: seq<Reading>, acts: seq<Act>, i: nat)
    requires IsReading(run, acts) && i <= |acts|
    ensures Delivers(run[i])
  {
    ReadingStays(run, acts, i);
    OrderlyDelivers(run[i]);
  }

  /** A reader whose generation is retained at each of its looks misses nothing. */
  lemma {:induction false} AttentiveReaderMissesNothing(run: seq<Reading>, acts: seq<Act>, i: nat)
    requires IsReading(run, acts) && i <= |acts|
    requires forall k :: 0 <= k < i && acts[k].Peek? ==>
               run[k].reader.cursor.generation in run[k].out.log.segments
    ensures run[i].delivered == Recorded(run[i].out.history.bytes, run[i].start, run[i].reader.cursor)
  {
    AllSeenInFull(run, acts, i);
    ReadsInOrder(run, acts, i);
  }

  /** Each generation the reader left was last seen at its final size. */
  ghost predicate SeenInFull(s: Reading) {
    forall g :: s.start.generation <= g < s.reader.cursor.generation ==>
      g in s.seen && g in s.out.history.bytes && s.seen[g] == |s.out.history.bytes[g]|
  }

  lemma FullStep(a: Reading, act: Act, b: Reading)
    requires ReadingOk(a) && Acts(a, act, b) && SeenInFull(a)
    requires act.Peek? ==> a.reader.cursor.generation in a.out.log.segments
    ensures SeenInFull(b)
  {
    match act
    case Write(op) => OperationGrows(a.out.log, a.out.history, op);
    case Peek(look) =>
      if b.reader.cursor.generation != a.reader.cursor.generation {
        LeavesAtSeen(a, look);
      }
  }

  lemma OpensInFull(s: Reading)
    requires Opens(s)
    ensures SeenInFull(s)
  {
  }

  lemma {:induction false} AllSeenInFull(run: seq<Reading>, acts: seq<Act>, i: nat)
    requires IsReading(run, acts) && i <= |acts|
    requires forall k :: 0 <= k < i && acts[k].Peek? ==>
               run[k].reader.cursor.generation in run[k].out.log.segments
    ensures SeenInFull(run[i])
  {
    if i == 0 {
      OpensInFull(run[0]);
    } else {
      AllSeenInFull(run, acts, i - 1);
      ReadingStays(run, acts, i - 1);
      FullStep(run[i - 1], acts[i - 1], run[i]);
    }
  }

  /** EOF and the terminal error come only at the very end of a closed log. */
  lemma FinishesAtEnd(run: seq<Reading>, acts: seq<Act>, i: nat, look: Look)
    requires IsReading(run, acts) && i <= |acts|
    requires Looked(run[i].out.log, run[i].out.history.bytes, run[i].reader, look).1.Finished?
    ensures var log := run[i].out.log;
            && log.closed && log.generation in log.segments && run[i].reader.cursor == End(log)
            && Looked(log, run[i].out.history.bytes, run[i].reader, look).1.failed == log.failed
  {
    ReadingStays(run, acts, i);
    NextMarkLeast(run[i].out.log.sizes, run[i].reader.cursor.generation, run[i].reader.cursor.offset);
  }

  // -------------------------------------------------------- the exception is real

  const EMPTY: Output := Output(Log(1, map[1 := []], [], false, false), History(map[1 := []], map[1 := []], UNKNOWN, 0))
  const GROWN: Output :=
    Output(Log(1, map[1 := [7]], [], false, false), History(map[1 := [7]], map[1 := [UNKNOWN]], UNKNOWN, 0))
  const TURNED: Output :=
    Output(Log(2, map[1 := [7], 2 := []], [], false, false),
           History(map[1 := [7], 2 := []], map[1 := [UNKNOWN], 2 := []], UNKNOWN, 0))
  const CUT: Output :=
    Output(Log(2, map[2 := []], [], false, false),
           History(map[1 := [7], 2 := []], map[1 := [UNKNOWN], 2 := []], UNKNOWN, 2))
  const ONE_BYTE: Look := Look(1, false, true, 1)

  lemma Grows()
    ensures Consistent(EMPTY.log, EMPTY.history) && Steps(EMPTY, Append([7], true), GROWN)
  {
    assert EMPTY.log.segments[1] + [7] == [7] && Repeat(UNKNOWN, 1) == [UNKNOWN] && [] + [UNKNOWN] == [UNKNOWN];
    assert map[1 := []][1 := [7]] == map[1 := [7]];
    assert map[1 := []][1 := [UNKNOWN]] == map[1 := [UNKNOWN]];
  }

  lemma Turns()
    ensures Steps(GROWN, Rotate(true), TURNED)
  {
  }

  lemma Cuts()
    ensures Steps(TURNED, Prune(Cursor(2, 0), {}, true), CUT)
  {
    assert Candidates(TURNED.log, Cursor(2, 0)) == {1};
    assert map[1 := [7], 2 := []] - {1} == map[2 := []];
  }

  /** The reader still holds the file of the first generation, with the limit it saw: nothing. */
  function Stale(out: Output): Reading {
    Reading(out, Pinned(EMPTY.log, Cursor(1, 0)), Cursor(1, 0), map[1 := 0], [])
  }

  lemma StaleLook()
    ensures var s := Peeked(Stale(CUT), ONE_BYTE);
            && s.reader.cursor == Cursor(2, 0) && s.delivered == [] && s.start == Cursor(1, 0) && s.out == CUT
            && Recorded(CUT.history.bytes, s.start, s.reader.cursor) == [7]
  {
    assert Recorded(CUT.history.bytes, Cursor(1, 0), Cursor(2, 0)) == [7] + [];
  }

  lemma StaleOpens()
    ensures Opens(Stale(EMPTY))
  {
    Grows();
  }

  lemma StaleWrites()
    ensures Acts(Stale(EMPTY), Write(Append([7], true)), Stale(GROWN))
    ensures Acts(Stale(GROWN), Write(Rotate(true)), Stale(TURNED))
    ensures Acts(Stale(TURNED), Write(Prune(Cursor(2, 0), {}, true)), Stale(CUT))
  {
    Grows();
    Turns();
    Cuts();
  }

  lemma ActsAt(run: seq<Reading>, acts: seq<Act>)
    requires |run| == 5 && |acts| == 4 && Opens(run[0])
    requires Acts(run[0], acts[0], run[1]) && Acts(run[1], acts[1], run[2])
    requires Acts(run[2], acts[2], run[3]) && Acts(run[3], acts[3], run[4])
    ensures IsReading(run, acts)
  {
  }

  /**
    A generation that grows and is then rotated and pruned between two looks
    loses the tail the reader had not seen.
   */
  lemma StaleLimitLosesTail() returns (run: seq<Reading>, acts: seq<Act>)
    ensures IsReading(run, acts)
    ensures var s := run[|acts|];
            && s.reader.cursor == Cursor(2, 0) && s.delivered == []
            && Recorded(s.out.history.bytes, s.start, s.reader.cursor) == [7]
  {
    acts := [Write(Append([7], true)), Write(Rotate(true)), Write(Prune(Cursor(2, 0), {}, true)), Peek(ONE_BYTE)];
    run := [Stale(EMPTY), Stale(GROWN), Stale(TURNED), Stale(CUT), Peeked(Stale(CUT), ONE_BYTE)];
    StaleOpens();
    StaleWrites();
    StaleLook();
    ActsAt(run, acts);
  }
}
