/**
  The generational output log as a value, together with the history it is
  measured against: for every generation ever written, the bytes appended and,
  beside each byte, the grid size in force when it was appended.
 */
module OutputModel {
  import opened Basics

  /** Largest file offset (math.MaxInt64) and largest generation (MaxUint64). */
  const MAX_OFFSET: nat := 0x7fff_ffff_ffff_ffff
  const MAX_GENERATION: nat := 0xffff_ffff_ffff_ffff

  datatype Size = Size(columns: int, rows: int)

  /** The zero Size: the size of these bytes is not known. */
  const UNKNOWN := Size(0, 0)

  datatype Cursor = Cursor(generation: nat, offset: nat)

  /** The zero cursor asks for the earliest retained byte. */
  const START := Cursor(0, 0)

  datatype SizeMark = SizeMark(cursor: Cursor, size: Size)

  /** A segment is its file's contents; the segment size is its length. */
  datatype Log = Log(
    generation: nat,
    segments: map<nat, seq<byte>>,
    sizes: seq<SizeMark>,
    closed: bool,
    failed: bool)

  ghost predicate WellFormed(log: Log) {
    && 1 <= log.generation <= MAX_GENERATION
    && log.generation in log.segments
    && (forall g :: g in log.segments ==> 1 <= g <= log.generation)
    && (forall g :: g in log.segments ==> |log.segments[g]| <= MAX_OFFSET)
  }

  // ---------------------------------------------------------------- operations

  /** append: wrote says whether the file system took all of data. */
  function Appended(log: Log, data: seq<byte>, wrote: bool): Log
    requires log.generation in log.segments
  {
    if |data| == 0 || log.closed then log
    else if !wrote || |log.segments[log.generation]| + |data| > MAX_OFFSET then
      log.(closed := true, failed := true)
    else log.(segments := log.segments[log.generation := log.segments[log.generation] + data])
  }

  /** Whether rotate opens a new generation; created: the file was created. */
  predicate Rotates(log: Log, created: bool) {
    !log.closed && log.generation < MAX_GENERATION && created
  }

  function Rotated(log: Log, created: bool): Log {
    if !Rotates(log, created) then log
    else
      var next := log.generation + 1;
      var sizes := if log.sizes == [] then []
                   else log.sizes + [SizeMark(Cursor(next, 0), log.sizes[|log.sizes| - 1].size)];
      log.(generation := next, segments := log.segments[next := []], sizes := sizes)
  }

  /** Drops a trailing mark that repeats its predecessor's size in one generation. */
  function Collapsed(sizes: seq<SizeMark>): seq<SizeMark> {
    var n := |sizes|;
    if n >= 2 && sizes[n - 1].size == sizes[n - 2].size
       && sizes[n - 1].cursor.generation == sizes[n - 2].cursor.generation
    then sizes[..n - 1] else sizes
  }

  function Marked(log: Log, size: Size): Log
    requires log.generation in log.segments
  {
    if log.closed then log
    else
      var cursor := Cursor(log.generation, |log.segments[log.generation]|);
      var n := |log.sizes|;
      if n > 0 && log.sizes[n - 1].size == size then log
      else if n > 0 && log.sizes[n - 1].cursor == cursor then
        log.(sizes := Collapsed(log.sizes[..n - 1] + [SizeMark(cursor, size)]))
      else log.(sizes := log.sizes + [SizeMark(cursor, size)])
  }

  /** Whether prune accepts before. */
  predicate Prunable(log: Log, before: Cursor) {
    && !log.failed && !log.closed
    && before.generation != 0 && before.offset == 0 && before.generation <= log.generation
  }

  /** The generations a prune up to before removes. */
  function Candidates(log: Log, before: Cursor): set<nat> {
    set g | g in log.segments && g < before.generation && g != log.generation
  }

  function Retained(sizes: seq<SizeMark>, kept: set<nat>): seq<SizeMark> {
    if sizes == [] then []
    else
      var last := sizes[|sizes| - 1];
      var front := Retained(sizes[..|sizes| - 1], kept);
      if last.cursor.generation in kept then front + [last] else front
  }

  /**
    prune: when every file removal succeeds (finished) all candidates go and
    marks of removed generations go with them. A failed removal stops the walk
    after some arbitrary part of the candidates, before the marks are filtered.
   */
  function Pruned(log: Log, before: Cursor, removed: set<nat>, finished: bool): Log {
    if !Prunable(log, before) then log
    else if finished then
      var segments := log.segments - Candidates(log, before);
      log.(segments := segments, sizes := Retained(log.sizes, segments.Keys))
    else log.(segments := log.segments - removed * Candidates(log, before))
  }

  function Closed(log: Log): Log {
    log.(closed := true)
  }

  /** The next server process opens the same directory: sizes are in memory only. */
  function Reopened(log: Log): Log {
    if log.failed then log else log.(sizes := [], closed := false)
  }

  /** cursor: the end of the active segment. */
  function End(log: Log): Cursor
    requires log.generation in log.segments
  {
    Cursor(log.generation, |log.segments[log.generation]|)
  }

  datatype CursorError = Expired | Invalid

  /** resolveCursorLocked, for a cursor other than START. */
  function Resolve(log: Log, cursor: Cursor): Result<Cursor, CursorError> {
    if cursor.generation == 0 || cursor.offset > MAX_OFFSET then Err(Invalid)
    else if cursor.generation !in log.segments then
      if cursor.generation < log.generation then Err(Expired) else Err(Invalid)
    else if cursor.offset > |log.segments[cursor.generation]| then Err(Invalid)
    else Ok(cursor)
  }

  // -------------------------------------------------------------- size lookup

  /** The size of the last mark of generation g at or before offset. */
  function SizeAt(sizes: seq<SizeMark>, g: nat, offset: nat): Size {
    if sizes == [] then UNKNOWN
    else
      var last := sizes[|sizes| - 1];
      if last.cursor.generation == g && last.cursor.offset <= offset then last.size
      else SizeAt(sizes[..|sizes| - 1], g, offset)
  }

  /** The offset of the first mark of generation g after offset. */
  function NextMark(sizes: seq<SizeMark>, g: nat, offset: nat): Option<nat> {
    if sizes == [] then None
    else if sizes[0].cursor.generation == g && sizes[0].cursor.offset > offset then Some(sizes[0].cursor.offset)
    else NextMark(sizes[1..], g, offset)
  }

  // ------------------------------------------------------------------ history

  /**
    bytes and tags hold every generation since the log was opened, pruned or
    not; current is the size in force; horizon is the largest generation a
    prune was ever allowed to reach up to.
   */
  datatype History = History(
    bytes: map<nat, seq<byte>>,
    tags: map<nat, seq<Size>>,
    current: Size,
    horizon: nat)

  datatype Op =
    | Append(data: seq<byte>, wrote: bool)
    | Rotate(created: bool)
    | Mark(size: Size)
    | Prune(before: Cursor, removed: set<nat>, finished: bool)
    | Close
    | Reopen

  function Apply(log: Log, op: Op): Log
    requires log.generation in log.segments
  {
    match op
    case Append(data, wrote) => Appended(log, data, wrote)
    case Rotate(created) => Rotated(log, created)
    case Mark(size) => Marked(log, size)
    case Prune(before, removed, finished) => Pruned(log, before, removed, finished)
    case Close => Closed(log)
    case Reopen => Reopened(log)
  }

  /** What the history records of op applied to log. */
  function Record(log: Log, h: History, op: Op): History
    requires log.generation in log.segments
    requires log.generation in h.bytes && log.generation in h.tags
  {
    var g := log.generation;
    match op
    case Append(data, wrote) =>
      if Appended(log, data, wrote).segments == log.segments then h
      else h.(bytes := h.bytes[g := h.bytes[g] + data],
              tags := h.tags[g := h.tags[g] + Repeat(h.current, |data|)])
    case Rotate(created) =>
      if !Rotates(log, created) then h
      else h.(bytes := h.bytes[g + 1 := []], tags := h.tags[g + 1 := []])
    case Mark(size) => if log.closed then h else h.(current := size)
    case Prune(before, _, _) =>
      if Prunable(log, before) && before.generation > h.horizon then h.(horizon := before.generation) else h
    case Close => h
    case Reopen =>
      if log.failed then h
      else h.(tags := map k | k in h.tags :: Repeat(UNKNOWN, |h.tags[k]|), current := UNKNOWN)
  }

  /** A log just created or opened by a server process, and its history. */
  ghost predicate Opened(log: Log) {
    WellFormed(log) && log.sizes == [] && !log.closed && !log.failed
  }

  function Initial(log: Log): History {
    History(log.segments, map g | g in log.segments :: Repeat(UNKNOWN, |log.segments[g]|), UNKNOWN, 0)
  }

  // ---------------------------------------------------------------- invariant

  ghost predicate Before(a: Cursor, b: Cursor) {
    a.generation < b.generation || (a.generation == b.generation && a.offset < b.offset)
  }

  ghost predicate Ordered(sizes: seq<SizeMark>) {
    forall i, j :: 0 <= i < j < |sizes| ==> Before(sizes[i].cursor, sizes[j].cursor)
  }

  /** Neighbouring marks of one generation differ in size. */
  ghost predicate Distinct(sizes: seq<SizeMark>) {
    forall i :: 0 < i < |sizes| && sizes[i - 1].cursor.generation == sizes[i].cursor.generation
      ==> sizes[i - 1].size != sizes[i].size
  }

  /** The last mark, if any, belongs to the active generation and carries the size in force. */
  ghost predicate CurrentMark(log: Log, current: Size) {
    if log.sizes == [] then current == UNKNOWN
    else
      var last := log.sizes[|log.sizes| - 1];
      last.cursor.generation == log.generation && last.size == current
  }

  ghost predicate Unmarked(sizes: seq<SizeMark>, g: nat) {
    forall i :: 0 <= i < |sizes| ==> sizes[i].cursor.generation != g
  }

  /** The marks give each byte of generation g the size it was appended under. */
  ghost predicate Described(sizes: seq<SizeMark>, g: nat, tags: seq<Size>) {
    forall i :: 0 <= i < |tags| ==> SizeAt(sizes, g, i) == tags[i]
  }

  ghost predicate SameBytes(log: Log, h: History) {
    && h.bytes.Keys == h.tags.Keys
    && (forall g :: g in log.segments ==> g in h.bytes && h.bytes[g] == log.segments[g])
    && (forall g :: g in h.bytes ==> 1 <= g <= log.generation && |h.bytes[g]| <= MAX_OFFSET)
    && (forall g :: g in h.bytes ==> |h.tags[g]| == |h.bytes[g]|)
  }

  ghost predicate MarksInside(log: Log, h: History) {
    forall i :: 0 <= i < |log.sizes| ==>
      var c := log.sizes[i].cursor;
      c.generation in h.bytes && c.offset <= |h.bytes[c.generation]|
  }

  ghost predicate MarksOk(log: Log, h: History) {
    && Ordered(log.sizes) && Distinct(log.sizes)
    && CurrentMark(log, h.current)
    && MarksInside(log, h)
  }

  ghost predicate SizesDescribed(log: Log, h: History)
    requires SameBytes(log, h)
  {
    forall g :: g in h.bytes ==>
      || Described(log.sizes, g, h.tags[g])
      || (g !in log.segments && Unmarked(log.sizes, g))
  }

  ghost predicate LostOnlyByPrune(log: Log, h: History) {
    && h.horizon <= log.generation
    && forall g :: g in h.bytes && g !in log.segments ==> g < h.horizon
  }

  ghost predicate Consistent(log: Log, h: History) {
    && WellFormed(log)
    && SameBytes(log, h)
    && MarksOk(log, h)
    && SizesDescribed(log, h)
    && LostOnlyByPrune(log, h)
    && (log.failed ==> log.closed)
  }

  // -------------------------------------------------- every operation keeps it

  lemma InitialConsistent(log: Log)
    requires Opened(log)
    ensures Consistent(log, Initial(log))
  {
  }

  lemma AppendKeeps(log: Log, h: History, data: seq<byte>, wrote: bool)
    requires Consistent(log, h)
    ensures Consistent(Appended(log, data, wrote), Record(log, h, Append(data, wrote)))
  {
    var log' := Appended(log, data, wrote);
    if log'.segments != log.segments {
      GrowthKeeps(log, h, data);
    }
  }

  /** The active segment grows by data. */
  lemma GrowthKeeps(log: Log, h: History, data: seq<byte>)
    requires Consistent(log, h)
    requires !log.closed && |log.segments[log.generation]| + |data| <= MAX_OFFSET
    ensures var g := log.generation;
            Consistent(log.(segments := log.segments[g := log.segments[g] + data]),
                       h.(bytes := h.bytes[g := h.bytes[g] + data],
                          tags := h.tags[g := h.tags[g] + Repeat(h.current, |data|)]))
  {
    var g := log.generation;
    var log' := log.(segments := log.segments[g := log.segments[g] + data]);
    var h' := h.(bytes := h.bytes[g := h.bytes[g] + data],
                 tags := h.tags[g := h.tags[g] + Repeat(h.current, |data|)]);
    assert SameBytes(log', h');
    assert Described(log.sizes, g, h.tags[g]);
    assert Described(log.sizes, g, h'.tags[g]);
    assert SizesDescribed(log', h') by {
      forall k | k in h'.bytes
        ensures Described(log'.sizes, k, h'.tags[k]) || (k !in log'.segments && Unmarked(log'.sizes, k))
      {
        if k != g {
          assert h'.tags[k] == h.tags[k];
        }
      }
    }
  }

  lemma MarkDescribesEach(log: Log, h: History, size: Size, g: nat)
    requires Consistent(log, h) && g in h.bytes
    ensures var sizes' := Marked(log, size).sizes;
            Described(sizes', g, h.tags[g]) || (g !in log.segments && Unmarked(sizes', g))
  {
    if Described(log.sizes, g, h.tags[g]) {
      MarkDescribes(log, h, size, g);
    } else {
      assert Unmarked(log.sizes, g);
    }
  }

  /** New marks alone: what the marks must say is all there is to show. */
  lemma NewMarks(log: Log, h: History, sizes': seq<SizeMark>, size: Size)
    requires Consistent(log, h) && MarksOk(log.(sizes := sizes'), h.(current := size))
    requires forall g :: g in h.bytes ==> Described(sizes', g, h.tags[g]) || (g !in log.segments && Unmarked(sizes', g))
    ensures Consistent(log.(sizes := sizes'), h.(current := size))
  {
  }

  lemma MarkKeeps(log: Log, h: History, size: Size)
    requires Consistent(log, h)
    ensures Consistent(Marked(log, size), Record(log, h, Mark(size)))
  {
    if !log.closed {
      var sizes' := Marked(log, size).sizes;
      assert Marked(log, size) == log.(sizes := sizes');
      MarkInPlace(log, h, size);
      forall g | g in h.bytes ensures Described(sizes', g, h.tags[g]) || (g !in log.segments && Unmarked(sizes', g)) {
        MarkDescribesEach(log, h, size, g);
      }
      NewMarks(log, h, sizes', size);
    }
  }

  /** A later mark extends an ordered list; it must differ only from a neighbour in its generation. */
  lemma Extends(sizes: seq<SizeMark>, mark: SizeMark)
    requires Ordered(sizes) && Distinct(sizes)
    requires sizes != [] ==> Before(sizes[|sizes| - 1].cursor, mark.cursor)
    requires sizes != [] && sizes[|sizes| - 1].cursor.generation == mark.cursor.generation
             ==> sizes[|sizes| - 1].size != mark.size
    ensures Ordered(sizes + [mark]) && Distinct(sizes + [mark])
  {
    var n := |sizes|;
    var all := sizes + [mark];
    forall i, j | 0 <= i < j < |all| ensures Before(all[i].cursor, all[j].cursor) {
      if j == n {
        assert i == n - 1 || Before(sizes[i].cursor, sizes[n - 1].cursor);
      }
    }
  }

  /** The marks stay ordered, distinct and inside the log; the last one is the new size. */
  lemma MarkInPlace(log: Log, h: History, size: Size)
    requires WellFormed(log) && SameBytes(log, h) && MarksOk(log, h)
    requires !log.closed
    ensures MarksOk(Marked(log, size), h.(current := size))
  {
    var n := |log.sizes|;
    if n == 0 {
      MarkFirst(log, h, size);
    } else if log.sizes[n - 1].size == size {
    } else if log.sizes[n - 1].cursor == End(log) {
      MarkReplaces(log, h, size);
    } else {
      MarkExtends(log, h, size);
    }
  }

  lemma MarkFirst(log: Log, h: History, size: Size)
    requires WellFormed(log) && SameBytes(log, h)
    ensures MarksOk(log.(sizes := [SizeMark(End(log), size)]), h.(current := size))
  {
  }

  lemma MarkExtends(log: Log, h: History, size: Size)
    requires WellFormed(log) && SameBytes(log, h) && MarksOk(log, h)
    requires log.sizes != [] && log.sizes[|log.sizes| - 1].size != size
    requires log.sizes[|log.sizes| - 1].cursor != End(log)
    ensures MarksOk(log.(sizes := log.sizes + [SizeMark(End(log), size)]), h.(current := size))
  {
    assert Before(log.sizes[|log.sizes| - 1].cursor, End(log));
    Extends(log.sizes, SizeMark(End(log), size));
  }

  /** The last mark is dropped where the one before it already says what the new one would. */
  lemma MarkCollapses(log: Log, h: History, size: Size)
    requires MarksOk(log, h) && |log.sizes| >= 2
    requires log.sizes[|log.sizes| - 2].size == size && log.sizes[|log.sizes| - 2].cursor.generation == log.generation
    ensures MarksOk(log.(sizes := log.sizes[..|log.sizes| - 1]), h.(current := size))
  {
    var front := log.sizes[..|log.sizes| - 1];
    assert Ordered(front) && Distinct(front);
  }

  lemma MarkReplaced(log: Log, h: History, size: Size)
    requires WellFormed(log) && SameBytes(log, h) && MarksOk(log, h)
    requires log.sizes != [] && log.sizes[|log.sizes| - 1].cursor == End(log)
    requires |log.sizes| >= 2 && log.sizes[|log.sizes| - 2].cursor.generation == log.generation
             ==> log.sizes[|log.sizes| - 2].size != size
    ensures MarksOk(log.(sizes := log.sizes[..|log.sizes| - 1] + [SizeMark(End(log), size)]), h.(current := size))
  {
    var front := log.sizes[..|log.sizes| - 1];
    assert front == [] || Before(front[|front| - 1].cursor, End(log));
    Extends(front, SizeMark(End(log), size));
  }

  lemma MarkReplaces(log: Log, h: History, size: Size)
    requires WellFormed(log) && SameBytes(log, h) && MarksOk(log, h)
    requires log.sizes != [] && log.sizes[|log.sizes| - 1].cursor == End(log)
    ensures MarksOk(log.(sizes := Collapsed(log.sizes[..|log.sizes| - 1] + [SizeMark(End(log), size)])),
                    h.(current := size))
  {
    var n := |log.sizes|;
    var front := log.sizes[..n - 1];
    var marks := front + [SizeMark(End(log), size)];
    if n >= 2 && log.sizes[n - 2].size == size && log.sizes[n - 2].cursor.generation == log.generation {
      assert marks[n - 2] == log.sizes[n - 2] && marks[..n - 1] == front;
      MarkCollapses(log, h, size);
    } else {
      assert n >= 2 ==> marks[n - 2] == log.sizes[n - 2];
      MarkReplaced(log, h, size);
    }
  }

  /** A new, replaced or collapsed mark at the end changes no earlier byte's size. */
  lemma MarkDescribes(log: Log, h: History, size: Size, g: nat)
    requires Consistent(log, h)
    requires g in h.bytes && Described(log.sizes, g, h.tags[g])
    ensures Described(Marked(log, size).sizes, g, h.tags[g])
  {
    var sizes' := Marked(log, size).sizes;
    var n := |log.sizes|;
    var cursor := End(log);
    forall i | 0 <= i < |h.tags[g]| ensures SizeAt(sizes', g, i) == h.tags[g][i] {
      assert SizeAt(log.sizes, g, i) == h.tags[g][i];
      if sizes' == log.sizes + [SizeMark(cursor, size)] {
        assert sizes'[..n] == log.sizes;
      } else if sizes' != log.sizes {
        var front := log.sizes[..n - 1];
        assert log.sizes[n - 1].cursor == cursor;
        assert SizeAt(front, g, i) == SizeAt(log.sizes, g, i);
        var replaced := front + [SizeMark(cursor, size)];
        assert replaced[..n - 1] == front;
        assert sizes' == replaced || sizes' == front;
      }
    }
  }

  lemma RotateDescribesEach(log: Log, h: History, g: nat)
    requires Consistent(log, h) && Rotates(log, true) && g in h.bytes
    ensures var sizes' := Rotated(log, true).sizes;
            Described(sizes', g, h.tags[g]) || (g !in log.segments && Unmarked(sizes', g))
  {
    var sizes' := Rotated(log, true).sizes;
    var n := |log.sizes|;
    assert n > 0 ==> sizes'[..n] == log.sizes;
    if Described(log.sizes, g, h.tags[g]) {
      assert Described(sizes', g, h.tags[g]);
    } else {
      assert Unmarked(log.sizes, g);
    }
  }

  lemma RotateMarks(log: Log, h: History)
    requires Consistent(log, h) && Rotates(log, true)
    ensures MarksOk(Rotated(log, true), Record(log, h, Rotate(true)))
  {
    var n := |log.sizes|;
    if n > 0 {
      Extends(log.sizes, SizeMark(Cursor(log.generation + 1, 0), log.sizes[n - 1].size));
    }
  }

  lemma RotateKeeps(log: Log, h: History, created: bool)
    requires Consistent(log, h)
    ensures Consistent(Rotated(log, created), Record(log, h, Rotate(created)))
  {
    if Rotates(log, created) {
      var h' := Record(log, h, Rotate(created));
      RotateMarks(log, h);
      forall g | g in h.bytes
        ensures h'.tags[g] == h.tags[g]
        ensures Described(Rotated(log, true).sizes, g, h.tags[g])
                || (g !in log.segments && Unmarked(Rotated(log, true).sizes, g))
      {
        RotateDescribesEach(log, h, g);
      }
    }
  }

  /** Filtering marks by generation keeps order and looks up kept generations unchanged. */
  lemma {:induction false} RetainedLooksUp(sizes: seq<SizeMark>, kept: set<nat>, g: nat, offset: nat)
    ensures g in kept ==> SizeAt(Retained(sizes, kept), g, offset) == SizeAt(sizes, g, offset)
  {
    if sizes != [] {
      var front := sizes[..|sizes| - 1];
      RetainedLooksUp(front, kept, g, offset);
      var r := Retained(sizes, kept);
      if sizes[|sizes| - 1].cursor.generation in kept {
        assert r[..|r| - 1] == Retained(front, kept);
      }
    }
  }

  /** Filtered marks come from the marks, and belong to kept generations. */
  lemma {:induction false} RetainedFrom(sizes: seq<SizeMark>, kept: set<nat>, i: nat)
    requires i < |Retained(sizes, kept)|
    ensures Retained(sizes, kept)[i] in sizes && Retained(sizes, kept)[i].cursor.generation in kept
  {
    var front := sizes[..|sizes| - 1];
    if i < |Retained(front, kept)| {
      RetainedFrom(front, kept, i);
    }
  }

  /** The last kept mark stays last. */
  lemma RetainedLast(sizes: seq<SizeMark>, kept: set<nat>)
    requires sizes != [] && sizes[|sizes| - 1].cursor.generation in kept
    ensures Retained(sizes, kept) == Retained(sizes[..|sizes| - 1], kept) + [sizes[|sizes| - 1]]
  {
  }

  /** Marks of one generation stand together, so a neighbour after filtering was a neighbour before. */
  lemma RetainedNeighbour(front: seq<SizeMark>, last: SizeMark, kept: set<nat>)
    requires Ordered(front + [last]) && last.cursor.generation in kept && Retained(front, kept) != []
    ensures var r := Retained(front, kept);
            && Before(r[|r| - 1].cursor, last.cursor)
            && (r[|r| - 1].cursor.generation == last.cursor.generation ==> r[|r| - 1] == front[|front| - 1])
  {
    var all := front + [last];
    var n := |front|;
    var r := Retained(front, kept);
    RetainedFrom(front, kept, |r| - 1);
    var i :| 0 <= i < n && front[i] == r[|r| - 1];
    assert all[i] == front[i] && all[n] == last && all[n - 1] == front[n - 1];
    assert Before(all[i].cursor, all[n].cursor);
    if r[|r| - 1].cursor.generation == last.cursor.generation {
      assert all[i].cursor.generation <= all[n - 1].cursor.generation <= all[n].cursor.generation;
      RetainedLast(front, kept);
    }
  }

  lemma {:induction false} RetainedOrdered(sizes: seq<SizeMark>, kept: set<nat>)
    requires Ordered(sizes) && Distinct(sizes)
    ensures Ordered(Retained(sizes, kept)) && Distinct(Retained(sizes, kept))
  {
    if sizes != [] {
      var front, last := sizes[..|sizes| - 1], sizes[|sizes| - 1];
      RetainedOrdered(front, kept);
      if last.cursor.generation in kept {
        assert front + [last] == sizes;
        if Retained(front, kept) != [] {
          RetainedNeighbour(front, last, kept);
        }
        Extends(Retained(front, kept), last);
      }
    }
  }

  lemma RetainedKeeps(log: Log, h: History, kept: set<nat>)
    requires WellFormed(log) && SameBytes(log, h) && MarksOk(log, h)
    requires log.generation in kept
    ensures var r := Retained(log.sizes, kept);
            && MarksOk(log.(sizes := r), h)
            && (forall i :: 0 <= i < |r| ==> r[i].cursor.generation in kept)
  {
    var r := Retained(log.sizes, kept);
    RetainedOrdered(log.sizes, kept);
    forall i | 0 <= i < |r|
      ensures r[i].cursor.generation in kept && r[i].cursor.generation in h.bytes
      ensures r[i].cursor.offset <= |h.bytes[r[i].cursor.generation]|
    {
      RetainedFrom(log.sizes, kept, i);
    }
    if log.sizes != [] {
      RetainedLast(log.sizes, kept);
    }
  }

  lemma PruneKeeps(log: Log, h: History, before: Cursor, removed: set<nat>, finished: bool)
    requires Consistent(log, h)
    ensures Consistent(Pruned(log, before, removed, finished), Record(log, h, Prune(before, removed, finished)))
  {
    var log' := Pruned(log, before, removed, finished);
    var h' := Record(log, h, Prune(before, removed, finished));
    if Prunable(log, before) {
      if finished {
        var kept := log'.segments.Keys;
        RetainedKeeps(log, h, kept);
        forall g | g in h.bytes
          ensures Described(log'.sizes, g, h.tags[g]) || (g !in log'.segments && Unmarked(log'.sizes, g))
        {
          if g in kept {
            forall i | 0 <= i < |h.tags[g]| ensures SizeAt(log'.sizes, g, i) == h.tags[g][i] {
              RetainedLooksUp(log.sizes, kept, g, i);
              assert Described(log.sizes, g, h.tags[g]);
            }
          }
        }
      }
      assert LostOnlyByPrune(log', h');
    }
  }

  lemma ReopenKeeps(log: Log, h: History)
    requires Consistent(log, h)
    ensures Consistent(Reopened(log), Record(log, h, Reopen))
  {
    var log' := Reopened(log);
    var h' := Record(log, h, Reopen);
    if !log.failed {
      assert forall g :: g in h'.bytes ==> Described(log'.sizes, g, h'.tags[g]);
    }
  }

  /** Every operation keeps the log and its history consistent. */
  lemma ApplyKeeps(log: Log, h: History, op: Op)
    requires Consistent(log, h)
    ensures Consistent(Apply(log, op), Record(log, h, op))
  {
    match op
    case Append(data, wrote) => AppendKeeps(log, h, data, wrote);
    case Rotate(created) => RotateKeeps(log, h, created);
    case Mark(size) => MarkKeeps(log, h, size);
    case Prune(before, removed, finished) => PruneKeeps(log, h, before, removed, finished);
    case Close =>
    case Reopen => ReopenKeeps(log, h);
  }
}
