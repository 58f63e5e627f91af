/** What sized reads say of the size their bytes were produced for, and exactly when that is right. */
module OutputSizes {
  import opened Basics
  import opened OutputModel
  import opened OutputRuns
  import opened OutputReader

  /** The n bytes of generation g from an offset on were all appended under this size. */
  ghost predicate Tagged(h: History, g: nat, from: nat, n: nat, size: Size)
    requires g in h.tags && from + n <= |h.tags[g]|
  {
    forall k :: from <= k < from + n ==> h.tags[g][k] == size
  }

  /** The log still knows the sizes of generation g: it is retained, or its marks outlive it. */
  ghost predicate MarksKept(log: Log, g: nat) {
    g in log.segments || !Unmarked(log.sizes, g)
  }

  /**
    What a sized look says. A chunk is the log's bytes at the cursor; a known
    size returned with it is the one last reported; and all its bytes were
    appended under the size returned with them if and only if the log still
    knows the sizes of the generation or all of them are of unknown size. A
    reader that waits, ends or moves on has been told the size at its cursor,
    even if no byte followed it.
   */
  ghost predicate Attributed(s: Reading, r: Reader, outcome: Outcome) {
    var log, h := s.out.log, s.out.history;
    var Cursor(g, from) := s.reader.cursor;
    match outcome
    case Data(data, size) =>
      && (size != UNKNOWN ==> size == s.reader.reported == r.reported)
      && r.cursor == Cursor(g, from + |data|)
      && g in h.bytes && r.cursor.offset <= |h.bytes[g]| && data == h.bytes[g][from..from + |data|]
      && g in h.tags && r.cursor.offset <= |h.tags[g]|
      && (Tagged(h, g, from, |data|, size) <==> MarksKept(log, g) || Tagged(h, g, from, |data|, UNKNOWN))
    case Resized(size) =>
      size != UNKNOWN && size != s.reader.reported && r.reported == size && r.cursor == s.reader.cursor
    case Waiting => h.current == UNKNOWN || h.current == r.reported
    case Finished(_) => h.current == UNKNOWN || h.current == r.reported
    case NextGeneration => SizeAt(log.sizes, g, from) in {UNKNOWN, r.reported}
    case _ => r.cursor == s.reader.cursor
  }

  // --------------------------------------------------------- what the marks say

  /** A pruned generation whose marks survive (a prune that failed half way) is still described. */
  lemma MarkedDescribes(log: Log, h: History, g: nat, i: nat)
    requires Consistent(log, h) && g in h.bytes && !Unmarked(log.sizes, g)
    ensures var size := SizeAt(log.sizes, g, i);
            var next := NextMark(log.sizes, g, i);
            forall k :: i <= k < |h.tags[g]| && (next.Some? ==> k < next.value) ==> h.tags[g][k] == size
  {
    NextMarkLeast(log.sizes, g, i);
    var next := NextMark(log.sizes, g, i);
    forall k | i <= k < |h.tags[g]| && (next.Some? ==> k < next.value)
      ensures h.tags[g][k] == SizeAt(log.sizes, g, i)
    {
      assert Described(log.sizes, g, h.tags[g]);
      SizeAtFlat(log.sizes, g, i, k);
    }
  }

  /** What the marks say from the cursor up to the next mark. */
  ghost predicate SpanKnown(s: Reading) {
    var log, h := s.out.log, s.out.history;
    var Cursor(g, from) := s.reader.cursor;
    var size := SizeAt(log.sizes, g, from);
    var next := NextMark(log.sizes, g, from);
    && (next.Some? ==> from < next.value)
    && (g in h.tags && MarksKept(log, g) ==>
          forall k :: from <= k < |h.tags[g]| && (next.Some? ==> k < next.value) ==> h.tags[g][k] == size)
    && (!MarksKept(log, g) ==> size == UNKNOWN)
    && (g == log.generation && g in h.tags && from == |h.tags[g]| ==> size == h.current)
  }

  lemma SpanIsKnown(s: Reading)
    requires ReadingOk(s)
    ensures SpanKnown(s)
  {
    var log, h := s.out.log, s.out.history;
    var Cursor(g, from) := s.reader.cursor;
    NextMarkLeast(log.sizes, g, from);
    if g in log.segments {
      SpanDescribes(log, h, g, from);
    } else if !Unmarked(log.sizes, g) {
      if g in h.bytes {
        MarkedDescribes(log, h, g, from);
      }
    } else {
      UnmarkedUnknown(log.sizes, g, from);
    }
  }

  /** A chunk is the log's bytes at the cursor. */
  ghost predicate FromLog(s: Reading, r: Reader, data: seq<byte>) {
    var Cursor(g, from) := s.reader.cursor;
    var bytes := s.out.history.bytes;
    && r.cursor == Cursor(g, from + |data|)
    && g in bytes && from + |data| <= |bytes[g]| && data == bytes[g][from..from + |data|]
  }

  /** It is returned with the size at the cursor, and ends before the next mark. */
  ghost predicate InSpan(s: Reading, r: Reader, data: seq<byte>, size: Size) {
    var sizes := s.out.log.sizes;
    var Cursor(g, from) := s.reader.cursor;
    var next := NextMark(sizes, g, from);
    && size == SizeAt(sizes, g, from) && (size != UNKNOWN ==> size == s.reader.reported == r.reported)
    && (next.Some? && from < next.value ==> from + |data| <= next.value)
  }

  lemma DataFromLog(s: Reading, look: Look)
    requires WellFormed(s.out.log) && SameBytes(s.out.log, s.out.history) && Placed(s) && Seen(s, look).Data?
    ensures FromLog(s, Peeked(s, look).reader, Seen(s, look).data)
  {
  }

  lemma DataInSpan(s: Reading, look: Look)
    requires look.sized && Seen(s, look).Data?
    ensures InSpan(s, Peeked(s, look).reader, Seen(s, look).data, Seen(s, look).size)
  {
  }

  lemma SpanAttributed(s: Reading, r: Reader, data: seq<byte>, size: Size)
    requires SameBytes(s.out.log, s.out.history) && SpanKnown(s) && FromLog(s, r, data) && InSpan(s, r, data, size)
    ensures Attributed(s, r, Data(data, size))
  {
  }

  lemma DataAttributed(s: Reading, look: Look)
    requires WellFormed(s.out.log) && SameBytes(s.out.log, s.out.history) && Placed(s) && SpanKnown(s) && look.sized
    requires Seen(s, look).Data?
    ensures Attributed(s, Peeked(s, look).reader, Seen(s, look))
  {
    DataFromLog(s, look);
    DataInSpan(s, look);
    SpanAttributed(s, Peeked(s, look).reader, Seen(s, look).data, Seen(s, look).size);
  }

  lemma SilenceAttributed(s: Reading, look: Look)
    requires WellFormed(s.out.log) && SameBytes(s.out.log, s.out.history) && Placed(s) && SpanKnown(s) && look.sized
    requires !Seen(s, look).Data?
    ensures Attributed(s, Peeked(s, look).reader, Seen(s, look))
  {
  }

  lemma LookAttributed(s: Reading, look: Look)
    requires ReadingOk(s) && look.sized
    ensures Attributed(s, Peeked(s, look).reader, Seen(s, look))
  {
    SpanIsKnown(s);
    if Seen(s, look).Data? {
      DataAttributed(s, look);
    } else {
      SilenceAttributed(s, look);
    }
  }

  /** Every sized look of every reading is attributed exactly as far as the log still knows the sizes. */
  lemma SizedReadsAttributed(run: seq<Reading>, acts: seq<Act>, i: nat, look: Look)
    requires IsReading(run, acts) && i <= |acts| && look.sized
    ensures Attributed(run[i], Peeked(run[i], look).reader, Seen(run[i], look))
  {
    ReadingStays(run, acts, i);
    LookAttributed(run[i], look);
  }

  // ------------------------------------------------------------------- reports

  /** Act k of the run reports this size. */
  ghost predicate Reports(run: seq<Reading>, acts: seq<Act>, k: nat, size: Size)
    requires |run| == |acts| + 1 && k < |acts|
  {
    acts[k].Peek? && Seen(run[k], acts[k].look) == Resized(size)
  }

  /** Before moment i the last size reported is this one. */
  ghost predicate LastReport(run: seq<Reading>, acts: seq<Act>, i: nat, size: Size)
    requires |run| == |acts| + 1 && i <= |acts|
  {
    exists k :: 0 <= k < i && Reports(run, acts, k, size)
                && forall m, other :: k < m < i ==> !Reports(run, acts, m, other)
  }

  lemma LookReports(s: Reading, look: Look)
    ensures Peeked(s, look).reader.reported
            == if Seen(s, look).Resized? then Seen(s, look).size else s.reader.reported
  {
  }

  lemma StillLast(run: seq<Reading>, acts: seq<Act>, i: nat, size: Size)
    requires |run| == |acts| + 1 && i < |acts| && LastReport(run, acts, i, size)
    requires forall other :: !Reports(run, acts, i, other)
    ensures LastReport(run, acts, i + 1, size)
  {
  }

  lemma NowLast(run: seq<Reading>, acts: seq<Act>, i: nat, size: Size)
    requires |run| == |acts| + 1 && i < |acts| && Reports(run, acts, i, size)
    ensures LastReport(run, acts, i + 1, size)
  {
  }

  /** What a reader holds as reported is what its looks last reported. */
  lemma {:induction false} ReportedIsLast(run: seq<Reading>, acts: seq<Act>, i: nat)
    requires IsReading(run, acts) && i <= |acts|
    ensures run[i].reader.reported != UNKNOWN ==> LastReport(run, acts, i, run[i].reader.reported)
  {
    if i > 0 && run[i].reader.reported != UNKNOWN {
      ReportedIsLast(run, acts, i - 1);
      var a, act := run[i - 1], acts[i - 1];
      assert Acts(a, act, run[i]);
      if act.Peek? {
        LookReports(a, act.look);
      }
      if act.Peek? && Seen(a, act.look).Resized? {
        NowLast(run, acts, i - 1, run[i].reader.reported);
      } else {
        StillLast(run, acts, i - 1, run[i].reader.reported);
      }
    }
  }

  /**
    A change is reported before any byte produced for it: where the log still
    knows the sizes, each byte of a sized chunk that has a known size comes when
    that size is the last one reported, and the whole chunk is of that size.
   */
  lemma BytesFollowTheirReport(run: seq<Reading>, acts: seq<Act>, i: nat, k: nat)
    requires IsReading(run, acts) && i < |acts| && acts[i].Peek? && acts[i].look.sized
    requires Seen(run[i], acts[i].look).Data? && MarksKept(run[i].out.log, run[i].reader.cursor.generation)
    requires run[i].reader.cursor.offset <= k < run[i + 1].reader.cursor.offset
    ensures var Cursor(g, from) := run[i].reader.cursor;
            var tags := run[i].out.history.tags;
            var n := |Seen(run[i], acts[i].look).data|;
            && g in tags && run[i + 1].reader.cursor == Cursor(g, from + n) && from + n <= |tags[g]|
            && Tagged(run[i].out.history, g, from, n, tags[g][k])
            && (tags[g][k] != UNKNOWN ==> LastReport(run, acts, i, tags[g][k]))
  {
    assert Acts(run[i], acts[i], run[i + 1]);
    SizedReadsAttributed(run, acts, i, acts[i].look);
    ReportedIsLast(run, acts, i);
  }

  // ------------------------------------------------------- how sizes are forgotten

  /** A prune that is accepted and finishes, after which generation g is gone. */
  ghost predicate Forgets(a: Reading, act: Act, b: Reading, g: nat) {
    && act.Write? && act.op.Prune? && act.op.finished && Prunable(a.out.log, act.op.before)
    && g !in b.out.log.segments
  }

  /** A mark of a kept generation stays. */
  lemma {:induction false} RetainedHas(sizes: seq<SizeMark>, kept: set<nat>, i: nat)
    requires i < |sizes| && sizes[i].cursor.generation in kept
    ensures sizes[i] in Retained(sizes, kept)
  {
    if i < |sizes| - 1 {
      RetainedHas(sizes[..|sizes| - 1], kept, i);
    }
  }

  lemma PruneForgets(log: Log, before: Cursor, removed: set<nat>, finished: bool, i: nat)
    requires i < |log.sizes| && Unmarked(Pruned(log, before, removed, finished).sizes, log.sizes[i].cursor.generation)
    ensures finished && Prunable(log, before)
    ensures log.sizes[i].cursor.generation !in Pruned(log, before, removed, finished).segments
  {
    var log' := Pruned(log, before, removed, finished);
    if finished && Prunable(log, before) && log.sizes[i].cursor.generation in log'.segments {
      RetainedHas(log.sizes, log'.segments.Keys, i);
    }
  }

  /** A new, replaced or collapsed mark leaves every generation that was marked marked. */
  lemma MarkForgetsNothing(log: Log, size: Size, i: nat)
    requires log.generation in log.segments && i < |log.sizes|
    ensures !Unmarked(Marked(log, size).sizes, log.sizes[i].cursor.generation)
  {
    var sizes', g, n := Marked(log, size).sizes, log.sizes[i].cursor.generation, |log.sizes|;
    if i < n - 1 || sizes' == log.sizes || |sizes'| > n {
      assert sizes'[i].cursor.generation == g;
    } else {
      assert sizes'[|sizes'| - 1].cursor.generation == g;
    }
  }

  lemma RotateForgetsNothing(log: Log, created: bool, i: nat)
    requires i < |log.sizes|
    ensures !Unmarked(Rotated(log, created).sizes, log.sizes[i].cursor.generation)
  {
    assert Rotated(log, created).sizes[i] == log.sizes[i];
  }

  /** Of all operations only a finished prune makes the log forget the sizes of a generation. */
  lemma MarksGoByPrune(log: Log, op: Op, g: nat)
    requires log.generation in log.segments && !op.Reopen?
    requires !Unmarked(log.sizes, g) && Unmarked(Apply(log, op).sizes, g)
    ensures op.Prune? && op.finished && Prunable(log, op.before) && g !in Apply(log, op).segments
  {
    var i :| 0 <= i < |log.sizes| && log.sizes[i].cursor.generation == g;
    match op
    case Mark(size) => MarkForgetsNothing(log, size, i);
    case Rotate(created) => RotateForgetsNothing(log, created, i);
    case Prune(before, removed, finished) => PruneForgets(log, before, removed, finished, i);
    case _ =>
  }

  /** While a generation is retained, a byte of known size means that it is marked. */
  lemma RetainedIsMarked(log: Log, h: History, g: nat, k: nat)
    requires Consistent(log, h) && g in log.segments && k < |h.tags[g]| && h.tags[g][k] != UNKNOWN
    ensures !Unmarked(log.sizes, g)
  {
    assert Described(log.sizes, g, h.tags[g]);
    if Unmarked(log.sizes, g) {
      UnmarkedUnknown(log.sizes, g, k);
    }
  }

  /** A byte keeps its tag. */
  lemma TagStays(log: Log, h: History, op: Op, g: nat, k: nat)
    requires Consistent(log, h) && !op.Reopen? && g in h.tags && k < |h.tags[g]|
    ensures var h' := Record(log, h, op);
            g in h'.tags && k < |h'.tags[g]| && h'.tags[g][k] == h.tags[g][k]
  {
  }

  /** The reader holds the file of generation g, has seen byte k of it, and that byte has a known size. */
  ghost predicate HasSeen(s: Reading, g: nat, k: nat) {
    && s.reader.file == Some(g) && k < s.reader.limit
    && g in s.out.history.tags && k < |s.out.history.tags[g]| && s.out.history.tags[g][k] != UNKNOWN
  }

  /** What a reader has seen of a generation no longer retained it had seen before this look. */
  lemma SeenBefore(a: Reading, look: Look, g: nat, k: nat)
    requires Placed(a) && HasSeen(Peeked(a, look), g, k) && g !in a.out.log.segments
    ensures HasSeen(a, g, k)
  {
  }

  lemma ReadWasSeen(s: Reading, look: Look, k: nat)
    requires WellFormed(s.out.log) && SameBytes(s.out.log, s.out.history) && Placed(s) && Seen(s, look).Data?
    requires s.reader.cursor.generation !in s.out.log.segments
    requires s.reader.cursor.offset <= k < Peeked(s, look).reader.cursor.offset
    requires var tags := s.out.history.tags;
             var g := s.reader.cursor.generation;
             g in tags && k < |tags[g]| && tags[g][k] != UNKNOWN
    ensures HasSeen(s, s.reader.cursor.generation, k)
  {
  }

  lemma WriteForgets(a: Reading, op: Op, b: Reading, g: nat, k: nat)
    requires ReadingOk(a) && Acts(a, Write(op), b) && HasSeen(b, g, k) && Unmarked(b.out.log.sizes, g)
    ensures HasSeen(a, g, k)
    ensures Unmarked(a.out.log.sizes, g) || Forgets(a, Write(op), b, g)
  {
    TagStays(a.out.log, a.out.history, op, g, k);
    if !Unmarked(a.out.log.sizes, g) {
      MarksGoByPrune(a.out.log, op, g);
    }
  }

  lemma LookForgets(a: Reading, look: Look, g: nat, k: nat)
    requires ReadingOk(a) && HasSeen(Peeked(a, look), g, k) && Unmarked(a.out.log.sizes, g)
    ensures HasSeen(a, g, k)
  {
    if g in a.out.log.segments {
      RetainedIsMarked(a.out.log, a.out.history, g, k);
    } else {
      SeenBefore(a, look, g, k);
    }
  }

  lemma ActForgets(a: Reading, act: Act, b: Reading, g: nat, k: nat)
    requires ReadingOk(a) && Acts(a, act, b) && HasSeen(b, g, k) && Unmarked(b.out.log.sizes, g)
    ensures HasSeen(a, g, k)
    ensures Unmarked(a.out.log.sizes, g) || Forgets(a, act, b, g)
  {
    match act
    case Peek(look) => LookForgets(a, look, g, k);
    case Write(op) => WriteForgets(a, op, b, g, k);
  }

  lemma OpensMarked(s: Reading, g: nat, k: nat)
    requires Opens(s) && HasSeen(s, g, k)
    ensures !Unmarked(s.out.log.sizes, g)
  {
    RetainedIsMarked(s.out.log, s.out.history, g, k);
  }

  lemma StepForgets(run: seq<Reading>, acts: seq<Act>, i: nat, g: nat, k: nat)
    requires IsReading(run, acts) && i < |acts| && HasSeen(run[i + 1], g, k) && Unmarked(run[i + 1].out.log.sizes, g)
    ensures HasSeen(run[i], g, k)
    ensures Unmarked(run[i].out.log.sizes, g) || Forgets(run[i], acts[i], run[i + 1], g)
  {
    ReadingStays(run, acts, i);
    ActForgets(run[i], acts[i], run[i + 1], g, k);
  }

  /** A reader that saw a byte of known size in a generation without marks lived through the prune that dropped them. */
  lemma {:induction false} ForgottenByPrune(run: seq<Reading>, acts: seq<Act>, i: nat, g: nat, k: nat)
    requires IsReading(run, acts) && i <= |acts| && HasSeen(run[i], g, k) && Unmarked(run[i].out.log.sizes, g)
    ensures exists at :: 0 <= at < i && Forgets(run[at], acts[at], run[at + 1], g)
  {
    if i == 0 {
      OpensMarked(run[0], g, k);
    } else {
      StepForgets(run, acts, i - 1, g, k);
      if Unmarked(run[i - 1].out.log.sizes, g) {
        ForgottenByPrune(run, acts, i - 1, g, k);
      }
    }
  }

  /** A sized chunk is wrong about its bytes only in a run in which a finished prune took their generation away. */
  lemma WrongOnlyAfterPrune(run: seq<Reading>, acts: seq<Act>, i: nat, look: Look)
    requires IsReading(run, acts) && i <= |acts| && look.sized && Seen(run[i], look).Data?
    ensures var s := run[i];
            var Cursor(g, from) := s.reader.cursor;
            var Data(data, size) := Seen(s, look);
            && g in s.out.history.tags && from + |data| <= |s.out.history.tags[g]|
            && (Tagged(s.out.history, g, from, |data|, size)
                || exists at :: 0 <= at < i && Forgets(run[at], acts[at], run[at + 1], g))
  {
    ReadingStays(run, acts, i);
    SizedReadsAttributed(run, acts, i, look);
    var s := run[i];
    var Cursor(g, from) := s.reader.cursor;
    var Data(data, size) := Seen(s, look);
    if !Tagged(s.out.history, g, from, |data|, size) {
      var k :| from <= k < from + |data| && s.out.history.tags[g][k] != UNKNOWN;
      ReadWasSeen(s, look, k);
      ForgottenByPrune(run, acts, i, g, k);
    }
  }

  // ------------------------------------------------------------ the failure is real

  const SMALL := Size(80, 24)
  const LARGE := Size(120, 36)
  const MARKS: seq<SizeMark> := [SizeMark(Cursor(1, 0), SMALL), SizeMark(Cursor(1, 1), LARGE)]

  /** One byte for each of two sizes; then a second generation; then only that. */
  const WRITTEN: Output :=
    Output(Log(1, map[1 := [1, 2]], MARKS, false, false), History(map[1 := [1, 2]], map[1 := [SMALL, LARGE]], LARGE, 0))
  const ROTATED: Output :=
    Output(Log(2, map[1 := [1, 2], 2 := []], MARKS + [SizeMark(Cursor(2, 0), LARGE)], false, false),
           History(map[1 := [1, 2], 2 := []], map[1 := [SMALL, LARGE], 2 := []], LARGE, 0))
  const PRUNED: Output :=
    Output(Log(2, map[2 := []], [SizeMark(Cursor(2, 0), LARGE)], false, false),
           History(map[1 := [1, 2], 2 := []], map[1 := [SMALL, LARGE], 2 := []], LARGE, 2))
  const BOTH: Look := Look(2, true, true, 2)

  lemma WrittenConsistent()
    ensures Consistent(WRITTEN.log, WRITTEN.history)
  {
    assert MARKS[..1] == [MARKS[0]] && MARKS[..1][..0] == [];
    assert SizeAt(MARKS, 1, 0) == SMALL && SizeAt(MARKS, 1, 1) == LARGE;
    assert Described(MARKS, 1, [SMALL, LARGE]);
  }

  lemma RotateWritten()
    ensures Steps(WRITTEN, Rotate(true), ROTATED)
  {
  }

  lemma {:induction false} NoneRetained(sizes: seq<SizeMark>, kept: set<nat>)
    requires forall i :: 0 <= i < |sizes| ==> sizes[i].cursor.generation !in kept
    ensures Retained(sizes, kept) == []
  {
    if sizes != [] {
      NoneRetained(sizes[..|sizes| - 1], kept);
    }
  }

  lemma PruneRotated()
    ensures Steps(ROTATED, Prune(Cursor(2, 0), {}, true), PRUNED)
  {
    var sizes := ROTATED.log.sizes;
    assert Candidates(ROTATED.log, Cursor(2, 0)) == {1};
    assert map[1 := [1, 2], 2 := []] - {1} == map[2 := []];
    assert PRUNED.log.segments.Keys == {2} && sizes[..2] == MARKS;
    NoneRetained(MARKS, {2});
    assert Retained(sizes, {2}) == Retained(MARKS, {2}) + [sizes[2]];
  }

  /** A reader opened at the first byte, before it has looked. */
  function Fresh(out: Output): Reading {
    Reading(out, Pinned(WRITTEN.log, Cursor(1, 0)), Cursor(1, 0), map[1 := 2], [])
  }

  lemma LooksAtBoth()
    ensures Seen(Fresh(PRUNED), BOTH) == Data([1, 2], UNKNOWN)
  {
    var sizes := PRUNED.log.sizes;
    assert sizes[..0] == [] && sizes[1..] == [];
    assert SizeAt(sizes, 1, 0) == UNKNOWN && NextMark(sizes, 1, 0) == None;
    assert [1, 2][0..2] == [1, 2];
  }

  lemma TwoActs(run: seq<Reading>, acts: seq<Act>)
    requires |run| == 3 && |acts| == 2 && Opens(run[0])
    requires Acts(run[0], acts[0], run[1]) && Acts(run[1], acts[1], run[2])
    ensures IsReading(run, acts)
  {
  }

  /**
    A generation pruned under a reader that still holds its file: one sized
    read returns bytes of two sizes, as of unknown size, and reports neither.
   */
  lemma PrunedSizesAreLost() returns (run: seq<Reading>, acts: seq<Act>, look: Look)
    ensures IsReading(run, acts) && look.sized && Seen(run[|acts|], look) == Data([1, 2], UNKNOWN)
    ensures run[|acts|].reader.cursor == Cursor(1, 0)
    ensures 1 in run[|acts|].out.history.tags && run[|acts|].out.history.tags[1] == [SMALL, LARGE]
    ensures SMALL != LARGE && UNKNOWN !in {SMALL, LARGE} && run[|acts|].reader.reported == UNKNOWN
  {
    acts, look := [Write(Rotate(true)), Write(Prune(Cursor(2, 0), {}, true))], BOTH;
    run := [Fresh(WRITTEN), Fresh(ROTATED), Fresh(PRUNED)];
    WrittenConsistent();
    RotateWritten();
    PruneRotated();
    LooksAtBoth();
    TwoActs(run, acts);
  }
}
