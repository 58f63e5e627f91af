/** The bytes recorded since a process took over, as operations on the log change them. */
module CheckpointModel {
  import opened Basics
  import opened OutputModel
  import opened OutputRuns
  import opened OutputReader

  /** start lies in the history, and no generation from there to the active one is missing from it. */
  ghost predicate Since(log: Log, h: History, start: Cursor) {
    && start.generation <= log.generation
    && (forall g :: start.generation <= g <= log.generation ==> g in h.bytes)
    && (start.generation in h.bytes ==> start.offset <= |h.bytes[start.generation]|)
  }

  /** Everything recorded from start to the end of the log. */
  ghost function Taken(log: Log, h: History, start: Cursor): seq<byte>
    requires log.generation in log.segments
  {
    Recorded(h.bytes, start, End(log))
  }

  lemma GrowthTakes(log: Log, h: History, start: Cursor, data: seq<byte>)
    requires Consistent(log, h) && Since(log, h, start)
    ensures var g := log.generation;
            var b' := h.bytes[g := h.bytes[g] + data];
            Recorded(b', start, Cursor(g, |h.bytes[g] + data|)) == Taken(log, h, start) + data
  {
    var g := log.generation;
    var b' := h.bytes[g := h.bytes[g] + data];
    var upto := Cursor(g, |h.bytes[g] + data|);
    OldPart(h.bytes, b', start, End(log));
    DataExtends(b', Lengths(b'), start, End(log), upto);
    assert Slice(b', g, |h.bytes[g]|, upto.offset) == data;
  }

  lemma AppendTakes(log: Log, h: History, start: Cursor, data: seq<byte>, wrote: bool)
    requires Consistent(log, h) && Since(log, h, start)
    ensures var log', h' := Appended(log, data, wrote), Record(log, h, Append(data, wrote));
            && Since(log', h', start)
            && (!log'.failed && !log.closed ==> Taken(log', h', start) == Taken(log, h, start) + data)
            && (log.closed ==> Taken(log', h', start) == Taken(log, h, start))
  {
    var log' := Appended(log, data, wrote);
    var g := log.generation;
    if data == [] {
      assert Taken(log, h, start) + data == Taken(log, h, start);
    } else if !log.closed && !log'.failed {
      assert |log'.segments[g]| > |log.segments[g]|;
      GrowthTakes(log, h, start, data);
    }
  }

  /** Appending to the last generation changes nothing before the old end. */
  lemma OldPart(b: map<nat, seq<byte>>, b': map<nat, seq<byte>>, start: Cursor, upto: Cursor)
    requires start.generation <= upto.generation
    requires forall g :: start.generation <= g <= upto.generation ==> g in b && g in b' && b[g] <= b'[g]
    requires forall g :: start.generation <= g < upto.generation ==> b[g] == b'[g]
    requires upto.generation in b && upto.offset <= |b[upto.generation]|
    ensures Recorded(b', start, upto) == Recorded(b, start, upto)
  {
    StreamEnds(b', Lengths(b'), Lengths(b), start, upto);
    StreamStable(b, b', Lengths(b), start, upto);
  }

  lemma RotateTakes(log: Log, h: History, start: Cursor, created: bool)
    requires Consistent(log, h) && Since(log, h, start)
    ensures var log', h' := Rotated(log, created), Record(log, h, Rotate(created));
            Since(log', h', start) && Taken(log', h', start) == Taken(log, h, start)
  {
    if Rotates(log, created) {
      var h' := Record(log, h, Rotate(created));
      OldPart(h.bytes, h'.bytes, start, End(log));
      assert Recorded(h'.bytes, start, Cursor(log.generation + 1, 0)) == Recorded(h'.bytes, start, End(log)) + [];
    }
  }

  lemma MarkTakes(log: Log, h: History, start: Cursor, size: Size)
    requires Consistent(log, h) && Since(log, h, start)
    ensures var log', h' := Marked(log, size), Record(log, h, Mark(size));
            Since(log', h', start) && Taken(log', h', start) == Taken(log, h, start)
  {
  }

  lemma PruneTakes(log: Log, h: History, start: Cursor, before: Cursor, removed: set<nat>, finished: bool)
    requires Consistent(log, h) && Since(log, h, start)
    ensures var log', h' := Pruned(log, before, removed, finished), Record(log, h, Prune(before, removed, finished));
            Since(log', h', start) && log'.generation in log'.segments && Taken(log', h', start) == Taken(log, h, start)
  {
  }

  // ------------------------------------------------------- a checkpoint and what follows

  ghost predicate Between(start: Cursor, mid: Cursor, upto: Cursor) {
    && start.generation <= mid.generation <= upto.generation
    && (start.generation == mid.generation ==> start.offset <= mid.offset)
    && (mid.generation == upto.generation ==> mid.offset <= upto.offset)
  }

  /** What lies between two cursors is what lies before and after any cursor between them. */
  lemma {:induction false} Splits(b: map<nat, seq<byte>>, start: Cursor, mid: Cursor, upto: Cursor)
    requires Between(start, mid, upto)
    requires forall g :: start.generation <= g <= upto.generation ==> g in b
    requires mid.offset <= |b[mid.generation]| && upto.offset <= |b[upto.generation]|
    ensures Recorded(b, start, upto) == Recorded(b, start, mid) + Recorded(b, mid, upto)
    decreases upto.generation
  {
    if mid.generation == upto.generation {
      DataExtends(b, Lengths(b), start, mid, upto);
    } else {
      var g := upto.generation - 1;
      var before := Cursor(g, |b[g]|);
      Splits(b, start, mid, before);
      var last := Slice(b, upto.generation, 0, upto.offset);
      assert Recorded(b, start, upto) == Recorded(b, start, before) + last;
      assert Recorded(b, mid, upto) == Recorded(b, mid, before) + last;
    }
  }

  lemma SinceStays(a: Output, b: Output, start: Cursor)
    requires Since(a.log, a.history, start) && Grew(a, b)
    ensures Since(b.log, b.history, start)
  {
  }

  /** What had been recorded up to some moment reads the same ever after. */
  lemma TakenStays(a: Output, b: Output, start: Cursor)
    requires Consistent(a.log, a.history) && Since(a.log, a.history, start) && Grew(a, b)
    ensures Recorded(b.history.bytes, start, End(a.log)) == Taken(a.log, a.history, start)
  {
    OldPart(a.history.bytes, b.history.bytes, start, End(a.log));
  }

  /** start does not lie past the end of the log. */
  ghost predicate Inside(log: Log, start: Cursor)
    requires log.generation in log.segments
  {
    start.generation == log.generation ==> start.offset <= End(log).offset
  }

  /**
    What a checkpoint holds and the output from its cursor on are, together,
    everything recorded, each byte once, at any later time and across rotations,
    prunes and resizes in between.
   */
  lemma CheckpointCovers(run: seq<Output>, ops: seq<Op>, k: nat, n: nat, start: Cursor)
    requires IsRun(run, ops) && k <= n <= |ops| && Since(run[k].log, run[k].history, start)
    requires run[k].log.generation in run[k].log.segments && run[n].log.generation in run[n].log.segments
    requires Inside(run[k].log, start)
    ensures Taken(run[n].log, run[n].history, start)
            == Taken(run[k].log, run[k].history, start)
               + Recorded(run[n].history.bytes, End(run[k].log), End(run[n].log))
  {
    RunConsistent(run, ops, k);
    RunConsistent(run, ops, n);
    RunGrows(run, ops, k, n);
    SinceStays(run[k], run[n], start);
    TakenStays(run[k], run[n], start);
    EndBetween(run[k], run[n], start);
    Splits(run[n].history.bytes, start, End(run[k].log), End(run[n].log));
  }

  lemma EndBetween(a: Output, b: Output, start: Cursor)
    requires Consistent(a.log, a.history) && Consistent(b.log, b.history) && Grew(a, b)
    requires Since(a.log, a.history, start) && Inside(a.log, start)
    ensures Between(start, End(a.log), End(b.log))
    ensures End(a.log).offset <= |b.history.bytes[a.log.generation]|
  {
    assert a.history.bytes[a.log.generation] <= b.history.bytes[a.log.generation];
  }

  // ------------------------------------------------- a checkpoint and a reader

  lemma ActGrows(a: Reading, act: Act, b: Reading)
    requires ReadingOk(a) && Acts(a, act, b)
    ensures Grew(a.out, b.out)
  {
    if act.Write? {
      StepGrows(a.out, act.op, b.out);
    } else {
      NothingGrows(a.out);
    }
  }

  lemma ReadingStepGrows(run: seq<Reading>, acts: seq<Act>, i: nat)
    requires IsReading(run, acts) && i <= |acts|
    ensures Grew(run[i].out, run[i].out)
    ensures i < |acts| ==> Grew(run[i].out, run[i + 1].out)
  {
    ReadingStays(run, acts, i);
    NothingGrows(run[i].out);
    if i < |acts| {
      ActGrows(run[i], acts[i], run[i + 1]);
    }
  }

  lemma {:induction false} ReadingGrows(run: seq<Reading>, acts: seq<Act>, i: nat)
    requires IsReading(run, acts) && i <= |acts|
    ensures Grew(run[0].out, run[i].out)
  {
    if i == 0 {
      ReadingStepGrows(run, acts, 0);
    } else {
      ReadingGrows(run, acts, i - 1);
      ReadingStepGrows(run, acts, i - 1);
      GrewTransitive(run[0].out, run[i - 1].out, run[i].out);
    }
  }

  /** The reader stands where all that was recorded from start up to its cursor splits at its own start. */
  lemma ReaderSplits(at: Output, s: Reading, start: Cursor)
    requires Consistent(at.log, at.history) && Since(at.log, at.history, start) && Inside(at.log, start)
    requires ReadingOk(s) && s.start == End(at.log) && Grew(at, s.out)
    ensures Recorded(s.out.history.bytes, start, s.reader.cursor)
            == Taken(at.log, at.history, start) + Recorded(s.out.history.bytes, s.start, s.reader.cursor)
  {
    SinceStays(at, s.out, start);
    TakenStays(at, s.out, start);
    assert at.history.bytes[at.log.generation] <= s.out.history.bytes[at.log.generation];
    Splits(s.out.history.bytes, start, s.start, s.reader.cursor);
  }

  lemma SamePrefix<T>(x: seq<T>, y: seq<T>, z: seq<T>)
    ensures x + y == x + z <==> y == z
  {
    assert (x + y)[|x|..] == y && (x + z)[|x|..] == z;
  }

  /**
    A checkpoint and a reader opened at its cursor, then or later, join without
    gap or overlap: what the checkpoint held and what the reader has delivered
    are everything recorded from the takeover to the reader's cursor, if and
    only if each generation the reader left was last seen at its final size.
   */
  lemma CheckpointThenReader(outs: seq<Output>, ops: seq<Op>, k: nat, start: Cursor, run: seq<Reading>,
                             acts: seq<Act>, i: nat)
    requires IsRun(outs, ops) && k <= |ops| && Since(outs[k].log, outs[k].history, start)
    requires outs[k].log.generation in outs[k].log.segments && Inside(outs[k].log, start)
    requires IsReading(run, acts) && i <= |acts| && run[0].out == outs[|ops|] && run[0].start == End(outs[k].log)
    ensures Taken(outs[k].log, outs[k].history, start) + run[i].delivered
            == Recorded(run[i].out.history.bytes, start, run[i].reader.cursor)
            <==> SeenInFull(run[i])
  {
    RunConsistent(outs, ops, k);
    RunGrows(outs, ops, k, |ops|);
    ReadingGrows(run, acts, i);
    GrewTransitive(outs[k], run[0].out, run[i].out);
    ReadingStays(run, acts, i);
    ReaderSplits(outs[k], run[i], start);
    ReadsInOrder(run, acts, i);
    SamePrefix(Taken(outs[k].log, outs[k].history, start), run[i].delivered,
               Recorded(run[i].out.history.bytes, run[i].start, run[i].reader.cursor));
  }

  // ------------------------------------------------- the size at a checkpoint

  /** The marks give the end of the log the size in force. */
  lemma SizeAtEnd(log: Log, h: History)
    requires Consistent(log, h)
    ensures SizeAt(log.sizes, End(log).generation, End(log).offset) == h.current
  {
    SpanDescribes(log, h, log.generation, |log.segments[log.generation]|);
  }

  /** The first thing a sized reader opened at the end of the log is told is the size in force. */
  lemma ReaderToldSize(log: Log, h: History, look: Look)
    requires Consistent(log, h) && look.sized && h.current != UNKNOWN
    ensures Looked(log, h.bytes, Pinned(log, End(log)), look).1 == Resized(h.current)
  {
    SizeAtEnd(log, h);
  }
}
