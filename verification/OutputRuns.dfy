/** What holds of the output log after every run of its operations. */
module OutputRuns {
  import opened Basics
  import opened OutputModel

  datatype Output = Output(log: Log, history: History)

  /** One operation; the guard holds in every consistent state. */
  ghost predicate Steps(a: Output, op: Op, b: Output) {
    && a.log.generation in a.log.segments
    && a.log.generation in a.history.bytes && a.log.generation in a.history.tags
    && b == Output(Apply(a.log, op), Record(a.log, a.history, op))
  }

  /** The states a log goes through, from just opened, under ops. */
  ghost predicate IsRun(run: seq<Output>, ops: seq<Op>) {
    && |run| == |ops| + 1
    && Opened(run[0].log) && run[0].history == Initial(run[0].log)
    && forall i :: 0 <= i < |ops| ==> Steps(run[i], ops[i], run[i + 1])
  }

  /** Every state of every run is consistent. */
  lemma {:induction false} RunConsistent(run: seq<Output>, ops: seq<Op>, i: nat)
    requires IsRun(run, ops) && i <= |ops|
    ensures Consistent(run[i].log, run[i].history)
  {
    if i == 0 {
      InitialConsistent(run[0].log);
    } else {
      RunConsistent(run, ops, i - 1);
      assert Steps(run[i - 1], ops[i - 1], run[i]);
      ApplyKeeps(run[i - 1].log, run[i - 1].history, ops[i - 1]);
    }
  }

  /** The next process finds a log that has not failed as it was left, open and without marks. */
  lemma ReopenOpens(log: Log)
    requires WellFormed(log) && !log.failed
    ensures Opened(Reopened(log)) && Reopened(log).segments == log.segments
    ensures Reopened(log).generation == log.generation
  {
  }

  // ------------------------------------------------------------- size lookup

  /** With no mark of g in (i, k], both offsets have one size. */
  lemma {:induction false} SizeAtFlat(sizes: seq<SizeMark>, g: nat, i: nat, k: nat)
    requires i <= k
    requires forall m :: m in sizes && m.cursor.generation == g ==> m.cursor.offset <= i || k < m.cursor.offset
    ensures SizeAt(sizes, g, k) == SizeAt(sizes, g, i)
  {
    if sizes != [] {
      var n := |sizes| - 1;
      assert sizes[n] in sizes;
      assert forall m :: m in sizes[..n] ==> m in sizes;
      SizeAtFlat(sizes[..n], g, i, k);
    }
  }

  /** NextMark is the least mark offset of g past i. */
  lemma {:induction false} NextMarkLeast(sizes: seq<SizeMark>, g: nat, i: nat)
    requires Ordered(sizes)
    ensures NextMark(sizes, g, i).None? ==>
              forall m :: m in sizes && m.cursor.generation == g ==> m.cursor.offset <= i
    ensures NextMark(sizes, g, i).Some? ==>
              var next := NextMark(sizes, g, i).value;
              && i < next
              && (exists j :: 0 <= j < |sizes| && sizes[j].cursor == Cursor(g, next))
              && (forall m :: m in sizes && m.cursor.generation == g ==>
                    m.cursor.offset <= i || next <= m.cursor.offset)
  {
    if sizes != [] {
      var rest := sizes[1..];
      NextMarkLeast(rest, g, i);
      if sizes[0].cursor.generation == g && sizes[0].cursor.offset > i {
        forall m | m in sizes && m.cursor.generation == g ensures sizes[0].cursor.offset <= m.cursor.offset {
          var j :| 0 <= j < |sizes| && sizes[j] == m;
          assert j == 0 || Before(sizes[0].cursor, sizes[j].cursor);
        }
      } else {
        assert forall m :: m in sizes ==> m == sizes[0] || m in rest;
        if NextMark(rest, g, i).Some? {
          var j :| 0 <= j < |rest| && rest[j].cursor == Cursor(g, NextMark(rest, g, i).value);
          assert sizes[j + 1] == rest[j];
        }
      }
    }
  }

  /** A mark gives its own offset its size. */
  lemma {:induction false} SizeAtMark(sizes: seq<SizeMark>, j: nat)
    requires Ordered(sizes) && j < |sizes|
    ensures SizeAt(sizes, sizes[j].cursor.generation, sizes[j].cursor.offset) == sizes[j].size
  {
    var n := |sizes| - 1;
    if j < n {
      assert Before(sizes[j].cursor, sizes[n].cursor);
      SizeAtMark(sizes[..n], j);
    }
  }

  /** Without a mark of g before j, offsets below mark j have no known size. */
  lemma {:induction false} SizeAtNone(sizes: seq<SizeMark>, g: nat, i: nat)
    requires forall m :: m in sizes && m.cursor.generation == g ==> i < m.cursor.offset
    ensures SizeAt(sizes, g, i) == UNKNOWN
  {
    if sizes != [] {
      var n := |sizes| - 1;
      assert sizes[n] in sizes;
      assert forall m :: m in sizes[..n] ==> m in sizes;
      SizeAtNone(sizes[..n], g, i);
    }
  }

  lemma {:induction false} UnmarkedUnknown(sizes: seq<SizeMark>, g: nat, i: nat)
    requires Unmarked(sizes, g)
    ensures SizeAt(sizes, g, i) == UNKNOWN && NextMark(sizes, g, i) == None
  {
    SizeAtNone(sizes, g, i);
    UnmarkedNoNext(sizes, g, i);
  }

  lemma {:induction false} UnmarkedNoNext(sizes: seq<SizeMark>, g: nat, i: nat)
    requires Unmarked(sizes, g)
    ensures NextMark(sizes, g, i) == None
  {
    if sizes != [] {
      UnmarkedNoNext(sizes[1..], g, i);
    }
  }

  /** At the next mark a known size really changes. */
  lemma NextMarkChanges(sizes: seq<SizeMark>, g: nat, i: nat)
    requires Ordered(sizes) && Distinct(sizes)
    requires NextMark(sizes, g, i).Some?
    ensures var next := NextMark(sizes, g, i).value;
            SizeAt(sizes, g, i) != UNKNOWN ==> SizeAt(sizes, g, next) != SizeAt(sizes, g, i)
  {
    NextMarkLeast(sizes, g, i);
    var next := NextMark(sizes, g, i).value;
    var j :| 0 <= j < |sizes| && sizes[j].cursor == Cursor(g, next);
    SizeAtMark(sizes, j);
    if j > 0 && sizes[j - 1].cursor.generation == g {
      var o := sizes[j - 1].cursor.offset;
      assert Before(sizes[j - 1].cursor, sizes[j].cursor);
      SizeAtMark(sizes, j - 1);
      forall m | m in sizes && m.cursor.generation == g ensures m.cursor.offset <= o || i < m.cursor.offset {
        var q :| 0 <= q < |sizes| && sizes[q] == m;
        assert q <= j - 1 || q == j || Before(sizes[j].cursor, sizes[q].cursor);
        assert q >= j - 1 || Before(sizes[q].cursor, sizes[j - 1].cursor);
      }
      assert sizes[j - 1] in sizes;
      SizeAtFlat(sizes, g, o, i);
    } else {
      forall q | 0 <= q < j ensures sizes[q].cursor.generation != g {
        assert q == j - 1 || Before(sizes[q].cursor, sizes[j - 1].cursor);
        assert Before(sizes[j - 1].cursor, sizes[j].cursor);
      }
      forall m | m in sizes && m.cursor.generation == g ensures i < m.cursor.offset {
        var q :| 0 <= q < |sizes| && sizes[q] == m;
        assert q == j || Before(sizes[j].cursor, sizes[q].cursor);
      }
      SizeAtNone(sizes, g, i);
    }
  }

  /**
    Size marks refine per-byte tags. After any run, for any retained
    generation and any offset in it, the size looked up is the size in force
    when that byte was appended; the size holds up to the next mark (or to the
    end), and a known size changes there.
   */
  lemma MarksRefineTags(run: seq<Output>, ops: seq<Op>, at: nat, g: nat, i: nat)
    requires IsRun(run, ops) && at <= |ops|
    requires g in run[at].log.segments && i <= |run[at].log.segments[g]|
    ensures SpanTagged(run[at].log, run[at].history, g, i)
  {
    RunConsistent(run, ops, at);
    SpanDescribes(run[at].log, run[at].history, g, i);
  }

  ghost predicate SpanTagged(log: Log, h: History, g: nat, i: nat)
    requires g in log.segments && i <= |log.segments[g]|
  {
    var size := SizeAt(log.sizes, g, i);
    var end := |log.segments[g]|;
    && g in h.tags && |h.tags[g]| == end
    && (i < end ==> h.tags[g][i] == size)
    && (i == end && g == log.generation ==> size == h.current)
    && match NextMark(log.sizes, g, i)
       case None => forall k :: i <= k < end ==> h.tags[g][k] == size
       case Some(next) =>
         && i < next <= end
         && (forall k :: i <= k < next ==> h.tags[g][k] == size)
         && (size != UNKNOWN && next < end ==> h.tags[g][next] != size)
  }

  /** The same, of any consistent log. */
  lemma SpanDescribes(log: Log, h: History, g: nat, i: nat)
    requires Consistent(log, h)
    requires g in log.segments && i <= |log.segments[g]|
    ensures SpanTagged(log, h, g, i)
  {
    var size := SizeAt(log.sizes, g, i);
    var end := |log.segments[g]|;
    assert Described(log.sizes, g, h.tags[g]);
    NextMarkLeast(log.sizes, g, i);
    var next := NextMark(log.sizes, g, i);
    forall k | i <= k < end && (next.Some? ==> k < next.value) ensures h.tags[g][k] == size {
      SizeAtFlat(log.sizes, g, i, k);
    }
    if next.Some? {
      NextMarkChanges(log.sizes, g, i);
    }
  }

  // ----------------------------------------------------------------- cursors

  /** Histories only grow: a generation once written keeps its bytes. */
  ghost predicate Extends(h: History, h': History) {
    && h.bytes.Keys <= h'.bytes.Keys
    && (forall g :: g in h.bytes ==> h.bytes[g] <= h'.bytes[g])
    && h.horizon <= h'.horizon
  }

  /** What operations do to what is already there. */
  ghost predicate Grew(a: Output, b: Output) {
    && Extends(a.history, b.history)
    && a.log.generation <= b.log.generation
    && (forall g :: g in a.history.bytes && g < a.log.generation ==>
          g in b.history.bytes && b.history.bytes[g] == a.history.bytes[g])
    && (forall g :: g <= a.log.generation ==> (g in b.history.bytes <==> g in a.history.bytes))
    && (forall g :: a.log.generation <= g <= b.log.generation ==> g in b.history.bytes)
    && (forall g :: g in b.log.segments && g <= a.log.generation ==> g in a.log.segments)
  }

  lemma AppendGrew(log: Log, h: History, data: seq<byte>, wrote: bool)
    requires WellFormed(log) && SameBytes(log, h)
    ensures Grew(Output(log, h), Output(Appended(log, data, wrote), Record(log, h, Append(data, wrote))))
  {
  }

  lemma RotateGrew(log: Log, h: History, created: bool)
    requires WellFormed(log) && SameBytes(log, h)
    ensures Grew(Output(log, h), Output(Rotated(log, created), Record(log, h, Rotate(created))))
  {
  }

  lemma PruneGrew(log: Log, h: History, before: Cursor, removed: set<nat>, finished: bool)
    requires WellFormed(log) && SameBytes(log, h)
    ensures Grew(Output(log, h),
                 Output(Pruned(log, before, removed, finished), Record(log, h, Prune(before, removed, finished))))
  {
  }

  lemma OperationGrows(log: Log, h: History, op: Op)
    requires Consistent(log, h)
    ensures Grew(Output(log, h), Output(Apply(log, op), Record(log, h, op)))
  {
    match op
    case Append(data, wrote) => AppendGrew(log, h, data, wrote);
    case Rotate(created) => RotateGrew(log, h, created);
    case Mark(size) =>
    case Prune(before, removed, finished) => PruneGrew(log, h, before, removed, finished);
    case Close =>
    case Reopen =>
  }

  lemma GrewTransitive(a: Output, b: Output, c: Output)
    requires Grew(a, b) && Grew(b, c)
    ensures Grew(a, c)
  {
    forall g | g in a.history.bytes ensures a.history.bytes[g] <= c.history.bytes[g] {
      assert a.history.bytes[g] <= b.history.bytes[g] <= c.history.bytes[g];
    }
  }

  lemma StepGrows(a: Output, op: Op, b: Output)
    requires Consistent(a.log, a.history) && Steps(a, op, b)
    ensures Grew(a, b)
  {
    OperationGrows(a.log, a.history, op);
  }

  lemma NothingGrows(a: Output)
    requires Consistent(a.log, a.history)
    ensures Grew(a, a)
  {
  }

  lemma RunStepGrows(run: seq<Output>, ops: seq<Op>, i: nat)
    requires IsRun(run, ops) && i <= |ops|
    ensures Grew(run[i], run[i])
    ensures i < |ops| ==> Grew(run[i], run[i + 1])
  {
    RunConsistent(run, ops, i);
    NothingGrows(run[i]);
    if i < |ops| {
      StepGrows(run[i], ops[i], run[i + 1]);
    }
  }

  lemma {:induction false} RunGrows(run: seq<Output>, ops: seq<Op>, k: nat, n: nat)
    requires IsRun(run, ops) && k <= n <= |ops|
    ensures Grew(run[k], run[n])
  {
    if k == n {
      RunStepGrows(run, ops, k);
    } else {
      RunGrows(run, ops, k, n - 1);
      RunStepGrows(run, ops, n - 1);
      GrewTransitive(run[k], run[n - 1], run[n]);
    }
  }

  /**
    Issued cursors stay meaningful. The end of the log at any earlier moment
    (what cursor returns, and what rotate returns once it has rotated) resolves
    later to itself or to expired, never to invalid, across rotations, prunes
    and reopening by the next process; it is expired exactly when its generation
    is gone, and then a prune past that generation was accepted in between.
   */
  lemma IssuedCursorsResolve(run: seq<Output>, ops: seq<Op>, k: nat, n: nat)
    requires IsRun(run, ops) && k <= n <= |ops|
    requires run[k].log.generation in run[k].log.segments
    ensures var cursor := End(run[k].log);
            var now := run[n].log;
            && Resolve(now, cursor) == (if cursor.generation in now.segments then Ok(cursor) else Err(Expired))
            && (cursor.generation !in now.segments ==>
                  exists at :: k <= at < n && PrunesPast(run[at].log, ops[at], cursor.generation))
  {
    RunGrows(run, ops, k, n);
    RunConsistent(run, ops, k);
    RunConsistent(run, ops, n);
    var cursor := End(run[k].log);
    assert run[k].history.bytes[cursor.generation] <= run[n].history.bytes[cursor.generation];
    if cursor.generation !in run[n].log.segments {
      var at := HorizonMovedByPrune(run, ops, k, n, cursor.generation);
    }
  }

  /** Of a cursor other than the zero one: what it resolves to. */
  lemma ResolveSays(log: Log, cursor: Cursor)
    requires WellFormed(log)
    ensures Resolve(log, cursor) == Ok(cursor)
            <==> cursor.generation in log.segments && cursor.offset <= |log.segments[cursor.generation]|
    ensures Resolve(log, cursor) == Err(Expired)
            <==> && cursor.generation !in log.segments && 0 < cursor.generation < log.generation
                 && cursor.offset <= MAX_OFFSET
    ensures Resolve(log, cursor).Ok? ==> Resolve(log, cursor).value == cursor
  {
  }

  /**
    A cursor past the end of its retained generation, of the zero generation or
    of one not yet opened is invalid, in every state of every run.
   */
  lemma StrayCursorsInvalid(run: seq<Output>, ops: seq<Op>, n: nat, cursor: Cursor)
    requires IsRun(run, ops) && n <= |ops|
    requires var log := run[n].log;
             || cursor.generation == 0 || cursor.generation > log.generation
             || (cursor.generation in log.segments && cursor.offset > |log.segments[cursor.generation]|)
    ensures Resolve(run[n].log, cursor) == Err(Invalid)
  {
    RunConsistent(run, ops, n);
    ResolveSays(run[n].log, cursor);
  }

  /** A prune that is accepted and finishes leaves exactly the generations from its cursor on, as they were. */
  lemma PruneLeaves(log: Log, before: Cursor, removed: set<nat>, g: nat)
    requires WellFormed(log)
    requires !log.closed && !log.failed && before.offset == 0 && 0 < before.generation <= log.generation
    ensures var after := Pruned(log, before, removed, true);
            && (g in after.segments <==> g in log.segments && g >= before.generation)
            && (g in after.segments ==> after.segments[g] == log.segments[g])
  {
  }

  /** From such a prune on, every cursor of an earlier generation is expired, whatever follows. */
  lemma PrunedCursorsExpire(run: seq<Output>, ops: seq<Op>, at: nat, n: nat, cursor: Cursor)
    requires IsRun(run, ops) && at < n <= |ops| && ops[at].Prune? && ops[at].finished
    requires var log, before := run[at].log, ops[at].before;
             !log.closed && !log.failed && before.offset == 0 && cursor.generation < before.generation <= log.generation
    requires 0 < cursor.generation && cursor.offset <= MAX_OFFSET
    ensures Resolve(run[n].log, cursor) == Err(Expired)
  {
    RunConsistent(run, ops, at);
    assert Steps(run[at], ops[at], run[at + 1]);
    PruneLeaves(run[at].log, ops[at].before, ops[at].removed, cursor.generation);
    RunGrows(run, ops, at + 1, n);
    RunConsistent(run, ops, n);
    ResolveSays(run[n].log, cursor);
  }

  /** A prune past generation g that the log accepts. */
  ghost predicate PrunesPast(log: Log, op: Op, g: nat) {
    op.Prune? && g < op.before.generation && Prunable(log, op.before)
  }

  lemma HorizonStep(log: Log, h: History, op: Op, g: nat)
    requires Consistent(log, h)
    requires h.horizon <= g < Record(log, h, op).horizon
    ensures PrunesPast(log, op, g)
  {
  }

  /** A horizon that moved past g was moved by an accepted prune past g. */
  lemma {:induction false} HorizonMovedByPrune(run: seq<Output>, ops: seq<Op>, k: nat, n: nat, g: nat) returns (at: nat)
    requires IsRun(run, ops) && k <= n <= |ops|
    requires run[k].history.horizon <= g < run[n].history.horizon
    ensures k <= at < n && PrunesPast(run[at].log, ops[at], g)
  {
    if g < run[n - 1].history.horizon {
      at := HorizonMovedByPrune(run, ops, k, n - 1, g);
    } else {
      RunConsistent(run, ops, n - 1);
      assert Steps(run[n - 1], ops[n - 1], run[n]);
      HorizonStep(run[n - 1].log, run[n - 1].history, ops[n - 1], g);
      at := n - 1;
    }
  }
}
