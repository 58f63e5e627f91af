/** What a look answers, told from the log, the reader's place and what the look is given. */
module OutputLooks {
  import opened Basics
  import opened OutputModel
  import opened OutputRuns
  import opened OutputReader

  /** How much of the reader's generation there is to read: all of it while it is retained, else what was last seen. */
  ghost function Available(s: Reading): nat {
    var g := s.reader.cursor.generation;
    if g in s.out.log.segments then |s.out.log.segments[g]| else s.reader.limit
  }

  /** The generation under the cursor is neither retained nor held open. */
  ghost predicate OutOfReach(s: Reading) {
    s.reader.cursor.generation !in s.out.log.segments && s.reader.file.None?
  }

  /** The look has a size to report first. */
  ghost predicate News(s: Reading, look: Look) {
    var size := SizeAt(s.out.log.sizes, s.reader.cursor.generation, s.reader.cursor.offset);
    look.sized && size != UNKNOWN && size != s.reader.reported
  }

  /** Neither expired nor a report: the look is about bytes. */
  ghost predicate Reads(s: Reading, look: Look) {
    !OutOfReach(s) && !News(s, look)
  }

  ghost predicate AtEnd(s: Reading) {
    s.out.log.generation in s.out.log.segments && s.reader.cursor == End(s.out.log)
  }

  /** The segment file can be had. */
  ghost predicate HasFile(s: Reading, look: Look) {
    s.reader.file.Some? || look.opens
  }

  /** Each answer and exactly when it is given. */
  ghost predicate Answered(s: Reading, look: Look, outcome: Outcome) {
    var log := s.out.log;
    var Cursor(g, from) := s.reader.cursor;
    && (outcome.CursorExpired? <==> OutOfReach(s))
    && (outcome.Resized? <==> !OutOfReach(s) && News(s, look))
    && (outcome.Resized? ==> outcome.size == SizeAt(log.sizes, g, from))
    && (outcome.Data? <==> Reads(s, look) && from < Available(s) && HasFile(s, look))
    && (outcome.OpenFailed? <==> Reads(s, look) && from < Available(s) && !HasFile(s, look))
    && (outcome.NextGeneration? <==> Reads(s, look) && from == Available(s) && g < log.generation)
    && (outcome.Finished? <==> Reads(s, look) && AtEnd(s) && log.closed)
    && (outcome.Finished? ==> outcome.failed == log.failed)
    && (outcome.Waiting? <==> Reads(s, look) && AtEnd(s) && !log.closed)
  }

  lemma LookIsAnswered(s: Reading, look: Look)
    requires WellFormed(s.out.log) && SameBytes(s.out.log, s.out.history) && Placed(s)
    requires Stop(s.out.log, Refreshed(s.out.log, s.reader), look.sized) == Available(s)
             || s.reader.cursor.offset < Stop(s.out.log, Refreshed(s.out.log, s.reader), look.sized) < Available(s)
    ensures Answered(s, look, Seen(s, look))
  {
  }

  lemma StopsAhead(s: Reading, look: Look)
    requires ReadingOk(s)
    ensures var stop := Stop(s.out.log, Refreshed(s.out.log, s.reader), look.sized);
            stop == Available(s) || s.reader.cursor.offset < stop < Available(s)
  {
    NextMarkLeast(s.out.log.sizes, s.reader.cursor.generation, s.reader.cursor.offset);
  }

  /** In any reading, over any interleaving with writers, a look gives each answer exactly when it should. */
  lemma LooksAnswered(run: seq<Reading>, acts: seq<Act>, i: nat, look: Look)
    requires IsReading(run, acts) && i <= |acts|
    ensures Answered(run[i], look, Seen(run[i], look))
  {
    ReadingStays(run, acts, i);
    LookAnswered(run[i], look);
  }

  lemma LookAnswered(s: Reading, look: Look)
    requires ReadingOk(s)
    ensures Answered(s, look, Seen(s, look))
  {
    StopsAhead(s, look);
    LookIsAnswered(s, look);
  }

  lemma DataCount(s: Reading, look: Look, stop: nat)
    requires WellFormed(s.out.log) && SameBytes(s.out.log, s.out.history) && Placed(s) && Seen(s, look).Data?
    requires stop == Stop(s.out.log, Refreshed(s.out.log, s.reader), look.sized)
    ensures s.reader.cursor.offset < stop
    ensures |Seen(s, look).data| == Min(Min(look.max, stop - s.reader.cursor.offset), look.got)
    ensures !look.sized ==> Seen(s, look).size == UNKNOWN
  {
  }

  /**
    How much a look for bytes returns: as much as the buffer has room for, the
    file yields and there is; a sized one stops only where the next mark is.
   */
  lemma DataFills(s: Reading, look: Look)
    requires ReadingOk(s) && Seen(s, look).Data?
    ensures var n := |Seen(s, look).data|;
            var Cursor(g, from) := s.reader.cursor;
            && from < Available(s)
            && var most := Min(Min(look.max, look.got), Available(s) - from);
            && n <= most && (most > 0 ==> n > 0)
            && (n < most ==> look.sized && NextMark(s.out.log.sizes, g, from) == Some(from + n))
            && (!look.sized ==> Seen(s, look).size == UNKNOWN)
  {
    StopsAhead(s, look);
    DataCount(s, look, Stop(s.out.log, Refreshed(s.out.log, s.reader), look.sized));
  }
}
