/**
  The output log and its reader as the objects the server mutates, proved
  against the operations of OutputModel and OutputReader. Each method body is
  one critical section of the log's lock.
 */
module OutputStore {
  import opened Basics
  import opened OutputModel
  import opened OutputRuns
  import opened OutputReader
  import opened OutputCalls

  class OutputLog {
    var generation: nat
    var segments: map<nat, seq<byte>>
    var sizes: seq<SizeMark>
    var closed: bool
    var failed: bool

    function View(): Log
      reads this
    {
      Log(generation, segments, sizes, closed, failed)
    }

    /** Opens a directory whose files are found, at its active generation. */
    constructor (found: map<nat, seq<byte>>, active: nat)
      requires WellFormed(Log(active, found, [], false, false))
      ensures Opened(View()) && View() == Log(active, found, [], false, false)
    {
      generation, segments, sizes, closed, failed := active, found, [], false, false;
    }

    method Append(data: seq<byte>, wrote: bool) returns (ok: bool)
      requires WellFormed(View())
      modifies this
      ensures View() == Appended(old(View()), data, wrote)
      ensures WellFormed(View())
      ensures ok <==> data == [] || (!old(closed) && !closed)
      ensures ok <==> data == [] || (!old(closed) && wrote && |old(segments)[generation]| + |data| <= MAX_OFFSET)
      ensures ok ==> segments == old(segments)[generation := old(segments)[generation] + data]
      ensures ok || old(closed) ==> closed == old(closed) && failed == old(failed)
      ensures !ok ==> segments == old(segments) && closed && (failed <==> old(failed) || !old(closed))
      ensures generation == old(generation) && sizes == old(sizes)
    {
      if |data| == 0 {
        assert segments[generation] + data == segments[generation];
        assert segments[generation := segments[generation]] == segments;
        return true;
      }
      if closed {
        return false;
      }
      var segment := segments[generation];
      if !wrote || |segment| + |data| > MAX_OFFSET {
        failed := true;
        closed := true;
        return false;
      }
      segments := segments[generation := segment + data];
      return true;
    }

    /** The end of the log, unless it has failed. */
    method CurrentCursor() returns (r: Option<Cursor>)
      requires WellFormed(View())
      ensures r == if failed then None else Some(End(View()))
    {
      if failed {
        return None;
      }
      return Some(Cursor(generation, |segments[generation]|));
    }

    /** The zero cursor resolves to the start of the least retained generation. */
    method ResolveCursor(cursor: Cursor) returns (r: Result<Cursor, CursorError>)
      requires WellFormed(View())
      ensures cursor != START ==> r == Resolve(View(), cursor)
      ensures cursor != START ==>
                && (r == Ok(cursor) <==>
                    cursor.generation in segments && cursor.offset <= |segments[cursor.generation]|)
                && (r == Err(Expired) <==>
                    cursor.generation !in segments && 0 < cursor.generation < generation
                    && cursor.offset <= MAX_OFFSET)
                && (r.Ok? ==> r.value == cursor)
      ensures cursor == START ==>
                && r.Ok? && r.value.offset == 0 && r.value.generation in segments
                && forall g :: g in segments ==> r.value.generation <= g
    {
      if cursor == START {
        var least := generation;
        var rest := segments.Keys;
        while rest != {}
          invariant least in segments && rest <= segments.Keys
          invariant forall g :: g in segments ==> g in rest || least <= g
          decreases rest
        {
          var candidate :| candidate in rest;
          if candidate < least {
            least := candidate;
          }
          rest := rest - {candidate};
        }
        return Ok(Cursor(least, 0));
      }
      if cursor.generation == 0 || cursor.offset > MAX_OFFSET {
        return Err(Invalid);
      }
      if cursor.generation !in segments {
        return if cursor.generation < generation then Err(Expired) else Err(Invalid);
      }
      if cursor.offset > |segments[cursor.generation]| {
        return Err(Invalid);
      }
      return Ok(cursor);
    }

    method Rotate(created: bool) returns (r: Option<Cursor>)
      requires WellFormed(View())
      modifies this
      ensures View() == Rotated(old(View()), created)
      ensures WellFormed(View())
      ensures r == if Rotates(old(View()), created) then Some(End(View())) else None
      ensures r.Some? <==> !old(closed) && old(generation) < MAX_GENERATION && created
      ensures r.Some? ==>
                && r.value == Cursor(generation, 0) && generation == old(generation) + 1
                && segments == old(segments)[generation := []]
      ensures r.None? ==> generation == old(generation) && segments == old(segments) && sizes == old(sizes)
      ensures closed == old(closed) && failed == old(failed)
    {
      if closed {
        return None;
      }
      if generation == MAX_GENERATION {
        return None;
      }
      if !created {
        return None;
      }
      generation := generation + 1;
      segments := segments[generation := []];
      if |sizes| > 0 {
        sizes := sizes + [SizeMark(Cursor(generation, 0), sizes[|sizes| - 1].size)];
      }
      return Some(Cursor(generation, 0));
    }

    /**
      Removes generations before before; removable tells which files the file
      system lets go. The walk visits generations in no particular order and
      stops at the first file it cannot remove.
     */
    method Prune(before: Cursor, removable: set<nat>) returns (ok: bool, ghost removed: set<nat>)
      requires WellFormed(View())
      modifies this
      ensures View() == Pruned(old(View()), before, removed, ok)
      ensures WellFormed(View())
      ensures ok <==> && !old(closed) && !old(failed) && before.offset == 0 && 0 < before.generation <= generation
                      && forall g :: g in old(segments) && g < before.generation ==> g in removable
      ensures ok ==> forall g :: g in segments <==> g in old(segments) && g >= before.generation
      ensures !ok ==> sizes == old(sizes) && forall g :: g in old(segments) && g !in segments ==>
                        g < before.generation && g in removable
      ensures forall g :: g in segments ==> g in old(segments) && segments[g] == old(segments)[g]
      ensures generation == old(generation) && closed == old(closed) && failed == old(failed)
    {
      removed := {};
      if failed || closed {
        return false, removed;
      }
      if before.generation == 0 || before.offset != 0 || before.generation > generation {
        return false, removed;
      }
      ghost var candidates := Candidates(View(), before);
      var left := segments.Keys;
      while left != {}
        invariant removed <= candidates * removable
        invariant left <= old(segments).Keys && left !! removed
        invariant segments == old(segments) - removed
        invariant candidates <= removed + left
        invariant generation == old(generation) && sizes == old(sizes) && !closed && !failed
        decreases left
      {
        var g :| g in left;
        left := left - {g};
        if g >= before.generation || g == generation {
          continue;
        }
        if g !in removable {
          assert removed * candidates == removed;
          return false, removed;
        }
        segments := segments - {g};
        removed := removed + {g};
      }
      assert removed == candidates;
      RetainMarks();
      return true, removed;
    }

    /** Drops the marks of generations no longer indexed. */
    method RetainMarks()
      modifies this`sizes
      ensures sizes == Retained(old(sizes), segments.Keys)
    {
      var retained := [];
      for i := 0 to |sizes|
        invariant retained == Retained(sizes[..i], segments.Keys)
        invariant sizes == old(sizes)
      {
        assert sizes[..i + 1][..i] == sizes[..i];
        if sizes[i].cursor.generation in segments {
          retained := retained + [sizes[i]];
        }
      }
      assert sizes[..|sizes|] == sizes;
      sizes := retained;
    }

    method MarkSize(size: Size)
      requires WellFormed(View())
      modifies this
      ensures View() == Marked(old(View()), size)
      ensures WellFormed(View())
    {
      if closed {
        return;
      }
      var cursor := Cursor(generation, |segments[generation]|);
      var count := |sizes|;
      if count > 0 {
        var last := sizes[count - 1];
        if last.size == size {
          return;
        }
        if last.cursor == cursor {
          sizes := sizes[count - 1 := SizeMark(last.cursor, size)];
          assert sizes == old(sizes)[..count - 1] + [SizeMark(cursor, size)];
          CollapseSizes();
          return;
        }
      }
      sizes := sizes + [SizeMark(cursor, size)];
    }

    method CollapseSizes()
      modifies this`sizes
      ensures sizes == Collapsed(old(sizes))
    {
      var count := |sizes|;
      if count >= 2 && sizes[count - 1].size == sizes[count - 2].size
         && sizes[count - 1].cursor.generation == sizes[count - 2].cursor.generation
      {
        sizes := sizes[..count - 1];
      }
    }

    /** The size in effect at cursor, and how far it reaches before the next mark. */
    method SizeSpan(cursor: Cursor) returns (size: Size, span: nat, bounded: bool)
      requires Ordered(sizes)
      ensures size == SizeAt(sizes, cursor.generation, cursor.offset)
      ensures NextMark(sizes, cursor.generation, cursor.offset)
              == if bounded then Some(cursor.offset + span) else None
    {
      var g, offset := cursor.generation, cursor.offset;
      size := UNKNOWN;
      for i := 0 to |sizes|
        invariant size == SizeAt(sizes[..i], g, offset)
        invariant NextMark(sizes, g, offset) == NextMark(sizes[i..], g, offset)
        invariant forall k :: 0 <= k < i ==>
                    sizes[k].cursor.generation < g
                    || (sizes[k].cursor.generation == g && sizes[k].cursor.offset <= offset)
      {
        var mark := sizes[i];
        assert sizes[..i + 1][..i] == sizes[..i];
        assert sizes[i..][1..] == sizes[i + 1..];
        if mark.cursor.generation != g {
          if mark.cursor.generation > g {
            PastGeneration(sizes, i, g, offset);
            return size, 0, false;
          }
        } else if mark.cursor.offset <= offset {
          size := mark.size;
        } else {
          PastOffset(sizes, i, g, offset);
          return size, mark.cursor.offset - offset, true;
        }
      }
      assert sizes[..|sizes|] == sizes;
      return size, 0, false;
    }

    /** What other parties do to the log, one operation after another. */
    method Others(ops: seq<Op>, h: History) returns (h': History)
      requires Consistent(View(), h)
      modifies this
      ensures Output(View(), h') == Performed(Output(old(View()), h), ops)
      ensures Consistent(View(), h')
    {
      h' := h;
      ghost var out := Output(View(), h);
      var k := 0;
      assert ops[0..] == ops;
      while k < |ops|
        invariant k <= |ops| && Consistent(View(), h')
        invariant Performed(Output(View(), h'), ops[k..]) == Performed(out, ops)
      {
        ApplyKeeps(View(), h', ops[k]);
        assert ops[k..][0] == ops[k] && ops[k..][1..] == ops[k + 1..];
        h' := Other(ops[k], h');
        k := k + 1;
      }
    }

    /**
      An operation of another party, as its own method does it. How far a prune
      gets before a removal fails is part of the operation here, where the
      method leaves it to the walk, so its effect is set outright.
     */
    method Other(op: Op, h: History) returns (h': History)
      requires Consistent(View(), h)
      modifies this
      ensures View() == Apply(old(View()), op) && h' == Record(old(View()), h, op)
    {
      h' := Record(View(), h, op);
      match op
      case Append(data, wrote) => var ok := Append(data, wrote);
      case Rotate(created) => var next := Rotate(created);
      case Mark(size) => MarkSize(size);
      case Close => Close();
      case _ =>
        var log := Apply(View(), op);
        generation, segments, sizes, closed, failed := log.generation, log.segments, log.sizes, log.closed, log.failed;
    }

    method Close()
      modifies this
      ensures View() == Closed(old(View())) && closed && segments == old(segments) && failed == old(failed)
    {
      if closed {
        return;
      }
      closed := true;
    }
  }

  /** From mark i on, every mark belongs to a later generation than g. */
  lemma PastGeneration(sizes: seq<SizeMark>, i: nat, g: nat, offset: nat)
    requires Ordered(sizes) && i < |sizes| && sizes[i].cursor.generation > g
    ensures SizeAt(sizes, g, offset) == SizeAt(sizes[..i], g, offset)
    ensures NextMark(sizes[i..], g, offset) == None
  {
    forall k | i <= k < |sizes| ensures sizes[k].cursor.generation > g {
      assert k == i || Before(sizes[i].cursor, sizes[k].cursor);
    }
    PrefixDecides(sizes, i, g, offset);
    UnmarkedNoNext(sizes[i..], g, offset);
  }

  /** From mark i on, every mark of g lies past offset. */
  lemma PastOffset(sizes: seq<SizeMark>, i: nat, g: nat, offset: nat)
    requires Ordered(sizes) && i < |sizes|
    requires sizes[i].cursor.generation == g && sizes[i].cursor.offset > offset
    ensures SizeAt(sizes, g, offset) == SizeAt(sizes[..i], g, offset)
  {
    forall k | i <= k < |sizes| ensures sizes[k].cursor.generation != g || sizes[k].cursor.offset > offset {
      assert k == i || Before(sizes[i].cursor, sizes[k].cursor);
    }
    PrefixDecides(sizes, i, g, offset);
  }

  lemma {:induction false} PrefixDecides(sizes: seq<SizeMark>, i: nat, g: nat, offset: nat)
    requires i <= |sizes|
    requires forall k :: i <= k < |sizes| ==> sizes[k].cursor.generation != g || sizes[k].cursor.offset > offset
    ensures SizeAt(sizes, g, offset) == SizeAt(sizes[..i], g, offset)
  {
    if i < |sizes| {
      var n := |sizes| - 1;
      PrefixDecides(sizes[..n], i, g, offset);
      assert sizes[..n][..i] == sizes[..i];
    } else {
      assert sizes[..i] == sizes;
    }
  }

  // ------------------------------------------------------------------- reader

  class OutputSource {
    const log: OutputLog
    var cursor: Cursor
    var reported: Size
    var fileOpen: bool
    var fileGen: nat
    var fileLimit: nat
    var complete: bool

    ghost function View(): Reader
      reads this
    {
      Reader(cursor, reported, if fileOpen then Some(fileGen) else None, fileLimit, complete)
    }

    constructor (log: OutputLog, from: Cursor)
      requires from.generation in log.segments
      ensures this.log == log && View() == Pinned(log.View(), from)
    {
      this.log := log;
      cursor, reported := from, UNKNOWN;
      fileOpen, fileGen := true, from.generation;
      fileLimit, complete := |log.segments[from.generation]|, from.generation < log.generation;
    }

    /** Takes the segment's present size and completeness from the log's index. */
    method Refresh()
      modifies this`fileLimit, this`complete
      ensures View() == Refreshed(log.View(), old(View()))
    {
      if cursor.generation in log.segments {
        fileLimit := |log.segments[cursor.generation]|;
        complete := cursor.generation < log.generation;
      } else if fileOpen && fileGen == cursor.generation {
        complete := cursor.generation < log.generation;
      }
    }

    /** The size at the cursor, and where a read from it must stop. */
    method Bound(sized: bool) returns (size: Size, end: nat)
      requires Ordered(log.sizes)
      ensures size == if sized then SizeAt(log.sizes, cursor.generation, cursor.offset) else UNKNOWN
      ensures end == Stop(log.View(), View(), sized)
    {
      size, end := UNKNOWN, fileLimit;
      if sized {
        var span, bounded;
        size, span, bounded := log.SizeSpan(cursor);
        if bounded && cursor.offset + span < end {
          end := cursor.offset + span;
        }
      }
    }

    /** One pass of the read loop. files is what the directory's inodes hold, pinned ones included. */
    method LookOnce(files: map<nat, seq<byte>>, look: Look) returns (outcome: Outcome)
      requires Ordered(log.sizes)
      modifies this
      ensures (View(), outcome) == Looked(log.View(), files, old(View()), look)
    {
      Refresh();
      outcome := LookAfresh(files, look);
    }

    /** Reads n bytes of the file at the cursor, which is then open. */
    method ReadAt(files: map<nat, seq<byte>>, n: nat) returns (data: seq<byte>)
      modifies this
      ensures data == Slice(files, old(cursor).generation, old(cursor).offset, old(cursor).offset + n)
      ensures View() == old(View()).(file := Some(old(cursor).generation),
                                     cursor := Cursor(old(cursor).generation, old(cursor).offset + n))
    {
      fileOpen, fileGen := true, cursor.generation;
      data := Slice(files, cursor.generation, cursor.offset, cursor.offset + n);
      cursor := Cursor(cursor.generation, cursor.offset + n);
    }

    method LookBeyond() returns (outcome: Outcome)
      modifies this
      ensures (View(), outcome) == LookedBeyond(log.View(), old(View()))
    {
      if complete && cursor.offset >= fileLimit {
        fileOpen := false;
        cursor := Cursor(cursor.generation + 1, 0);
        return NextGeneration;
      }
      if log.closed {
        return Finished(log.failed);
      }
      return Waiting;
    }

    method LookAfresh(files: map<nat, seq<byte>>, look: Look) returns (outcome: Outcome)
      requires Ordered(log.sizes)
      modifies this
      ensures (View(), outcome) == LookedAfresh(log.View(), files, old(View()), look)
    {
      if cursor.generation !in log.segments && !(fileOpen && fileGen == cursor.generation && complete) {
        return CursorExpired;
      }
      var size, end := Bound(look.sized);
      if size != UNKNOWN && size != reported {
        reported := size;
        return Resized(size);
      }
      if cursor.offset < end {
        outcome := LookData(files, look, size, end);
      } else {
        outcome := LookBeyond();
      }
    }

    /** The pass where there is something to read before end. */
    method LookData(files: map<nat, seq<byte>>, look: Look, size: Size, end: nat) returns (outcome: Outcome)
      requires cursor.offset < end
      modifies this
      ensures (View(), outcome) == LookedData(files, old(View()), look, size, end)
    {
      if !(fileOpen && fileGen == cursor.generation) && !look.opens {
        return OpenFailed;
      }
      var data := ReadAt(files, Min(Min(look.max, end - cursor.offset), look.got));
      return Data(data, size);
    }

    /** The reader and its log are where s says, and h is what was recorded, which is what the inodes hold. */
    ghost predicate Stands(s: Reading, h: History)
      reads this, log
    {
      ReadingOk(s) && s.out == Output(log.View(), h) && s.reader == View()
    }

    /** A pass of the loop is a look. */
    method Pass(h: History, look: Look, ghost s: Reading) returns (outcome: Outcome)
      requires Stands(s, h)
      modifies this
      ensures Stands(Peeked(s, look), h) && outcome == Seen(s, look)
    {
      LookIsOrderly(s, look);
      outcome := LookOnce(h.bytes, look);
    }

    /** Between passes the log is anybody's. */
    method Release(ops: seq<Op>, h: History, ghost s: Reading) returns (h': History)
      requires Stands(s, h) && Ordinary(ops)
      modifies log
      ensures Stands(Interrupted(s, ops), h')
    {
      InterruptedOk(s, ops);
      h' := log.Others(ops, h);
    }

    /** One round: a pass, and where it goes round again or blocks the next turn of the others. */
    method Round(look: Look, turns: seq<Turn>, h: History, ghost s: Reading, ghost answer: (Reading, CallEnd))
      returns (outcome: Outcome, done: bool, quit: Option<Quit>, rest: seq<Turn>, h': History, ghost s': Reading)
      requires Stands(s, h) && AllOrdinary(turns) && Leads(s, look, None, turns, answer)
      modifies this, log
      ensures Stands(s', h') && AllOrdinary(rest)
      ensures if done then (s', Answer(outcome)) == answer
              else Leads(s', look, quit, rest, answer) && Sooner(s', rest, s, turns)
    {
      CallRound(s, look, turns, answer);
      outcome := Pass(h, look, s);
      s', h', quit, rest, done := Peeked(s, look), h, None, turns, false;
      if (outcome.NextGeneration? || outcome.Waiting?) && |turns| > 0 {
        h' := Release(turns[0].ops, h, s');
        s', quit, rest := Interrupted(s', turns[0].ops), turns[0].quit, turns[1..];
      } else {
        done := !outcome.NextGeneration?;
      }
    }

    /**
      The read loop. Before each pass, and while it blocks, the reader may be
      closed or its context cancelled; whenever a pass goes round again or
      blocks, other parties may have their turn at the log before the next.
     */
    method Read(look: Look, first: Option<Quit>, turns: seq<Turn>, h: History, ghost s: Reading)
      returns (end: CallEnd, h': History, ghost s': Reading)
      requires Stands(s, h) && AllOrdinary(turns)
      modifies this, log
      ensures Stands(s', h')
      ensures if look.max == 0 then end == Answer(Data([], UNKNOWN)) && s' == s
              else (s', end) == Called(s, look, first, turns)
    {
      h', s' := h, s;
      if look.max == 0 {
        return Answer(Data([], UNKNOWN)), h', s';
      }
      ghost var answer := Called(s, look, first, turns);
      var quit, rest := first, turns;
      while true
        invariant Stands(s', h') && AllOrdinary(rest) && Leads(s', look, quit, rest, answer)
        decreases |rest|, Ahead(s')
      {
        if quit.Some? {
          return GaveUp(quit.value), h', s';
        }
        var outcome, done;
        outcome, done, quit, rest, h', s' := Round(look, rest, h', s', answer);
        if done {
          return Answer(outcome), h', s';
        }
      }
    }
  }

  /** A call that stands at s with these turns still to come ends so. */
  ghost predicate Leads(s: Reading, look: Look, quit: Option<Quit>, turns: seq<Turn>, answer: (Reading, CallEnd)) {
    Called(s, look, quit, turns) == answer
  }

  /** Closer to the end of a call. */
  ghost predicate Sooner(s: Reading, turns: seq<Turn>, than: Reading, before: seq<Turn>) {
    |turns| < |before| || (|turns| == |before| && Ahead(s) < Ahead(than))
  }

  lemma LookIsOrderly(s: Reading, look: Look)
    requires ReadingOk(s)
    ensures ReadingOk(Peeked(s, look)) && Ordered(s.out.log.sizes) && Consistent(s.out.log, s.out.history)
  {
    PeekKeeps(s, look);
  }

  /** How a call goes on after its next look. */
  lemma CallRound(s: Reading, look: Look, turns: seq<Turn>, answer: (Reading, CallEnd))
    requires ReadingOk(s) && Leads(s, look, None, turns, answer)
    ensures var outcome, s1 := Seen(s, look), Peeked(s, look);
            if GoesOn(outcome) && turns != [] then
              Leads(Interrupted(s1, turns[0].ops), look, turns[0].quit, turns[1..], answer)
            else if outcome.NextGeneration? then Leads(s1, look, None, turns, answer) && Sooner(s1, turns, s, turns)
            else (s1, Answer(outcome)) == answer
  {
    if Seen(s, look).NextGeneration? {
      NextIsNearer(s, look);
    }
  }
}
