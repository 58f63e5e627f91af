/** The buffered reader and writer that frames go through, proved against the frames. */
module WireStreams {
  import opened Basics
  import opened WireFrames

  /** What a ReadSlice call ends with. */
  datatype SliceEnd = Delimited | BufferFull | EndOfStream

  class Reader {
    var stream: seq<byte>
    const capacity: nat

    constructor (bytes: seq<byte>, size: nat)
      requires size > 0
      ensures stream == bytes && capacity == size
    {
      stream, capacity := bytes, size;
    }

    /** The bytes up to the newline, a full buffer without one, or the rest. */
    method ReadSlice() returns (chunk: seq<byte>, end: SliceEnd)
      requires capacity > 0
      modifies this
      ensures old(stream) == chunk + stream
      ensures end.Delimited? ==> |chunk| == LineLength(old(stream)) > 0
      ensures !end.Delimited? ==> NEWLINE !in chunk
      ensures end.BufferFull? ==> chunk != []
      ensures end.EndOfStream? ==> stream == []
    {
      var n := 0;
      while n < |stream| && n < capacity && stream[n] != NEWLINE
        invariant 0 <= n <= |stream| && n <= capacity && NEWLINE !in stream[..n]
      {
        n := n + 1;
      }
      if n < |stream| && n < capacity {
        end := Delimited;
        n := n + 1;
      } else if n == capacity {
        end := BufferFull;
      } else {
        end := EndOfStream;
      }
      assert stream == stream[..n] + stream[n..];
      chunk, stream := stream[..n], stream[n..];
    }

    /** Whatever the buffer holds at a time, the outcome is that of the whole stream. */
    method ReadLine(limit: nat) returns (r: Result<seq<byte>, WireError>)
      requires capacity > 0
      modifies this
      ensures match Line(old(stream), limit)
              case Ok(n) => r == Ok(old(stream)[..n]) && stream == old(stream)[n..]
              case Err(e) => r == Err(e)
    {
      ghost var all := stream;
      var line := [];
      assert all == [] + stream;
      while true
        invariant all == line + stream && NEWLINE !in line && |line| <= limit
        decreases |stream|
      {
        ghost var before := stream;
        var chunk, end := ReadSlice();
        Sliced(line, before, chunk, end, stream, limit);
        Associative(line, chunk, stream);
        assert (line + chunk + stream)[..|line + chunk|] == line + chunk;
        line := line + chunk;
        if |line| > limit {
          return Err(FrameTooLarge);
        }
        if end.Delimited? {
          return Ok(line);
        }
        if end.EndOfStream? {
          return Err(Truncated);
        }
      }
    }

    /** io.ReadFull. */
    method ReadFull(n: nat) returns (r: Result<seq<byte>, WireError>)
      modifies this
      ensures if n <= |old(stream)| then r == Ok(old(stream)[..n]) && stream == old(stream)[n..]
              else r == Err(Truncated)
    {
      if n > |stream| {
        stream := [];
        return Err(Truncated);
      }
      r := Ok(stream[..n]);
      stream := stream[n..];
    }

    method ReadRequestFrame(codec: Codec<Request>) returns (r: Result<Call, WireError>)
      requires capacity > 0
      modifies this
      ensures match ReadRequest(codec, old(stream))
              case Ok(read) => r == Ok(Call(read.header, read.payload)) && stream == read.rest
              case Err(e) => r == Err(e)
    {
      ghost var all := stream;
      var line := ReadLine(MAX_FRAME);
      if line.Err? {
        return Err(line.error);
      }
      var decoded := codec.dec(line.value);
      if decoded.None? {
        return Err(Malformed);
      }
      var req := decoded.value;
      if req.wire != WIRE {
        return Err(Mismatch);
      }
      if req.id <= 0 || req.name == "" {
        return Err(Malformed);
      }
      if req.payloadBytes < 0 || req.payloadBytes > MAX_PAYLOAD {
        return Err(FrameTooLarge);
      }
      var payload := [];
      ghost var n := |line.value|;
      assert all[n..n] == [];
      if req.payloadBytes > 0 {
        var read := ReadFull(req.payloadBytes);
        if read.Err? {
          return Err(Truncated);
        }
        payload := read.value;
        assert payload == all[n..n + req.payloadBytes] && stream == all[n + req.payloadBytes..];
      }
      return Ok(Call(req, payload));
    }
  }

  /** Bytes already read that hold no newline do not move the next one. */
  lemma LineSplit(line: seq<byte>, rest: seq<byte>)
    requires NEWLINE !in line
    ensures LineLength(line + rest) == if LineLength(rest) > 0 then |line| + LineLength(rest) else 0
  {
    var all := line + rest;
    var n := LineLength(all);
    assert forall i :: 0 <= i < |line| ==> all[i] == line[i];
    assert forall i :: 0 <= i < |rest| ==> all[|line| + i] == rest[i];
    if n > 0 {
      assert all[n - 1] == NEWLINE;
      assert rest[n - 1 - |line|] == NEWLINE;
    }
  }

  /** A slice that ends the line. */
  lemma SliceEnds(line: seq<byte>, before: seq<byte>, chunk: seq<byte>, rest: seq<byte>, limit: nat)
    requires NEWLINE !in line && before == chunk + rest && |chunk| == LineLength(before) > 0
    ensures Line(line + before, limit) == if |line + chunk| <= limit then Ok(|line + chunk|) else Err(FrameTooLarge)
  {
    LineSplit(line, before);
  }

  /** A slice without the newline that already exceeds the limit. */
  lemma SliceTooLong(read: seq<byte>, rest: seq<byte>, limit: nat)
    requires NEWLINE !in read && |read| > limit
    ensures Line(read + rest, limit) == Err(FrameTooLarge)
  {
    LineSplit(read, rest);
  }

  /** A stream that ends without a newline. */
  lemma SliceLast(read: seq<byte>, limit: nat)
    requires NEWLINE !in read && |read| <= limit
    ensures Line(read, limit) == Err(Truncated)
  {
    LineSplit(read, []);
    assert read + [] == read;
  }

  /** What a slice decides about the line: read so far, then the slice, then the rest. */
  lemma Sliced(line: seq<byte>, before: seq<byte>, chunk: seq<byte>, end: SliceEnd, rest: seq<byte>, limit: nat)
    requires NEWLINE !in line && |line| <= limit && before == chunk + rest
    requires end.Delimited? ==> |chunk| == LineLength(before) > 0
    requires !end.Delimited? ==> NEWLINE !in chunk
    requires end.EndOfStream? ==> rest == []
    ensures var all, read := line + before, line + chunk;
            && all == read + rest
            && (|read| > limit ==> Line(all, limit) == Err(FrameTooLarge))
            && (|read| <= limit && end.Delimited? ==> Line(all, limit) == Ok(|read|))
            && (|read| <= limit && end.EndOfStream? ==> Line(all, limit) == Err(Truncated))
  {
    var read := line + chunk;
    Associative(line, chunk, rest);
    if end.Delimited? {
      SliceEnds(line, before, chunk, rest, limit);
    } else if |read| > limit {
      SliceTooLong(read, rest, limit);
    } else if end.EndOfStream? {
      assert read + rest == read;
      SliceLast(read, limit);
    }
  }

  class Writer {
    var written: seq<byte>

    constructor ()
      ensures written == []
    {
      written := [];
    }

    /** A request that is too large leaves the stream as it was. */
    method WriteRequest(codec: Codec<Request>, req: Request, payload: seq<byte>) returns (r: Option<WireError>)
      modifies this
      ensures match RequestBytes(codec, req, payload)
              case Ok(bytes) => r == None && written == old(written) + bytes
              case Err(e) => r == Some(e) && written == old(written)
    {
      if |payload| > MAX_PAYLOAD {
        return Some(FrameTooLarge);
      }
      var encoded := codec.enc(req.(wire := WIRE, payloadBytes := |payload|));
      if |encoded| + 1 > MAX_FRAME {
        return Some(FrameTooLarge);
      }
      written := written + (encoded + [NEWLINE]);
      if |payload| > 0 {
        written := written + payload;
      }
      assert written == old(written) + (encoded + [NEWLINE] + payload);
      return None;
    }

    method WriteRawResponse(codec: Codec<Response>, id: int, result: seq<byte>, data: seq<byte>, fault: Option<string>)
      returns (r: Option<WireError>)
      modifies this
      ensures match RawResponseBytes(codec, id, result, data, fault)
              case Ok(bytes) => r == None && written == old(written) + bytes
              case Err(e) => r == Some(e) && written == old(written)
    {
      if |data| > MAX_CHUNK {
        return Some(FrameTooLarge);
      }
      var sent := if fault.Some? then [] else data;
      var value := ResponseHeader(id, result, |sent|, fault);
      var encoded := codec.enc(value);
      if |encoded| + 1 > MAX_FRAME {
        value := Replacement(id);
        encoded := codec.enc(value);
      }
      written := written + (encoded + [NEWLINE]);
      if |sent| > 0 {
        written := written + sent;
      }
      assert written == old(written) + (encoded + [NEWLINE] + sent);
      return None;
    }
  }
}
