/** A blob pulled in chunks: the server's loop, the client's loop, and the two together. */
module BlobTransfer {
  import opened Basics
  import opened WireFrames

  datatype BlobError = InvalidSize | Failed | InvalidChunk | Incomplete | NoProgress

  /** What a read brings: any failure of the call, or a chunk. */
  datatype Reply = Failure | Chunk(payload: seq<byte>, eof: bool)

  // ------------------------------------------------------------------- the server

  /** The chunk at an offset, and whether it reaches the end. */
  function ChunkAt(data: seq<byte>, offset: nat, max: nat): Reply
    requires offset <= |data|
  {
    var end := if offset + max > |data| then |data| else offset + max;
    Chunk(data[offset..end], end == |data|)
  }

  class BlobServer {
    const data: seq<byte>
    var offset: nat
    var closed: bool

    constructor (bytes: seq<byte>)
      ensures data == bytes && offset == 0 && !closed
    {
      data, offset, closed := bytes, 0, false;
    }

    predicate Valid()
      reads this
    {
      offset <= |data|
    }

    /** A read with an invalid size fails and changes nothing; the read that reaches the end closes the stream. */
    method Read(max: int) returns (reply: Reply)
      requires Valid() && !closed
      modifies this
      ensures Valid()
      ensures max <= 0 || max > MAX_CHUNK ==> reply == Failure && offset == old(offset) && !closed
      ensures 0 < max <= MAX_CHUNK ==>
                && reply.Chunk? && closed == reply.eof && |reply.payload| <= max
                && data[..old(offset)] + reply.payload == data[..offset]
                && if reply.eof then offset == |data| else |reply.payload| == max && offset < |data|
    {
      if max <= 0 || max > MAX_CHUNK {
        return Failure;
      }
      var end := offset + max;
      if end > |data| {
        end := |data|;
      }
      reply := Chunk(data[offset..end], end == |data|);
      assert data[..offset] + data[offset..end] == data[..end];
      offset := end;
      closed := reply.eof;
    }
  }

  // ------------------------------------------------------------------- the client

  /** The client once it has data, having made i reads of whatever the server answers; with the number of reads made. */
  function Fetched(size: nat, server: nat -> Reply, i: nat, data: seq<byte>): (Result<seq<byte>, BlobError>, nat)
    requires |data| <= size
    decreases size - |data|
  {
    match server(i)
    case Failure => (Err(Failed), i + 1)
    case Chunk(payload, eof) =>
      if |payload| > MAX_CHUNK || |data| > size - |payload| then (Err(InvalidChunk), i + 1)
      else if eof then (if |data + payload| == size then Ok(data + payload) else Err(Incomplete), i + 1)
      else if |payload| == 0 then (Err(NoProgress), i + 1)
      else Fetched(size, server, i + 1, data + payload)
  }

  /** The client's loop ends whatever the server answers. */
  method Fetch(size: int, server: nat -> Reply) returns (r: Result<seq<byte>, BlobError>, calls: nat)
    ensures size < 0 ==> r == Err(InvalidSize) && calls == 0
    ensures size >= 0 ==> (r, calls) == Fetched(size, server, 0, [])
  {
    if size < 0 {
      return Err(InvalidSize), 0;
    }
    var data := [];
    calls := 0;
    while true
      invariant |data| <= size && Fetched(size, server, calls, data) == Fetched(size, server, 0, [])
      decreases size - |data|
    {
      var reply := server(calls);
      calls := calls + 1;
      if reply.Failure? {
        return Err(Failed), calls;
      }
      var chunkBytes := |reply.payload|;
      if chunkBytes > MAX_CHUNK || |data| > size - chunkBytes {
        return Err(InvalidChunk), calls;
      }
      data := data + reply.payload;
      if reply.eof {
        if |data| != size {
          return Err(Incomplete), calls;
        }
        return Ok(data), calls;
      }
      if chunkBytes == 0 {
        return Err(NoProgress), calls;
      }
    }
  }

  // --------------------------------------------------------------- what is returned

  /** The payloads of reads i to n, in order. */
  function Payloads(server: nat -> Reply, i: nat, n: nat): seq<byte>
    requires i <= n
    decreases n - i
  {
    if i == n then [] else (if server(i).Chunk? then server(i).payload else []) + Payloads(server, i + 1, n)
  }

  /** A reply after which the client asks for more, if there is room for it. */
  predicate GoesOn(reply: Reply) {
    reply.Chunk? && !reply.eof && 0 < |reply.payload| <= 0x1_0000
  }

  /** What the client makes of the reply that ends its loop, with data read before. */
  predicate EndsWith(size: nat, data: seq<byte>, reply: Reply, r: Result<seq<byte>, BlobError>) {
    match r
    case Ok(all) =>
      reply.Chunk? && reply.eof && |reply.payload| <= 0x1_0000 && all == data + reply.payload && |all| == size
    case Err(Failed) => reply.Failure?
    case Err(InvalidChunk) => reply.Chunk? && (|reply.payload| > 0x1_0000 || |data| + |reply.payload| > size)
    case Err(Incomplete) => reply.Chunk? && reply.eof && |data| + |reply.payload| < size
    case Err(NoProgress) => reply.Chunk? && !reply.eof && reply.payload == []
    case Err(InvalidSize) => false
  }

  /** The loop goes on exactly through the replies that allow it, and the one that ends it decides. */
  lemma {:induction false} EndDecides(size: nat, server: nat -> Reply, i: nat, data: seq<byte>)
    requires |data| <= size
    ensures var (r, n) := Fetched(size, server, i, data);
            i < n && EndsWith(size, data + Payloads(server, i, n - 1), server(n - 1), r)
    decreases size - |data|
  {
    var (r, n) := Fetched(size, server, i, data);
    if GoesOn(server(i)) && |data| <= size - |server(i).payload| {
      EndDecides(size, server, i + 1, data + server(i).payload);
      assert data + server(i).payload + Payloads(server, i + 1, n - 1) == data + Payloads(server, i, n - 1);
    } else {
      assert data + Payloads(server, i, i) == data;
    }
  }

  /**
    Against any server, data that is returned has exactly the declared size and
    is what was read, up to the first end mark.
   */
  lemma {:induction false} OnlyDeclaredSize(size: nat, server: nat -> Reply, i: nat, data: seq<byte>)
    requires |data| <= size
    ensures var (r, n) := Fetched(size, server, i, data);
            && i < n <= i + (size - |data|) + 1
            && (r.Ok? ==>
                  && |r.value| == size && r.value == data + Payloads(server, i, n)
                  && server(n - 1).Chunk? && server(n - 1).eof
                  && forall k :: i <= k < n - 1 ==> server(k).Chunk? && !server(k).eof)
            && (forall k :: i <= k < n - 1 ==> GoesOn(server(k)))
    decreases size - |data|
  {
    var (r, n) := Fetched(size, server, i, data);
    if server(i).Chunk? && !server(i).eof && 0 < |server(i).payload| <= MAX_CHUNK
       && |data| <= size - |server(i).payload|
    {
      OnlyDeclaredSize(size, server, i + 1, data + server(i).payload);
      assert data + server(i).payload + Payloads(server, i + 1, n) == data + Payloads(server, i, n);
    } else {
      assert Payloads(server, i + 1, i + 1) == [];
      assert Payloads(server, i, i + 1) == if server(i).Chunk? then server(i).payload else [];
    }
  }

  // ------------------------------------------------------------------ both together

  /** The answers of a server that is read with the largest chunk each time. */
  function Honest(data: seq<byte>): nat -> Reply {
    (k: nat) => if k * MAX_CHUNK <= |data| then ChunkAt(data, k * MAX_CHUNK, MAX_CHUNK) else Failure
  }

  /** The number of reads a blob of n bytes takes: one for the empty blob, otherwise n / 65536 rounded up. */
  function Reads(n: nat): nat {
    if n == 0 then 1 else (n + MAX_CHUNK - 1) / MAX_CHUNK
  }

  lemma HonestReply(data: seq<byte>, k: nat, from: nat)
    requires from == k * MAX_CHUNK <= |data|
    ensures Honest(data)(k) == ChunkAt(data, from, MAX_CHUNK)
  {
  }

  lemma ChunkJoins(data: seq<byte>, from: nat, payload: seq<byte>, eof: bool)
    requires from <= |data| && ChunkAt(data, from, MAX_CHUNK) == Chunk(payload, eof)
    ensures |payload| <= MAX_CHUNK && from + |payload| <= |data| && data[..from] + payload == data[..from + |payload|]
    ensures if eof then from + |payload| == |data| else |payload| == MAX_CHUNK && from + |payload| < |data|
  {
  }

  lemma FetchGoesOn(size: nat, server: nat -> Reply, i: nat, data: seq<byte>, payload: seq<byte>)
    requires server(i) == Chunk(payload, false) && 0 < |payload| <= MAX_CHUNK && |data| + |payload| <= size
    ensures Fetched(size, server, i, data) == Fetched(size, server, i + 1, data + payload)
  {
  }

  lemma FetchEnds(size: nat, server: nat -> Reply, i: nat, data: seq<byte>, payload: seq<byte>)
    requires server(i) == Chunk(payload, true) && |payload| <= MAX_CHUNK && |data| + |payload| == size
    ensures Fetched(size, server, i, data) == (Ok(data + payload), i + 1)
  {
  }

  lemma {:induction false} HonestFrom(data: seq<byte>, k: nat, from: nat)
    requires from == k * MAX_CHUNK && (from < |data| || from == 0)
    ensures Fetched(|data|, Honest(data), k, data[..from]) == (Ok(data), Reads(|data|))
    decreases |data| - from
  {
    var Chunk(payload, eof) := ChunkAt(data, from, MAX_CHUNK);
    HonestReply(data, k, from);
    ChunkJoins(data, from, payload, eof);
    if eof {
      FetchEnds(|data|, Honest(data), k, data[..from], payload);
      assert data[..|data|] == data;
      ReadsAre(|data|, k);
    } else {
      FetchGoesOn(|data|, Honest(data), k, data[..from], payload);
      HonestFrom(data, k + 1, from + MAX_CHUNK);
    }
  }

  lemma ReadsAre(n: nat, k: nat)
    requires k * MAX_CHUNK <= n <= (k + 1) * MAX_CHUNK && (n > 0 ==> k * MAX_CHUNK < n) && (n == 0 ==> k == 0)
    ensures Reads(n) == k + 1
  {
  }

  /** Client and server together return the server's bytes unchanged, in as many reads as the chunks need. */
  lemma TransferExact(data: seq<byte>)
    ensures Fetched(|data|, Honest(data), 0, []) == (Ok(data), Reads(|data|))
  {
    HonestFrom(data, 0, 0);
    assert data[..0] == [];
  }

  /** The client's loop and the server's, run against each other. */
  method Transfer(bytes: seq<byte>) returns (r: Result<seq<byte>, BlobError>, calls: nat)
    ensures r == Ok(bytes) && calls == Reads(|bytes|)
  {
    var server := new BlobServer(bytes);
    var data := [];
    calls := 0;
    while true
      invariant server.Valid() && server.data == bytes && !server.closed && data == bytes[..server.offset]
      invariant server.offset == calls * MAX_CHUNK && (calls > 0 ==> server.offset < |bytes|)
      decreases |bytes| - server.offset
    {
      var reply := server.Read(MAX_CHUNK);
      assert |data + reply.payload| == server.offset;
      calls := calls + 1;
      if |reply.payload| > MAX_CHUNK || |data| > |bytes| - |reply.payload| {
        r := Err(InvalidChunk);
        return;
      }
      data := data + reply.payload;
      if reply.eof {
        if |data| != |bytes| {
          r := Err(Incomplete);
          return;
        }
        ReadsAre(|bytes|, calls - 1);
        assert bytes[..|bytes|] == bytes;
        r := Ok(data);
        return;
      }
      if |reply.payload| == 0 {
        r := Err(NoProgress);
        return;
      }
    }
  }
}
