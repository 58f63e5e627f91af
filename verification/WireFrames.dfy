/**
  The request and response frames: one JSON header line, then the raw payload
  whose length the header declares. JSON is any codec that gives headers back
  and puts no newline into their encoding.
 */
module WireFrames {
  import opened Basics

  const WIRE: int := 1
  const MAX_FRAME := 0x10_0000
  const MAX_PAYLOAD := 0x10_0000
  const MAX_CHUNK := 0x1_0000

  datatype Request = Request(wire: int, id: int, name: string, params: seq<byte>, payloadBytes: int)

  /** fault is the error code and message, if the response is an error. */
  datatype Response = Response(wire: int, id: int, result: seq<byte>, fault: Option<string>, payloadBytes: int)

  datatype WireError = FrameTooLarge | Truncated | Malformed | Mismatch

  datatype Codec<!H> = Codec(enc: H -> seq<byte>, dec: seq<byte> -> Option<H>)

  /** JSON's part: this header is encoded without a newline and decodes from its line. */
  predicate Carries<H(==)>(codec: Codec<H>, h: H) {
    NEWLINE !in codec.enc(h) && codec.dec(codec.enc(h) + [NEWLINE]) == Some(h)
  }

  // ----------------------------------------------------------------------- lines

  /** The length of the first line with its newline; 0 when there is no newline. */
  function LineLength(stream: seq<byte>): (n: nat)
    ensures n <= |stream| && (n > 0 ==> stream[n - 1] == NEWLINE)
    ensures forall i :: 0 <= i < (if n > 0 then n - 1 else |stream|) ==> stream[i] != NEWLINE
  {
    if stream == [] then 0
    else if stream[0] == NEWLINE then 1
    else
      var n := LineLength(stream[1..]);
      if n == 0 then 0 else n + 1
  }

  /** readLine: the line with its newline, if it is within the limit. */
  function Line(stream: seq<byte>, limit: nat): Result<nat, WireError> {
    var n := LineLength(stream);
    if n > 0 then if n <= limit then Ok(n) else Err(FrameTooLarge)
    else if |stream| > limit then Err(FrameTooLarge) else Err(Truncated)
  }

  lemma LineOf(text: seq<byte>, rest: seq<byte>)
    requires NEWLINE !in text
    ensures LineLength(text + [NEWLINE] + rest) == |text| + 1
  {
    var stream := text + [NEWLINE] + rest;
    assert stream[|text|] == NEWLINE;
    assert forall i :: 0 <= i < |text| ==> stream[i] == text[i];
  }

  // -------------------------------------------------------------------- requests

  function RequestHeader(req: Request, payload: seq<byte>): Request {
    req.(wire := WIRE, payloadBytes := |payload|)
  }

  /** What writeRequestPayload puts on the wire. */
  function RequestBytes(codec: Codec<Request>, req: Request, payload: seq<byte>): Result<seq<byte>, WireError> {
    if |payload| > MAX_PAYLOAD then Err(FrameTooLarge)
    else
      var encoded := codec.enc(RequestHeader(req, payload));
      if |encoded| + 1 > MAX_FRAME then Err(FrameTooLarge) else Ok(encoded + [NEWLINE] + payload)
  }

  /** A frame that was read, and what the stream still holds. */
  datatype Read<H> = Read(header: H, payload: seq<byte>, rest: seq<byte>)

  function ReadRequest(codec: Codec<Request>, stream: seq<byte>): Result<Read<Request>, WireError> {
    match Line(stream, MAX_FRAME)
    case Err(e) => Err(e)
    case Ok(n) =>
      match codec.dec(stream[..n])
      case None => Err(Malformed)
      case Some(req) =>
        if req.wire != WIRE then Err(Mismatch)
        else if req.id <= 0 || req.name == "" then Err(Malformed)
        else if req.payloadBytes < 0 || req.payloadBytes > MAX_PAYLOAD then Err(FrameTooLarge)
        else if n + req.payloadBytes > |stream| then Err(Truncated)
        else Ok(Read(req, stream[n..n + req.payloadBytes], stream[n + req.payloadBytes..]))
  }

  /** The writer's size test admits exactly the headers whose line the reader accepts. */
  lemma SizeTestIff(codec: Codec<Request>, h: Request, rest: seq<byte>)
    requires Carries(codec, h)
    ensures Line(codec.enc(h) + [NEWLINE] + rest, MAX_FRAME).Ok? <==> |codec.enc(h)| + 1 <= MAX_FRAME
  {
    LineOf(codec.enc(h), rest);
  }

  /** A request can be sent exactly if its payload is within the cap and its line within the frame's. */
  lemma RequestOkIff(codec: Codec<Request>, req: Request, payload: seq<byte>)
    ensures RequestBytes(codec, req, payload).Ok?
            <==> |payload| <= 0x10_0000 && |codec.enc(req.(wire := 1, payloadBytes := |payload|))| + 1 <= 0x10_0000
    ensures RequestBytes(codec, req, payload).Err? ==> RequestBytes(codec, req, payload).error == FrameTooLarge
  {
  }

  lemma RequestRoundTrip(codec: Codec<Request>, req: Request, payload: seq<byte>, rest: seq<byte>)
    requires Carries(codec, RequestHeader(req, payload)) && req.id > 0 && req.name != ""
    requires RequestBytes(codec, req, payload).Ok?
    ensures ReadRequest(codec, RequestBytes(codec, req, payload).value + rest)
            == Ok(Read(RequestHeader(req, payload), payload, rest))
  {
    var line := codec.enc(RequestHeader(req, payload)) + [NEWLINE];
    var stream := RequestBytes(codec, req, payload).value + rest;
    assert stream == line + (payload + rest);
    LineOf(codec.enc(RequestHeader(req, payload)), payload + rest);
    assert stream[..|line|] == line;
    assert stream[|line|..|line| + |payload|] == payload && stream[|line| + |payload|..] == rest;
  }

  /** A request frame as it stands on the wire: a line that decodes, within the cap, and the payload it declares. */
  ghost predicate IsRequestFrame(codec: Codec<Request>, text: seq<byte>, req: Request, payload: seq<byte>) {
    && NEWLINE !in text && |text| + 1 <= 0x10_0000 && codec.dec(text + [NEWLINE]) == Some(req)
    && req.wire == 1 && req.id > 0 && req.name != ""
    && req.payloadBytes == |payload| <= 0x10_0000
  }

  lemma LineParts(stream: seq<byte>, n: nat)
    requires 0 < n == LineLength(stream)
    ensures NEWLINE !in stream[..n - 1] && stream[..n] == stream[..n - 1] + [NEWLINE]
  {
  }

  /** A request is read from a stream if and only if the stream begins with its frame. */
  lemma ReadRequestIff(codec: Codec<Request>, stream: seq<byte>, req: Request, payload: seq<byte>, rest: seq<byte>)
    ensures ReadRequest(codec, stream) == Ok(Read(req, payload, rest)) <==>
            exists text :: IsRequestFrame(codec, text, req, payload) && stream == text + [NEWLINE] + (payload + rest)
  {
    if ReadRequest(codec, stream) == Ok(Read(req, payload, rest)) {
      var n := LineLength(stream);
      LineParts(stream, n);
      assert stream == stream[..n - 1] + [NEWLINE] + (payload + rest);
      assert IsRequestFrame(codec, stream[..n - 1], req, payload);
    } else if exists text :: IsRequestFrame(codec, text, req, payload)
                             && stream == text + [NEWLINE] + (payload + rest) {
      var text :| IsRequestFrame(codec, text, req, payload) && stream == text + [NEWLINE] + (payload + rest);
      FrameIsRead(codec, text, req, payload, rest, stream);
    }
  }

  lemma FrameIsRead(codec: Codec<Request>, text: seq<byte>, req: Request, payload: seq<byte>, rest: seq<byte>,
                    stream: seq<byte>)
    requires IsRequestFrame(codec, text, req, payload) && stream == text + [NEWLINE] + (payload + rest)
    ensures ReadRequest(codec, stream) == Ok(Read(req, payload, rest))
  {
    var n := |text| + 1;
    LineOf(text, payload + rest);
    assert stream[..n] == text + [NEWLINE];
    assert stream[n..n + |payload|] == payload && stream[n + |payload|..] == rest;
  }

  /**
    What is wrong with a stream no request is read from: no line within the cap
    yet, a line that is too long, or a line whose header is not one.
   */
  lemma ReadRequestFails(codec: Codec<Request>, stream: seq<byte>)
    ensures var n := LineLength(stream);
            ReadRequest(codec, stream).Err? ==>
              match ReadRequest(codec, stream).error
              case Truncated =>
                if n == 0 then |stream| <= 0x10_0000
                else codec.dec(stream[..n]).Some? && n + codec.dec(stream[..n]).value.payloadBytes > |stream|
              case FrameTooLarge =>
                (if n == 0 then |stream| else n) > 0x10_0000
                || (n > 0 && codec.dec(stream[..n]).Some?
                    && !(0 <= codec.dec(stream[..n]).value.payloadBytes <= 0x10_0000))
              case Malformed =>
                n > 0 && (codec.dec(stream[..n]).None? || codec.dec(stream[..n]).value.id <= 0
                          || codec.dec(stream[..n]).value.name == "")
              case Mismatch => n > 0 && codec.dec(stream[..n]).Some? && codec.dec(stream[..n]).value.wire != 1
  {
  }

  datatype Call = Call(req: Request, payload: seq<byte>)

  predicate Sendable(codec: Codec<Request>, call: Call) {
    && call.req.id > 0 && call.req.name != "" && RequestBytes(codec, call.req, call.payload).Ok?
    && Carries(codec, RequestHeader(call.req, call.payload))
  }

  function AllBytes(codec: Codec<Request>, calls: seq<Call>): seq<byte>
    requires forall i :: 0 <= i < |calls| ==> Sendable(codec, calls[i])
  {
    if calls == [] then []
    else
      assert Sendable(codec, calls[0]);
      RequestBytes(codec, calls[0].req, calls[0].payload).value + AllBytes(codec, calls[1..])
  }

  /** Reading n frames one after another. */
  function ReadRequests(codec: Codec<Request>, n: nat, stream: seq<byte>): Result<(seq<Call>, seq<byte>), WireError> {
    if n == 0 then Ok(([], stream))
    else
      match ReadRequest(codec, stream)
      case Err(e) => Err(e)
      case Ok(read) =>
        match ReadRequests(codec, n - 1, read.rest)
        case Err(e) => Err(e)
        case Ok(more) => Ok(([Call(read.header, read.payload)] + more.0, more.1))
  }

  function Stamped(calls: seq<Call>): seq<Call> {
    seq(|calls|, i requires 0 <= i < |calls| => Call(RequestHeader(calls[i].req, calls[i].payload), calls[i].payload))
  }

  lemma AllBytesFirst(codec: Codec<Request>, calls: seq<Call>, rest: seq<byte>)
    requires calls != [] && forall i :: 0 <= i < |calls| ==> Sendable(codec, calls[i])
    ensures Sendable(codec, calls[0]) && forall i :: 0 <= i < |calls[1..]| ==> Sendable(codec, calls[1..][i])
    ensures AllBytes(codec, calls) + rest
            == RequestBytes(codec, calls[0].req, calls[0].payload).value + (AllBytes(codec, calls[1..]) + rest)
  {
    Associative(RequestBytes(codec, calls[0].req, calls[0].payload).value, AllBytes(codec, calls[1..]), rest);
  }

  lemma ReadOneMore(codec: Codec<Request>, n: nat, stream: seq<byte>, read: Read<Request>, more: (seq<Call>, seq<byte>))
    requires n > 0 && ReadRequest(codec, stream) == Ok(read) && ReadRequests(codec, n - 1, read.rest) == Ok(more)
    ensures ReadRequests(codec, n, stream) == Ok(([Call(read.header, read.payload)] + more.0, more.1))
  {
  }

  lemma StampedFirst(calls: seq<Call>)
    requires calls != []
    ensures Stamped(calls) == [Call(RequestHeader(calls[0].req, calls[0].payload), calls[0].payload)]
                              + Stamped(calls[1..])
  {
    assert Stamped(calls)[1..] == Stamped(calls[1..]);
  }

  /** Any list of requests, whatever bytes their payloads hold, is read back in order with nothing left over. */
  lemma {:induction false} RequestsRoundTrip(codec: Codec<Request>, calls: seq<Call>, rest: seq<byte>)
    requires forall i :: 0 <= i < |calls| ==> Sendable(codec, calls[i])
    ensures ReadRequests(codec, |calls|, AllBytes(codec, calls) + rest) == Ok((Stamped(calls), rest))
  {
    if calls == [] {
      assert AllBytes(codec, calls) + rest == rest && Stamped(calls) == [];
    } else {
      var Call(req, payload) := calls[0];
      AllBytesFirst(codec, calls, rest);
      var later := AllBytes(codec, calls[1..]) + rest;
      RequestRoundTrip(codec, req, payload, later);
      RequestsRoundTrip(codec, calls[1..], rest);
      ReadOneMore(codec, |calls|, AllBytes(codec, calls) + rest, Read(RequestHeader(req, payload), payload, later),
                  (Stamped(calls[1..]), rest));
      StampedFirst(calls);
    }
  }

  // ------------------------------------------------------------------- responses

  function ResponseHeader(id: int, result: seq<byte>, payloadBytes: nat, fault: Option<string>): Response {
    Response(WIRE, id, if fault.Some? then [] else result, fault, payloadBytes)
  }

  /** The header sent instead of one that is too long: it declares no payload. */
  function Replacement(id: int): Response {
    Response(WIRE, id, [], Some("frame_too_large"), 0)
  }

  function EncodeResponse(codec: Codec<Response>, header: Response): seq<byte> {
    if |codec.enc(header)| + 1 > MAX_FRAME then codec.enc(Replacement(header.id)) else codec.enc(header)
  }

  /** What writeRawResponse puts on the wire: an error sends no data, but a replaced header does not hold data back. */
  function RawResponseBytes(codec: Codec<Response>, id: int, result: seq<byte>, data: seq<byte>, fault: Option<string>)
    : Result<seq<byte>, WireError>
  {
    if |data| > MAX_CHUNK then Err(FrameTooLarge)
    else
      var sent := if fault.Some? then [] else data;
      Ok(EncodeResponse(codec, ResponseHeader(id, result, |sent|, fault)) + [NEWLINE] + sent)
  }

  /** readResponse reads the header line only. */
  function ReadResponse(codec: Codec<Response>, stream: seq<byte>): Result<(Response, seq<byte>), WireError> {
    match Line(stream, MAX_FRAME)
    case Err(e) => Err(e)
    case Ok(n) =>
      match codec.dec(stream[..n])
      case None => Err(Malformed)
      case Some(resp) =>
        if resp.wire != WIRE then Err(Mismatch)
        else if resp.id <= 0 && resp.id != -1 then Err(Malformed)
        else if resp.payloadBytes < 0 || resp.payloadBytes > MAX_PAYLOAD then Err(FrameTooLarge)
        else if resp.fault.Some? && (resp.result != [] || resp.payloadBytes != 0) then Err(Malformed)
        else Ok((resp, stream[n..]))
  }

  /** A response with the payload its header declares. */
  function ReadWhole(codec: Codec<Response>, stream: seq<byte>): Result<Read<Response>, WireError> {
    match ReadResponse(codec, stream)
    case Err(e) => Err(e)
    case Ok((resp, rest)) =>
      if resp.payloadBytes > |rest| || resp.payloadBytes < 0 then Err(Truncated)
      else Ok(Read(resp, rest[..resp.payloadBytes], rest[resp.payloadBytes..]))
  }

  predicate GoodId(id: int) {
    id > 0 || id == -1
  }

  lemma HeaderRoundTrip(codec: Codec<Response>, header: Response, rest: seq<byte>)
    requires Carries(codec, header) && GoodId(header.id) && header.wire == WIRE
    requires 0 <= header.payloadBytes <= MAX_PAYLOAD
    requires header.fault.Some? ==> header.result == [] && header.payloadBytes == 0
    requires |codec.enc(header)| + 1 <= MAX_FRAME
    ensures ReadResponse(codec, codec.enc(header) + [NEWLINE] + rest) == Ok((header, rest))
  {
    var line := codec.enc(header) + [NEWLINE];
    LineOf(codec.enc(header), rest);
    assert (line + rest)[..|line|] == line && (line + rest)[|line|..] == rest;
  }

  /** A response header that a reader takes: an error carries neither result nor payload. */
  ghost predicate IsHeader(codec: Codec<Response>, text: seq<byte>, header: Response) {
    && NEWLINE !in text && |text| + 1 <= 0x10_0000 && codec.dec(text + [NEWLINE]) == Some(header)
    && header.wire == 1 && (header.id > 0 || header.id == -1) && 0 <= header.payloadBytes <= 0x10_0000
    && (header.fault.Some? ==> header.result == [] && header.payloadBytes == 0)
  }

  /** A response is read from a stream if and only if the stream begins with its line. */
  lemma ReadResponseIff(codec: Codec<Response>, stream: seq<byte>, header: Response, rest: seq<byte>)
    ensures ReadResponse(codec, stream) == Ok((header, rest)) <==>
            exists text :: IsHeader(codec, text, header) && stream == text + [NEWLINE] + rest
  {
    if ReadResponse(codec, stream) == Ok((header, rest)) {
      var n := LineLength(stream);
      LineParts(stream, n);
      assert stream == stream[..n - 1] + [NEWLINE] + rest;
      assert IsHeader(codec, stream[..n - 1], header);
    } else if exists text :: IsHeader(codec, text, header) && stream == text + [NEWLINE] + rest {
      var text :| IsHeader(codec, text, header) && stream == text + [NEWLINE] + rest;
      HeaderIsRead(codec, text, header, rest, stream);
    }
  }

  lemma HeaderIsRead(codec: Codec<Response>, text: seq<byte>, header: Response, rest: seq<byte>, stream: seq<byte>)
    requires IsHeader(codec, text, header) && stream == text + [NEWLINE] + rest
    ensures ReadResponse(codec, stream) == Ok((header, rest))
  {
    LineOf(text, rest);
    assert stream[..|text| + 1] == text + [NEWLINE] && stream[|text| + 1..] == rest;
  }

  /** Only data beyond the chunk cap keeps a response from being sent. */
  lemma RawResponseOkIff(codec: Codec<Response>, id: int, result: seq<byte>, data: seq<byte>, fault: Option<string>)
    ensures RawResponseBytes(codec, id, result, data, fault).Ok? <==> |data| <= 0x1_0000
  {
  }

  predicate HeaderFits(codec: Codec<Response>, id: int, result: seq<byte>, data: seq<byte>, fault: Option<string>) {
    |codec.enc(ResponseHeader(id, result, if fault.Some? then 0 else |data|, fault))| + 1 <= MAX_FRAME
  }

  /** A header that fits is read with the payload it declares. */
  lemma WholeRoundTrip(codec: Codec<Response>, header: Response, payload: seq<byte>, rest: seq<byte>)
    requires Carries(codec, header) && GoodId(header.id) && header.wire == WIRE
    requires header.payloadBytes == |payload| <= MAX_PAYLOAD
    requires header.fault.Some? ==> header.result == [] && header.payloadBytes == 0
    requires |codec.enc(header)| + 1 <= MAX_FRAME
    ensures ReadWhole(codec, codec.enc(header) + [NEWLINE] + (payload + rest)) == Ok(Read(header, payload, rest))
  {
    HeaderRoundTrip(codec, header, payload + rest);
    assert (payload + rest)[..|payload|] == payload && (payload + rest)[|payload|..] == rest;
  }

  /** What writeRawResponse sends: the header or its replacement, and the data in either case. */
  function SentHeader(codec: Codec<Response>, id: int, result: seq<byte>, data: seq<byte>,
                      fault: Option<string>): Response {
    if HeaderFits(codec, id, result, data, fault)
    then ResponseHeader(id, result, if fault.Some? then 0 else |data|, fault)
    else Replacement(id)
  }

  lemma RawShape(codec: Codec<Response>, id: int, result: seq<byte>, data: seq<byte>, fault: Option<string>,
                 rest: seq<byte>)
    requires |data| <= MAX_CHUNK
    ensures var sent := if fault.Some? then [] else data;
            RawResponseBytes(codec, id, result, data, fault).Ok? &&
            RawResponseBytes(codec, id, result, data, fault).value + rest
            == codec.enc(SentHeader(codec, id, result, data, fault)) + [NEWLINE] + (sent + rest)
  {
  }

  /**
    After a raw response the reader stands at the next frame if and only if
    the header fitted or there was no data; then it has read the header and
    the data, or the error that stands for them.
   */
  lemma RawResponseInSyncIff(codec: Codec<Response>, id: int, result: seq<byte>, data: seq<byte>, fault: Option<string>,
                             rest: seq<byte>)
    requires GoodId(id) && |data| <= MAX_CHUNK && |codec.enc(Replacement(id))| + 1 <= MAX_FRAME
    requires Carries(codec, Replacement(id))
    requires Carries(codec, ResponseHeader(id, result, if fault.Some? then 0 else |data|, fault))
    ensures var sent := if fault.Some? then [] else data;
            var fits := HeaderFits(codec, id, result, data, fault);
            var read := ReadWhole(codec, RawResponseBytes(codec, id, result, data, fault).value + rest);
            && read == Ok(if fits then Read(ResponseHeader(id, result, |sent|, fault), sent, rest)
                          else Read(Replacement(id), [], sent + rest))
            && (read.value.rest == rest <==> fits || sent == [])
  {
    var sent := if fault.Some? then [] else data;
    RawShape(codec, id, result, data, fault, rest);
    if HeaderFits(codec, id, result, data, fault) {
      WholeRoundTrip(codec, ResponseHeader(id, result, |sent|, fault), sent, rest);
    } else {
      assert [] + (sent + rest) == sent + rest;
      WholeRoundTrip(codec, Replacement(id), [], sent + rest);
      assert |sent + rest| == |sent| + |rest|;
      assert [] + rest == rest;
    }
  }

  const WIDE: Response := ResponseHeader(1, [], 1, None)

  /** A codec that encodes one header too long for a frame. */
  const STRETCHED: Codec<Response> :=
    Codec(h => if h == WIDE then Repeat(0x30, MAX_FRAME) else [0x31],
          line => if line == [0x31, NEWLINE] then Some(Replacement(1))
                  else if line == Repeat(0x30, MAX_FRAME) + [NEWLINE] then Some(WIDE) else None)

  /** A replaced header whose data is sent all the same: the reader takes the byte of data for the next frame. */
  lemma ReplacedHeaderOutOfStep()
    ensures ReadWhole(STRETCHED, RawResponseBytes(STRETCHED, 1, [], [7], None).value)
            == Ok(Read(Replacement(1), [], [7]))
  {
    var bytes := RawResponseBytes(STRETCHED, 1, [], [7], None).value;
    assert bytes + [] == bytes && [7] + [] == [7] && Repeat(0x30, MAX_FRAME)[0] == 0x30;
    RawResponseInSyncIff(STRETCHED, 1, [], [7], None, []);
  }

  datatype Answer = Answer(id: int, result: seq<byte>, data: seq<byte>, fault: Option<string>)

  /** A response whose header fits; one that is an error carries no data. */
  predicate Answerable(codec: Codec<Response>, a: Answer) {
    && GoodId(a.id) && |a.data| <= MAX_CHUNK && (a.fault.Some? ==> a.data == [] && a.result == [])
    && HeaderFits(codec, a.id, a.result, a.data, a.fault)
    && Carries(codec, ResponseHeader(a.id, a.result, |a.data|, a.fault))
  }

  function AnswerBytes(codec: Codec<Response>, answers: seq<Answer>): seq<byte>
    requires forall i :: 0 <= i < |answers| ==> Answerable(codec, answers[i])
  {
    if answers == [] then []
    else
      var a := answers[0];
      assert Answerable(codec, a);
      RawResponseBytes(codec, a.id, a.result, a.data, a.fault).value + AnswerBytes(codec, answers[1..])
  }

  function ReadAnswers(codec: Codec<Response>, n: nat, stream: seq<byte>): Result<(seq<Answer>, seq<byte>), WireError> {
    if n == 0 then Ok(([], stream))
    else
      match ReadWhole(codec, stream)
      case Err(e) => Err(e)
      case Ok(read) =>
        match ReadAnswers(codec, n - 1, read.rest)
        case Err(e) => Err(e)
        case Ok(more) => Ok(([Answer(read.header.id, read.header.result, read.payload, read.header.fault)] + more.0,
                             more.1))
  }

  lemma AnswerRoundTrip(codec: Codec<Response>, a: Answer, rest: seq<byte>)
    requires Answerable(codec, a)
    ensures ReadWhole(codec, RawResponseBytes(codec, a.id, a.result, a.data, a.fault).value + rest)
            == Ok(Read(ResponseHeader(a.id, a.result, |a.data|, a.fault), a.data, rest))
  {
    RawShape(codec, a.id, a.result, a.data, a.fault, rest);
    WholeRoundTrip(codec, ResponseHeader(a.id, a.result, |a.data|, a.fault), a.data, rest);
  }

  lemma AnswerBytesFirst(codec: Codec<Response>, answers: seq<Answer>, rest: seq<byte>)
    requires answers != [] && forall i :: 0 <= i < |answers| ==> Answerable(codec, answers[i])
    ensures Answerable(codec, answers[0]) && forall i :: 0 <= i < |answers[1..]| ==> Answerable(codec, answers[1..][i])
    ensures var a := answers[0];
            AnswerBytes(codec, answers) + rest
            == RawResponseBytes(codec, a.id, a.result, a.data, a.fault).value
               + (AnswerBytes(codec, answers[1..]) + rest)
  {
    var a := answers[0];
    assert Answerable(codec, a);
    Associative(RawResponseBytes(codec, a.id, a.result, a.data, a.fault).value, AnswerBytes(codec, answers[1..]), rest);
  }

  lemma ReadAnotherAnswer(codec: Codec<Response>, n: nat, stream: seq<byte>, read: Read<Response>,
                          more: (seq<Answer>, seq<byte>))
    requires n > 0 && ReadWhole(codec, stream) == Ok(read) && ReadAnswers(codec, n - 1, read.rest) == Ok(more)
    ensures ReadAnswers(codec, n, stream)
            == Ok(([Answer(read.header.id, read.header.result, read.payload, read.header.fault)] + more.0, more.1))
  {
  }

  /** Any list of responses whose headers fit is read back in order with nothing left over. */
  lemma {:induction false} AnswersRoundTrip(codec: Codec<Response>, answers: seq<Answer>, rest: seq<byte>)
    requires forall i :: 0 <= i < |answers| ==> Answerable(codec, answers[i])
    ensures ReadAnswers(codec, |answers|, AnswerBytes(codec, answers) + rest) == Ok((answers, rest))
  {
    if answers == [] {
      assert AnswerBytes(codec, answers) + rest == rest;
    } else {
      var a := answers[0];
      AnswerBytesFirst(codec, answers, rest);
      var later := AnswerBytes(codec, answers[1..]) + rest;
      AnswerRoundTrip(codec, a, later);
      AnswersRoundTrip(codec, answers[1..], rest);
      ReadAnotherAnswer(codec, |answers|, AnswerBytes(codec, answers) + rest,
                        Read(ResponseHeader(a.id, a.result, |a.data|, a.fault), a.data, later), (answers[1..], rest));
      assert [a] + answers[1..] == answers;
    }
  }
}
