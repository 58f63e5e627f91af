/**
  The envelope that carries a terminal state through a migration: magic,
  little-endian 64-bit length, digest, payload. The digest is any function to
  32 bytes.
 */
module VtEnvelope {
  import opened Basics

  type Digest = d: seq<byte> | |d| == 32 witness Repeat(0, 32)

  // "ghostline-vt-v1" and a zero byte
  const MAGIC: seq<byte> :=
    [0x67, 0x68, 0x6f, 0x73, 0x74, 0x6c, 0x69, 0x6e, 0x65, 0x2d, 0x76, 0x74, 0x2d, 0x76, 0x31, 0x00]
  const LENGTH_AT := 16
  const DIGEST_AT := 24
  const HEADER := 56
  const WORD: nat := 0x1_0000_0000_0000_0000

  datatype EnvelopeError = InvalidEnvelope | InvalidLength | InvalidChecksum | EmptyPayload

  // ---------------------------------------------------------- little-endian words

  function Pow256(k: nat): (p: nat)
    ensures p > 0
  {
    if k == 0 then 1 else 256 * Pow256(k - 1)
  }

  /** The k low bytes of n, the lowest first. */
  function LittleEndian(n: nat, k: nat): (r: seq<byte>)
    ensures |r| == k
  {
    if k == 0 then [] else [n % 256] + LittleEndian(n / 256, k - 1)
  }

  function FromLittleEndian(word: seq<byte>): nat {
    if word == [] then 0 else word[0] as int + 256 * FromLittleEndian(word[1..])
  }

  lemma {:induction false} WordRoundTrip(n: nat, k: nat)
    requires n < Pow256(k)
    ensures FromLittleEndian(LittleEndian(n, k)) == n
  {
    if k > 0 {
      assert n / 256 < Pow256(k - 1);
      WordRoundTrip(n / 256, k - 1);
      assert LittleEndian(n, k)[1..] == LittleEndian(n / 256, k - 1);
    }
  }

  lemma {:induction false} BytesRoundTrip(word: seq<byte>)
    ensures FromLittleEndian(word) < Pow256(|word|) && LittleEndian(FromLittleEndian(word), |word|) == word
  {
    if word != [] {
      BytesRoundTrip(word[1..]);
      LowByte(word[0] as int, FromLittleEndian(word[1..]));
    }
  }

  lemma LowByte(low: nat, high: nat)
    requires low < 256
    ensures (low + 256 * high) % 256 == low && (low + 256 * high) / 256 == high
  {
  }

  /** Byte i of a word counts multiples of 256 to the i. */
  lemma {:induction false} WordByte(n: nat, k: nat, i: nat)
    requires i < k
    ensures LittleEndian(n, k)[i] == n / Pow256(i) % 256
  {
    if i > 0 {
      WordByte(n / 256, k - 1, i - 1);
      assert LittleEndian(n, k)[i] == LittleEndian(n / 256, k - 1)[i - 1];
      DivideTwice(n, Pow256(i - 1));
    }
  }

  lemma DivideTwice(n: nat, p: nat)
    requires p > 0
    ensures n / 256 / p == n / (256 * p)
  {
    var q, r := n / 256, n % 256;
    var q', r' := q / p, q % p;
    assert n == 256 * (p * q' + r') + r;
    assert n == (256 * p) * q' + (256 * r' + r);
    assert 0 <= 256 * r' + r < 256 * p;
    Quotient(n, 256 * p, q', 256 * r' + r);
  }

  lemma Quotient(n: nat, d: nat, q: nat, r: nat)
    requires n == d * q + r && r < d
    ensures n / d == q
  {
    Multiples(d, n / d, q);
    Multiples(d, q, n / d);
  }

  lemma {:induction false} Multiples(d: nat, a: nat, b: nat)
    ensures a < b ==> d * a + d <= d * b
  {
    if a < b {
      Multiples(d, a, b - 1);
      assert d * b == d * (b - 1) + d;
    }
  }

  lemma WordBound()
    ensures Pow256(8) == WORD
  {
    assert Pow256(4) == 0x1_0000_0000;
    assert Pow256(8) == 256 * (256 * (256 * (256 * Pow256(4))));
  }

  // ------------------------------------------------------------------- the envelope

  /** The state that wraps raw; the length is converted to 64 bits. */
  function Wrapped(digest: seq<byte> -> Digest, raw: seq<byte>): (state: seq<byte>)
    ensures |state| == HEADER + |raw|
  {
    MAGIC + LittleEndian(|raw| % WORD, 8) + digest(raw) + raw
  }

  function Unwrap(digest: seq<byte> -> Digest, state: seq<byte>): Result<seq<byte>, EnvelopeError> {
    if |state| < HEADER || state[..LENGTH_AT] != MAGIC then Err(InvalidEnvelope)
    else
      var raw := state[HEADER..];
      if FromLittleEndian(state[LENGTH_AT..DIGEST_AT]) != |raw| % WORD then Err(InvalidLength)
      else if state[DIGEST_AT..HEADER] != digest(raw) then Err(InvalidChecksum)
      else if raw == [] then Err(EmptyPayload)
      else Ok(raw)
  }

  lemma FourParts<T>(a: seq<T>, b: seq<T>, c: seq<T>, d: seq<T>)
    ensures var all := a + b + c + d;
            && all[..|a|] == a && all[|a|..|a| + |b|] == b
            && all[|a| + |b|..|a| + |b| + |c|] == c && all[|a| + |b| + |c|..] == d
  {
  }

  lemma Fields(digest: seq<byte> -> Digest, raw: seq<byte>)
    ensures var state := Wrapped(digest, raw);
            && state[..LENGTH_AT] == MAGIC && state[LENGTH_AT..DIGEST_AT] == LittleEndian(|raw| % WORD, 8)
            && state[DIGEST_AT..HEADER] == digest(raw) && state[HEADER..] == raw
  {
    FourParts(MAGIC, LittleEndian(|raw| % WORD, 8), digest(raw), raw);
  }

  /** The format: sixteen bytes of magic, the length, the digest of the payload, the payload. */
  lemma Layout(digest: seq<byte> -> Digest, raw: seq<byte>, i: nat)
    requires i < 8
    ensures var state := Wrapped(digest, raw);
            && |state| == 56 + |raw|
            && state[..9] == [0x67, 0x68, 0x6f, 0x73, 0x74, 0x6c, 0x69, 0x6e, 0x65] // ghostline
            && state[9..16] == [0x2d, 0x76, 0x74, 0x2d, 0x76, 0x31, 0]              // -vt-v1 and a zero byte
            && state[16 + i] == |raw| % WORD / Pow256(i) % 256
            && state[24..56] == digest(raw) && state[56..] == raw
  {
    Fields(digest, raw);
    WordByte(|raw| % WORD, 8, i);
    var state := Wrapped(digest, raw);
    assert state[16..24][i] == state[16 + i];
    assert state[..9] == state[..16][..9] && state[9..16] == state[..16][9..];
  }

  /** Why a state is refused: each error exactly for the first thing that is wrong with it. */
  lemma RefusedFor(digest: seq<byte> -> Digest, state: seq<byte>)
    ensures var r := Unwrap(digest, state);
            var raw := if |state| >= 56 then state[56..] else [];
            && (r == Err(InvalidEnvelope) <==> |state| < 56 || state[..16] != MAGIC)
            && (r == Err(InvalidLength) ==> state[16..24] != LittleEndian(|raw| % WORD, 8))
            && (r == Err(InvalidChecksum) ==>
                  state[16..24] == LittleEndian(|raw| % WORD, 8) && state[24..56] != digest(raw))
            && (r == Err(EmptyPayload) <==> state == Wrapped(digest, []))
  {
    WordBound();
    if |state| >= 56 {
      var raw := state[56..];
      BytesRoundTrip(state[16..24]);
      WordRoundTrip(|raw| % WORD, 8);
      assert state == state[..16] + state[16..24] + state[24..56] + raw;
      if state == Wrapped(digest, []) {
        EmptyRefused(digest);
      }
    }
  }

  /** A state is accepted, yielding raw, if and only if it is the wrapping of raw and raw is not empty. */
  lemma AcceptedIffWrapped(digest: seq<byte> -> Digest, state: seq<byte>, raw: seq<byte>)
    ensures Unwrap(digest, state) == Ok(raw) <==> raw != [] && state == Wrapped(digest, raw)
  {
    WordBound();
    if raw != [] && state == Wrapped(digest, raw) {
      Fields(digest, raw);
      WordRoundTrip(|raw| % WORD, 8);
    }
    if Unwrap(digest, state) == Ok(raw) {
      var length := state[LENGTH_AT..DIGEST_AT];
      BytesRoundTrip(length);
      assert state == state[..LENGTH_AT] + length + state[DIGEST_AT..HEADER] + state[HEADER..];
    }
  }

  /** The empty payload is wrapped, and refused for being empty. */
  lemma EmptyRefused(digest: seq<byte> -> Digest)
    ensures Unwrap(digest, Wrapped(digest, [])) == Err(EmptyPayload)
  {
    WordBound();
    Fields(digest, []);
    WordRoundTrip(0, 8);
    Opens(digest, Wrapped(digest, []), []);
  }

  /** A state whose fields all fit its payload is refused only if the payload is empty. */
  lemma Opens(digest: seq<byte> -> Digest, state: seq<byte>, raw: seq<byte>)
    requires |state| >= HEADER && state[..LENGTH_AT] == MAGIC && state[HEADER..] == raw
    requires FromLittleEndian(state[LENGTH_AT..DIGEST_AT]) == |raw| % WORD && state[DIGEST_AT..HEADER] == digest(raw)
    ensures Unwrap(digest, state) == if raw == [] then Err(EmptyPayload) else Ok(raw)
  {
  }

  // ------------------------------------------------------------- filling the buffer

  /** Copies src into buffer at an offset. */
  method Copy(buffer: array<byte>, at: nat, src: seq<byte>)
    requires at + |src| <= buffer.Length
    modifies buffer
    ensures buffer[..] == old(buffer[..at]) + src + old(buffer[at + |src|..])
  {
    var i := 0;
    while i < |src|
      invariant 0 <= i <= |src|
      invariant forall j :: 0 <= j < buffer.Length ==>
                  buffer[j] == if at <= j < at + i then src[j - at] else old(buffer[j])
    {
      buffer[at + i] := src[i];
      i := i + 1;
    }
  }

  /** PutUint64: one byte at a time, the low one first. */
  method PutWord(buffer: array<byte>, at: nat, value: nat)
    requires at + 8 <= buffer.Length && value < WORD
    modifies buffer
    ensures buffer[..] == old(buffer[..at]) + LittleEndian(value, 8) + old(buffer[at + 8..])
  {
    ghost var word := LittleEndian(value, 8);
    var rest, i := value, 0;
    while i < 8
      invariant 0 <= i <= 8 && word[i..] == LittleEndian(rest, 8 - i)
      invariant forall j :: 0 <= j < buffer.Length ==>
                  buffer[j] == if at <= j < at + i then word[j - at] else old(buffer[j])
    {
      assert word[i..][0] == word[i] && word[i..][1..] == word[i + 1..];
      buffer[at + i] := rest % 256;
      rest := rest / 256;
      i := i + 1;
    }
  }

  /** Four pieces written one after another over anything of the right length. */
  lemma Filled<T>(s0: seq<T>, s1: seq<T>, s2: seq<T>, s3: seq<T>, s4: seq<T>, a: seq<T>, b: seq<T>, c: seq<T>,
                  d: seq<T>)
    requires |s0| == |a| + |b| + |c| + |d| && s1 == s0[..0] + a + s0[|a|..]
    requires s2 == s1[..|a|] + b + s1[|a| + |b|..] && s3 == s2[..|a| + |b|] + c + s2[|a| + |b| + |c|..]
    requires s4 == s3[..|a| + |b| + |c|] + d + s3[|s0|..]
    ensures s4 == a + b + c + d
  {
    assert s1[..|a|] == a;
    assert s2[..|a| + |b|] == a + b;
    assert s3[..|a| + |b| + |c|] == a + b + c;
  }

  method Wrap(digest: seq<byte> -> Digest, raw: seq<byte>) returns (state: array<byte>)
    ensures fresh(state) && state[..] == Wrapped(digest, raw)
  {
    state := new byte[HEADER + |raw|];
    ghost var s0 := state[..];
    Copy(state, 0, MAGIC);
    ghost var s1 := state[..];
    PutWord(state, LENGTH_AT, |raw| % WORD);
    ghost var s2 := state[..];
    Copy(state, DIGEST_AT, digest(raw));
    ghost var s3 := state[..];
    Copy(state, HEADER, raw);
    Filled(s0, s1, s2, s3, state[..], MAGIC, LittleEndian(|raw| % WORD, 8), digest(raw), raw);
  }
}
