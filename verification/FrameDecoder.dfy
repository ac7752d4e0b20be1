/**
  The length-prefixed framing of `lengthPrefixedFrameUtils.ts`: an encoder that puts a
  four-byte big-endian length before a payload, and a stream decoder that is fed chunks of
  arbitrary size and emits the payloads.
 */
module FrameDecoder {
  import opened Wrappers

  type Byte = b: int | 0 <= b < 256
  type Bytes = seq<Byte>

  const HEADER_LENGTH: nat := 4
  const UINT32_LIMIT: nat := 0x1_0000_0000

  function WriteUint32BE(n: nat): (s: Bytes)
    requires n < UINT32_LIMIT
    ensures |s| == HEADER_LENGTH
  {
    [n / 0x100_0000, n / 0x1_0000 % 0x100, n / 0x100 % 0x100, n % 0x100]
  }

  function ReadUint32BE(s: Bytes): (n: nat)
    requires |s| >= HEADER_LENGTH
    ensures n < UINT32_LIMIT
  {
    s[0] as int * 0x100_0000 + s[1] as int * 0x1_0000 + s[2] as int * 0x100 + s[3] as int
  }

  /** Encodes one payload; `writeUint32BE` throws for a length that needs more than 32 bits. */
  function ToFrame(payload: Bytes): (frame: Option<Bytes>)
    ensures frame.Some? <==> |payload| < 0x1_0000_0000
  {
    if |payload| < UINT32_LIMIT then Some(WriteUint32BE(|payload|) + payload) else None
  }

  ghost predicate Encodable(payloads: seq<Bytes>) {
    forall p <- payloads :: |p| < UINT32_LIMIT
  }

  /** The bytes of a list of frames, one after another. */
  ghost function Encode(payloads: seq<Bytes>): Bytes
    requires Encodable(payloads)
  {
    if payloads == [] then [] else ToFrame(payloads[0]).value + Encode(payloads[1..])
  }

  ghost function Join(chunks: seq<Bytes>): Bytes {
    if chunks == [] then [] else chunks[0] + Join(chunks[1..])
  }

  /** What a buffer splits into: the complete frames at its front, and the rest. */
  datatype Split = Split(payloads: seq<Bytes>, rest: Bytes)

  predicate HasFrame(buffer: Bytes) {
    |buffer| >= HEADER_LENGTH && |buffer| >= ReadUint32BE(buffer) + HEADER_LENGTH
  }

  ghost function Decode(buffer: Bytes): (r: Split)
    decreases |buffer|
  {
    if HasFrame(buffer) then
      var end := ReadUint32BE(buffer) + HEADER_LENGTH;
      var tail := Decode(buffer[end..]);
      Split([buffer[HEADER_LENGTH..end]] + tail.payloads, tail.rest)
    else
      Split([], buffer)
  }

  /** The stream decoder: its buffer, and the payloads pushed downstream so far. */
  class LengthPrefixedFrameDecoder {
    var buffer: Bytes
    var pushed: seq<Bytes>

    constructor ()
      ensures buffer == [] && pushed == []
    {
      buffer, pushed := [], [];
    }

    method Transform(chunk: Bytes)
      modifies this
      ensures var s := Decode(old(buffer) + chunk);
              pushed == old(pushed) + s.payloads && buffer == s.rest
    {
      buffer := buffer + chunk;
      ProcessStreamData();
    }

    method Flush()
      modifies this
      ensures var s := Decode(old(buffer));
              pushed == old(pushed) + s.payloads && buffer == s.rest
    {
      ProcessStreamData();
    }

    method ProcessStreamData()
      modifies this
      ensures var s := Decode(old(buffer));
              pushed == old(pushed) + s.payloads && buffer == s.rest
    {
      while |buffer| >= HEADER_LENGTH
        invariant Decode(old(buffer)).rest == Decode(buffer).rest
        invariant old(pushed) + Decode(old(buffer)).payloads == pushed + Decode(buffer).payloads
        decreases |buffer|
      {
        var payloadSize := ReadUint32BE(buffer);
        if |buffer| >= payloadSize + HEADER_LENGTH {
          pushed := pushed + [buffer[HEADER_LENGTH..payloadSize + HEADER_LENGTH]];
          buffer := buffer[payloadSize + HEADER_LENGTH..];
        } else {
          break;
        }
      }
    }

    /** A whole stream: every chunk in turn, then the end of the stream. */
    method Consume(chunks: seq<Bytes>)
      modifies this
      ensures var s := Decode(old(buffer) + Join(chunks));
              pushed == old(pushed) + s.payloads && buffer == s.rest
    {
      ghost var all := Decode(buffer + Join(chunks));
      for k := 0 to |chunks|
        invariant var remaining := Decode(buffer + Join(chunks[k..]));
                  old(pushed) + all.payloads == pushed + remaining.payloads && all.rest == remaining.rest
      {
        DecodeNextChunk(buffer, chunks[k..]);
        assert chunks[k..][1..] == chunks[k + 1..];
        ghost var now, before := Decode(buffer + chunks[k]), pushed;
        Transform(chunks[k]);
        ghost var later := Decode(buffer + Join(chunks[k + 1..]));
        RegroupPayloads(before, now.payloads, later.payloads);
      }
      assert buffer + Join(chunks[|chunks|..]) == buffer;
      Flush();
    }
  }

  // ---------------------------------------------------------------------------------------

  lemma HeaderRoundTrip(n: nat, tail: Bytes)
    requires n < UINT32_LIMIT
    ensures ReadUint32BE(WriteUint32BE(n) + tail) == n
  {
    assert n / 0x1_0000 == n / 0x100_0000 * 0x100 + n / 0x1_0000 % 0x100;
    assert n / 0x100 == n / 0x1_0000 * 0x100 + n / 0x100 % 0x100;
  }

  /** Decoding `a` first and the rest later is the same as decoding everything at once. */
  lemma {:induction false} DecodeAppend(a: Bytes, b: Bytes)
    ensures var first := Decode(a);
            var second := Decode(first.rest + b);
            Decode(a + b) == Split(first.payloads + second.payloads, second.rest)
    decreases |a|
  {
    var first := Decode(a);
    var second := Decode(first.rest + b);
    if HasFrame(a) {
      var end := ReadUint32BE(a) + HEADER_LENGTH;
      FirstFrameOfAppend(a, b);
      var tail := Decode(a[end..]);
      DecodeAppend(a[end..], b);
      RegroupPayloads([a[HEADER_LENGTH..end]], tail.payloads, second.payloads);
    } else {
      assert [] + second.payloads == second.payloads;
    }
  }

  lemma FirstFrameOfAppend(a: Bytes, b: Bytes)
    requires HasFrame(a)
    ensures HasFrame(a + b) && ReadUint32BE(a + b) == ReadUint32BE(a)
    ensures var end := ReadUint32BE(a) + HEADER_LENGTH;
            (a + b)[end..] == a[end..] + b && (a + b)[HEADER_LENGTH..end] == a[HEADER_LENGTH..end]
  {
    assert forall i | 0 <= i < HEADER_LENGTH :: (a + b)[i] == a[i];
  }

  lemma RegroupPayloads(a: seq<Bytes>, b: seq<Bytes>, c: seq<Bytes>)
    ensures a + (b + c) == (a + b) + c
  {
  }

  lemma DecodeNextChunk(buffer: Bytes, chunks: seq<Bytes>)
    requires chunks != []
    ensures var now := Decode(buffer + chunks[0]);
            var later := Decode(now.rest + Join(chunks[1..]));
            Decode(buffer + Join(chunks)) == Split(now.payloads + later.payloads, later.rest)
  {
    assert buffer + Join(chunks) == (buffer + chunks[0]) + Join(chunks[1..]);
    DecodeAppend(buffer + chunks[0], Join(chunks[1..]));
  }

  /** A frame at the front of a buffer is found, with its payload, and what follows is the rest. */
  lemma FrameAtFront(p: Bytes, rest: Bytes)
    requires |p| < UINT32_LIMIT
    ensures var bytes := WriteUint32BE(|p|) + p + rest;
            && HasFrame(bytes) && ReadUint32BE(bytes) == |p|
            && bytes[HEADER_LENGTH..|p| + HEADER_LENGTH] == p && bytes[|p| + HEADER_LENGTH..] == rest
  {
    HeaderRoundTrip(|p|, p + rest);
    assert WriteUint32BE(|p|) + p + rest == WriteUint32BE(|p|) + (p + rest);
  }

  /** Round trip: decoding the concatenated frames gives back the payloads and an empty buffer. */
  lemma {:induction false} DecodeEncode(payloads: seq<Bytes>)
    requires Encodable(payloads)
    ensures Decode(Encode(payloads)) == Split(payloads, [])
  {
    if payloads != [] {
      FrameAtFront(payloads[0], Encode(payloads[1..]));
      DecodeEncode(payloads[1..]);
    }
  }

  /** The other direction: nothing is invented or lost, whatever the bytes are. */
  lemma {:induction false} EncodeDecode(buffer: Bytes)
    ensures var s := Decode(buffer);
            Encodable(s.payloads) && Encode(s.payloads) + s.rest == buffer && !HasFrame(s.rest)
    decreases |buffer|
  {
    if HasFrame(buffer) {
      var n := ReadUint32BE(buffer);
      var p, tail := buffer[HEADER_LENGTH..n + HEADER_LENGTH], Decode(buffer[n + HEADER_LENGTH..]);
      EncodeDecode(buffer[n + HEADER_LENGTH..]);
      EncodeCons(p, tail.payloads);
      WriteInvertsRead(buffer);
      CutTwice(buffer, n + HEADER_LENGTH);
      Regroup(WriteUint32BE(n), p, Encode(tail.payloads), tail.rest);
    }
  }

  lemma EncodeCons(p: Bytes, ps: seq<Bytes>)
    requires |p| < UINT32_LIMIT && Encodable(ps)
    ensures Encodable([p] + ps) && Encode([p] + ps) == WriteUint32BE(|p|) + p + Encode(ps)
  {
    assert ([p] + ps)[1..] == ps;
  }

  lemma CutTwice(s: Bytes, end: nat)
    requires HEADER_LENGTH <= end <= |s|
    ensures s == s[..HEADER_LENGTH] + s[HEADER_LENGTH..end] + s[end..]
  {
  }

  lemma Regroup(a: Bytes, b: Bytes, c: Bytes, d: Bytes)
    ensures a + b + c + d == a + b + (c + d)
  {
  }

  /** The first byte in which two headers differ decides, as in comparing texts. */
  predicate LexBefore(a: Bytes, b: Bytes) {
    b != [] && (a == [] || a[0] < b[0] || (a[0] == b[0] && LexBefore(a[1..], b[1..])))
  }

  lemma LexBefore4(a: Bytes, b: Bytes)
    requires |a| == |b| == HEADER_LENGTH
    ensures LexBefore(a, b)
       <==> a[0] < b[0] || (a[0] == b[0] && (a[1] < b[1] || (a[1] == b[1]
              && (a[2] < b[2] || (a[2] == b[2] && a[3] < b[3])))))
  {
    LexBeforeAt(a, b, 0);
    LexBeforeAt(a, b, 1);
    LexBeforeAt(a, b, 2);
    LexBeforeAt(a, b, 3);
    assert a[0..] == a && b[0..] == b && a[4..] == [] && b[4..] == [];
  }

  lemma LexBeforeAt(a: Bytes, b: Bytes, i: nat)
    requires i < |a| && i < |b|
    ensures LexBefore(a[i..], b[i..]) <==> a[i] < b[i] || (a[i] == b[i] && LexBefore(a[i + 1..], b[i + 1..]))
  {
    assert a[i..][1..] == a[i + 1..] && b[i..][1..] == b[i + 1..];
  }

  /**
    A header has four bytes, and the most significant comes first: headers are ordered as their numbers
    are. With `HeaderRoundTrip` and `WriteInvertsRead` this leaves no other way to write them.
   */
  lemma BigEndianIsOrdered(n: nat, m: nat)
    requires n < 0x1_0000_0000 && m < 0x1_0000_0000
    ensures |WriteUint32BE(n)| == 4
    ensures n < m <==> LexBefore(WriteUint32BE(n), WriteUint32BE(m))
  {
    var a, b := WriteUint32BE(n), WriteUint32BE(m);
    LexBefore4(a, b);
    HeaderRoundTrip(n, []);
    HeaderRoundTrip(m, []);
    assert a + [] == a && b + [] == b;
  }

  lemma WriteInvertsRead(s: Bytes)
    requires |s| >= HEADER_LENGTH
    ensures WriteUint32BE(ReadUint32BE(s)) == s[..HEADER_LENGTH]
  {
    var n := ReadUint32BE(s);
    assert n / 0x100_0000 == s[0];
    assert n / 0x1_0000 == s[0] as int * 0x100 + s[1] as int;
    assert n / 0x100 == s[0] as int * 0x1_0000 + s[1] as int * 0x100 + s[2] as int;
  }

  /** Whatever the split into chunks, a decoder that consumes the frames emits the payloads, in order. */
  method DecodeStream(payloads: seq<Bytes>, chunks: seq<Bytes>) returns (out: seq<Bytes>, rest: Bytes)
    requires Encodable(payloads) && Join(chunks) == Encode(payloads)
    ensures out == payloads && rest == []
  {
    var decoder := new LengthPrefixedFrameDecoder();
    assert [] + Join(chunks) == Encode(payloads);
    DecodeEncode(payloads);
    decoder.Consume(chunks);
    out, rest := decoder.pushed, decoder.buffer;
  }

  /** On any prefix of the bytes the decoder has emitted a prefix of the payloads. */
  lemma PrefixDecodesToPrefix(payloads: seq<Bytes>, k: nat)
    requires Encodable(payloads) && k <= |Encode(payloads)|
    ensures Decode(Encode(payloads)[..k]).payloads <= payloads
  {
    var bytes := Encode(payloads);
    assert bytes == bytes[..k] + bytes[k..];
    DecodeEncode(payloads);
    DecodeAppend(bytes[..k], bytes[k..]);
  }
}
