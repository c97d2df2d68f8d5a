/** The length-prefixed protocol on a byte stream: 4 bytes of body length, most significant first,
    then the body (server/business/BusinessServer.cpp). */
module FrameModel {
  import opened BufferObjects

  type Bytes = seq<byte>

  const HEADER_SIZE: nat := 4
  const MAX_BODY_LEN: nat := 4 * 1024 * 1024

  /** The number with the given digits to base 256, most significant first. */
  function BigEndian(s: Bytes): nat {
    if s == [] then 0 else BigEndian(s[..|s|-1]) * 0x100 + s[|s|-1] as nat
  }

  /** ntohl of the first four bytes. */
  function BodyLen(s: Bytes): nat
    requires |s| >= HEADER_SIZE
  {
    BigEndian(s[..HEADER_SIZE])
  }

  /** The four bytes in network order, and the limit, in plain numbers. */
  lemma HeaderBytes(s: Bytes)
    requires |s| >= 4
    ensures BodyLen(s) == s[0] as nat * 0x100_0000 + s[1] as nat * 0x1_0000 + s[2] as nat * 0x100 + s[3] as nat
    ensures TooLong(s) <==> BodyLen(s) > 4194304
    ensures Complete(s) <==> BodyLen(s) <= 4194304 && |s| >= 4 + BodyLen(s)
  {
    assert s[..4][..3] == s[..3] && s[..3][..2] == s[..2] && s[..2][..1] == s[..1] && s[..1][..0] == [];
    assert BigEndian(s[..1]) == s[0] as nat;
    assert BigEndian(s[..2]) == BigEndian(s[..1]) * 0x100 + s[1] as nat;
    assert BigEndian(s[..3]) == BigEndian(s[..2]) * 0x100 + s[2] as nat;
  }

  /** Why decoding stops: the bytes left are no complete frame, or they start with an oversize header. */
  datatype Stop = NeedMore(rest: Bytes) | Oversize(rest: Bytes)

  datatype Decoded = Decoded(bodies: seq<Bytes>, stop: Stop)

  /** The bytes start with a complete frame of legal length. */
  predicate Complete(s: Bytes) {
    |s| >= HEADER_SIZE && BodyLen(s) <= MAX_BODY_LEN && |s| >= HEADER_SIZE + BodyLen(s)
  }

  predicate TooLong(s: Bytes) { |s| >= HEADER_SIZE && BodyLen(s) > MAX_BODY_LEN }

  /** Reference decoder: all complete frames at the front of s, and where it stops. */
  function Decode(s: Bytes): Decoded
    decreases |s|
  {
    if Complete(s) then
      var d := Decode(s[HEADER_SIZE + BodyLen(s)..]);
      Decoded([s[HEADER_SIZE..HEADER_SIZE + BodyLen(s)]] + d.bodies, d.stop)
    else Decoded([], if TooLong(s) then Oversize(s) else NeedMore(s))
  }

  /** What the decoder does with the front of the stream, on the bytes themselves. */
  lemma FirstFrame(s: Bytes)
    ensures |s| < 4 ==> Decode(s) == Decoded([], NeedMore(s))
    ensures |s| >= 4 ==>
      var n := s[0] as nat * 0x100_0000 + s[1] as nat * 0x1_0000 + s[2] as nat * 0x100 + s[3] as nat;
      && (n > 4194304 ==> Decode(s) == Decoded([], Oversize(s)))
      && (n <= 4194304 && |s| < 4 + n ==> Decode(s) == Decoded([], NeedMore(s)))
      && (n <= 4194304 && |s| >= 4 + n ==>
           Decode(s) == Decoded([s[4..4 + n]] + Decode(s[4 + n..]).bodies, Decode(s[4 + n..]).stop))
  {
    if |s| >= 4 { HeaderBytes(s); }
  }

  /** What stays in the buffer: an oversize header makes the code drop everything buffered. */
  function Kept(stop: Stop): Bytes {
    match stop
    case NeedMore(rest) => rest
    case Oversize(_) => []
  }

  /** The last k digits of n to base 256, most significant first. */
  function Digits(n: nat, k: nat): (h: Bytes)
    ensures |h| == k
  {
    if k == 0 then [] else Digits(n / 0x100, k - 1) + [(n % 0x100) as byte]
  }

  function Header(n: nat): Bytes { Digits(n, HEADER_SIZE) }

  function Encode(body: Bytes): Bytes
    requires |body| <= MAX_BODY_LEN
  {
    Header(|body|) + body
  }

  predicate Sendable(bodies: seq<Bytes>) { forall b <- bodies :: |b| <= MAX_BODY_LEN }

  function EncodeAll(bodies: seq<Bytes>): Bytes
    requires Sendable(bodies)
  {
    if bodies == [] then [] else Encode(bodies[0]) + EncodeAll(bodies[1..])
  }

  function Radix(k: nat): nat { if k == 0 then 1 else 0x100 * Radix(k - 1) }

  lemma {:induction false} DigitsRoundTrip(n: nat, k: nat)
    requires n < Radix(k)
    ensures BigEndian(Digits(n, k)) == n
  {
    if k == 0 {
    } else {
      DigitsRoundTrip(n / 0x100, k - 1);
      assert Digits(n, k)[..k-1] == Digits(n / 0x100, k - 1);
    }
  }

  lemma {:induction false} BigEndianRoundTrip(s: Bytes)
    ensures Digits(BigEndian(s), |s|) == s
  {
    if s == [] {
    } else {
      BigEndianRoundTrip(s[..|s|-1]);
      assert s == s[..|s|-1] + [s[|s|-1]];
    }
  }

  lemma HeaderRoundTrip(body: Bytes, tail: Bytes)
    requires |body| <= MAX_BODY_LEN
    ensures BodyLen(Encode(body) + tail) == |body|
  {
    assert Radix(4) == 0x100 * (0x100 * (0x100 * (0x100 * Radix(0))));
    DigitsRoundTrip(|body|, HEADER_SIZE);
    assert (Encode(body) + tail)[..HEADER_SIZE] == Header(|body|);
  }

  lemma DecodeOne(body: Bytes, tail: Bytes)
    requires |body| <= MAX_BODY_LEN
    ensures Decode(Encode(body) + tail) == Decoded([body] + Decode(tail).bodies, Decode(tail).stop)
  {
    var s := Encode(body) + tail;
    HeaderRoundTrip(body, tail);
    assert s[HEADER_SIZE + |body|..] == tail;
    assert s[HEADER_SIZE..HEADER_SIZE + |body|] == body;
  }

  /** A list of bodies, empty ones included, comes back exactly, with nothing left over. */
  lemma {:induction false} FrameRoundTrip(bodies: seq<Bytes>)
    requires Sendable(bodies)
    ensures Decode(EncodeAll(bodies)) == Decoded(bodies, NeedMore([]))
  {
    if bodies == [] {
    } else {
      FrameRoundTrip(bodies[1..]);
      DecodeOne(bodies[0], EncodeAll(bodies[1..]));
      assert [bodies[0]] + bodies[1..] == bodies;
    }
  }

  lemma ConsConcat(b: Bytes, x: seq<Bytes>, y: seq<Bytes>)
    ensures ([b] + x) + y == [b] + (x + y)
  {}

  lemma HeaderStays(s: Bytes, t: Bytes)
    requires |s| >= HEADER_SIZE
    ensures BodyLen(s + t) == BodyLen(s)
  {
    assert (s + t)[..HEADER_SIZE] == s[..HEADER_SIZE];
  }

  lemma CompleteExtends(s: Bytes, t: Bytes)
    requires Complete(s)
    ensures Complete(s + t) && BodyLen(s + t) == BodyLen(s)
    ensures var n := HEADER_SIZE + BodyLen(s);
            (s + t)[n..] == s[n..] + t && (s + t)[HEADER_SIZE..n] == s[HEADER_SIZE..n]
  {
    HeaderStays(s, t);
  }

  /** Decoding is incremental: more bytes t only continue where decoding s stopped. */
  lemma {:induction false} DecodeSplit(s: Bytes, t: Bytes)
    ensures var d := Decode(s); var e := Decode(d.stop.rest + t);
            Decode(s + t) == Decoded(d.bodies + e.bodies, e.stop)
    decreases |s|
  {
    if !Complete(s) {
    } else {
      var n := HEADER_SIZE + BodyLen(s);
      CompleteExtends(s, t);
      DecodeSplit(s[n..], t);
      ConsConcat(s[HEADER_SIZE..n], Decode(s[n..]).bodies, Decode(Decode(s).stop.rest + t).bodies);
    }
  }

  /** Frames in front of an oversize header are still delivered, and nothing is kept behind them. */
  lemma FramesBeforeOversize(bodies: seq<Bytes>, bad: Bytes)
    requires Sendable(bodies) && TooLong(bad)
    ensures Decode(EncodeAll(bodies) + bad).bodies == bodies && Kept(Decode(EncodeAll(bodies) + bad).stop) == []
  {
    FrameRoundTrip(bodies);
    DecodeSplit(EncodeAll(bodies), bad);
    assert [] + bad == bad;
  }

  lemma HeaderIs(s: Bytes)
    requires Complete(s)
    ensures Encode(s[HEADER_SIZE..HEADER_SIZE + BodyLen(s)]) == s[..HEADER_SIZE + BodyLen(s)]
  {
    BigEndianRoundTrip(s[..HEADER_SIZE]);
    assert s[..HEADER_SIZE + BodyLen(s)] == s[..HEADER_SIZE] + s[HEADER_SIZE..HEADER_SIZE + BodyLen(s)];
  }

  lemma EncodeCons(b: Bytes, bodies: seq<Bytes>, rest: Bytes)
    requires |b| <= MAX_BODY_LEN && Sendable(bodies)
    ensures Sendable([b] + bodies)
    ensures EncodeAll([b] + bodies) + rest == Encode(b) + (EncodeAll(bodies) + rest)
  {
    assert ([b] + bodies)[1..] == bodies;
  }

  lemma Reassembled(s: Bytes, bodies: seq<Bytes>, rest: Bytes)
    requires Complete(s) && Sendable(bodies) && s[HEADER_SIZE + BodyLen(s)..] == EncodeAll(bodies) + rest
    ensures var b := s[HEADER_SIZE..HEADER_SIZE + BodyLen(s)];
            Sendable([b] + bodies) && s == EncodeAll([b] + bodies) + rest
  {
    var n := HEADER_SIZE + BodyLen(s);
    HeaderIs(s);
    EncodeCons(s[HEADER_SIZE..n], bodies, rest);
    assert s == s[..n] + s[n..];
  }

  /** The converse: what was decoded is exactly the encoding of what the stream started with. */
  lemma {:induction false} EncodeDecode(s: Bytes)
    ensures var d := Decode(s);
            Sendable(d.bodies) && s == EncodeAll(d.bodies) + d.stop.rest && Decode(d.stop.rest) == Decoded([], d.stop)
    decreases |s|
  {
    if !Complete(s) {
    } else {
      var n := HEADER_SIZE + BodyLen(s);
      EncodeDecode(s[n..]);
      Reassembled(s, Decode(s[n..]).bodies, Decode(s[n..]).stop.rest);
    }
  }

  // ---------------------------------------------------------------------------------------
  // Chunks
  // ---------------------------------------------------------------------------------------

  /** The buffer and the delivered bodies after one read: append the chunk, extract all frames. */
  function Feed(kept: Bytes, chunk: Bytes): (seq<Bytes>, Bytes) {
    var d := Decode(kept + chunk);
    (d.bodies, Kept(d.stop))
  }

  function FeedAll(kept: Bytes, chunks: seq<Bytes>): (seq<Bytes>, Bytes)
    decreases |chunks|
  {
    if chunks == [] then ([], kept)
    else
      var (bodies, kept') := Feed(kept, chunks[0]);
      var (more, last) := FeedAll(kept', chunks[1..]);
      (bodies + more, last)
  }

  /** One more read at the end. */
  lemma {:induction false} FeedAppend(kept: Bytes, chunks: seq<Bytes>, chunk: Bytes)
    ensures var (bodies, kept') := FeedAll(kept, chunks); var (more, last) := Feed(kept', chunk);
            FeedAll(kept, chunks + [chunk]) == (bodies + more, last)
    decreases |chunks|
  {
    if chunks == [] {
      assert [chunk][1..] == [] && [] + [chunk] == [chunk];
      assert Feed(kept, chunk).0 + [] == Feed(kept, chunk).0 == [] + Feed(kept, chunk).0;
    } else {
      var (bodies, kept') := Feed(kept, chunks[0]);
      FeedAppend(kept', chunks[1..], chunk);
      assert (chunks + [chunk])[1..] == chunks[1..] + [chunk];
      var (more, kept'') := FeedAll(kept', chunks[1..]);
      assert bodies + (more + Feed(kept'', chunk).0) == (bodies + more) + Feed(kept'', chunk).0;
    }
  }

  function Concat(chunks: seq<Bytes>): Bytes {
    if chunks == [] then [] else chunks[0] + Concat(chunks[1..])
  }

  lemma {:induction false} ConcatAppend(chunks: seq<Bytes>, chunk: Bytes)
    ensures Concat(chunks + [chunk]) == Concat(chunks) + chunk
  {
    if chunks == [] {
      assert [chunk][1..] == [] && [] + [chunk] == [chunk];
    } else {
      assert (chunks + [chunk])[1..] == chunks[1..] + [chunk];
      ConcatAppend(chunks[1..], chunk);
    }
  }

  /** The stream was decoded at once and its incomplete rest kept. */
  function Whole(s: Bytes): (seq<Bytes>, Bytes) { (Decode(s).bodies, Kept(Decode(s).stop)) }

  lemma {:induction false} OversizeRest(s: Bytes)
    requires Decode(s).stop.Oversize?
    ensures TooLong(Decode(s).stop.rest)
    decreases |s|
  {
    if !Complete(s) {
    } else {
      OversizeRest(s[HEADER_SIZE + BodyLen(s)..]);
    }
  }

  lemma {:induction false} NeedMoreRest(s: Bytes)
    requires Decode(s).stop.NeedMore?
    ensures Decode(Decode(s).stop.rest) == Decoded([], NeedMore(Decode(s).stop.rest))
    decreases |s|
  {
    if !Complete(s) {
    } else {
      NeedMoreRest(s[HEADER_SIZE + BodyLen(s)..]);
    }
  }

  /** An oversize header stays one, whatever follows it. */
  lemma OversizeMore(s: Bytes, t: Bytes)
    requires Decode(s).stop.Oversize?
    ensures Decode(s + t) == Decoded(Decode(s).bodies, Oversize(Decode(s).stop.rest + t))
  {
    DecodeSplit(s, t);
    OversizeRest(s);
    HeaderStays(Decode(s).stop.rest, t);
  }

  /** Chunk invariance for streams without oversize headers, from any incomplete rest. */
  lemma {:induction false} ChunksFrom(kept: Bytes, chunks: seq<Bytes>)
    requires Decode(kept) == Decoded([], NeedMore(kept))
    requires Decode(kept + Concat(chunks)).stop.NeedMore?
    ensures FeedAll(kept, chunks) == Whole(kept + Concat(chunks))
    decreases |chunks|
  {
    if chunks == [] {
      assert kept + [] == kept;
    } else {
      var s, t := kept + chunks[0], Concat(chunks[1..]);
      assert kept + Concat(chunks) == s + t;
      if Decode(s).stop.Oversize? { OversizeMore(s, t); }
      DecodeSplit(s, t);
      NeedMoreRest(s);
      ChunksFrom(Decode(s).stop.rest, chunks[1..]);
    }
  }

  /** Every way of splitting the stream into reads delivers what decoding it at once delivers. */
  ghost predicate ChunkInvariant(stream: Bytes) {
    forall chunks: seq<Bytes> :: Concat(chunks) == stream ==> FeedAll([], chunks) == Whole(stream)
  }

  /** Nothing follows the first oversize header. */
  predicate HarmlessEnd(stop: Stop) { stop.NeedMore? || |stop.rest| == HEADER_SIZE }

  /** If an oversize header is the last thing in the stream, it is only recognised in the last
      nonempty chunk. */
  lemma {:induction false} ChunksToOversize(kept: Bytes, chunks: seq<Bytes>)
    requires Decode(kept) == Decoded([], NeedMore(kept))
    requires Decode(kept + Concat(chunks)).stop.Oversize?
    requires |Decode(kept + Concat(chunks)).stop.rest| == HEADER_SIZE
    ensures FeedAll(kept, chunks) == Whole(kept + Concat(chunks))
    decreases |chunks|
  {
    assert kept + [] == kept;
    if chunks == [] {
    } else {
      var s, t := kept + chunks[0], Concat(chunks[1..]);
      assert kept + Concat(chunks) == s + t;
      if Decode(s).stop.NeedMore? {
        NeedMoreRest(s);
        DecodeSplit(s, t);
        ChunksToOversize(Decode(s).stop.rest, chunks[1..]);
      } else {
        OversizeMore(s, t);
        OversizeRest(s);
        assert t == [] && s + t == s && Decode(s).bodies + [] == Decode(s).bodies;
        EmptyChunks(chunks[1..]);
      }
    }
  }

  lemma {:induction false} EmptyChunks(chunks: seq<Bytes>)
    requires Concat(chunks) == []
    ensures FeedAll([], chunks) == ([], [])
    decreases |chunks|
  {
    if chunks == [] {
    } else {
      assert [] + chunks[0] == [];
      EmptyChunks(chunks[1..]);
    }
  }

  /** Framing does not depend on how the stream is cut into reads exactly when no byte follows an
      oversize header; in particular for every stream whose headers are all within the limit. */
  lemma ChunkInvarianceIff(stream: Bytes)
    ensures ChunkInvariant(stream) <==> HarmlessEnd(Decode(stream).stop)
  {
    if HarmlessEnd(Decode(stream).stop) {
      forall chunks: seq<Bytes> | Concat(chunks) == stream ensures FeedAll([], chunks) == Whole(stream) {
        assert [] + Concat(chunks) == stream;
        if Decode(stream).stop.NeedMore? { ChunksFrom([], chunks); } else { ChunksToOversize([], chunks); }
      }
    } else {
      OversizeRest(stream);
      LastByteSplit(stream);
      var chunks := [stream[..|stream| - 1], stream[|stream| - 1..]];
      assert Concat(chunks) == stream && FeedAll([], chunks) != Whole(stream);
    }
  }

  lemma FeedTwo(s: Bytes, t: Bytes)
    ensures Concat([s, t]) == s + t
    ensures Decode(s).stop.Oversize? && |t| < HEADER_SIZE ==> FeedAll([], [s, t]).1 == t
  {
    var one: seq<Bytes> := [t];
    assert [s, t][1..] == one && one[1..] == [];
    assert Concat(one) == t + [] == t;
    assert [] + s == s && [] + t == t;
    if Decode(s).stop.Oversize? && |t| < HEADER_SIZE {
      assert !Complete(t) && Feed([], t) == ([], t);
      assert FeedAll(t, one[1..]) == ([], t);
      assert FeedAll([], one).1 == t;
      assert Feed([], s).1 == [];
    }
  }

  /** One more byte completes at most the four bytes of an oversize header. */
  lemma OneMoreByte(r: Bytes, t: Bytes)
    requires Decode(r) == Decoded([], NeedMore(r)) && |t| == 1
    ensures Decode(r + t).stop.Oversize? ==> |Decode(r + t).stop.rest| <= HEADER_SIZE
  {
    var s := r + t;
    if |r| >= HEADER_SIZE { HeaderStays(r, t); }
    if Complete(s) {
      assert |s| == HEADER_SIZE + BodyLen(s);
      assert s[HEADER_SIZE + BodyLen(s)..] == [];
    }
  }

  /** The failing family: a last read of a single byte after the oversize header was dropped. */
  lemma LastByteSplit(stream: Bytes)
    requires Decode(stream).stop.Oversize? && |Decode(stream).stop.rest| > HEADER_SIZE
    ensures stream != []
    ensures var n := |stream| - 1;
            Concat([stream[..n], stream[n..]]) == stream && FeedAll([], [stream[..n], stream[n..]]) != Whole(stream)
  {
    var s, t := stream[..|stream| - 1], stream[|stream| - 1..];
    assert s + t == stream;
    DecodeSplit(s, t);
    if Decode(s).stop.NeedMore? {
      NeedMoreRest(s);
      OneMoreByte(Decode(s).stop.rest, t);
    }
    FeedTwo(s, t);
  }
}

/** The server's extraction loop on a connection's input buffer. */
module FrameObjects {
  import opened Common
  import opened BufferObjects
  import opened FrameModel

  /** One frame off the front of the buffer; on an oversize header the buffer is emptied. */
  method TryExtractPacket(buffer: Buffer) returns (ok: bool, body: Bytes)
    requires buffer.Valid()
    modifies buffer
    ensures buffer.Valid() && buffer.buffer == old(buffer.buffer)
    ensures ok <==> Decode(old(buffer.Contents())).bodies != []
    ensures ok ==> var d := Decode(old(buffer.Contents()));
                   body == d.bodies[0] && Decode(buffer.Contents()) == Decoded(d.bodies[1..], d.stop)
    ensures ok ==> |buffer.Contents()| + HEADER_SIZE + |body| == |old(buffer.Contents())|
    ensures !ok ==> buffer.Contents() == Kept(Decode(old(buffer.Contents())).stop)
  {
    body := [];
    ghost var s := buffer.Contents();
    var readable := buffer.ReadableBytes();
    if readable < HEADER_SIZE { return false, body; }
    var header := buffer.buffer[buffer.readerIdx..buffer.readerIdx + HEADER_SIZE];
    forall k | 0 <= k < HEADER_SIZE ensures header[k] == s[k] {}
    assert header[..HEADER_SIZE] == s[..HEADER_SIZE];
    var bodyLen := BodyLen(header);
    assert bodyLen == BodyLen(s);
    if bodyLen == 0 {
      buffer.Retrieve(HEADER_SIZE);
      assert s[HEADER_SIZE..HEADER_SIZE] == [];
      return true, [];
    }
    if bodyLen > MAX_BODY_LEN {
      buffer.RetrieveAll();
      return false, body;
    }
    if buffer.ReadableBytes() < HEADER_SIZE + bodyLen { return false, body; }
    buffer.Retrieve(HEADER_SIZE);
    body := buffer.RetrieveAsString(bodyLen);
    assert s[HEADER_SIZE..][..bodyLen] == s[HEADER_SIZE..HEADER_SIZE + bodyLen];
    assert s[HEADER_SIZE..][bodyLen..] == s[HEADER_SIZE + bodyLen..];
    ok := true;
  }

  /** The message callback: the bodies it hands on, in order, are all complete frames of the buffer. */
  method OnMessage(buffer: Buffer) returns (delivered: seq<Bytes>)
    requires buffer.Valid()
    modifies buffer
    ensures buffer.Valid() && buffer.buffer == old(buffer.buffer)
    ensures (delivered, buffer.Contents()) == Whole(old(buffer.Contents()))
  {
    delivered := [];
    ghost var d := Decode(buffer.Contents());
    var ok, body := TryExtractPacket(buffer);
    while ok
      invariant buffer.Valid() && buffer.buffer == old(buffer.buffer)
      invariant !ok ==> delivered == d.bodies && buffer.Contents() == Kept(d.stop)
      invariant ok ==>
        d == Decoded(delivered + [body] + Decode(buffer.Contents()).bodies, Decode(buffer.Contents()).stop)
      decreases ok, |buffer.Contents()|
    {
      delivered := delivered + [body];
      ok, body := TryExtractPacket(buffer);
    }
  }

  /** One read event: readFd appends what arrived, then the message callback runs. */
  method ReadAndExtract(buffer: Buffer, chunk: Bytes) returns (delivered: seq<Bytes>)
    requires buffer.Valid() && 0 < |chunk| <= buffer.ReadRoom()
    modifies buffer, buffer.buffer
    ensures buffer.Valid() && (buffer.buffer == old(buffer.buffer) || fresh(buffer.buffer))
    ensures (delivered, buffer.Contents()) == Feed(old(buffer.Contents()), chunk)
  {
    var n := buffer.ReadFd(Some(chunk));
    delivered := OnMessage(buffer);
  }

  /** A whole series of reads: the i-th one delivers want(i) bytes of what is left of the stream, at
      least one, and no more than readFd offers room for. However the stream is cut, the result is that of
      decoding it at once, unless something follows an oversize header. */
  method ReadSeries(buffer: Buffer, stream: Bytes, want: nat -> nat)
        returns (delivered: seq<Bytes>, ghost chunks: seq<Bytes>)
    requires buffer.Valid()
    modifies buffer, buffer.buffer
    ensures buffer.Valid() && Concat(chunks) == stream
    ensures (delivered, buffer.Contents()) == FeedAll(old(buffer.Contents()), chunks)
    ensures old(buffer.Contents()) == [] && HarmlessEnd(Decode(stream).stop) ==>
            (delivered, buffer.Contents()) == Whole(stream)
  {
    delivered, chunks := [], [];
    var at, i := 0, 0;
    while at < |stream|
      invariant at <= |stream| && Concat(chunks) == stream[..at]
      invariant buffer.Valid() && (buffer.buffer == old(buffer.buffer) || fresh(buffer.buffer))
      invariant (delivered, buffer.Contents()) == FeedAll(old(buffer.Contents()), chunks)
    {
      var n := Clamp(want(i), buffer.ReadRoom(), |stream| - at);
      var chunk := stream[at..at + n];
      OneMoreRead(old(buffer.Contents()), chunks, chunk, stream, at);
      var bodies := ReadAndExtract(buffer, chunk);
      delivered, chunks := delivered + bodies, chunks + [chunk];
      at, i := at + n, i + 1;
    }
    assert stream[..|stream|] == stream;
    ChunkInvarianceIff(stream);
  }

  lemma OneMoreRead(kept: Bytes, chunks: seq<Bytes>, chunk: Bytes, stream: Bytes, at: nat)
    requires at + |chunk| <= |stream| && Concat(chunks) == stream[..at] && chunk == stream[at..at + |chunk|]
    ensures Concat(chunks + [chunk]) == stream[..at + |chunk|]
    ensures FeedAll(kept, chunks + [chunk]).0 == FeedAll(kept, chunks).0 + Feed(FeedAll(kept, chunks).1, chunk).0
    ensures FeedAll(kept, chunks + [chunk]).1 == Feed(FeedAll(kept, chunks).1, chunk).1
  {
    FeedAppend(kept, chunks, chunk);
    ConcatAppend(chunks, chunk);
    assert stream[..at + |chunk|] == stream[..at] + chunk;
  }

  /** n, cut to the range from 1 to both limits. */
  function Clamp(n: nat, room: nat, left: nat): (r: nat)
    requires 0 < room && 0 < left
    ensures 1 <= r <= room && r <= left
    ensures 1 <= n <= room && n <= left ==> r == n
  {
    var most := if room < left then room else left;
    if n == 0 then 1 else if n < most then n else most
  }
}
