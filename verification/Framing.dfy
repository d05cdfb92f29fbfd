/** The outer frame codec of serial and TCP transports: a prefix byte, a little-endian
    16-bit length and the payload.  The decoder works on a growing byte buffer and
    skips whatever precedes a prefix. */
module Framing {
  import opened Bytes

  const MAX_OUTER_PAYLOAD: nat := 300
  const APP_FRAME_PREFIX: byte := 0x3c
  const DEVICE_FRAME_PREFIX: byte := 0x3e
  const HEADER: nat := 3

  // ---- the format -------------------------------------------------------------------

  function Framed(prefix: byte, payload: bytes): (r: bytes)
    requires |payload| < 0x1_0000
    ensures |r| == HEADER + |payload|
  {
    [prefix, |payload| % 256, |payload| / 256] + payload
  }

  ghost predicate Fits(payloads: seq<bytes>) { forall p <- payloads :: |p| <= MAX_OUTER_PAYLOAD }

  ghost function Stream(prefix: byte, payloads: seq<bytes>): bytes
    requires Fits(payloads)
  {
    if payloads == [] then [] else Framed(prefix, payloads[0]) + Stream(prefix, payloads[1..])
  }

  // ---- what one call of the decoder does ----------------------------------------------

  datatype Decoded = Nothing | Frame(payload: bytes) | Oversized(actual: nat)

  /** The first position of the prefix byte, or the length. */
  function PrefixAt(prefix: byte, src: bytes): (k: nat)
    ensures k <= |src|
    ensures forall j :: 0 <= j < k ==> src[j] != prefix
    ensures k < |src| ==> src[k] == prefix
  {
    if src == [] then 0
    else if src[0] == prefix then 0
    else
      var k := PrefixAt(prefix, src[1..]);
      assert forall j :: 1 <= j < k + 1 ==> src[j] == src[1..][j - 1];
      k + 1
  }

  function DeclaredLength(src: bytes): nat
    requires |src| >= HEADER
  {
    src[1] as nat + 256 * (src[2] as nat)
  }

  /** Decoding a buffer that starts with the prefix. */
  function Head(src: bytes): (Decoded, bytes)
    requires src != []
  {
    if |src| < HEADER then (Nothing, src)
    else
      var length := DeclaredLength(src);
      var total := HEADER + length;
      if length > MAX_OUTER_PAYLOAD then (Oversized(length), if |src| >= total then src[total..] else [])
      else if |src| < total then (Nothing, src)
      else (Frame(src[HEADER..total]), src[total..])
  }

  /** A skipped run of `k` bytes is compared with what is left after skipping it, so a
      run at least as long as the rest of the buffer takes the rest with it. */
  function Decode(prefix: byte, src: bytes): (Decoded, bytes) {
    var k := PrefixAt(prefix, src);
    if k < |src| - k then Head(src[k..]) else (Nothing, [])
  }

  class ByteBuffer {
    var content: bytes

    constructor (initial: bytes)
      ensures content == initial
    {
      content := initial;
    }

    method Advance(n: nat)
      requires n <= |content|
      modifies this
      ensures content == old(content)[n..]
    {
      content := content[n..];
    }

    method Extend(more: bytes)
      modifies this
      ensures content == old(content) + more
    {
      content := content + more;
    }
  }

  method FindPrefix(prefix: byte, src: bytes) returns (k: nat)
    ensures k == PrefixAt(prefix, src)
  {
    k := 0;
    while k < |src| && src[k] != prefix
      invariant k <= |src| && forall j :: 0 <= j < k ==> src[j] != prefix
    {
      k := k + 1;
    }
  }

  method DecodeFrame(prefix: byte, src: ByteBuffer) returns (r: Decoded)
    modifies src
    ensures (r, src.content) == Decode(prefix, old(src.content))
  {
    if src.content == [] { return Nothing; }
    var prefixPos := FindPrefix(prefix, src.content);
    if prefixPos > 0 && prefixPos < |src.content| { src.Advance(prefixPos); }
    if prefixPos >= |src.content| {
      src.Advance(|src.content|);
      return Nothing;
    }
    if |src.content| < HEADER { return Nothing; }
    var length := DeclaredLength(src.content);
    var total := HEADER + length;
    if length > MAX_OUTER_PAYLOAD {
      src.Advance(if |src.content| >= total then total else |src.content|);
      return Oversized(length);
    }
    if |src.content| < total { return Nothing; }
    r := Frame(src.content[HEADER..total]);
    src.Advance(total);
  }

  method EncodeFrame(payload: bytes, dst: ByteBuffer) returns (ok: bool)
    modifies dst
    ensures ok <==> |payload| <= 300
    ensures !ok ==> dst.content == old(dst.content)
    ensures ok ==> dst.content == old(dst.content) + [0x3c, |payload| % 256, |payload| / 256] + payload
  {
    if |payload| >= 0x1_0000 { return false; }
    if |payload| > MAX_OUTER_PAYLOAD { return false; }
    dst.Extend([APP_FRAME_PREFIX]);
    dst.Extend([|payload| % 256, |payload| / 256]);
    dst.Extend(payload);
    assert dst.content == old(dst.content) + [0x3c, |payload| % 256, |payload| / 256] + payload;
    return true;
  }

  // ---- one frame ------------------------------------------------------------------------

  /** Every result makes progress, stays within the limit, and keeps only a tail. */
  lemma DecodeProgresses(prefix: byte, src: bytes)
    ensures var (r, rest) := Decode(prefix, src);
            && |rest| <= |src| && rest == src[|src| - |rest|..]
            && (!r.Nothing? ==> |rest| < |src|)
            && (r.Frame? ==> |r.payload| <= 300)
            && (r.Oversized? ==> r.actual > 300)
  {}

  lemma FrameDecodes(prefix: byte, payload: bytes, rest: bytes)
    requires |payload| <= MAX_OUTER_PAYLOAD
    ensures Decode(prefix, Framed(prefix, payload) + rest) == (Frame(payload), rest)
  {
    var src := Framed(prefix, payload) + rest;
    assert src[0] == prefix;
    assert DeclaredLength(src) == |payload|;
    assert src[HEADER..HEADER + |payload|] == payload;
    assert src[HEADER + |payload|..] == rest;
    assert src[0..] == src;
  }

  lemma IncompleteFrameWaits(prefix: byte, payload: bytes, n: nat)
    requires |payload| <= MAX_OUTER_PAYLOAD && n < |Framed(prefix, payload)|
    ensures Decode(prefix, Framed(prefix, payload)[..n]) == (Nothing, Framed(prefix, payload)[..n])
  {
    var src := Framed(prefix, payload)[..n];
    if n > 0 {
      assert src[0] == prefix;
      assert src[0..] == src;
    }
  }

  /** What a frame is, byte by byte. */
  lemma FrameLayout(prefix: byte, payload: bytes)
    requires |payload| <= 300
    ensures var f := Framed(prefix, payload);
            && f[0] == prefix && f[1] as nat + 256 * f[2] as nat == |payload| && f[3..] == payload
  {}

  /** A frame that declares more than 300 bytes is an error, and is dropped as far as it
      has arrived. */
  lemma OversizedIsDropped(prefix: byte, low: byte, high: byte, rest: bytes)
    requires low as nat + 256 * high as nat > 300
    ensures var declared := low as nat + 256 * high as nat;
            Decode(prefix, [prefix, low, high] + rest) ==
            (Oversized(declared), if |rest| >= declared then rest[declared..] else [])
  {
    var src := [prefix, low, high] + rest;
    assert src[0] == prefix && src[0..] == src;
    var declared := low as nat + 256 * high as nat;
    assert DeclaredLength(src) == declared;
    if |rest| >= declared { assert src[3 + declared..] == rest[declared..]; }
  }

  // ---- decoding until nothing comes ----------------------------------------------------------

  /** Decoding until nothing more comes: the results, and what stays in the buffer. */
  function Drain(prefix: byte, src: bytes): (seq<Decoded>, bytes)
    decreases |src|
  {
    var (r, rest) := Decode(prefix, src);
    if r.Nothing? then ([], rest)
    else
      assert |rest| < |src| by { DecodeProgresses(prefix, src); }
      var (rs, left) := Drain(prefix, rest);
      ([r] + rs, left)
  }

  /** Chunks arrive one by one; after each, the buffer is drained. */
  function Feed(prefix: byte, buffer: bytes, chunks: seq<bytes>): (seq<Decoded>, bytes)
    decreases |chunks|
  {
    if chunks == [] then ([], buffer)
    else
      var (first, left) := Drain(prefix, buffer + chunks[0]);
      var (more, last) := Feed(prefix, left, chunks[1..]);
      (first + more, last)
  }

  function Joined(chunks: seq<bytes>): bytes {
    if chunks == [] then [] else chunks[0] + Joined(chunks[1..])
  }

  ghost function Frames(payloads: seq<bytes>): seq<Decoded> {
    if payloads == [] then [] else [Frame(payloads[0])] + Frames(payloads[1..])
  }

  lemma {:induction false} StreamAppend(prefix: byte, a: seq<bytes>, b: seq<bytes>)
    requires Fits(a) && Fits(b)
    ensures Fits(a + b) && Stream(prefix, a + b) == Stream(prefix, a) + Stream(prefix, b)
  {
    if a == [] {
      assert a + b == b;
    } else {
      assert (a + b)[1..] == a[1..] + b;
      StreamAppend(prefix, a[1..], b);
    }
  }

  lemma {:induction false} FramesAppend(a: seq<bytes>, b: seq<bytes>)
    ensures Frames(a + b) == Frames(a) + Frames(b)
  {
    if a == [] {
      assert a + b == b;
    } else {
      assert (a + b)[1..] == a[1..] + b;
      FramesAppend(a[1..], b);
    }
  }

  lemma DrainFrame(prefix: byte, payload: bytes, rest: bytes)
    requires |payload| <= MAX_OUTER_PAYLOAD
    ensures var (rs, left) := Drain(prefix, rest);
            Drain(prefix, Framed(prefix, payload) + rest) == ([Frame(payload)] + rs, left)
  {
    hide Decode;
    FrameDecodes(prefix, payload, rest);
  }

  lemma DrainIncomplete(prefix: byte, payload: bytes, n: nat)
    requires |payload| <= MAX_OUTER_PAYLOAD && n < |Framed(prefix, payload)|
    ensures Drain(prefix, Framed(prefix, payload)[..n]) == ([], Framed(prefix, payload)[..n])
  {
    hide Decode;
    IncompleteFrameWaits(prefix, payload, n);
  }

  /** The buffer holds the part of the stream that is not yet a complete frame. */
  ghost predicate Delivered(prefix: byte, payloads: seq<bytes>, received: bytes, k: nat, results: seq<Decoded>,
                            left: bytes)
    requires Fits(payloads)
  {
    && k <= |payloads|
    && results == Frames(payloads[..k])
    && Stream(prefix, payloads[..k]) + left == received
    && (if k == |payloads| then left == [] else |left| < HEADER + |payloads[k]|)
  }

  /** Draining any initial part of a stream yields exactly the complete payloads and
      leaves exactly the undelivered tail. */
  lemma {:induction false} DrainPrefix(prefix: byte, payloads: seq<bytes>, n: nat) returns (k: nat)
    requires Fits(payloads) && n <= |Stream(prefix, payloads)|
    ensures var (rs, left) := Drain(prefix, Stream(prefix, payloads)[..n]);
            Delivered(prefix, payloads, Stream(prefix, payloads)[..n], k, rs, left)
    decreases |payloads|
  {
    hide Drain;
    hide Framed;
    var s := Stream(prefix, payloads)[..n];
    if payloads == [] {
      DrainNothing(prefix);
      assert s == [];
      k := 0;
    } else {
      var f := Framed(prefix, payloads[0]);
      var rest := Stream(prefix, payloads[1..]);
      if n < |f| {
        assert s == f[..n];
        DrainIncomplete(prefix, payloads[0], n);
        k := 0;
      } else {
        var m := n - |f|;
        assert s == f + rest[..m];
        DrainFrame(prefix, payloads[0], rest[..m]);
        k := DrainPrefix(prefix, payloads[1..], m);
        assert payloads[..k + 1] == [payloads[0]] + payloads[1..][..k];
        k := k + 1;
        assert Stream(prefix, payloads[..k]) == f + Stream(prefix, payloads[1..][..k - 1]);
      }
    }
  }

  lemma DrainNothing(prefix: byte)
    ensures Drain(prefix, []) == ([], [])
  {}

  lemma CancelPrefix(a: bytes, x: bytes, b: bytes)
    requires a + x <= a + b
    ensures |x| <= |b| && x == b[..|x|]
  {
    forall i | 0 <= i < |x| ensures x[i] == b[i] {
      assert (a + x)[|a| + i] == (a + b)[|a| + i];
    }
  }

  /** Payloads delivered from the rest of a stream follow those delivered before. */
  lemma {:induction false} DeliveredAfter(prefix: byte, payloads: seq<bytes>, done: nat, input: bytes,
                                          more: nat, rs: seq<Decoded>, left: bytes)
    requires Fits(payloads) && done <= |payloads| && Fits(payloads[done..])
    requires Delivered(prefix, payloads[done..], input, more, rs, left)
    ensures Fits(payloads[..done])
    ensures Delivered(prefix, payloads, Stream(prefix, payloads[..done]) + input, done + more,
            Frames(payloads[..done]) + rs, left)
  {
    hide Framed;
    var before, tail := payloads[..done], payloads[done..];
    assert payloads[..done + more] == before + tail[..more];
    StreamAppend(prefix, before, tail[..more]);
    FramesAppend(before, tail[..more]);
    assert Stream(prefix, before) + (Stream(prefix, tail[..more]) + left)
        == Stream(prefix, before) + Stream(prefix, tail[..more]) + left;
  }

  /** One more chunk. */
  lemma {:induction false} DeliverChunk(prefix: byte, payloads: seq<bytes>, received: bytes, done: nat,
                                        results: seq<Decoded>, buffer: bytes, chunk: bytes) returns (next: nat)
    requires Fits(payloads) && Delivered(prefix, payloads, received, done, results, buffer)
    requires received + chunk <= Stream(prefix, payloads)
    ensures var (rs, left) := Drain(prefix, buffer + chunk);
            Delivered(prefix, payloads, received + chunk, next, results + rs, left)
  {
    hide Drain;
    hide Framed;
    hide Stream;
    hide Frames;
    var before, tail := payloads[..done], payloads[done..];
    assert payloads == before + tail;
    StreamAppend(prefix, before, tail);
    var input := buffer + chunk;
    assert received + chunk == Stream(prefix, before) + input;
    CancelPrefix(Stream(prefix, before), input, Stream(prefix, tail));
    var more := DrainPrefix(prefix, tail, |input|);
    var (rs, left) := Drain(prefix, input);
    DeliveredAfter(prefix, payloads, done, input, more, rs, left);
    next := done + more;
  }

  lemma {:induction false} FeedFrom(prefix: byte, payloads: seq<bytes>, received: bytes, done: nat,
                                    results: seq<Decoded>, buffer: bytes, chunks: seq<bytes>) returns (k: nat)
    requires Fits(payloads) && Delivered(prefix, payloads, received, done, results, buffer)
    requires received + Joined(chunks) <= Stream(prefix, payloads)
    ensures var (rs, left) := Feed(prefix, buffer, chunks);
            Delivered(prefix, payloads, received + Joined(chunks), k, results + rs, left)
    decreases |chunks|
  {
    hide Drain;
    hide Delivered;
    if chunks == [] {
      k := done;
      assert received + Joined(chunks) == received;
      assert results + [] == results;
    } else {
      assert received + Joined(chunks) == received + chunks[0] + Joined(chunks[1..]);
      k := DeliverChunk(prefix, payloads, received, done, results, buffer, chunks[0]);
      var (first, left) := Drain(prefix, buffer + chunks[0]);
      k := FeedFrom(prefix, payloads, received + chunks[0], k, results + first, left, chunks[1..]);
      var (rs, last) := Feed(prefix, left, chunks[1..]);
      assert results + first + rs == results + (first + rs);
    }
  }

  /** Chunking does not matter: whatever part of the stream has arrived, in whatever
      pieces, the results are its complete payloads in order and the buffer is the
      undelivered tail. */
  lemma FeedPrefix(prefix: byte, payloads: seq<bytes>, chunks: seq<bytes>) returns (k: nat)
    requires Fits(payloads) && Joined(chunks) <= Stream(prefix, payloads)
    ensures var (rs, left) := Feed(prefix, [], chunks);
            Delivered(prefix, payloads, Joined(chunks), k, rs, left)
  {
    assert payloads[..0] == [];
    assert Delivered(prefix, payloads, [], 0, [], []);
    assert [] + Joined(chunks) == Joined(chunks);
    k := FeedFrom(prefix, payloads, [], 0, [], [], chunks);
    assert [] + Feed(prefix, [], chunks).0 == Feed(prefix, [], chunks).0;
  }

  /** Once the whole stream has arrived, every payload was delivered and the buffer is
      empty. */
  lemma ChunkingDoesNotMatter(prefix: byte, payloads: seq<bytes>, chunks: seq<bytes>)
    requires Fits(payloads) && Joined(chunks) == Stream(prefix, payloads)
    ensures Feed(prefix, [], chunks) == (Frames(payloads), [])
  {
    var k := FeedPrefix(prefix, payloads, chunks);
    if k < |payloads| {
      assert payloads == payloads[..k] + payloads[k..];
      StreamAppend(prefix, payloads[..k], payloads[k..]);
    } else {
      assert payloads[..k] == payloads;
    }
  }

  // ---- decode_frames --------------------------------------------------------------------------

  datatype Batch = Payloads(payloads: seq<bytes>) | TooLong(actual: nat)

  /** All frames of a complete buffer; an oversized frame fails the whole batch. */
  function DecodeAll(prefix: byte, raw: bytes): Batch
    decreases |raw|
  {
    var (r, rest) := Decode(prefix, raw);
    match r
    case Nothing => Payloads([])
    case Oversized(actual) => TooLong(actual)
    case Frame(p) =>
      assert |rest| < |raw| by { DecodeProgresses(prefix, raw); }
      Preceded([p], DecodeAll(prefix, rest))
  }

  function Preceded(out: seq<bytes>, batch: Batch): Batch {
    if batch.Payloads? then Payloads(out + batch.payloads) else batch
  }

  lemma PrecededTwice(out: seq<bytes>, p: bytes, batch: Batch)
    ensures Preceded(out, Preceded([p], batch)) == Preceded(out + [p], batch)
  {
    if batch.Payloads? { assert out + ([p] + batch.payloads) == out + [p] + batch.payloads; }
  }

  method DecodeFrames(prefix: byte, raw: bytes) returns (batch: Batch)
    ensures batch == DecodeAll(prefix, raw)
  {
    hide Decode;
    var src := new ByteBuffer(raw);
    var out: seq<bytes> := [];
    assert Preceded([], DecodeAll(prefix, raw)) == DecodeAll(prefix, raw);
    while src.content != []
      invariant DecodeAll(prefix, raw) == Preceded(out, DecodeAll(prefix, src.content))
      decreases |src.content|
    {
      DecodeProgresses(prefix, src.content);
      var r := DecodeFrame(prefix, src);
      match r
      case Frame(p) =>
        PrecededTwice(out, p, DecodeAll(prefix, src.content));
        out := out + [p];
      case Oversized(actual) => return TooLong(actual);
      case Nothing => return Payloads(out);
    }
    EmptyDecodes(prefix);
    return Payloads(out);
  }

  lemma {:induction false} StreamDecodes(prefix: byte, payloads: seq<bytes>)
    requires Fits(payloads)
    ensures DecodeAll(prefix, Stream(prefix, payloads)) == Payloads(payloads)
  {
    hide Decode;
    hide Framed;
    if payloads == [] {
      EmptyDecodes(prefix);
    } else {
      FrameDecodes(prefix, payloads[0], Stream(prefix, payloads[1..]));
      StreamDecodes(prefix, payloads[1..]);
    }
  }

  lemma EmptyDecodes(prefix: byte)
    ensures Decode(prefix, []) == (Nothing, [])
  {
  }

  // ---- resynchronisation ------------------------------------------------------------------------

  lemma {:induction false} PrefixAfterGarbage(prefix: byte, garbage: bytes, r: bytes)
    requires prefix !in garbage && r != [] && r[0] == prefix
    ensures PrefixAt(prefix, garbage + r) == |garbage|
  {
    var k := PrefixAt(prefix, garbage + r);
    assert (garbage + r)[|garbage|] == prefix;
  }

  /** Garbage shorter than what follows it is skipped; garbage at least as long takes
      everything with it. */
  lemma GarbageIsSkippedIfShorter(prefix: byte, garbage: bytes, r: bytes)
    requires garbage != [] && prefix !in garbage && r != [] && r[0] == prefix
    ensures |garbage| < |r| ==> Decode(prefix, garbage + r) == Decode(prefix, r)
    ensures |garbage| >= |r| ==> Decode(prefix, garbage + r) == (Nothing, [])
  {
    PrefixAfterGarbage(prefix, garbage, r);
    assert (garbage + r)[|garbage|..] == r;
    assert r[0..] == r;
  }

  /** Decoding a complete buffer is meant to find the frames behind any garbage.  It does
      so exactly if the garbage is shorter than the frames. */
  lemma ResynchronisesExactlyIfShorter(prefix: byte, garbage: bytes, payloads: seq<bytes>)
    requires prefix !in garbage && payloads != [] && Fits(payloads)
    ensures DecodeAll(prefix, garbage + Stream(prefix, payloads)) == Payloads(payloads) <==>
            |garbage| < |Stream(prefix, payloads)|
  {
    var r := Stream(prefix, payloads);
    StreamDecodes(prefix, payloads);
    if garbage == [] {
      assert garbage + r == r;
    } else {
      GarbageIsSkippedIfShorter(prefix, garbage, r);
    }
  }

  /** Four stray bytes swallow the four-byte frame behind them; three do not. */
  lemma LongGarbageSwallowsAFrame()
    ensures DecodeAll(DEVICE_FRAME_PREFIX, [0, 0, 0, 0] + Framed(DEVICE_FRAME_PREFIX, [7])) == Payloads([])
    ensures DecodeAll(DEVICE_FRAME_PREFIX, [0, 0, 0] + Framed(DEVICE_FRAME_PREFIX, [7])) == Payloads([[7]])
  {
    hide Decode;
    var payloads: seq<bytes> := [[7]];
    var frame := Framed(DEVICE_FRAME_PREFIX, [7]);
    assert payloads[1..] == [];
    assert Stream(DEVICE_FRAME_PREFIX, payloads) == frame + [];
    assert frame + [] == frame;
    ResynchronisesExactlyIfShorter(DEVICE_FRAME_PREFIX, [0, 0, 0], payloads);
    GarbageIsSkippedIfShorter(DEVICE_FRAME_PREFIX, [0, 0, 0, 0], frame);
  }

  // ---- resynchronisation on a buffer that grows -------------------------------------------

  /** How many garbage and how many stream bytes the first chunk with a stream byte has. */
  function Meeting(chunks: seq<bytes>, garbage: nat): (nat, nat) {
    if chunks == [] then (0, 0)
    else if |chunks[0]| <= garbage then Meeting(chunks[1..], garbage - |chunks[0]|)
    else (garbage, |chunks[0]| - garbage)
  }

  /** The bytes that frames take on the wire. */
  function Weight(rs: seq<Decoded>): nat {
    if rs == [] then 0 else (if rs[0].Frame? then HEADER + |rs[0].payload| else 0) + Weight(rs[1..])
  }

  lemma {:induction false} WeightAppend(a: seq<Decoded>, b: seq<Decoded>)
    ensures Weight(a + b) == Weight(a) + Weight(b)
  {
    if a == [] {
      assert a + b == b;
    } else {
      assert (a + b)[1..] == a[1..] + b;
      WeightAppend(a[1..], b);
    }
  }

  lemma {:induction false} WeightOfFrames(prefix: byte, payloads: seq<bytes>)
    requires Fits(payloads)
    ensures Weight(Frames(payloads)) == |Stream(prefix, payloads)|
  {
    if payloads != [] {
      WeightOfFrames(prefix, payloads[1..]);
      assert Frames(payloads)[1..] == Frames(payloads[1..]);
    }
  }

  lemma DecodeWeighs(prefix: byte, src: bytes)
    ensures var (r, rest) := Decode(prefix, src); Weight([r]) + |rest| <= |src|
  {
    var (r, rest) := Decode(prefix, src);
    assert [r][1..] == [];
  }

  /** No frame is made of bytes that did not arrive. */
  lemma {:induction false} DrainWeighs(prefix: byte, src: bytes)
    ensures var (rs, left) := Drain(prefix, src); Weight(rs) + |left| <= |src|
    decreases |src|
  {
    hide Decode;
    var (r, rest) := Decode(prefix, src);
    DecodeProgresses(prefix, src);
    DecodeWeighs(prefix, src);
    if !r.Nothing? {
      DrainWeighs(prefix, rest);
      WeightAppend([r], Drain(prefix, rest).0);
    }
  }

  lemma {:induction false} FeedWeighs(prefix: byte, buffer: bytes, chunks: seq<bytes>)
    ensures Weight(Feed(prefix, buffer, chunks).0) <= |buffer| + |Joined(chunks)|
    decreases |chunks|
  {
    hide Drain;
    if chunks != [] {
      var (first, left) := Drain(prefix, buffer + chunks[0]);
      DrainWeighs(prefix, buffer + chunks[0]);
      FeedWeighs(prefix, left, chunks[1..]);
      WeightAppend(first, Feed(prefix, left, chunks[1..]).0);
    }
  }

  lemma {:induction false} PrefixAbsent(prefix: byte, src: bytes)
    requires prefix !in src
    ensures PrefixAt(prefix, src) == |src| && Decode(prefix, src) == (Nothing, []) && Drain(prefix, src) == ([], [])
  {
    hide Head;
  }

  /** The chunk in which garbage and stream meet. */
  lemma {:induction false} MeetingChunk(prefix: byte, noise: bytes, start: bytes)
    requires prefix !in noise && start != [] && start[0] == prefix
    ensures noise == [] || |noise| < |start| ==> Drain(prefix, noise + start) == Drain(prefix, start)
    ensures !(noise == [] || |noise| < |start|) ==> Drain(prefix, noise + start) == ([], [])
  {
    hide Decode;
    if noise == [] {
      assert noise + start == start;
    } else {
      GarbageIsSkippedIfShorter(prefix, noise, start);
      DecodeProgresses(prefix, start);
    }
  }

  /** Fed chunk by chunk, the decoder finds the frames behind any garbage exactly if the
      first chunk that holds a byte of them holds no garbage, or less garbage than that. */
  lemma {:induction false} ChunksResynchroniseExactlyIf(prefix: byte, garbage: bytes, payloads: seq<bytes>,
                                                        chunks: seq<bytes>)
    requires prefix !in garbage && payloads != [] && Fits(payloads)
    requires Joined(chunks) == garbage + Stream(prefix, payloads)
    ensures var (noise, start) := Meeting(chunks, |garbage|);
            var found := noise == 0 || noise < start;
            && (Feed(prefix, [], chunks).0 == Frames(payloads) <==> found)
            && (found ==> Feed(prefix, [], chunks) == (Frames(payloads), []))
    decreases |chunks|
  {
    hide Drain, Stream, Frames, Fits;
    StreamStarts(prefix, payloads);
    var stream := Stream(prefix, payloads);
    var chunk, rest := chunks[0], Joined(chunks[1..]);
    assert [] + chunk == chunk;
    if |chunk| <= |garbage| {
      SplitAt(chunk, rest, garbage, stream);
      PrefixAbsent(prefix, chunk);
      ChunksResynchroniseExactlyIf(prefix, garbage[|chunk|..], payloads, chunks[1..]);
      var (more, last) := Feed(prefix, [], chunks[1..]);
      assert [] + more == more;
    } else {
      SplitAt(garbage, stream, chunk, rest);
      var start := chunk[|garbage|..];
      assert chunk == garbage + start;
      MeetingChunk(prefix, garbage, start);
      if garbage == [] || |garbage| < |start| {
        FeedSkips(prefix, chunk, start, chunks);
        assert Joined([start] + chunks[1..]) == start + rest by { assert ([start] + chunks[1..])[1..] == chunks[1..]; }
        ChunkingDoesNotMatter(prefix, payloads, [start] + chunks[1..]);
      } else {
        FeedWeighs(prefix, [], chunks[1..]);
        WeightOfFrames(prefix, payloads);
        var (more, last) := Feed(prefix, [], chunks[1..]);
        assert [] + more == more;
      }
    }
  }

  lemma StreamStarts(prefix: byte, payloads: seq<bytes>)
    requires payloads != [] && Fits(payloads)
    ensures Stream(prefix, payloads) != [] && Stream(prefix, payloads)[0] == prefix
  {}

  /** Two ways to cut the same bytes. */
  lemma SplitAt(a: bytes, b: bytes, c: bytes, d: bytes)
    requires a + b == c + d && |a| <= |c|
    ensures c == a + c[|a|..] && b == c[|a|..] + d && c[..|a|] == a
    ensures |a| < |c| ==> c[|a|] == (if b != [] then b[0] else 0)
    ensures forall x <- a :: x in c
    ensures forall x <- c[|a|..] :: x in c
  {
    assert c[..|a|] == (c + d)[..|a|] == (a + b)[..|a|] == a;
    assert b == (a + b)[|a|..] == (c + d)[|a|..];
    assert (c + d)[|a|..] == c[|a|..] + d;
  }

  /** Only the drained result of the first chunk matters. */
  lemma FeedSkips(prefix: byte, chunk: bytes, start: bytes, chunks: seq<bytes>)
    requires chunks != [] && chunks[0] == chunk && Drain(prefix, chunk) == Drain(prefix, start)
    ensures Feed(prefix, [], [start] + chunks[1..]) == Feed(prefix, [], chunks)
  {
    hide Drain;
    assert [] + chunk == chunk && [] + start == start;
    assert ([start] + chunks[1..])[1..] == chunks[1..];
  }

  lemma TwoChunks(prefix: byte, a: bytes, b: bytes)
    ensures Joined([a, b]) == a + b
    ensures Drain(prefix, a) == ([], []) && Drain(prefix, b) == ([], []) ==> Feed(prefix, [], [a, b]) == ([], [])
  {
    hide Drain;
    var chunks: seq<bytes> := [a, b];
    assert chunks[1..] == [b] && chunks[1..][1..] == [];
    assert [] + a == a && [] + b == b && b + [] == b;
    var none: seq<Decoded> := [];
    assert none + none == none;
    if Drain(prefix, a) == ([], []) && Drain(prefix, b) == ([], []) {
      assert Feed(prefix, [], chunks[1..][1..]) == (none, []);
      assert Feed(prefix, [], chunks[1..]) == (none + none, []);
    }
    assert Joined(chunks[1..]) == b + Joined(chunks[1..][1..]);
  }

  /** One stray byte loses a frame whose prefix arrives with it and whose rest does not,
      though it is shorter than the frame. */
  lemma SplitFrameIsLost()
    ensures Joined([[0, 0x3e], [1, 0, 7]]) == [0] + Framed(DEVICE_FRAME_PREFIX, [7])
    ensures Feed(DEVICE_FRAME_PREFIX, [], [[0, 0x3e], [1, 0, 7]]) == ([], [])
  {
    hide Decode, Drain, Feed, Joined;
    var a: bytes, b: bytes := [0, 0x3e], [1, 0, 7];
    MeetingChunk(DEVICE_FRAME_PREFIX, [0], [0x3e]);
    assert [0] + [0x3e] == a;
    PrefixAbsent(DEVICE_FRAME_PREFIX, b);
    TwoChunks(DEVICE_FRAME_PREFIX, a, b);
  }
}
