/** The reader of the serial and TCP transports.  It drops everything before a prefix
    each time before it calls the decoder, so the decoder never meets garbage. */
module FramedReader {
  import opened Bytes
  import opened Framing

  const PREFIX: byte := DEVICE_FRAME_PREFIX

  // ---- one decode ----------------------------------------------------------------------

  function Discarded(src: bytes): bytes { src[PrefixAt(PREFIX, src)..] }

  function Clean(src: bytes): (Decoded, bytes) { Decode(PREFIX, Discarded(src)) }

  lemma {:induction false} DiscardedStarts(src: bytes)
    ensures Discarded(src) == [] <==> PREFIX !in src
    ensures Discarded(src) != [] ==> Discarded(src)[0] == PREFIX && Clean(src) == Head(Discarded(src))
    ensures Discarded(src) == [] ==> Clean(src) == (Nothing, [])
  {
    hide Head;
    var k, d := PrefixAt(PREFIX, src), Discarded(src);
    if d != [] { assert d[0..] == d; }
  }

  lemma {:induction false} DiscardedAppend(x: bytes, c: bytes)
    ensures Discarded(x + c) == if Discarded(x) == [] then Discarded(c) else Discarded(x) + c
  {
    var k, m := PrefixAt(PREFIX, x), PrefixAt(PREFIX, x + c);
    if k < |x| {
      assert (x + c)[k] == x[k];
      assert forall j :: 0 <= j < k ==> (x + c)[j] == x[j];
      assert m == k && (x + c)[k..] == x[k..] + c;
    } else {
      var n := PrefixAt(PREFIX, c);
      assert forall j :: 0 <= j < |x| ==> (x + c)[j] == x[j];
      assert forall j :: 0 <= j < |c| ==> (x + c)[|x| + j] == c[j];
      assert m == |x| + n;
      assert (x + c)[m..] == c[n..];
    }
  }

  lemma HeadAppend(d: bytes, c: bytes)
    requires d != []
    ensures var (r, rest) := Head(d);
            && (r.Frame? ==> Head(d + c) == (r, rest + c))
            && (r.Oversized? ==> Head(d + c).0 == r)
            && (r.Nothing? ==> rest == d)
  {
    var (r, rest) := Head(d);
    if |d| >= HEADER { assert DeclaredLength(d + c) == DeclaredLength(d); }
    if r.Frame? {
      var total := HEADER + DeclaredLength(d);
      assert (d + c)[HEADER..total] == d[HEADER..total];
      assert (d + c)[total..] == d[total..] + c;
    }
  }

  /** Bytes that arrive later change no result, and what waits is what was not noise. */
  lemma CleanAppend(x: bytes, c: bytes)
    ensures var (r, rest) := Clean(x);
            && (r.Frame? ==> Clean(x + c) == (r, rest + c))
            && (r.Oversized? ==> Clean(x + c).0 == r)
            && (r.Nothing? ==> rest == Discarded(x) && Discarded(rest + c) == Discarded(x + c))
  {
    hide Discarded, Clean, Head;
    DiscardedStarts(x);
    DiscardedStarts(x + c);
    DiscardedAppend(x, c);
    if Discarded(x) == [] {
      assert [] + c == c;
    } else {
      HeadAppend(Discarded(x), c);
      DiscardedAgain(x);
      DiscardedAppend(Discarded(x), c);
    }
  }

  lemma {:induction false} DiscardedAgain(x: bytes)
    ensures Discarded(Discarded(x)) == Discarded(x)
  {
    var d := Discarded(x);
    if d != [] { assert d[0..] == d; }
  }

  lemma CleanProgresses(src: bytes)
    ensures var (r, rest) := Clean(src); |rest| <= |src| && (!r.Nothing? ==> |rest| < |src|)
  {
    DecodeProgresses(PREFIX, Discarded(src));
  }

  // ---- reading packets -------------------------------------------------------------------

  datatype Outcome = Packet(payload: bytes) | Closed | Bad(actual: nat) | CutOff(pending: nat)

  /** One packet.  A read that yields nothing means that the peer has closed. */
  function Read(buffered: bytes, source: seq<bytes>): (Outcome, bytes, seq<bytes>)
    decreases |source|
  {
    var (r, rest) := Clean(buffered);
    match r
    case Frame(p) => (Packet(p), rest, source)
    case Oversized(n) => (Bad(n), rest, source)
    case Nothing =>
      if source == [] then (if rest == [] then Closed else CutOff(|rest|), [], [])
      else if source[0] == [] then (if rest == [] then Closed else CutOff(|rest|), [], source[1..])
      else Read(rest + source[0], source[1..])
  }

  class FramedReadState {
    const buffered: ByteBuffer
    var source: seq<bytes>        // what the reads of the stream are going to yield

    constructor (source: seq<bytes>)
      ensures buffered.content == [] && fresh(buffered) && this.source == source
    {
      this.buffered := new ByteBuffer([]);
      this.source := source;
    }

    method DiscardPrecedingNoise()
      modifies buffered
      ensures buffered.content == Discarded(old(buffered.content))
    {
      if buffered.content != [] && buffered.content[0] == PREFIX { return; }
      var k := FindPrefix(PREFIX, buffered.content);
      if k < |buffered.content| { buffered.Advance(k); } else { buffered.Advance(|buffered.content|); }
    }

    /** Takes the next chunk off the stream. */
    method TakeChunk() returns (chunk: bytes)
      modifies this
      ensures old(source) == [] ==> chunk == [] && source == []
      ensures old(source) != [] ==> chunk == old(source)[0] && source == old(source)[1..]
    {
      if source == [] { return []; }
      chunk, source := source[0], source[1..];
    }

    method ReadFrom() returns (r: Outcome)
      modifies this, buffered
      ensures (r, buffered.content, source) == Read(old(buffered.content), old(source))
    {
      hide Discarded, Decode;
      while true
        invariant Read(buffered.content, source) == Read(old(buffered.content), old(source))
        decreases |source|
      {
        DiscardPrecedingNoise();
        var decoded := DecodeFrame(PREFIX, buffered);
        match decoded
        case Frame(p) => return Packet(p);
        case Oversized(n) => return Bad(n);
        case Nothing =>
          var chunk := TakeChunk();
          if chunk == [] {
            var pending := |buffered.content|;
            buffered.Advance(pending);
            return if pending == 0 then Closed else CutOff(pending);
          }
          buffered.Extend(chunk);
      }
    }
  }

  /** A frame that declares more than 300 bytes, after any noise, is reported and dropped. */
  lemma {:induction false} OversizedIsReported(noise: bytes, low: byte, high: byte, rest: bytes, source: seq<bytes>)
    requires 0x3e !in noise && low as nat + 256 * high as nat > 300
    ensures var declared := low as nat + 256 * high as nat;
            Read(noise + [0x3e, low, high] + rest, source) ==
            (Bad(declared), if |rest| >= declared then rest[declared..] else [], source)
  {
    hide Decode;
    var src, tail := noise + [0x3e, low, high] + rest, [0x3e, low, high] + rest;
    assert src == noise + tail && tail[0] == PREFIX;
    PrefixAfterGarbage(PREFIX, noise, tail);
    assert src[|noise|..] == tail;
    OversizedIsDropped(PREFIX, low, high, rest);
  }

  /** A peer that closes, by an empty read or for good, ends a packet: cleanly if only noise
      is waiting, and otherwise with the number of bytes of the frame cut off. */
  lemma {:induction false} PeerCloses(noise: bytes, payload: bytes, n: nat, source: seq<bytes>)
    requires 0x3e !in noise && |payload| <= 300 && n < 3 + |payload|
    requires source == [] || source[0] == []
    ensures var waiting := noise + ([0x3e, |payload| % 256, |payload| / 256] + payload)[..n];
            Read(waiting, source) ==
            (if n == 0 then Closed else CutOff(n), [], if source == [] then [] else source[1..])
  {
    hide Decode;
    var frame := [0x3e, |payload| % 256, |payload| / 256] + payload;
    assert frame == Framed(PREFIX, payload);
    var tail := frame[..n];
    if n == 0 {
      assert noise + tail == noise;
      DiscardedStarts(noise);
    } else {
      assert tail[0] == PREFIX;
      PrefixAfterGarbage(PREFIX, noise, tail);
      assert (noise + tail)[|noise|..] == tail;
      IncompleteFrameWaits(PREFIX, payload, n);
    }
  }

  // ---- the chunks do not matter -------------------------------------------------------------

  /** Everything a buffer yields, and what is left waiting. */
  function CleanDrain(src: bytes): (seq<Decoded>, bytes)
    decreases |src|
  {
    var (r, rest) := Clean(src);
    if r.Nothing? then ([], rest)
    else
      assert |rest| < |src| by { CleanProgresses(src); }
      var (rs, left) := CleanDrain(rest);
      ([r] + rs, left)
  }

  ghost predicate Legible(src: bytes) { forall r <- CleanDrain(src).0 :: r.Frame? }

  ghost predicate Chunked(source: seq<bytes>) { forall c <- source :: c != [] }

  function Ending(left: bytes): Outcome { if left == [] then Closed else CutOff(|left|) }

  lemma {:induction false} SameDrain(x: bytes, y: bytes)
    requires Discarded(x) == Discarded(y)
    ensures CleanDrain(x) == CleanDrain(y)
  {}

  /** One read takes the next frame of all that is still to come. */
  lemma {:induction false} ReadTakesNext(buffered: bytes, source: seq<bytes>)
    requires Chunked(source) && Legible(buffered + Joined(source))
    ensures var (rs, left) := CleanDrain(buffered + Joined(source));
            var (r, waiting, rest) := Read(buffered, source);
            if rs == [] then r == Ending(left)
            else
              && r == Packet(rs[0].payload)
              && CleanDrain(waiting + Joined(rest)) == (rs[1..], left)
              && Chunked(rest) && |waiting| + |Joined(rest)| < |buffered| + |Joined(source)|
    decreases |source|
  {
    hide Clean, Discarded;
    var all := buffered + Joined(source);
    var (r, rest) := Clean(buffered);
    CleanAppend(buffered, Joined(source));
    CleanProgresses(buffered);
    match r
    case Frame(p) =>
      FirstFrame(all);
    case Oversized(n) =>
      FirstFrame(all);
    case Nothing =>
      SameDrain(rest + Joined(source), all);
      if source == [] {
        assert all == buffered;
      } else {
        assert source[0] in source;
        assert rest + Joined(source) == rest + source[0] + Joined(source[1..]);
        assert forall c <- source[1..] :: c in source;
        ReadTakesNext(rest + source[0], source[1..]);
      }
  }

  lemma FirstFrame(src: bytes)
    requires Legible(src)
    ensures var (r, rest) := Clean(src);
            && !r.Oversized?
            && (r.Frame? ==> CleanDrain(src).0 != [] && CleanDrain(src).0[0] == r
                             && CleanDrain(rest) == (CleanDrain(src).0[1..], CleanDrain(src).1))
  {
    hide Clean;
    var (r, rest) := Clean(src);
    if !r.Nothing? {
      assert CleanDrain(src).0[0] in CleanDrain(src).0;
    }
  }

  lemma {:induction false} TailIsLegible(src: bytes, rest: bytes)
    requires Legible(src) && CleanDrain(src).0 != []
    requires CleanDrain(rest).0 == CleanDrain(src).0[1..]
    ensures Legible(rest)
  {
    assert forall r <- CleanDrain(src).0[1..] :: r in CleanDrain(src).0;
  }

  /** Reading packet after packet until the stream ends. */
  ghost predicate Yields(buffered: bytes, source: seq<bytes>, payloads: seq<bytes>, end: Outcome)
    decreases |payloads|
  {
    var (r, waiting, rest) := Read(buffered, source);
    if payloads == [] then r == end && !end.Packet?
    else r == Packet(payloads[0]) && Yields(waiting, rest, payloads[1..], end)
  }

  function PayloadsOf(rs: seq<Decoded>): seq<bytes>
    requires forall r <- rs :: r.Frame?
  {
    if rs == [] then [] else [rs[0].payload] + PayloadsOf(rs[1..])
  }

  /** However a stream is cut into chunks, its reads yield the frames of the whole stream
      in order, whatever noise lies between them. */
  lemma {:induction false} ChunksDoNotMatter(buffered: bytes, source: seq<bytes>)
    requires Chunked(source) && Legible(buffered + Joined(source))
    ensures var (rs, left) := CleanDrain(buffered + Joined(source));
            Yields(buffered, source, PayloadsOf(rs), Ending(left))
    decreases |buffered| + |Joined(source)|
  {
    hide Read, CleanDrain;
    var (rs, left) := CleanDrain(buffered + Joined(source));
    ReadTakesNext(buffered, source);
    if rs != [] {
      var (r, waiting, rest) := Read(buffered, source);
      TailIsLegible(buffered + Joined(source), waiting + Joined(rest));
      ChunksDoNotMatter(waiting, rest);
      assert PayloadsOf(rs)[1..] == PayloadsOf(rs[1..]);
    }
  }

  // ---- noise ------------------------------------------------------------------------------------

  datatype Burst = Burst(noise: bytes, payload: bytes)

  ghost predicate Plausible(bursts: seq<Burst>) {
    forall b <- bursts :: PREFIX !in b.noise && |b.payload| <= MAX_OUTER_PAYLOAD
  }

  /** Frames, each after some noise. */
  ghost function Noisy(bursts: seq<Burst>): bytes
    requires Plausible(bursts)
  {
    if bursts == [] then []
    else
      assert bursts[0] in bursts;
      bursts[0].noise + Framed(PREFIX, bursts[0].payload) + Noisy(bursts[1..])
  }

  function Contents(bursts: seq<Burst>): seq<bytes> {
    if bursts == [] then [] else [bursts[0].payload] + Contents(bursts[1..])
  }

  lemma {:induction false} NoisyFrameDecodes(noise: bytes, payload: bytes, rest: bytes)
    requires PREFIX !in noise && |payload| <= MAX_OUTER_PAYLOAD
    ensures Clean(noise + Framed(PREFIX, payload) + rest) == (Frame(payload), rest)
  {
    hide Decode;
    var src, tail := noise + Framed(PREFIX, payload) + rest, Framed(PREFIX, payload) + rest;
    assert src == noise + tail && tail[0] == PREFIX;
    PrefixAfterGarbage(PREFIX, noise, tail);
    assert src[|noise|..] == tail;
    FrameDecodes(PREFIX, payload, rest);
  }

  lemma {:induction false} NoisyDrains(bursts: seq<Burst>, tail: bytes)
    requires Plausible(bursts) && PREFIX !in tail
    ensures CleanDrain(Noisy(bursts) + tail) == (Frames(Contents(bursts)), [])
  {
    hide Clean, Framed;
    if bursts == [] {
      assert Noisy(bursts) + tail == tail;
      DiscardedStarts(tail);
    } else {
      var b := bursts[0];
      assert b in bursts;
      var rest := Noisy(bursts[1..]) + tail;
      assert Noisy(bursts) + tail == b.noise + Framed(PREFIX, b.payload) + rest;
      NoisyFrameDecodes(b.noise, b.payload, rest);
      NoisyDrains(bursts[1..], tail);
      assert Contents(bursts)[1..] == Contents(bursts[1..]);
    }
  }

  lemma {:induction false} FramesAreLegible(payloads: seq<bytes>)
    ensures forall r <- Frames(payloads) :: r.Frame?
    ensures PayloadsOf(Frames(payloads)) == payloads
  {
    if payloads != [] {
      FramesAreLegible(payloads[1..]);
      assert Frames(payloads)[1..] == Frames(payloads[1..]);
    }
  }

  /** Any noise without the prefix byte, before, between and after the frames, in any
      chunks: the reads yield exactly the payloads in order and then a clean end. */
  lemma NoiseIsSkipped(bursts: seq<Burst>, tail: bytes, chunks: seq<bytes>)
    requires Plausible(bursts) && PREFIX !in tail && Chunked(chunks)
    requires Joined(chunks) == Noisy(bursts) + tail
    ensures Yields([], chunks, Contents(bursts), Closed)
  {
    hide Yields, CleanDrain, Noisy, Frames;
    NoisyDrains(bursts, tail);
    FramesAreLegible(Contents(bursts));
    assert [] + Joined(chunks) == Joined(chunks);
    ChunksDoNotMatter([], chunks);
  }
}
