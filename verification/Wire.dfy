/** The bounded framed transport: an encoder, a one-shot parser, and the streaming decoder. */
module Wire {
  import opened Basics
  import opened ByteBits
  import opened Bytes

  const FRAME_HEADER_SIZE: nat := 20
  const MAX_FRAME_PAYLOAD: nat := 0x10_0000
  const PROTOCOL_VERSION: nat := 1
  const MAGIC: seq<byte> := [0x4C, 0x46, 0x46, 0x31]

  /** The integrity sum over the bytes it is given; every result holds whatever the sum is. */
  type Checksum = seq<byte> -> nat

  predicate KnownType(raw: nat) {
    raw in {1, 2, 3, 10, 11, 12, 13, 20, 21, 22, 23, 24, 25, 30, 40, 41}
  }

  datatype Frame = Frame(kind: nat, payload: seq<byte>)

  datatype Cause =
    | FrameTooLarge(size: nat)
    | ReservedBitsSet
    | BadMagic
    | VersionMismatch(version: nat)
    | UnknownMessageType(raw: nat)
    | ChecksumMismatch
    | BufferOverflow

  datatype Encoded = Bytes(bytes: seq<byte>) | Refused(cause: Cause)

  /** The sixteen header bytes that the checksum covers. */
  function HeaderPrefix(kind: nat, length: nat): (h: seq<byte>)
    ensures |h| == 16
  {
    MAGIC + U16(PROTOCOL_VERSION) + U16(kind) + U16(0) + U16(0) + U32(length)
  }

  function FrameBytes(sum: Checksum, f: Frame): (s: seq<byte>)
    ensures |s| == FRAME_HEADER_SIZE + |f.payload|
  {
    var prefix := HeaderPrefix(f.kind, |f.payload|);
    prefix + U32(sum(prefix + f.payload) % U32_LIMIT) + f.payload
  }

  function Min(a: nat, b: nat): nat { if a < b then a else b }

  method EncodeFrame(sum: Checksum, kind: nat, flags: nat, payload: seq<byte>, maxPayload: nat) returns (out: Encoded)
    ensures |payload| > Min(maxPayload, MAX_FRAME_PAYLOAD) ==> out == Refused(FrameTooLarge(|payload|))
    ensures |payload| <= Min(maxPayload, MAX_FRAME_PAYLOAD) && flags != 0 ==> out == Refused(ReservedBitsSet)
    ensures |payload| <= Min(maxPayload, MAX_FRAME_PAYLOAD) && flags == 0
            ==> out == Bytes(FrameBytes(sum, Frame(kind, payload)))
  {
    var bound := maxPayload;
    if bound > MAX_FRAME_PAYLOAD {
      bound := MAX_FRAME_PAYLOAD;
    }
    if |payload| > bound {
      return Refused(FrameTooLarge(|payload|));
    }
    if flags != 0 {
      return Refused(ReservedBitsSet);
    }
    var header := MAGIC + U16(PROTOCOL_VERSION) + U16(kind) + U16(flags) + U16(0) + U32(|payload|);
    return Bytes(header + U32(sum(header + payload) % U32_LIMIT) + payload);
  }

  // ---- one frame ----

  datatype Header = Rejected(cause: Cause) | Accepted(kind: nat, length: nat, sum: nat)

  datatype Fields = Fields(magic: seq<byte>, version: nat, kind: nat, flags: nat, reserved: nat, length: nat, sum: nat)

  function ReadFields(s: seq<byte>): Fields
    requires |s| >= FRAME_HEADER_SIZE
  {
    Fields(s[..4], FromDigits(s[4..6]), FromDigits(s[6..8]), FromDigits(s[8..10]), FromDigits(s[10..12]),
           FromDigits(s[12..16]), FromDigits(s[16..20]))
  }

  /** Everything the decoder checks before it looks at the payload, in the decoder's order. */
  function Judge(h: Fields, maxPayload: nat): Header {
    if h.magic != MAGIC then Rejected(BadMagic)
    else if h.version != PROTOCOL_VERSION then Rejected(VersionMismatch(h.version))
    else if !KnownType(h.kind) then Rejected(UnknownMessageType(h.kind))
    else if h.flags != 0 || h.reserved != 0 then Rejected(ReservedBitsSet)
    else if h.length > maxPayload then Rejected(FrameTooLarge(h.length))
    else Accepted(h.kind, h.length, h.sum)
  }

  datatype End = Waiting(rest: seq<byte>) | Failed(cause: Cause)

  datatype Parsed = Parsed(frames: seq<Frame>, end: End)

  datatype Head = NeedMore | Bad(cause: Cause) | Good(frame: Frame, total: nat)

  /** What the front of a byte stream amounts to. */
  function ReadFrame(sum: Checksum, s: seq<byte>, maxPayload: nat): (h: Head)
    ensures h.Good? ==> FRAME_HEADER_SIZE <= h.total <= |s|
    ensures h.NeedMore? ==> |s| < FRAME_HEADER_SIZE + maxPayload
  {
    if |s| < FRAME_HEADER_SIZE then NeedMore
    else
      var header := Judge(ReadFields(s), maxPayload);
      if header.Rejected? then Bad(header.cause)
      else
        var total := FRAME_HEADER_SIZE + header.length;
        if |s| < total then NeedMore
        else if header.sum != sum(s[..16] + s[20..total]) % U32_LIMIT then Bad(ChecksumMismatch)
        else Good(Frame(header.kind, s[20..total]), total)
  }

  /** How one frame is read off the front of a stream. */
  type Front = seq<byte> -> Head

  function FrontOf(sum: Checksum, maxPayload: nat): (read: Front)
    ensures forall s :: read(s) == ReadFrame(sum, s, maxPayload)
  {
    s => ReadFrame(sum, s, maxPayload)
  }

  /** Reading a frame takes a whole header, and consumes some of the bytes it was given. */
  ghost predicate Progresses(read: Front) {
    forall s :: (|s| < FRAME_HEADER_SIZE ==> read(s).NeedMore?) && (read(s).Good? ==> 0 < read(s).total <= |s|)
  }

  /** The one-shot parser: the frames of a whole stream and how it ends. */
  ghost function Parse(read: Front, s: seq<byte>): (p: Parsed)
    requires Progresses(read)
    decreases |s|
  {
    match read(s)
    case NeedMore => Parsed([], Waiting(s))
    case Bad(cause) => Parsed([], Failed(cause))
    case Good(frame, total) =>
      var rest := Parse(read, s[total..]);
      Parsed([frame] + rest.frames, rest.end)
  }

  lemma ParseGood(read: Front, s: seq<byte>, f: Frame, total: nat)
    requires Progresses(read) && read(s) == Good(f, total)
    ensures total <= |s|
    ensures Parse(read, s) == Parsed([f] + Parse(read, s[total..]).frames, Parse(read, s[total..]).end)
  {}

  lemma AppendThenRest(a: seq<Frame>, f: Frame, b: seq<Frame>)
    ensures a + ([f] + b) == (a + [f]) + b
  {}

  lemma ParseBad(read: Front, s: seq<byte>, delivered: seq<Frame>)
    requires Progresses(read) && read(s).Bad?
    ensures Parse(read, s) == Parsed([], Failed(read(s).cause))
    ensures delivered + Parse(read, s).frames == delivered
  {}

  lemma ParseNeedMore(read: Front, s: seq<byte>, delivered: seq<Frame>)
    requires Progresses(read) && read(s).NeedMore?
    ensures Parse(read, s) == Parsed([], Waiting(s))
    ensures delivered + Parse(read, s).frames == delivered
  {}

  /** The result of a parse in progress: frames already delivered, then those still to come. */
  ghost function Resume(read: Front, delivered: seq<Frame>, s: seq<byte>): Parsed
    requires Progresses(read)
  {
    Parsed(delivered + Parse(read, s).frames, Parse(read, s).end)
  }

  lemma ResumeGood(read: Front, delivered: seq<Frame>, s: seq<byte>, f: Frame, total: nat)
    requires Progresses(read) && read(s) == Good(f, total)
    ensures total <= |s|
    ensures Resume(read, delivered, s) == Resume(read, delivered + [f], s[total..])
  {
    ParseGood(read, s, f, total);
    AppendThenRest(delivered, f, Parse(read, s[total..]).frames);
  }

  lemma ResumeEnds(read: Front, delivered: seq<Frame>, s: seq<byte>)
    requires Progresses(read)
    ensures read(s).Bad? ==> Resume(read, delivered, s) == Parsed(delivered, Failed(read(s).cause))
    ensures read(s).NeedMore? ==> Resume(read, delivered, s) == Parsed(delivered, Waiting(s))
    ensures Resume(read, [], s) == Parse(read, s)
  {
    if read(s).Bad? { ParseBad(read, s, delivered); }
    if read(s).NeedMore? { ParseNeedMore(read, s, delivered); }
    assert [] + Parse(read, s).frames == Parse(read, s).frames;
  }

  // ---- the streaming decoder ----

  /** A decoder's whole state: buffered bytes until it fails, then the cause for ever. */
  datatype DecoderState = Live(buffer: seq<byte>) | Dead(cause: Cause)

  function StateOf(end: End): DecoderState {
    match end case Waiting(rest) => Live(rest) case Failed(cause) => Dead(cause)
  }

  ghost function AfterPush(read: Front, st: DecoderState, chunk: seq<byte>, limit: nat): (DecoderState, seq<Frame>)
    requires Progresses(read)
  {
    if st.Dead? then (st, [])
    else if |st.buffer| + |chunk| > limit then (Dead(BufferOverflow), [])
    else
      var p := Parse(read, st.buffer + chunk);
      (StateOf(p.end), p.frames)
  }

  class FrameDecoder {
    const read: Front
    const limit: nat
    var buffer: seq<byte>
    var failed: bool
    var failure: Option<Cause>

    ghost predicate Valid()
      reads this
    {
      Progresses(read) && (failed <==> failure.Some?)
    }

    ghost function State(): DecoderState
      reads this
      requires Valid()
    {
      if failed then Dead(failure.value) else Live(buffer)
    }

    constructor (sum: Checksum, maxPayload: nat)
      ensures Valid() && State() == Live([])
      ensures read == FrontOf(sum, maxPayload) && limit == maxPayload + FRAME_HEADER_SIZE
    {
      read, limit := FrontOf(sum, maxPayload), maxPayload + FRAME_HEADER_SIZE;
      buffer, failed, failure := [], false, None;
      new;
      FrontProgresses(sum, maxPayload);
    }

    method Reset()
      requires Progresses(read)
      modifies this
      ensures Valid() && State() == Live([])
    {
      buffer, failed, failure := [], false, None;
    }

    /** Consumes a chunk; `delivered` are the frames handed to the handler, in order. */
    method Push(chunk: seq<byte>) returns (status: Option<Cause>, delivered: seq<Frame>)
      requires Valid()
      modifies this
      ensures Valid()
      ensures (State(), delivered) == AfterPush(read, old(State()), chunk, limit)
      ensures status == if State().Dead? then Some(State().cause) else None
    {
      delivered := [];
      if failed {
        return failure, [];
      }
      if |buffer| + |chunk| > limit {
        failed, failure := true, Some(BufferOverflow);
        return failure, [];
      }
      buffer := buffer + chunk;
      var offset := 0;
      assert buffer[0..] == buffer;
      ResumeEnds(read, [], buffer);
      while |buffer| - offset >= FRAME_HEADER_SIZE
        invariant 0 <= offset <= |buffer|
        invariant !failed && failure == None && buffer == old(buffer) + chunk
        invariant Resume(read, delivered, buffer[offset..]) == Parse(read, old(buffer) + chunk)
        decreases |buffer| - offset
      {
        match read(buffer[offset..]) {
          case Bad(cause) =>
            failed, failure := true, Some(cause);
            ResumeEnds(read, delivered, buffer[offset..]);
            return failure, delivered;
          case NeedMore =>
            break;
          case Good(frame, total) =>
            assert buffer[offset..][total..] == buffer[offset + total..];
            ResumeGood(read, delivered, buffer[offset..], frame, total);
            delivered := delivered + [frame];
            offset := offset + total;
        }
      }
      ResumeEnds(read, delivered, buffer[offset..]);
      if offset > 0 {
        buffer := buffer[offset..];
      }
      return None, delivered;
    }
  }

  lemma FrontProgresses(sum: Checksum, maxPayload: nat)
    ensures Progresses(FrontOf(sum, maxPayload))
  {}

  // ---- chunking does not matter ----

  /** A front that is decided stays decided, and reads the same, when more bytes follow. */
  ghost predicate Monotone(read: Front) {
    forall a, b {:trigger read(a + b)} :: !read(a).NeedMore? ==> read(a + b) == read(a)
  }

  lemma FrontMonotone(sum: Checksum, maxPayload: nat)
    ensures Monotone(FrontOf(sum, maxPayload))
  {
    forall a, b | !ReadFrame(sum, a, maxPayload).NeedMore?
      ensures ReadFrame(sum, a + b, maxPayload) == ReadFrame(sum, a, maxPayload)
    {
      ReadFrameExtends(sum, a, b, maxPayload);
    }
  }

  lemma ReadFrameExtends(sum: Checksum, a: seq<byte>, b: seq<byte>, maxPayload: nat)
    requires !ReadFrame(sum, a, maxPayload).NeedMore?
    ensures ReadFrame(sum, a + b, maxPayload) == ReadFrame(sum, a, maxPayload)
  {
    assert (a + b)[..4] == a[..4] && (a + b)[4..6] == a[4..6] && (a + b)[6..8] == a[6..8];
    assert (a + b)[8..10] == a[8..10] && (a + b)[10..12] == a[10..12];
    assert (a + b)[12..16] == a[12..16] && (a + b)[16..20] == a[16..20] && (a + b)[..16] == a[..16];
    var header := Judge(ReadFields(a), maxPayload);
    if header.Accepted? {
      var total := FRAME_HEADER_SIZE + header.length;
      assert (a + b)[20..total] == a[20..total];
    }
  }

  /** Feeds a list of chunks to a decoder and collects everything it delivers. */
  ghost function PushAll(read: Front, st: DecoderState, chunks: seq<seq<byte>>, limit: nat): (DecoderState, seq<Frame>)
    requires Progresses(read)
    decreases |chunks|
  {
    if chunks == [] then (st, [])
    else
      var (next, frames) := AfterPush(read, st, chunks[0], limit);
      var (last, more) := PushAll(read, next, chunks[1..], limit);
      (last, frames + more)
  }

  /** No chunk arrives that would overflow the buffer of a decoder still waiting for bytes. */
  ghost predicate Fits(read: Front, st: DecoderState, chunks: seq<seq<byte>>, limit: nat)
    requires Progresses(read)
    decreases |chunks|
  {
    chunks == [] ||
    ((st.Live? ==> |st.buffer| + |chunks[0]| <= limit) &&
     Fits(read, AfterPush(read, st, chunks[0], limit).0, chunks[1..], limit))
  }

  function Flatten(chunks: seq<seq<byte>>): seq<byte>
    decreases |chunks|
  {
    if chunks == [] then [] else chunks[0] + Flatten(chunks[1..])
  }

  /** What a stream followed by more bytes parses to, from what the stream alone parses to. */
  ghost predicate Continues(read: Front, first: Parsed, whole: Parsed, b: seq<byte>)
    requires Progresses(read)
  {
    match first.end
    case Failed(_) => whole == first
    case Waiting(rest) =>
      var second := Parse(read, rest + b);
      whole == Parsed(first.frames + second.frames, second.end)
  }

  lemma ContinuesCons(read: Front, f: Frame, first: Parsed, whole: Parsed, b: seq<byte>)
    requires Progresses(read) && Continues(read, first, whole, b)
    ensures Continues(read, Parsed([f] + first.frames, first.end), Parsed([f] + whole.frames, whole.end), b)
  {
    if first.end.Waiting? {
      var second := Parse(read, first.end.rest + b);
      assert [f] + (first.frames + second.frames) == ([f] + first.frames) + second.frames;
    }
  }

  lemma {:induction false} ParseSplits(read: Front, a: seq<byte>, b: seq<byte>)
    requires Progresses(read) && Monotone(read)
    ensures Continues(read, Parse(read, a), Parse(read, a + b), b)
    decreases |a|
  {
    match read(a) {
      case Bad(_) =>
        assert read(a + b) == read(a);
        ParseBad(read, a, []);
        ParseBad(read, a + b, []);
      case NeedMore =>
        ParseNeedMore(read, a, []);
        assert [] + Parse(read, a + b).frames == Parse(read, a + b).frames;
      case Good(frame, total) =>
        assert read(a + b) == read(a);
        assert (a + b)[total..] == a[total..] + b;
        ParseSplits(read, a[total..], b);
        ParseGood(read, a, frame, total);
        ParseGood(read, a + b, frame, total);
        ContinuesCons(read, frame, Parse(read, a[total..]), Parse(read, a[total..] + b), b);
    }
  }

  lemma {:induction false} DeadStaysDead(read: Front, cause: Cause, chunks: seq<seq<byte>>, limit: nat)
    requires Progresses(read)
    ensures PushAll(read, Dead(cause), chunks, limit) == (Dead(cause), [])
    decreases |chunks|
  {
    if chunks != [] {
      DeadStaysDead(read, cause, chunks[1..], limit);
      var none: seq<Frame> := [];
      assert none + none == none;
    }
  }

  lemma {:induction false} RestIsStuck(read: Front, s: seq<byte>)
    requires Progresses(read) && Parse(read, s).end.Waiting?
    ensures read(Parse(read, s).end.rest).NeedMore?
    decreases |s|
  {
    match read(s) {
      case Bad(_) => ParseBad(read, s, []); assert false;
      case NeedMore => ParseNeedMore(read, s, []);
      case Good(f, total) => ParseGood(read, s, f, total); RestIsStuck(read, s[total..]);
    }
  }

  /** Any chunking that fits delivers the frames, and ends in the state, of the unbroken stream. */
  lemma {:induction false} ChunkingIsInvisible(read: Front, start: seq<byte>, chunks: seq<seq<byte>>, limit: nat)
    requires Progresses(read) && Monotone(read)
    requires read(start).NeedMore?
    requires Fits(read, Live(start), chunks, limit)
    ensures var p := Parse(read, start + Flatten(chunks));
            PushAll(read, Live(start), chunks, limit) == (StateOf(p.end), p.frames)
    decreases |chunks|
  {
    if chunks == [] {
      assert start + [] == start;
    } else {
      var (next, frames) := AfterPush(read, Live(start), chunks[0], limit);
      var tail := Flatten(chunks[1..]);
      ParseSplits(read, start + chunks[0], tail);
      assert start + Flatten(chunks) == (start + chunks[0]) + tail;
      if next.Dead? {
        DeadStaysDead(read, next.cause, chunks[1..], limit);
        assert frames + [] == frames;
      } else {
        RestIsStuck(read, start + chunks[0]);
        ChunkingIsInvisible(read, next.buffer, chunks[1..], limit);
      }
    }
  }

  /** One byte at a time always fits, so such a feed is refused only for what the stream says. */
  lemma {:induction false} BytewiseFits(sum: Checksum, st: DecoderState, chunks: seq<seq<byte>>, maxPayload: nat)
    requires st.Live? ==> ReadFrame(sum, st.buffer, maxPayload).NeedMore?
    requires forall c :: c in chunks ==> |c| <= 1
    ensures Progresses(FrontOf(sum, maxPayload))
    ensures Fits(FrontOf(sum, maxPayload), st, chunks, maxPayload + FRAME_HEADER_SIZE)
    decreases |chunks|
  {
    var read := FrontOf(sum, maxPayload);
    FrontProgresses(sum, maxPayload);
    if chunks != [] {
      var next := AfterPush(read, st, chunks[0], maxPayload + FRAME_HEADER_SIZE).0;
      if st.Live? && next.Live? { RestIsStuck(read, st.buffer + chunks[0]); }
      BytewiseFits(sum, next, chunks[1..], maxPayload);
    }
  }

  /** The bound is about chunks, not streams: two good frames in one chunk are refused. */
  lemma OversizedChunkIsRefused(sum: Checksum, f: Frame, maxPayload: nat)
    requires |f.payload| == maxPayload
    ensures Progresses(FrontOf(sum, maxPayload))
    ensures AfterPush(FrontOf(sum, maxPayload), Live([]), FrameBytes(sum, f) + FrameBytes(sum, f),
                      maxPayload + FRAME_HEADER_SIZE) == (Dead(BufferOverflow), [])
  {}

  // ---- frames come back ----

  predicate Sendable(f: Frame, maxPayload: nat) {
    KnownType(f.kind) && |f.payload| <= maxPayload && |f.payload| <= MAX_FRAME_PAYLOAD
  }

  lemma PrefixFields(kind: nat, length: nat)
    ensures var h := HeaderPrefix(kind, length);
            && h[..4] == MAGIC && h[4..6] == U16(PROTOCOL_VERSION) && h[6..8] == U16(kind)
            && h[8..10] == U16(0) && h[10..12] == U16(0) && h[12..16] == U32(length)
  {
    SixFields(MAGIC, U16(PROTOCOL_VERSION), U16(kind), U16(0), U16(0), U32(length));
  }

  lemma SixFields(a: seq<byte>, b: seq<byte>, c: seq<byte>, d: seq<byte>, e: seq<byte>, f: seq<byte>)
    requires |a| == 4 && |b| == 2 && |c| == 2 && |d| == 2 && |e| == 2 && |f| == 4
    ensures var h := a + b + c + d + e + f;
            && h[..4] == a && h[4..6] == b && h[6..8] == c && h[8..10] == d && h[10..12] == e && h[12..16] == f
  {}

  /** The header of an encoded frame, read field by field. */
  lemma ReadsHeader(s: seq<byte>, kind: nat, length: nat, stored: nat)
    requires kind < 0x1_0000 && length < U32_LIMIT && stored < U32_LIMIT && |s| >= FRAME_HEADER_SIZE
    requires s[..16] == HeaderPrefix(kind, length) && s[16..20] == U32(stored)
    ensures ReadFields(s) == Fields(MAGIC, PROTOCOL_VERSION, kind, 0, 0, length, stored)
  {
    PrefixFields(kind, length);
    SubSlices(s);
    FieldRoundTrip(PROTOCOL_VERSION);
    FieldRoundTrip(kind);
    FieldRoundTrip(0);
    FieldRoundTrip(length);
    FieldRoundTrip(stored);
  }

  lemma SubSlices(s: seq<byte>)
    requires |s| >= 16
    ensures s[..4] == s[..16][..4] && s[4..6] == s[..16][4..6] && s[6..8] == s[..16][6..8]
    ensures s[8..10] == s[..16][8..10] && s[10..12] == s[..16][10..12] && s[12..16] == s[..16][12..16]
  {}

  lemma FrameParts(prefix: seq<byte>, stored: seq<byte>, payload: seq<byte>, rest: seq<byte>)
    requires |prefix| == 16 && |stored| == 4
    ensures var s := prefix + stored + payload + rest;
            s[..16] == prefix && s[16..20] == stored && s[20..20 + |payload|] == payload && s[20 + |payload|..] == rest
  {}

  lemma ReadsBack(sum: Checksum, f: Frame, rest: seq<byte>, maxPayload: nat)
    requires Sendable(f, maxPayload)
    ensures ReadFrame(sum, FrameBytes(sum, f) + rest, maxPayload) == Good(f, FRAME_HEADER_SIZE + |f.payload|)
  {
    var prefix := HeaderPrefix(f.kind, |f.payload|);
    var stored := sum(prefix + f.payload) % U32_LIMIT;
    var s := FrameBytes(sum, f) + rest;
    FrameParts(prefix, U32(stored), f.payload, rest);
    ReadsHeader(s, f.kind, |f.payload|, stored);
  }

  function Stream(sum: Checksum, frames: seq<Frame>): seq<byte>
    decreases |frames|
  {
    if frames == [] then [] else FrameBytes(sum, frames[0]) + Stream(sum, frames[1..])
  }

  /** A stream of encoded frames parses back to exactly those frames, with nothing left over. */
  lemma {:induction false} StreamRoundTrip(sum: Checksum, frames: seq<Frame>, maxPayload: nat)
    requires forall f :: f in frames ==> Sendable(f, maxPayload)
    ensures Progresses(FrontOf(sum, maxPayload))
    ensures Parse(FrontOf(sum, maxPayload), Stream(sum, frames)) == Parsed(frames, Waiting([]))
    decreases |frames|
  {
    FrontProgresses(sum, maxPayload);
    if frames != [] {
      var tail := Stream(sum, frames[1..]);
      ReadsBack(sum, frames[0], tail, maxPayload);
      var total := FRAME_HEADER_SIZE + |frames[0].payload|;
      assert Stream(sum, frames)[total..] == tail;
      ParseGood(FrontOf(sum, maxPayload), Stream(sum, frames), frames[0], total);
      StreamRoundTrip(sum, frames[1..], maxPayload);
      assert [frames[0]] + frames[1..] == frames;
    }
  }

  /** Sender to receiver: whatever the chunking that fits, the receiver sees what was sent. */
  lemma Delivery(sum: Checksum, frames: seq<Frame>, chunks: seq<seq<byte>>, maxPayload: nat, read: Front)
    requires forall f :: f in frames ==> Sendable(f, maxPayload)
    requires Flatten(chunks) == Stream(sum, frames)
    requires read == FrontOf(sum, maxPayload) && Progresses(read)
    requires Fits(read, Live([]), chunks, maxPayload + FRAME_HEADER_SIZE)
    ensures PushAll(read, Live([]), chunks, maxPayload + FRAME_HEADER_SIZE) == (Live([]), frames)
  {
    FrontMonotone(sum, maxPayload);
    StreamRoundTrip(sum, frames, maxPayload);
    WholeStream(read, Stream(sum, frames), frames, chunks, maxPayload + FRAME_HEADER_SIZE);
  }

  lemma WholeStream(read: Front, stream: seq<byte>, frames: seq<Frame>, chunks: seq<seq<byte>>, limit: nat)
    requires Progresses(read) && Monotone(read) && Parse(read, stream) == Parsed(frames, Waiting([]))
    requires Flatten(chunks) == stream && Fits(read, Live([]), chunks, limit)
    ensures PushAll(read, Live([]), chunks, limit) == (Live([]), frames)
  {
    RestIsStuck(read, stream);
    assert [] + Flatten(chunks) == Flatten(chunks);
    ChunkingIsInvisible(read, [], chunks, limit);
  }
}
