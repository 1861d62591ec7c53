/**
 The incremental frame decoder of packages/protocol/src/framing.ts.

 `Parse` is the reference: it reads a whole byte stream at once. `FrameDecoder.Push` reads the same
 stream in arbitrary chunks, through a four-byte header buffer and payload blocks of at most 64 KiB,
 and is proved to agree with it.
 */
module Framing {
  import opened Wrappers

  const FRAME_HEADER_LENGTH: nat := 4
  const MAX_UINT32: nat := 0xffff_ffff
  const PAYLOAD_BLOCK_SIZE: nat := 64 * 1024
  const DEFAULT_MAX_FRAME_LENGTH: nat := 16 * 1024 * 1024

  type byte = b: int | 0 <= b < 256
  type bytes = seq<byte>

  datatype FrameError =
    | InvalidLimit
    | PayloadTooLong
    | DecoderEnded
    | DecoderFailed
    | FrameTooLong(length: nat, limit: nat)
    | TruncatedFrame

  // ----- The wire format ------------------------------------------------------------------------

  /** The payload length a header announces: an unsigned 32-bit big-endian number. */
  function DeclaredLength(header: bytes): (n: nat)
    requires |header| >= FRAME_HEADER_LENGTH
    ensures n <= MAX_UINT32
  {
    header[0] as int * 0x100_0000 + header[1] as int * 0x1_0000 + header[2] as int * 0x100 + header[3]
  }

  /** The header of a payload of `n` bytes. */
  function Header(n: nat): (header: bytes)
    requires n <= MAX_UINT32
    ensures |header| == FRAME_HEADER_LENGTH && DeclaredLength(header) == n
  {
    var high, low := n / 0x1_0000, n % 0x1_0000;
    [high / 0x100, high % 0x100, low / 0x100, low % 0x100]
  }

  /** A header is determined by the length it announces, so `Header` and `DeclaredLength` are inverse. */
  lemma HeaderOfDeclaredLength(header: bytes)
    requires |header| == FRAME_HEADER_LENGTH
    ensures Header(DeclaredLength(header)) == header
  {
    var h := Header(DeclaredLength(header));
    assert h[0] == header[0] && h[1] == header[1] && h[2] == header[2] && h[3] == header[3];
  }

  /** Big-endian: of two lengths the smaller one has the header that comes first in the order of its bytes. */
  lemma HeadersInOrder(m: nat, n: nat)
    requires m < n <= MAX_UINT32
    ensures exists k :: 0 <= k < FRAME_HEADER_LENGTH && Header(m)[..k] == Header(n)[..k] && Header(m)[k] < Header(n)[k]
  {
    var a, b := Header(m), Header(n);
    if a[0] != b[0] {
      assert a[..0] == b[..0] && a[0] < b[0];
    } else if a[1] != b[1] {
      assert a[..1] == b[..1] && a[1] < b[1];
    } else if a[2] != b[2] {
      assert a[..2] == b[..2] && a[2] < b[2];
    } else {
      assert a[..3] == b[..3] && a[3] < b[3];
    }
  }

  function Encoded(payload: bytes): bytes
    requires |payload| <= MAX_UINT32
  {
    Header(|payload|) + payload
  }

  // ----- The reference decoder ------------------------------------------------------------------

  /** What a whole stream contains: its frames, the unfinished tail, and the first announced length over the limit. */
  datatype Parsed = Parsed(frames: seq<bytes>, rest: bytes, overlong: Option<nat>) {
    predicate Failed() { overlong.Some? }
  }

  function Parse(stream: bytes, limit: nat): Parsed
    decreases |stream|
  {
    if |stream| < FRAME_HEADER_LENGTH then Parsed([], stream, None)
    else
      var length := DeclaredLength(stream);
      var end := FRAME_HEADER_LENGTH + length;
      if length > limit then Parsed([], [], Some(length))
      else if |stream| < end then Parsed([], stream, None)
      else
        var later := Parse(stream[end..], limit);
        Preceded([stream[FRAME_HEADER_LENGTH..end]], later)
  }

  function Preceded(frames: seq<bytes>, later: Parsed): Parsed {
    Parsed(frames + later.frames, later.rest, later.overlong)
  }

  lemma ParseFrame(payload: bytes, later: bytes, limit: nat)
    requires |payload| <= limit <= MAX_UINT32
    ensures Parse(Encoded(payload) + later, limit) == Preceded([payload], Parse(later, limit))
  {
    var stream, end := Encoded(payload) + later, FRAME_HEADER_LENGTH + |payload|;
    assert DeclaredLength(stream) == DeclaredLength(Header(|payload|));
    assert stream[FRAME_HEADER_LENGTH..end] == payload && stream[end..] == later;
  }

  /** The length that four header bytes announce, the most significant one first. */
  function Announced(b0: byte, b1: byte, b2: byte, b3: byte): nat {
    b0 as int * 0x100_0000 + b1 as int * 0x1_0000 + b2 as int * 0x100 + b3
  }

  /**
   The format on the wire: four bytes announce a length. Over the limit it fails the stream; otherwise that many bytes
   are a frame, and the rest is read in the same way once they are all there.
   */
  lemma WireFormat(b0: byte, b1: byte, b2: byte, b3: byte, more: bytes, limit: nat)
    ensures var n, p := Announced(b0, b1, b2, b3), Parse([b0, b1, b2, b3] + more, limit);
      if n > limit then p == Parsed([], [], Some(n))
      else if |more| < n then p == Parsed([], [b0, b1, b2, b3] + more, None)
      else
        var later := Parse(more[n..], limit);
        p == Parsed([more[..n]] + later.frames, later.rest, later.overlong)
  {
    var n, stream := Announced(b0, b1, b2, b3), [b0, b1, b2, b3] + more;
    assert DeclaredLength(stream) == n;
    if n <= |more| {
      assert stream[4..4 + n] == more[..n] && stream[4 + n..] == more[n..];
    }
  }

  lemma TooShortForHeader(stream: bytes, limit: nat)
    requires |stream| < 4
    ensures Parse(stream, limit) == Parsed([], stream, None)
  {
  }

  /** The part of a stream that a decoder may hold between two pushes. */
  predicate Unfinished(pending: bytes, limit: nat) {
    Parse(pending, limit) == Parsed([], pending, None)
  }

  lemma {:induction false} ParseRestIsUnfinished(stream: bytes, limit: nat)
    ensures !Parse(stream, limit).Failed() ==> Unfinished(Parse(stream, limit).rest, limit)
    decreases |stream|
  {
    if |stream| >= FRAME_HEADER_LENGTH {
      var end := FRAME_HEADER_LENGTH + DeclaredLength(stream);
      if DeclaredLength(stream) <= limit && end <= |stream| {
        ParseRestIsUnfinished(stream[end..], limit);
      }
    }
  }

  /** Reading `a` and then `b` is reading `a + b`. */
  lemma {:induction false} ParseSplits(a: bytes, b: bytes, limit: nat)
    ensures var pa, pab := Parse(a, limit), Parse(a + b, limit);
            if pa.Failed() then pab == pa
            else var later := Parse(pa.rest + b, limit);
                 pab == Preceded(pa.frames, later)
    decreases |a|
  {
    if |a| >= FRAME_HEADER_LENGTH {
      var length := DeclaredLength(a);
      var end := FRAME_HEADER_LENGTH + length;
      assert DeclaredLength(a + b) == length;
      if length <= limit && end <= |a| {
        var frame := a[FRAME_HEADER_LENGTH..end];
        assert (a + b)[FRAME_HEADER_LENGTH..end] == frame;
        assert (a + b)[end..] == a[end..] + b;
        ParseSplits(a[end..], b, limit);
        PrependFrame(frame, Parse(a[end..], limit), Parse(Parse(a[end..], limit).rest + b, limit));
      }
    }
  }

  lemma PrependFrame(frame: bytes, early: Parsed, later: Parsed)
    ensures [frame] + (early.frames + later.frames) == ([frame] + early.frames) + later.frames
  {
  }

  // ----- Feeding a decoder chunk by chunk -------------------------------------------------------

  /** A decoder seen from outside: the frames returned so far, the bytes it still holds, and whether it failed. */
  datatype Decoding = Decoding(frames: seq<bytes>, pending: bytes, failed: bool)

  const FRESH := Decoding([], [], false)

  /** One push. A failing push returns no frame, and a failed decoder stays failed. */
  function Absorb(d: Decoding, chunk: bytes, limit: nat): Decoding {
    if d.failed then d
    else
      var p := Parse(d.pending + chunk, limit);
      if p.Failed() then Decoding(d.frames, [], true)
      else Decoding(d.frames + p.frames, p.rest, false)
  }

  function Feed(chunks: seq<bytes>, limit: nat): Decoding {
    if chunks == [] then FRESH
    else Absorb(Feed(chunks[..|chunks| - 1], limit), chunks[|chunks| - 1], limit)
  }

  lemma FeedMore(chunks: seq<bytes>, i: nat, limit: nat)
    requires i < |chunks|
    ensures Feed(chunks[..i + 1], limit) == Absorb(Feed(chunks[..i], limit), chunks[i], limit)
  {
    assert chunks[..i + 1][..i] == chunks[..i];
  }

  function Joined(parts: seq<bytes>): bytes {
    if parts == [] then [] else Joined(parts[..|parts| - 1]) + parts[|parts| - 1]
  }

  /**
   However a stream is cut into chunks, the decoder fails exactly when the whole stream holds an
   over-long header; without a failure it has returned exactly the stream's frames and holds exactly
   the stream's tail; with one it has returned some of the frames that precede the bad header.
   */
  lemma {:induction false} ChunkingIndependent(chunks: seq<bytes>, limit: nat)
    ensures var d, p := Feed(chunks, limit), Parse(Joined(chunks), limit);
            && d.failed == p.Failed()
            && d.frames <= p.frames
            && (!d.failed ==> d.frames == p.frames && d.pending == p.rest)
  {
    if chunks != [] {
      var before, last := chunks[..|chunks| - 1], chunks[|chunks| - 1];
      ChunkingIndependent(before, limit);
      ParseSplits(Joined(before), last, limit);
    }
  }

  /** In particular two ways to cut the same bytes cannot be told apart. */
  lemma SameBytesSameFrames(one: seq<bytes>, other: seq<bytes>, limit: nat)
    requires Joined(one) == Joined(other)
    ensures Feed(one, limit).failed == Feed(other, limit).failed
    ensures !Feed(one, limit).failed ==> Feed(one, limit) == Feed(other, limit)
  {
    ChunkingIndependent(one, limit);
    ChunkingIndependent(other, limit);
  }

  function EncodedAll(payloads: seq<bytes>): bytes
    requires forall p <- payloads :: |p| <= MAX_UINT32
  {
    if payloads == [] then [] else Encoded(payloads[0]) + EncodedAll(payloads[1..])
  }

  lemma ParseOneMore(payload: bytes, payloads: seq<bytes>, encoded: bytes, limit: nat)
    requires |payload| <= limit <= MAX_UINT32 && Parse(encoded, limit) == Parsed(payloads, [], None)
    ensures Parse(Encoded(payload) + encoded, limit) == Parsed([payload] + payloads, [], None)
  {
    ParseFrame(payload, encoded, limit);
  }

  lemma {:induction false} ParseEncodedAll(payloads: seq<bytes>, limit: nat)
    requires forall p <- payloads :: |p| <= limit <= MAX_UINT32
    ensures Parse(EncodedAll(payloads), limit) == Parsed(payloads, [], None)
  {
    if payloads != [] {
      RestWithin(payloads, limit);
      ParseEncodedAll(payloads[1..], limit);
      ParseOneMore(payloads[0], payloads[1..], EncodedAll(payloads[1..]), limit);
      assert [payloads[0]] + payloads[1..] == payloads;
    }
  }

  lemma RestWithin(payloads: seq<bytes>, limit: nat)
    requires payloads != [] && forall p <- payloads :: |p| <= limit <= MAX_UINT32
    ensures |payloads[0]| <= limit && forall p <- payloads[1..] :: |p| <= limit
  {
    assert forall p <- payloads[1..] :: p in payloads;
  }

  /** The round trip: any cut of the encoded payloads decodes to exactly those payloads, with nothing left over. */
  lemma DecodeEncoded(payloads: seq<bytes>, chunks: seq<bytes>, limit: nat)
    requires forall p <- payloads :: |p| <= limit <= MAX_UINT32
    requires Joined(chunks) == EncodedAll(payloads)
    ensures Feed(chunks, limit) == Decoding(payloads, [], false)
  {
    ParseEncodedAll(payloads, limit);
    ChunkingIndependent(chunks, limit);
  }

  // ----- Encoding -------------------------------------------------------------------------------

  /** `Uint8Array.prototype.set`. */
  method SetBytes(target: array<byte>, source: bytes, offset: nat)
    requires offset + |source| <= target.Length
    modifies target
    ensures target[..] == old(target[..offset]) + source + old(target[offset + |source|..])
  {
    forall i | 0 <= i < |source| {
      target[offset + i] := source[i];
    }
  }

  /** Writes the four header bytes. */
  method WriteHeader(target: array<byte>, n: nat)
    requires n <= MAX_UINT32 && FRAME_HEADER_LENGTH <= target.Length
    modifies target
    ensures target[..FRAME_HEADER_LENGTH] == Header(n)
  {
    var high, low := n / 0x1_0000, n % 0x1_0000;
    target[0] := high / 0x100;
    target[1] := high % 0x100;
    target[2] := low / 0x100;
    target[3] := low % 0x100;
  }

  lemma HeaderAnnounces(n: nat)
    requires n <= MAX_UINT32
    ensures var h := Header(n); Announced(h[0], h[1], h[2], h[3]) == n
  {
  }

  method EncodeFrame(payload: bytes) returns (r: Result<array<byte>, FrameError>)
    ensures r.Err? <==> |payload| > MAX_UINT32
    ensures r.Err? ==> r.error == PayloadTooLong
    ensures r.Ok? ==> fresh(r.value) && r.value[..] == Encoded(payload)
    ensures r.Ok? ==> r.value.Length == 4 + |payload| && r.value[4..] == payload
                      && Announced(r.value[0], r.value[1], r.value[2], r.value[3]) == |payload|
  {
    if |payload| > MAX_UINT32 {
      return Err(PayloadTooLong);
    }
    var frame := new byte[FRAME_HEADER_LENGTH + |payload|](_ => 0);
    WriteHeader(frame, |payload|);
    SetBytes(frame, payload, FRAME_HEADER_LENGTH);
    HeaderAnnounces(|payload|);
    return Ok(frame);
  }

  // ----- The decoder ----------------------------------------------------------------------------

  datatype DecoderState = Open | Ended | Failed

  /** What one round of the main loop produced. */
  datatype Step = Nothing | Frame(payload: bytes) | Overlong(length: nat)

  function Flatten(blocks: seq<array<byte>>): bytes
    reads blocks
  {
    if blocks == [] then [] else Flatten(blocks[..|blocks| - 1]) + blocks[|blocks| - 1][..]
  }

  /** Bytes allocated for the blocks of an unfinished payload. */
  function Capacity(blocks: seq<array<byte>>): nat {
    if blocks == [] then 0 else Capacity(blocks[..|blocks| - 1]) + blocks[|blocks| - 1].Length
  }

  /** What one round that read up to `step` says of the stream before it and the stream still to come. */
  ghost predicate Advanced(before: bytes, after: bytes, step: Step, limit: nat) {
    match step
    case Nothing => before == after
    case Frame(payload) => |payload| <= limit <= MAX_UINT32 && before == Encoded(payload) + after
    case Overlong(length) => limit < length && |before| >= FRAME_HEADER_LENGTH && DeclaredLength(before) == length
  }

  /** A round takes one step of the reference decoder, or none. */
  lemma AdvancedParse(frames: seq<bytes>, before: bytes, after: bytes, step: Step, limit: nat)
    requires Advanced(before, after, step, limit)
    ensures Preceded(frames, Parse(before, limit)) ==
      match step
      case Nothing => Preceded(frames, Parse(after, limit))
      case Frame(payload) => Preceded(frames + [payload], Parse(after, limit))
      case Overlong(length) => Parsed(frames, [], Some(length))
  {
    match step {
      case Nothing =>
      case Frame(payload) =>
        var later := Parse(after, limit);
        ParseFrame(payload, after, limit);
        assert frames + ([payload] + later.frames) == frames + [payload] + later.frames;
      case Overlong(length) =>
        assert frames + [] == frames;
    }
  }

  lemma SliceFurther(head: bytes, chunk: bytes, offset: nat, next: nat, further: nat)
    requires offset <= next <= further <= |chunk|
    ensures head + chunk[offset..next] + chunk[next..further] == head + chunk[offset..further]
  {
    assert chunk[offset..further] == chunk[offset..next] + chunk[next..further];
  }

  lemma Regroup(head: bytes, collected: bytes, chunk: bytes, offset: nat, next: nat)
    requires offset <= next <= |chunk|
    ensures head + collected + chunk[offset..] == head + (collected + chunk[offset..next]) + chunk[next..]
  {
    assert chunk[offset..] == chunk[offset..next] + chunk[next..];
  }

  function Min(a: nat, b: nat): nat { if a < b then a else b }

  /** The limit of a new decoder: absent means the default. */
  method ResolveMaxFrameLength(option: Option<int>) returns (r: Result<nat, FrameError>)
    ensures r == match option
                 case None => Ok(DEFAULT_MAX_FRAME_LENGTH)
                 case Some(n) => if 0 <= n <= MAX_UINT32 then Ok(n) else Err(InvalidLimit)
  {
    var value := if option.Some? then option.value else DEFAULT_MAX_FRAME_LENGTH;
    if value < 0 || value > MAX_UINT32 {
      return Err(InvalidLimit);
    }
    return Ok(value);
  }

  class FrameDecoder {
    const header: array<byte>
    var headerLength: nat
    const maxFrameLength: nat
    var payloadBlocks: seq<array<byte>>
    var currentPayloadBlock: array?<byte>
    var currentPayloadBlockLength: nat
    var expectedPayloadLength: Option<nat>
    var payloadLength: nat
    var state: DecoderState

    /** No payload is being collected. */
    ghost predicate Idle()
      reads this
    {
      && expectedPayloadLength == None
      && payloadBlocks == [] && currentPayloadBlock == null
      && currentPayloadBlockLength == 0 && payloadLength == 0
    }

    /** The payload blocks that are already full. */
    ghost function FullBlocks(): seq<array<byte>>
      requires payloadBlocks != []
      reads `payloadBlocks
    {
      payloadBlocks[..|payloadBlocks| - 1]
    }

    /**
     The blocks of a payload of `expected` bytes: all are full but the last, which is filled up to
     `currentPayloadBlockLength`.
     */
    ghost predicate Collecting(expected: nat)
      reads `headerLength, `payloadBlocks, `currentPayloadBlock, `currentPayloadBlockLength
      reads `expectedPayloadLength, `payloadLength, header
    {
      && headerLength == 0 && header.Length == FRAME_HEADER_LENGTH
      && expectedPayloadLength == Some(expected)
      && 0 < expected <= maxFrameLength
      && DeclaredLength(header[..]) == expected
      && payloadLength <= expected
      && header !in payloadBlocks
      && (if payloadBlocks == [] then
            currentPayloadBlock == null && currentPayloadBlockLength == 0 && payloadLength == 0
          else
            var full := Capacity(FullBlocks());
            && currentPayloadBlock == payloadBlocks[|payloadBlocks| - 1]
            && currentPayloadBlock !in FullBlocks()
            && full < expected
            && currentPayloadBlock.Length == Min(PAYLOAD_BLOCK_SIZE, expected - full)
            && currentPayloadBlockLength <= currentPayloadBlock.Length
            && payloadLength == full + currentPayloadBlockLength)
    }

    ghost predicate Valid()
      reads this, header
    {
      && header.Length == FRAME_HEADER_LENGTH
      && headerLength < FRAME_HEADER_LENGTH
      && maxFrameLength <= MAX_UINT32
      && (expectedPayloadLength == None ==> Idle())
      && (expectedPayloadLength.Some? ==>
            Collecting(expectedPayloadLength.value) && payloadLength < expectedPayloadLength.value)
      && (state != Open ==> headerLength == 0 && expectedPayloadLength == None)
    }

    ghost function Blocks(): set<object>
      reads `payloadBlocks
    {
      set b | b in payloadBlocks
    }

    /** The payload bytes collected so far. */
    ghost function Collected(): bytes
      requires payloadBlocks != [] ==> currentPayloadBlock == payloadBlocks[|payloadBlocks| - 1]
      requires payloadBlocks != [] ==> currentPayloadBlockLength <= currentPayloadBlock.Length
      reads `payloadBlocks, `currentPayloadBlock, `currentPayloadBlockLength, payloadBlocks
    {
      if payloadBlocks == [] then []
      else Flatten(FullBlocks()) + payloadBlocks[|payloadBlocks| - 1][..currentPayloadBlockLength]
    }

    /** Every byte received and not yet returned in a frame. */
    ghost function Pending(): bytes
      requires Valid()
      reads this, header, payloadBlocks
    {
      if expectedPayloadLength == None then header[..headerLength]
      else header[..] + Collected()
    }

    constructor (limit: nat)
      requires limit <= MAX_UINT32
      ensures Valid() && state == Open && maxFrameLength == limit && fresh(header)
      ensures Pending() == []
    {
      header := new byte[FRAME_HEADER_LENGTH](_ => 0);
      headerLength := 0;
      maxFrameLength := limit;
      payloadBlocks := [];
      currentPayloadBlock := null;
      currentPayloadBlockLength := 0;
      expectedPayloadLength := None;
      payloadLength := 0;
      state := Open;
    }

    /** The blocks hold at most 65536 bytes more than were received, and never more than the header announced. */
    lemma CapacityBound()
      requires Valid()
      ensures Capacity(payloadBlocks) <= |Pending()| + PAYLOAD_BLOCK_SIZE
      ensures expectedPayloadLength.Some? ==> Capacity(payloadBlocks) <= expectedPayloadLength.value
    {
      if payloadBlocks != [] {
        FlattenLength(FullBlocks());
      }
    }

    static lemma {:induction false} FlattenLength(blocks: seq<array<byte>>)
      ensures |Flatten(blocks)| == Capacity(blocks)
    {
      if blocks != [] {
        FlattenLength(blocks[..|blocks| - 1]);
      }
    }

    /** Drops every unfinished byte and refuses all further input. */
    method Fail()
      requires header.Length == FRAME_HEADER_LENGTH && maxFrameLength <= MAX_UINT32
      modifies this
      ensures Valid() && state == Failed && Pending() == []
    {
      state := Failed;
      headerLength := 0;
      payloadBlocks := [];
      currentPayloadBlock := null;
      currentPayloadBlockLength := 0;
      expectedPayloadLength := None;
      payloadLength := 0;
    }

    /** Makes sure the current block has room for at least one more byte. */
    method ProvideBlock(expected: nat)
      requires Collecting(expected) && payloadLength < expected
      modifies this
      ensures Collecting(expected) && payloadLength == old(payloadLength) && state == old(state)
      ensures payloadBlocks != [] && currentPayloadBlockLength < currentPayloadBlock.Length
      ensures Collected() == old(Collected())
      ensures fresh(Blocks() - old(Blocks()))
      ensures currentPayloadBlock in old(Blocks()) || fresh(currentPayloadBlock)
    {
      if currentPayloadBlock == null || currentPayloadBlockLength == currentPayloadBlock.Length {
        ghost var earlier := payloadBlocks;
        CollectedWhenFull();
        var block := new byte[Min(PAYLOAD_BLOCK_SIZE, expected - payloadLength)](_ => 0);
        payloadBlocks := payloadBlocks + [block];
        currentPayloadBlock := block;
        currentPayloadBlockLength := 0;
        assert FullBlocks() == earlier;
      }
    }

    lemma CollectedWhenFull()
      requires payloadBlocks != [] ==> currentPayloadBlock == payloadBlocks[|payloadBlocks| - 1]
      requires payloadBlocks != [] ==> currentPayloadBlockLength == currentPayloadBlock.Length
      ensures Collected() == Flatten(payloadBlocks)
    {
      if payloadBlocks != [] {
        var last := payloadBlocks[|payloadBlocks| - 1];
        assert last[..last.Length] == last[..];
      }
    }

    /** Appends bytes to what a block already holds. */
    static method AppendTo(block: array<byte>, filled: nat, part: bytes)
      requires filled + |part| <= block.Length
      modifies block
      ensures block[..filled + |part|] == old(block[..filled]) + part
    {
      SetBytes(block, part, filled);
    }

    /** Appends bytes to the current block, in place. */
    method AppendToBlock(part: bytes, expected: nat)
      requires Collecting(expected) && payloadBlocks != []
      requires currentPayloadBlockLength + |part| <= currentPayloadBlock.Length
      modifies this`currentPayloadBlockLength, this`payloadLength, currentPayloadBlock
      ensures Collecting(expected)
      ensures Collected() == old(Collected()) + part
      ensures payloadLength == old(payloadLength) + |part|
    {
      CopyToBlock(part, expected);
      CountBytes(|part|, expected);
    }

    /** Puts bytes behind those of the current block, not counting them yet. */
    method CopyToBlock(part: bytes, expected: nat)
      requires Collecting(expected) && payloadBlocks != []
      requires currentPayloadBlockLength + |part| <= currentPayloadBlock.Length
      modifies currentPayloadBlock
      ensures Collecting(expected)
      ensures Flatten(FullBlocks()) + currentPayloadBlock[..currentPayloadBlockLength + |part|]
           == old(Collected()) + part
    {
      ghost var full, head := Flatten(FullBlocks()), currentPayloadBlock[..currentPayloadBlockLength];
      AppendTo(currentPayloadBlock, currentPayloadBlockLength, part);
      assert Flatten(FullBlocks()) == full;
      assert full + (head + part) == full + head + part;
    }

    method CountBytes(n: nat, expected: nat)
      requires Collecting(expected) && payloadBlocks != []
      requires currentPayloadBlockLength + n <= currentPayloadBlock.Length
      modifies `currentPayloadBlockLength, `payloadLength
      ensures Collecting(expected) && payloadLength == old(payloadLength) + n
      ensures Collected() == Flatten(FullBlocks()) + currentPayloadBlock[..old(currentPayloadBlockLength) + n]
    {
      currentPayloadBlockLength := currentPayloadBlockLength + n;
      payloadLength := payloadLength + n;
    }

    /** Copies up to one block's worth of `chunk`, from `offset`, into the current block or a new one. */
    method FillBlock(chunk: bytes, offset: nat, expected: nat) returns (next: nat)
      requires Collecting(expected) && payloadLength < expected
      requires offset < |chunk|
      modifies this, Blocks()
      ensures Collecting(expected) && state == old(state)
      ensures offset < next <= |chunk|
      ensures Collected() == old(Collected()) + chunk[offset..next]
      ensures fresh(Blocks() - old(Blocks()))
    {
      ProvideBlock(expected);
      var payloadBytes := Min(currentPayloadBlock.Length - currentPayloadBlockLength, |chunk| - offset);
      next := offset + payloadBytes;
      AppendToBlock(chunk[offset..next], expected);
    }

    /** The finished payload: the only block, or the blocks copied one after the other. */
    method AssemblePayload(expected: nat) returns (payload: array<byte>)
      requires Collecting(expected) && payloadLength == expected
      ensures payload[..] == Collected()
    {
      CollectedWhenFull();
      if |payloadBlocks| == 1 {
        payload := payloadBlocks[0];
        assert Flatten(FullBlocks()) == [];
      } else {
        payload := JoinBlocks(payloadBlocks, expected);
      }
    }

    static method JoinBlocks(blocks: seq<array<byte>>, total: nat) returns (payload: array<byte>)
      requires Capacity(blocks) == total
      ensures payload[..] == Flatten(blocks)
    {
      payload := new byte[total](_ => 0);
      var offset := 0;
      for i := 0 to |blocks|
        invariant offset == Capacity(blocks[..i]) <= total
        invariant payload[..offset] == Flatten(blocks[..i])
      {
        assert blocks[..i + 1][..i] == blocks[..i];
        CapacityPrefix(blocks, i + 1);
        SetBytes(payload, blocks[i][..], offset);
        offset := offset + blocks[i].Length;
      }
      assert blocks[..|blocks|] == blocks;
    }

    static lemma {:induction false} CapacityPrefix(blocks: seq<array<byte>>, k: nat)
      requires k <= |blocks|
      ensures Capacity(blocks[..k]) <= Capacity(blocks)
    {
      if k == |blocks| {
        assert blocks[..k] == blocks;
      } else {
        CapacityPrefix(blocks[..|blocks| - 1], k);
        assert blocks[..|blocks| - 1][..k] == blocks[..k];
      }
    }

    /** Takes header bytes from `chunk`; completes the header or uses up the chunk. */
    method FillHeader(chunk: bytes, offset: nat) returns (next: nat)
      requires Valid() && state == Open && expectedPayloadLength == None
      requires offset < |chunk|
      modifies this`headerLength, header
      ensures offset < next <= |chunk| && headerLength <= FRAME_HEADER_LENGTH
      ensures header[..headerLength] == old(header[..headerLength]) + chunk[offset..next]
      ensures headerLength < FRAME_HEADER_LENGTH ==> next == |chunk|
    {
      var headerBytes := Min(FRAME_HEADER_LENGTH - headerLength, |chunk| - offset);
      next := offset + headerBytes;
      SetBytes(header, chunk[offset..next], headerLength);
      headerLength := headerLength + headerBytes;
    }

    /** Fills blocks until the payload is complete or the chunk is used up. */
    method FillPayload(chunk: bytes, offset: nat, expected: nat) returns (next: nat)
      requires Collecting(expected) && offset <= |chunk|
      modifies this, Blocks()
      ensures Collecting(expected) && state == old(state)
      ensures offset <= next <= |chunk|
      ensures Collected() == old(Collected()) + chunk[offset..next]
      ensures next == |chunk| || payloadLength == expected
      ensures offset < |chunk| && old(payloadLength) < expected ==> offset < next
      ensures fresh(Blocks() - old(Blocks()))
    {
      ghost var before := Collected();
      next := offset;
      while next < |chunk| && payloadLength < expected
        invariant offset <= next <= |chunk|
        invariant Collecting(expected) && state == old(state)
        invariant next == offset ==> payloadLength == old(payloadLength)
        invariant fresh(Blocks() - old(Blocks()))
        invariant Collected() == before + chunk[offset..next]
      {
        next := FillFurther(chunk, offset, next, expected, before);
      }
    }

    method FillFurther(chunk: bytes, ghost offset: nat, next: nat, expected: nat, ghost before: bytes)
      returns (further: nat)
      requires Collecting(expected) && payloadLength < expected && offset <= next < |chunk|
      requires Collected() == before + chunk[offset..next]
      modifies this, Blocks()
      ensures Collecting(expected) && state == old(state)
      ensures next < further <= |chunk| && Collected() == before + chunk[offset..further]
      ensures fresh(Blocks() - old(Blocks()))
    {
      further := FillBlock(chunk, next, expected);
      SliceFurther(before, chunk, offset, next, further);
    }

    /** Forgets the finished payload. */
    method ClearPayload()
      requires header.Length == FRAME_HEADER_LENGTH && maxFrameLength <= MAX_UINT32 && headerLength == 0
      modifies this
      ensures Valid() && state == old(state) && Pending() == []
    {
      payloadBlocks := [];
      currentPayloadBlock := null;
      currentPayloadBlockLength := 0;
      expectedPayloadLength := None;
      payloadLength := 0;
    }

    /** Hands the complete payload over and forgets it. */
    method FinishPayload(expected: nat) returns (payload: bytes)
      requires Collecting(expected) && payloadLength == expected && maxFrameLength <= MAX_UINT32
      modifies this
      ensures Valid() && state == old(state) && Pending() == []
      ensures |payload| <= maxFrameLength && Encoded(payload) == old(header[..] + Collected())
      ensures payloadBlocks == []
    {
      var frame := AssemblePayload(expected);
      payload := frame[..];
      CollectedLength(expected);
      HeaderOfDeclaredLength(header[..]);
      ClearPayload();
    }

    /** Collects payload bytes and hands the payload over once it is complete. */
    method AdvancePayload(chunk: bytes, offset: nat, expected: nat) returns (next: nat, step: Step)
      requires Valid() && state == Open && expectedPayloadLength == Some(expected)
      requires offset <= |chunk|
      modifies this, Blocks()
      ensures offset <= next <= |chunk| && (offset < |chunk| ==> offset < next)
      ensures Valid() && state == Open && fresh(Blocks() - old(Blocks()))
      ensures !step.Overlong?
        && Advanced(old(Pending()) + chunk[offset..], Pending() + chunk[next..], step, maxFrameLength)
    {
      next := FillPayload(chunk, offset, expected);
      Regroup(header[..], old(Collected()), chunk, offset, next);
      if payloadLength < expected { return next, Nothing; }
      var payload := FinishPayload(expected);
      assert Pending() + chunk[next..] == chunk[next..];
      return next, Frame(payload);
    }

    /** One round of the main loop: takes bytes of `chunk` until a header or a payload is complete, or none are left. */
    method Advance(chunk: bytes, offset: nat) returns (next: nat, step: Step)
      requires Valid() && state == Open && offset < |chunk|
      modifies this, header, Blocks()
      ensures offset < next <= |chunk|
      ensures Valid() && state == (if step.Overlong? then Failed else Open)
      ensures fresh(Blocks() - old(Blocks()))
      ensures Advanced(old(Pending()) + chunk[offset..], Pending() + chunk[next..], step, maxFrameLength)
      ensures step.Overlong? ==> Pending() == []
    {
      if expectedPayloadLength.Some? {
        next, step := AdvancePayload(chunk, offset, expectedPayloadLength.value);
        return;
      }
      ghost var before := Pending();
      next := FillHeader(chunk, offset);
      Regroup([], before, chunk, offset, next);
      assert before + chunk[offset..] == header[..headerLength] + chunk[next..];
      step := Nothing;
      if headerLength < FRAME_HEADER_LENGTH { return; }
      assert header[..headerLength] == header[..];
      next, step := AdvanceFrom(chunk, next);
    }

    /** The rest of a round once the header is complete. */
    method AdvanceFrom(chunk: bytes, offset: nat) returns (next: nat, step: Step)
      requires header.Length == FRAME_HEADER_LENGTH == headerLength && maxFrameLength <= MAX_UINT32
      requires Idle() && state == Open && offset <= |chunk|
      modifies this, Blocks()
      ensures offset <= next <= |chunk|
      ensures Valid() && state == (if step.Overlong? then Failed else Open)
      ensures fresh(Blocks() - old(Blocks()))
      ensures Advanced(old(header[..]) + chunk[offset..], Pending() + chunk[next..], step, maxFrameLength)
      ensures step.Overlong? ==> Pending() == []
    {
      next := offset;
      step := FinishHeader(chunk[next..]);
      if step.Nothing? {
        next, step := AdvancePayload(chunk, next, expectedPayloadLength.value);
      }
    }

    /** Acts on a complete header: refuses it, hands over an empty payload, or starts to collect. */
    method FinishHeader(ghost rest: bytes) returns (step: Step)
      requires header.Length == FRAME_HEADER_LENGTH == headerLength && maxFrameLength <= MAX_UINT32
      requires Idle() && state == Open
      modifies this
      ensures Valid() && state == (if step.Overlong? then Failed else Open) && payloadBlocks == []
      ensures step.Nothing? <==> expectedPayloadLength.Some?
      ensures step.Overlong? ==> Pending() == []
      ensures Advanced(header[..] + rest, Pending() + rest, step, maxFrameLength)
    {
      var frameLength := DeclaredLength(header[..]);
      HeaderOfDeclaredLength(header[..]);
      headerLength := 0;
      if frameLength > maxFrameLength {
        Fail();
        return Overlong(frameLength);
      }
      if frameLength == 0 {
        assert Encoded([]) == header[..];
        return Frame([]);
      }
      expectedPayloadLength := Some(frameLength);
      assert Pending() == header[..] + [];
      return Nothing;
    }

    lemma CollectedLength(expected: nat)
      requires Collecting(expected)
      ensures |Collected()| == payloadLength
    {
      if payloadBlocks != [] {
        FlattenLength(FullBlocks());
      }
    }

    method Push(chunk: bytes) returns (r: Result<seq<bytes>, FrameError>)
      requires Valid()
      modifies this, header, Blocks()
      ensures Valid() && fresh(Blocks() - old(Blocks()))
      ensures old(state) == Ended ==> r == Err(DecoderEnded) && state == Ended && Pending() == old(Pending())
      ensures old(state) == Failed ==> r == Err(DecoderFailed) && state == Failed && Pending() == old(Pending())
      ensures old(state) == Open ==>
                var p := Parse(old(Pending()) + chunk, maxFrameLength);
                if p.Failed() then
                  r == Err(FrameTooLong(p.overlong.value, maxFrameLength)) && state == Failed && Pending() == []
                else
                  r == Ok(p.frames) && state == Open && Pending() == p.rest
    {
      if state == Ended { return Err(DecoderEnded); }
      if state == Failed { return Err(DecoderFailed); }
      var frames, overlong := ReadFrames(chunk);
      if overlong.Some? {
        return Err(FrameTooLong(overlong.value, maxFrameLength));
      }
      return Ok(frames);
    }

    /** One round of the loop and what it adds to the frames. */
    method Round(chunk: bytes, offset: nat, frames: seq<bytes>)
      returns (next: nat, frames': seq<bytes>, overlong: Option<nat>)
      requires Valid() && state == Open && offset < |chunk|
      modifies this, header, Blocks()
      ensures Valid() && state == (if overlong.Some? then Failed else Open)
      ensures offset < next <= |chunk| && fresh(Blocks() - old(Blocks()))
      ensures overlong.Some? ==> Pending() == []
      ensures Preceded(frames, Parse(old(Pending()) + chunk[offset..], maxFrameLength)) ==
              if overlong.Some? then Parsed(frames', [], overlong)
              else Preceded(frames', Parse(Pending() + chunk[next..], maxFrameLength))
    {
      ghost var before := Pending() + chunk[offset..];
      var step;
      next, step := Advance(chunk, offset);
      AdvancedParse(frames, before, Pending() + chunk[next..], step, maxFrameLength);
      frames', overlong := frames, None;
      match step {
        case Nothing =>
        case Frame(payload) => frames' := frames + [payload];
        case Overlong(length) => overlong := Some(length);
      }
    }

    /** The main loop of push: rounds until the chunk is used up or a header announces too much. */
    method ReadFrames(chunk: bytes) returns (frames: seq<bytes>, overlong: Option<nat>)
      requires Valid() && state == Open
      modifies this, header, Blocks()
      ensures Valid() && state == (if overlong.Some? then Failed else Open) && fresh(Blocks() - old(Blocks()))
      ensures overlong.Some? ==> Pending() == []
      ensures Parse(old(Pending()) + chunk, maxFrameLength) == Parsed(frames, Pending(), overlong)
    {
      frames, overlong := [], None;
      var chunkOffset := 0;
      ghost var whole := Parse(Pending() + chunk, maxFrameLength);
      assert chunk[0..] == chunk;
      while chunkOffset < |chunk|
        invariant chunkOffset <= |chunk|
        invariant Valid() && state == Open && overlong == None
        invariant fresh(Blocks() - old(Blocks()))
        invariant whole == Preceded(frames, Parse(Pending() + chunk[chunkOffset..], maxFrameLength))
      {
        chunkOffset, frames, overlong := Round(chunk, chunkOffset, frames);
        if overlong.Some? { return; }
      }
      assert chunk[chunkOffset..] == [];
      NothingFurther(frames);
    }

    lemma NothingFurther(frames: seq<bytes>)
      requires Valid()
      ensures Preceded(frames, Parse(Pending() + [], maxFrameLength)) == Parsed(frames, Pending(), None)
    {
      PendingIsUnfinished();
      assert frames + [] == frames && Pending() + [] == Pending();
    }

    /** What an open decoder holds contains no complete frame. */
    lemma PendingIsUnfinished()
      requires Valid()
      ensures Unfinished(Pending(), maxFrameLength)
    {
      if expectedPayloadLength.Some? {
        CollectedLength(expectedPayloadLength.value);
        assert Pending()[..FRAME_HEADER_LENGTH] == header[..];
        assert DeclaredLength(Pending()) == DeclaredLength(header[..]);
      }
    }

    method End() returns (r: Result<(), FrameError>)
      requires Valid()
      modifies this
      ensures Valid()
      ensures old(state) == Ended ==> r == Err(DecoderEnded) && state == Ended
      ensures old(state) == Failed ==> r == Err(DecoderFailed) && state == Failed
      ensures old(state) == Open ==>
                if old(Pending()) == [] then r == Ok(()) && state == Ended
                else r == Err(TruncatedFrame) && state == Failed && Pending() == []
    {
      if state == Ended { return Err(DecoderEnded); }
      if state == Failed { return Err(DecoderFailed); }
      if headerLength != 0 || expectedPayloadLength != None {
        Fail();
        return Err(TruncatedFrame);
      }
      state := Ended;
      return Ok(());
    }
  }

  /** The frames of a stream that arrives in chunks, and whether the decoder failed; it may be pushed to again. */
  method PushAll(decoder: FrameDecoder, chunks: seq<bytes>) returns (frames: seq<bytes>)
    requires decoder.Valid() && decoder.state == Open && decoder.Pending() == []
    modifies decoder, decoder.header, decoder.Blocks()
    ensures decoder.Valid() && decoder.state == if Feed(chunks, decoder.maxFrameLength).failed then Failed else Open
    ensures Feed(chunks, decoder.maxFrameLength)
         == Decoding(frames, decoder.Pending(), decoder.state == Failed)
  {
    frames := [];
    for i := 0 to |chunks|
      invariant decoder.Valid() && fresh(decoder.Blocks() - old(decoder.Blocks()))
      invariant decoder.state != Ended
      invariant Feed(chunks[..i], decoder.maxFrameLength)
             == Decoding(frames, decoder.Pending(), decoder.state == Failed)
    {
      FeedMore(chunks, i, decoder.maxFrameLength);
      frames := PushNext(decoder, chunks[i], frames);
    }
    assert chunks[..|chunks|] == chunks;
  }

  method PushNext(decoder: FrameDecoder, chunk: bytes, frames: seq<bytes>) returns (frames': seq<bytes>)
    requires decoder.Valid() && decoder.state != Ended
    modifies decoder, decoder.header, decoder.Blocks()
    ensures decoder.Valid() && decoder.state != Ended && fresh(decoder.Blocks() - old(decoder.Blocks()))
    ensures Decoding(frames', decoder.Pending(), decoder.state == Failed)
         == Absorb(old(Decoding(frames, decoder.Pending(), decoder.state == Failed)), chunk, decoder.maxFrameLength)
  {
    var r := decoder.Push(chunk);
    frames' := if r.Ok? then frames + r.value else frames;
  }
}
