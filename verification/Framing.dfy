/** Length-prefixed request frames (crates/ipc-protocol/src/codec.rs), and a reader that extracts
    frames as bytes arrive. */
module Framing {
  import opened Domain
  import opened HexIds

  const PREFIX_BYTES: nat := 4
  const MAX_REQUEST_BYTES: nat := 65536

  datatype FrameError = ZeroLength | TooLarge(declared: nat) | IncompletePrefix | IncompletePayload(declared: nat, present: nat)

  datatype Frame = Frame(payload: seq<Byte>, consumed: nat)

  datatype Extraction = Found(frame: Frame) | NeedsMore | Bad(error: FrameError)

  // ---- the length prefix -----------------------------------------------------------------------

  /** `to_le_bytes`. */
  function EncodeLength(n: nat): (b: seq<Byte>)
    ensures |b| == PREFIX_BYTES
  {
    [n % 256, n / 256 % 256, n / 0x1_0000 % 256, n / 0x100_0000 % 256]
  }

  /** `from_le_bytes`. */
  function DecodeLength(b: seq<Byte>): (n: nat)
    requires |b| == PREFIX_BYTES
    ensures n < 0x1_0000_0000
  {
    var b0: int, b1: int, b2: int, b3: int := b[0], b[1], b[2], b[3];
    b0 + 256 * b1 + 0x1_0000 * b2 + 0x100_0000 * b3
  }

  lemma LengthRoundTrip(n: nat)
    requires n < 0x1_0000_0000
    ensures DecodeLength(EncodeLength(n)) == n
  {
    var q1, q2 := n / 256, n / 0x1_0000;
    assert q1 / 256 == q2 && q2 / 256 == n / 0x100_0000;
    assert n == 256 * q1 + n % 256 && q1 == 256 * q2 + q1 % 256 && q2 == 256 * (q2 / 256) + q2 % 256;
  }

  /** `validate_request_frame_length`: None when the length is acceptable. */
  function LengthError(n: nat): (e: Option<FrameError>)
    ensures e.None? <==> 1 <= n <= MAX_REQUEST_BYTES
  {
    if n == 0 then Some(ZeroLength) else if n > MAX_REQUEST_BYTES then Some(TooLarge(n)) else None
  }

  // ---- one frame -------------------------------------------------------------------------------

  /** `extract_frame_payload`. */
  function Extract(buffer: seq<Byte>, eof: bool): (r: Extraction)
    ensures r.Found? ==> PREFIX_BYTES < r.frame.consumed <= |buffer|
  {
    if |buffer| < PREFIX_BYTES then (if eof && buffer != [] then Bad(IncompletePrefix) else NeedsMore)
    else
      var declared := DecodeLength(buffer[..PREFIX_BYTES]);
      if LengthError(declared).Some? then Bad(LengthError(declared).value)
      else
        var needed := PREFIX_BYTES + declared;
        if |buffer| < needed then (if eof then Bad(IncompletePayload(declared, |buffer| - PREFIX_BYTES)) else NeedsMore)
        else Found(Frame(buffer[PREFIX_BYTES..needed], needed))
  }

  predicate IsPayload(p: seq<Byte>) { 1 <= |p| <= MAX_REQUEST_BYTES }

  function FrameOf(p: seq<Byte>): seq<Byte> { EncodeLength(|p|) + p }

  /** A frame is extracted from exactly the buffers that begin with it. */
  lemma ExtractExact(buffer: seq<Byte>, eof: bool, p: seq<Byte>)
    ensures Extract(buffer, eof) == Found(Frame(p, PREFIX_BYTES + |p|)) <==> IsPayload(p) && FrameOf(p) <= buffer
  {
    if IsPayload(p) && FrameOf(p) <= buffer {
      LengthRoundTrip(|p|);
      assert buffer[..PREFIX_BYTES] == EncodeLength(|p|);
      assert buffer[PREFIX_BYTES..PREFIX_BYTES + |p|] == p;
    }
    if Extract(buffer, eof) == Found(Frame(p, PREFIX_BYTES + |p|)) {
      PrefixDetermined(buffer[..PREFIX_BYTES]);
      assert buffer[..PREFIX_BYTES + |p|] == FrameOf(p);
    }
  }

  lemma PrefixDetermined(b: seq<Byte>)
    requires |b| == PREFIX_BYTES
    ensures EncodeLength(DecodeLength(b)) == b
  {
    var n := DecodeLength(b);
    var b0: int, b1: int, b2: int, b3: int := b[0], b[1], b[2], b[3];
    assert n / 256 == b1 + 256 * b2 + 0x1_0000 * b3 && n % 256 == b0;
    assert n / 0x1_0000 == b2 + 256 * b3 && n / 256 % 256 == b1;
    assert n / 0x100_0000 == b3 && n / 0x1_0000 % 256 == b2;
  }

  /** Bytes that arrive later change neither a frame already complete nor a bad length. */
  lemma ExtractIsStable(buffer: seq<Byte>, more: seq<Byte>, eof: bool)
    requires !Extract(buffer, false).NeedsMore?
    ensures Extract(buffer + more, eof) == Extract(buffer, false)
  {
    if |buffer| >= PREFIX_BYTES {
      assert (buffer + more)[..PREFIX_BYTES] == buffer[..PREFIX_BYTES];
      var needed := PREFIX_BYTES + DecodeLength(buffer[..PREFIX_BYTES]);
      if needed <= |buffer| { assert (buffer + more)[PREFIX_BYTES..needed] == buffer[PREFIX_BYTES..needed]; }
    }
  }

  predicate IsTruncation(e: FrameError) { e.IncompletePrefix? || e.IncompletePayload? }

  /** The end of the stream is an error exactly when something incomplete is left. */
  lemma EofFailsOnLeftovers(buffer: seq<Byte>)
    requires Extract(buffer, false).NeedsMore?
    ensures Extract(buffer, true).NeedsMore? <==> buffer == []
    ensures buffer != [] ==> Extract(buffer, true).Bad? && IsTruncation(Extract(buffer, true).error)
  {
  }

  // ---- the reader ------------------------------------------------------------------------------

  /** Payloads delivered so far, bytes not consumed yet, and the error that ended the stream. */
  datatype Reader = Reader(delivered: seq<seq<Byte>>, buffer: seq<Byte>, failed: Option<FrameError>)

  /** Extract frames as long as there are complete ones. */
  function Drain(r: Reader): Reader
    decreases |r.buffer|
  {
    if r.failed.Some? then r
    else match Extract(r.buffer, false)
      case NeedsMore => r
      case Bad(e) => r.(failed := Some(e))
      case Found(f) => Drain(Reader(r.delivered + [f.payload], r.buffer[f.consumed..], None))
  }

  method DrainBuffer(r: Reader) returns (d: Reader)
    ensures d == Drain(r)
  {
    d := r;
    while d.failed.None?
      invariant Drain(d) == Drain(r)
      decreases d.failed.None?, |d.buffer|
    {
      match Extract(d.buffer, false) {
        case NeedsMore => return;
        case Bad(e) => d := d.(failed := Some(e));
        case Found(f) => d := Reader(d.delivered + [f.payload], d.buffer[f.consumed..], None);
      }
    }
  }

  function Feed(r: Reader, chunk: seq<Byte>): Reader {
    if r.failed.Some? then r else Drain(r.(buffer := r.buffer + chunk))
  }

  function FeedAll(r: Reader, chunks: seq<seq<Byte>>): Reader {
    if chunks == [] then r else Feed(FeedAll(r, chunks[..|chunks| - 1]), chunks[|chunks| - 1])
  }

  function Concat(chunks: seq<seq<Byte>>): seq<Byte> {
    if chunks == [] then [] else Concat(chunks[..|chunks| - 1]) + chunks[|chunks| - 1]
  }

  const EMPTY := Reader([], [], None)

  /** The same payloads and the same failure; after a failure the buffer does not matter. */
  predicate SameReading(a: Reader, b: Reader) {
    a.delivered == b.delivered && a.failed == b.failed && (a.failed.None? ==> a.buffer == b.buffer)
  }

  /** Draining in two steps or in one. */
  lemma {:induction false} DrainAppend(r: Reader, more: seq<Byte>)
    requires r.failed.None?
    ensures SameReading(Feed(Drain(r), more), Drain(r.(buffer := r.buffer + more)))
    decreases |r.buffer|
  {
    var x := Extract(r.buffer, false);
    if !x.NeedsMore? {
      ExtractIsStable(r.buffer, more, false);
      if x.Found? {
        var d := Reader(r.delivered + [x.frame.payload], r.buffer[x.frame.consumed..], None);
        DrainAppend(d, more);
        assert (r.buffer + more)[x.frame.consumed..] == r.buffer[x.frame.consumed..] + more;
      }
    }
  }

  lemma {:induction false} DrainTwice(r: Reader)
    ensures Drain(Drain(r)) == Drain(r)
    decreases |r.buffer|
  {
    if r.failed.None? && Extract(r.buffer, false).Found? {
      var f := Extract(r.buffer, false).frame;
      DrainTwice(Reader(r.delivered + [f.payload], r.buffer[f.consumed..], None));
    }
  }

  /** However a stream is cut into chunks, the reader ends as if all of it had come at once. */
  lemma {:induction false} ChunksDoNotMatter(chunks: seq<seq<Byte>>)
    ensures SameReading(FeedAll(EMPTY, chunks), Drain(Reader([], Concat(chunks), None)))
    decreases |chunks|
  {
    if chunks != [] {
      var front, last := chunks[..|chunks| - 1], chunks[|chunks| - 1];
      ChunksDoNotMatter(front);
      DrainAppend(Reader([], Concat(front), None), last);
    }
  }

  function FramesOf(ps: seq<seq<Byte>>): seq<Byte> {
    if ps == [] then [] else FrameOf(ps[0]) + FramesOf(ps[1..])
  }

  lemma {:induction false} DrainFrames(delivered: seq<seq<Byte>>, ps: seq<seq<Byte>>, rest: seq<Byte>)
    requires (forall p <- ps :: IsPayload(p)) && Extract(rest, false).NeedsMore?
    ensures Drain(Reader(delivered, FramesOf(ps) + rest, None)) == Reader(delivered + ps, rest, None)
    decreases |ps|
  {
    if ps == [] {
      assert FramesOf(ps) + rest == rest && delivered + ps == delivered;
    } else {
      var buffer := FramesOf(ps) + rest;
      assert buffer == FrameOf(ps[0]) + (FramesOf(ps[1..]) + rest);
      ExtractExact(buffer, false, ps[0]);
      assert buffer[PREFIX_BYTES + |ps[0]|..] == FramesOf(ps[1..]) + rest;
      DrainFrames(delivered + [ps[0]], ps[1..], rest);
      assert delivered + [ps[0]] + ps[1..] == delivered + ps;
    }
  }

  /** Whatever the payloads and whatever the chunks: the reader delivers exactly the payloads, in
      order, keeps the incomplete rest, and the end of the stream is an error exactly if there is
      one. */
  lemma FramesArriveIntact(ps: seq<seq<Byte>>, rest: seq<Byte>, chunks: seq<seq<Byte>>)
    requires (forall p <- ps :: IsPayload(p)) && Extract(rest, false).NeedsMore?
    requires Concat(chunks) == FramesOf(ps) + rest
    ensures FeedAll(EMPTY, chunks) == Reader(ps, rest, None)
    ensures Extract(FeedAll(EMPTY, chunks).buffer, true).NeedsMore? <==> rest == []
  {
    ChunksDoNotMatter(chunks);
    DrainFrames([], ps, rest);
    assert [] + ps == ps;
    EofFailsOnLeftovers(rest);
  }
}
