/** The streaming decoder: a buffer that grows at one end and is compacted at the other. */
module Decoding {
  import opened Bytes
  import opened Frames

  const READ_SIZE: nat := 4096         // what one read from a socket brings at most
  const COMPACT_AT: nat := 8192

  datatype Decoder = Decoder(buf: seq<byte>, readIdx: nat)

  datatype Outcome =
    | Emitted(frames: seq<Frame>)
    | Fatal(frames: seq<Frame>)        // the connection is to be closed, whatever has been emitted
    | Undefined                        // the buffer is read or erased past its end

  /** Unsigned size arithmetic wraps. */
  function Wrap(x: int): nat {
    x % U64
  }

  /** The bytes received but not yet consumed. */
  function Unread(d: Decoder): seq<byte> {
    Drop(d.buf, d.readIdx)
  }

  predicate Overfull(d: Decoder, data: seq<byte>, max: nat) {
    Wrap(Wrap(|d.buf| - d.readIdx) + |data|) > max + READ_SIZE
  }

  function Compacted(buf: seq<byte>, readIdx: nat): Decoder
    requires readIdx <= |buf|
  {
    if readIdx >= COMPACT_AT then Decoder(buf[readIdx..], 0) else Decoder(buf, readIdx)
  }

  /** What one push does to the buffer and what it reports. */
  function Pushed(d: Decoder, data: seq<byte>, max: nat): (Decoder, Outcome) {
    var buf := d.buf + data;
    if Overfull(d, data, max) then (d, Fatal([]))
    else if d.readIdx > |buf| then (Decoder(buf, d.readIdx), Undefined)
    else
      var p := Parse(buf[d.readIdx..], max);
      var cursor := |buf| - |p.rest|;
      match p.stop
      case TooLong => (Decoder(buf, d.readIdx), Fatal(p.frames))
      case NeedMore => (Compacted(buf, cursor), Emitted(p.frames))
      case ZeroLength =>
        // the buffer is emptied, but the old cursor is then stored as the read position
        (Decoder([], cursor), if cursor >= COMPACT_AT then Undefined else Emitted(p.frames))
  }

  const Start := Decoder([], 0)

  /** In order: what is unread is the beginning of a frame, and the buffer was compacted in time. */
  predicate InOrder(d: Decoder, max: nat) {
    && d.readIdx <= |d.buf| && d.readIdx < COMPACT_AT
    && Parse(Unread(d), max) == Parsed([], Unread(d), NeedMore)
  }

  lemma StartInOrder(max: nat)
    ensures InOrder(Start, max) && Unread(Start) == []
  {
    ParseNothing(max);
  }

  lemma RestIsPart(s: seq<byte>, max: nat)
    requires Parse(s, max).stop.NeedMore?
    ensures Parse(Parse(s, max).rest, max) == Parsed([], Parse(s, max).rest, NeedMore)
    decreases |s|
  {
    hide FromBE;
    var n := if |s| < 4 then 0 else 4 + FromBE(s[..4]);
    if |s| >= 4 && |s| >= n { RestIsPart(s[n..], max); }
  }

  lemma CompactedUnread(buf: seq<byte>, readIdx: nat)
    requires readIdx <= |buf|
    ensures var d := Compacted(buf, readIdx);
            d.readIdx <= |d.buf| && d.readIdx < COMPACT_AT && Unread(d) == buf[readIdx..]
  {
  }

  lemma Suffixes(d: Decoder, data: seq<byte>, max: nat)
    requires d.readIdx <= |d.buf|
    ensures var buf, rest := d.buf + data, Parse(Unread(d) + data, max).rest;
            && buf[d.readIdx..] == Unread(d) + data
            && |rest| <= |buf| && buf[|buf| - |rest|..] == rest
  {
    hide Parse;
    ParseRest(Unread(d) + data, max);
    assert (d.buf + data)[d.readIdx..] == Unread(d) + data;
  }

  lemma NotOverfull(d: Decoder, data: seq<byte>, max: nat)
    requires d.readIdx <= |d.buf| && |d.buf| + |data| < U64
    ensures Overfull(d, data, max) <==> |Unread(d)| + |data| > max + READ_SIZE
  {
  }

  /**
   * A push that neither overfills the buffer nor meets a bad length emits exactly the frames that
   * its bytes complete, keeps the rest, and leaves the decoder in order; compaction shows nowhere.
   */
  lemma PushInOrder(d: Decoder, data: seq<byte>, max: nat)
    requires InOrder(d, max) && |d.buf| + |data| < U64
    requires |Unread(d)| + |data| <= max + READ_SIZE && Parse(Unread(d) + data, max).stop.NeedMore?
    ensures var p, r := Parse(Unread(d) + data, max), Pushed(d, data, max);
            r.1 == Emitted(p.frames) && InOrder(r.0, max) && Unread(r.0) == p.rest
  {
    hide Parse, Compacted, Overfull, Unread;
    var buf, s := d.buf + data, Unread(d) + data;
    Suffixes(d, data, max);
    NotOverfull(d, data, max);
    RestIsPart(s, max);
    CompactedUnread(buf, |buf| - |Parse(s, max).rest|);
  }

  // --------------------------------------------------------------- whole streams

  function Join(chunks: seq<seq<byte>>): seq<byte> {
    if chunks == [] then [] else Join(chunks[..|chunks| - 1]) + chunks[|chunks| - 1]
  }

  /** No chunk is larger than one read. */
  predicate Reads(chunks: seq<seq<byte>>, size: nat) {
    forall i :: 0 <= i < |chunks| ==> |chunks[i]| <= size
  }

  /** Frames whose length is at most `len`, read at most `size` bytes at a time, never overfill. */
  predicate Roomy(len: nat, size: nat, max: nat) {
    len <= max && len + 3 + size <= max + READ_SIZE
  }

  datatype Fed = Fed(decoder: Decoder, frames: seq<Frame>)

  /** Pushing chunk after chunk; `None` once a push fails. */
  function Feed(chunks: seq<seq<byte>>, max: nat): Option<Fed> {
    if chunks == [] then Some(Fed(Start, []))
    else
      var n := |chunks| - 1;
      match Feed(chunks[..n], max)
      case None => None
      case Some(fed) =>
        var r := Pushed(fed.decoder, chunks[n], max);
        if r.1.Emitted? then Some(Fed(r.0, fed.frames + r.1.frames)) else None
  }

  /** After feeding some chunks, the decoder has emitted and kept exactly what one long read would. */
  predicate Agrees(fed: Fed, bytes: seq<byte>, max: nat) {
    var p := Parse(bytes, max);
    && p.stop.NeedMore? && fed.frames == p.frames && Unread(fed.decoder) == p.rest
    && InOrder(fed.decoder, max)
  }

  lemma FeedStep(fs: seq<Frame>, fed: Fed, before: seq<byte>, chunk: seq<byte>, len: nat, max: nat)
    requires AllFit(fs, len) && Roomy(len, |chunk|, max) && max < U64 / 2
    requires before + chunk <= PrintAll(fs) && Agrees(fed, before, max)
    ensures var r := Pushed(fed.decoder, chunk, max);
            r.1.Emitted? && Agrees(Fed(r.0, fed.frames + r.1.frames), before + chunk, max)
  {
    hide Parse, InOrder, Pushed, PrintAll, Unread, AllFit;
    assert before <= before + chunk;
    ParsePrefix(fs, before, len, max);
    ParsePrefix(fs, before + chunk, len, max);
    ParseAppend(before, chunk, max);
    BufferSmall(fed.decoder, max);
    PushInOrder(fed.decoder, chunk, max);
  }

  /**
   * Frames printed one after the other and cut into reads of any sizes that leave room: no push
   * fails, and after every one of them exactly the frames received whole have come out.
   */
  lemma {:induction false} FeedAgrees(fs: seq<Frame>, chunks: seq<seq<byte>>, len: nat, size: nat, max: nat)
    requires AllFit(fs, len) && Roomy(len, size, max) && max < U64 / 2
    requires Join(chunks) <= PrintAll(fs) && Reads(chunks, size)
    ensures Feed(chunks, max).Some? && Agrees(Feed(chunks, max).value, Join(chunks), max)
  {
    hide Parse, Pushed, PrintAll, Agrees, AllFit;
    if chunks == [] {
      NothingFed(max);
    } else {
      var n := |chunks| - 1;
      var before := Join(chunks[..n]);
      assert Join(chunks) == before + chunks[n];
      assert before <= Join(chunks);
      FeedAgrees(fs, chunks[..n], len, size, max);
      FeedStep(fs, Feed(chunks[..n], max).value, before, chunks[n], len, max);
    }
  }

  lemma NothingFed(max: nat)
    ensures Agrees(Fed(Start, []), [], max)
  {
    ParseNothing(max);
    StartInOrder(max);
  }

  lemma BufferSmall(d: Decoder, max: nat)
    requires InOrder(d, max)
    ensures |d.buf| == d.readIdx + |Unread(d)| < COMPACT_AT + |Unread(d)|
    ensures Parse(Unread(d), max) == Parsed([], Unread(d), NeedMore)
  {
    hide Parse;
  }

  /**
   * Round trip: whatever the chunks, the frames that were printed come out, in order, and no other;
   * meanwhile the read position stays below 8192 and less than a frame is kept.
   */
  lemma RoundTrip(fs: seq<Frame>, chunks: seq<seq<byte>>, len: nat, size: nat, max: nat)
    requires AllFit(fs, len) && Roomy(len, size, max) && max < U64 / 2
    requires Join(chunks) <= PrintAll(fs) && Reads(chunks, size)
    ensures Feed(chunks, max).Some?
    ensures var fed := Feed(chunks, max).value;
            && fed.frames <= fs
            && fed.decoder.readIdx < COMPACT_AT && |Unread(fed.decoder)| <= len + 3
            && |fed.decoder.buf| < COMPACT_AT + len + 3
            && (Join(chunks) == PrintAll(fs) ==> fed.frames == fs && Unread(fed.decoder) == [])
  {
    hide Parse, Feed, Pushed, PrintAll, Join, Unread;
    FeedAgrees(fs, chunks, len, size, max);
    ParsePrefix(fs, Join(chunks), len, max);
    BufferSmall(Feed(chunks, max).value.decoder, max);
  }

  // --------------------------------------------------------------- the limit is exact

  function Pieces(s: seq<byte>): (r: seq<seq<byte>>)
    ensures |r| == |s|
  {
    if s == [] then [] else Pieces(s[..|s| - 1]) + [[s[|s| - 1]]]
  }

  lemma {:induction false} PiecesJoin(s: seq<byte>)
    ensures Join(Pieces(s)) == s && Reads(Pieces(s), 1)
  {
    if s != [] {
      var n := |s| - 1;
      PiecesJoin(s[..n]);
      assert Pieces(s)[..n] == Pieces(s[..n]);
      assert s == s[..n] + [s[n]];
    }
  }

  lemma {:induction false} JoinAppend(a: seq<seq<byte>>, b: seq<seq<byte>>)
    ensures Join(a + b) == Join(a) + Join(b)
  {
    if b == [] {
      assert a + b == a;
    } else {
      var n := |b| - 1;
      JoinAppend(a, b[..n]);
      assert (a + b)[..|a| + n] == a + b[..n];
      Assoc(Join(a), Join(b[..n]), b[n]);
    }
  }

  /** A failed connection stays failed. */
  lemma {:induction false} FeedNone(a: seq<seq<byte>>, b: seq<seq<byte>>, max: nat)
    requires Feed(a, max).None?
    ensures Feed(a + b, max).None?
  {
    if b == [] {
      assert a + b == a;
    } else {
      hide Pushed;
      var n := |b| - 1;
      FeedNone(a, b[..n], max);
      assert (a + b)[..|a| + n] == a + b[..n];
    }
  }

  lemma PiecesNext(s: seq<byte>, k: nat)
    requires 0 < k <= |s|
    ensures Pieces(s[..k]) == Pieces(s[..k - 1]) + [[s[k - 1]]] && s[..k] == s[..k - 1] + [s[k - 1]]
  {
    assert s[..k][..k - 1] == s[..k - 1];
  }

  lemma NothingToFeed(s: seq<byte>, max: nat)
    ensures Feed(Pieces(s[..0]), max) == Some(Fed(Start, [])) && s[..0] == []
  {
  }

  lemma FeedNext(a: seq<seq<byte>>, c: seq<byte>, max: nat)
    ensures Feed(a + [c], max) ==
            match Feed(a, max)
            case None => None
            case Some(fed) =>
              var r := Pushed(fed.decoder, c, max);
              if r.1.Emitted? then Some(Fed(r.0, fed.frames + r.1.frames)) else None
  {
    hide Pushed;
    assert (a + [c])[..|a|] == a;
  }

  lemma JoinNext(a: seq<seq<byte>>, c: seq<byte>)
    ensures Join(a + [c]) == Join(a) + c
  {
    assert (a + [c])[..|a|] == a;
  }

  /** Every beginning of `s`, up to `k` bytes, is only part of a frame. */
  ghost predicate Waiting(s: seq<byte>, k: nat, max: nat)
    requires k <= |s|
  {
    forall j: nat :: j <= k ==> Parse(s[..j], max) == Parsed([], s[..j], NeedMore)
  }

  lemma {:induction false} Trickle(s: seq<byte>, k: nat, max: nat)
    requires k <= |s| && k <= max + READ_SIZE && max < U64 / 2 && Waiting(s, k, max)
    ensures var f := Feed(Pieces(s[..k]), max);
            f.Some? && InOrder(f.value.decoder, max) && Unread(f.value.decoder) == s[..k]
  {
    hide Parse, Pushed, Unread, InOrder, Pieces, Feed;
    if k == 0 {
      StartInOrder(max);
      NothingToFeed(s, max);
    } else {
      Trickle(s, k - 1, max);
      var d := Feed(Pieces(s[..k - 1]), max).value.decoder;
      PiecesNext(s, k);
      FeedNext(Pieces(s[..k - 1]), [s[k - 1]], max);
      assert Parse(s[..k], max) == Parsed([], s[..k], NeedMore);
      BufferSmall(d, max);
      PushInOrder(d, [s[k - 1]], max);
    }
  }

  /** The stream as `k` single bytes, then `size` bytes in one read, then single bytes again. */
  function Chunking(s: seq<byte>, k: nat, size: nat): seq<seq<byte>>
    requires k + size <= |s|
  {
    Pieces(s[..k]) + [s[k..k + size]] + Pieces(s[k + size..])
  }

  lemma ChunkingJoins(s: seq<byte>, k: nat, size: nat)
    requires k + size <= |s| && size >= 1
    ensures Join(Chunking(s, k, size)) == s && Reads(Chunking(s, k, size), size)
  {
    hide Join, Pieces, Reads;
    var a, c, b := s[..k], s[k..k + size], s[k + size..];
    PiecesJoin(a);
    PiecesJoin(b);
    JoinNext(Pieces(a), c);
    JoinAppend(Pieces(a) + [c], Pieces(b));
    assert a + c + b == s;
    ReadsAll(Pieces(a), c, Pieces(b), size);
  }

  lemma ReadsAll(a: seq<seq<byte>>, c: seq<byte>, b: seq<seq<byte>>, size: nat)
    requires Reads(a, 1) && |c| <= size && Reads(b, 1) && size >= 1
    ensures Reads(a + [c] + b, size)
  {
  }

  lemma ChunkingFails(s: seq<byte>, k: nat, size: nat, max: nat)
    requires k + size <= |s| && k <= max + READ_SIZE && max + size < U64 / 2 && Waiting(s, k, max)
    requires k + size > max + READ_SIZE || Parse(s[..k + size], max).stop.TooLong?
    ensures Feed(Chunking(s, k, size), max).None?
  {
    hide Parse, Unread, InOrder, Pieces, Pushed, Feed, Waiting;
    Trickle(s, k, max);
    var a, c := Pieces(s[..k]), s[k..k + size];
    var d := Feed(a, max).value.decoder;
    assert s[..k] + c == s[..k + size];
    BufferSmall(d, max);
    PushFails(d, c, max);
    FeedNext(a, c, max);
    FeedNone(a + [c], Pieces(s[k + size..]), max);
  }

  /** A push fails exactly when it overfills the buffer or meets a length past the limit. */
  lemma PushFails(d: Decoder, data: seq<byte>, max: nat)
    requires InOrder(d, max) && |d.buf| + |data| < U64
    ensures Pushed(d, data, max).1.Fatal? <==>
            |Unread(d)| + |data| > max + READ_SIZE || Parse(Unread(d) + data, max).stop.TooLong?
  {
    hide Parse, Overfull, Compacted;
    NotOverfull(d, data, max);
    assert (d.buf + data)[d.readIdx..] == Unread(d) + data;
  }

  function Filler(n: nat): seq<Frame> {
    if n == 0 then [] else [Frame(0, [])] + Filler(n - 1)
  }

  lemma {:induction false} FillerLength(n: nat, len: nat)
    requires len >= 1
    ensures |PrintAll(Filler(n))| == 5 * n && AllFit(Filler(n), len)
  {
    if n > 0 {
      hide Print;
      FillerLength(n - 1, len);
      assert Filler(n)[1..] == Filler(n - 1);
    }
  }

  function Longest(len: nat): (f: Frame)
    requires len >= 1
    ensures Len(f) == len
  {
    Frame(0, seq(len - 1, _ => 0))
  }

  /** A stream that overfills, or is refused, whenever there is no room. */
  lemma Witness(len: nat, size: nat, max: nat) returns (fs: seq<Frame>, chunks: seq<seq<byte>>)
    requires 1 <= len < U32 && size >= 1 && max + size < U64 / 2 && !Roomy(len, size, max)
    ensures AllFit(fs, len) && Join(chunks) == PrintAll(fs) && Reads(chunks, size)
    ensures Feed(chunks, max).None?
  {
    hide Parse, Print, Feed, Join, Pieces, Chunking, FromBE;
    var f := Longest(len);
    fs := [f] + Filler(size);
    FillerLength(size, len);
    assert fs[1..] == Filler(size);
    var t := PrintAll(Filler(size));
    var s := Print(f) + t;
    assert PrintAll(fs) == s;
    var k := if len > max then 3 else len + 3;
    var n := if len > max then 1 else size;
    LongestWaits(f, t, max);
    ChunkingJoins(s, k, n);
    ChunkingFails(s, k, n, max);
    chunks := Chunking(s, k, n);
  }

  lemma LongestWaits(f: Frame, t: seq<byte>, max: nat)
    requires Len(f) < U32
    ensures var s := Print(f) + t;
            if Len(f) > max then Waiting(s, 3, max) && Parse(s[..4], max).stop.TooLong?
            else Waiting(s, Len(f) + 3, max)
  {
    hide FromBE, Print;
    HeaderOf(f, t);
    var s := Print(f) + t;
    if Len(f) <= max {
      forall j: nat | j <= Len(f) + 3
        ensures Parse(s[..j], max) == Parsed([], s[..j], NeedMore)
      {
        ParsePart(f, j, max);
        assert s[..j] == Print(f)[..j];
      }
    } else {
      assert s[..4][..4] == s[..4];
    }
  }

  /** Every stream of frames of up to `len` bytes decodes, however it is cut into reads. */
  ghost predicate Decodes(len: nat, size: nat, max: nat) {
    forall fs: seq<Frame>, chunks: seq<seq<byte>> ::
      AllFit(fs, len) && Join(chunks) == PrintAll(fs) && Reads(chunks, size) ==> Delivered(fs, chunks, max)
  }

  predicate Delivered(fs: seq<Frame>, chunks: seq<seq<byte>>, max: nat) {
    Feed(chunks, max).Some? && Feed(chunks, max).value.frames == fs
  }

  /**
   * How long a frame the decoder is good for, exactly: for reads of 4096 bytes, frames of up to
   * `max - 3` bytes, three bytes short of the limit it is given.
   */
  lemma LimitExact(len: nat, size: nat, max: nat)
    requires 1 <= len < U32 && size >= 1 && max + size < U64 / 2
    ensures Decodes(len, size, max) <==> Roomy(len, size, max)
  {
    hide Feed, PrintAll, Join, AllFit, Reads;
    if Roomy(len, size, max) {
      forall fs: seq<Frame>, chunks: seq<seq<byte>> |
          AllFit(fs, len) && Join(chunks) == PrintAll(fs) && Reads(chunks, size)
        ensures Delivered(fs, chunks, max)
      {
        RoundTrip(fs, chunks, len, size, max);
      }
    } else {
      var fs, chunks := Witness(len, size, max);
      assert !Delivered(fs, chunks, max);
    }
  }

  // --------------------------------------------------------------- after a length of zero

  /**
   * A zero length empties the buffer, but the decoder is as good as new only if nothing had been
   * read before it.
   */
  lemma ZeroLengthFrame(d: Decoder, data: seq<byte>, max: nat)
    requires InOrder(d, max) && |d.buf| + |data| < U64
    requires |Unread(d)| + |data| <= max + READ_SIZE && Parse(Unread(d) + data, max).stop.ZeroLength?
    ensures var p := Parse(Unread(d) + data, max);
            var read, r := |d.buf| + |data| - |p.rest|, Pushed(d, data, max);
            && r.0 == Decoder([], read) && (r.0 == Start <==> d.readIdx == 0 && p.rest == Unread(d) + data)
            && r.1 == (if read < COMPACT_AT then Emitted(p.frames) else Undefined)
  {
    hide Parse, Compacted, Overfull, Unread;
    Suffixes(d, data, max);
    NotOverfull(d, data, max);
    BufferSmall(d, max);
  }

  /**
   * Otherwise the next read is refused if it is shorter than what had been read, and if it is not,
   * that many of its bytes are skipped.
   */
  lemma AfterZeroLength(read: nat, next: seq<byte>, max: nat)
    requires 0 < read < COMPACT_AT && |next| + COMPACT_AT + READ_SIZE + max < U64
    ensures var r := Pushed(Decoder([], read), next, max);
            if |next| < read then r == (Decoder([], read), Fatal([]))
            else |next| - read <= max + READ_SIZE && Parse(next[read..], max).stop.NeedMore? ==>
              r.1 == Emitted(Parse(next[read..], max).frames)
  {
    hide Parse, Compacted;
    assert [] + next == next;
  }

  // --------------------------------------------------------------- the decoder itself

  class FrameDecoder {
    const max: nat
    var buf: seq<byte>
    var readIdx: nat

    function State(): Decoder
      reads this
    {
      Decoder(buf, readIdx)
    }

    constructor (max: nat)
      ensures State() == Start && this.max == max
    {
      this.max := max;
      buf := [];
      readIdx := 0;
    }

    method Reset()
      modifies this
      ensures State() == Start
    {
      buf := [];
      readIdx := 0;
    }

    method Push(data: seq<byte>) returns (out: Outcome)
      modifies this
      ensures (State(), out) == Pushed(old(State()), data, max)
    {
      hide Parse, FromBE;
      if Wrap(Wrap(|buf| - readIdx) + |data|) > max + READ_SIZE {
        return Fatal([]);
      }
      buf := buf + data;
      if readIdx > |buf| {
        return Undefined;
      }
      var cursor := readIdx;
      var frames: seq<Frame> := [];
      ghost var all, p := buf, Parse(buf[readIdx..], max);
      Nothing(p.frames);
      while true
        invariant readIdx == old(readIdx) <= cursor <= |buf| && buf == all
        invariant var q := Parse(buf[cursor..], max); p == Parsed(frames + q.frames, q.rest, q.stop)
        decreases |all| - cursor
      {
        ParseAt(buf, cursor, max);
        Nothing(frames);
        if |buf| - cursor < 4 {
          break;
        }
        var len := FromBE(buf[cursor..cursor + 4]);
        if len < 1 {
          buf := [];
          readIdx := 0;
          break;
        }
        if len > max {
          return Fatal(frames);
        }
        if |buf| - cursor < 4 + len {
          break;
        }
        var f := Frame(buf[cursor + 4], buf[cursor + 5..cursor + 4 + len]);
        Assoc(frames, [f], Parse(buf[cursor + 4 + len..], max).frames);
        frames := frames + [f];
        cursor := cursor + 4 + len;
      }
      readIdx := cursor;
      if readIdx >= COMPACT_AT {
        if readIdx > |buf| {
          return Undefined;
        }
        buf := buf[readIdx..];
        readIdx := 0;
      }
      return Emitted(frames);
    }
  }

  /** One step of reading, in every case. */
  lemma ParseAt(buf: seq<byte>, cursor: nat, max: nat)
    requires cursor <= |buf|
    ensures var s, size := buf[cursor..], |buf| - cursor;
            var n := if size < 4 then 0 else FromBE(buf[cursor..cursor + 4]);
            Parse(s, max) == if size < 4 then Parsed([], s, NeedMore)
                             else if n < 1 then Parsed([], s, ZeroLength)
                             else if n > max then Parsed([], s, TooLong)
                             else if size < 4 + n then Parsed([], s, NeedMore)
                             else var q := Parse(buf[cursor + 4 + n..], max);
                                  Parsed([Frame(buf[cursor + 4], buf[cursor + 5..cursor + 4 + n])] + q.frames,
                                         q.rest, q.stop)
  {
    hide Parse, FromBE;
    var s := buf[cursor..];
    ParseUnfold(s, max);
    if |s| >= 4 {
      Slices(buf, cursor, 0, 4);
      var n := FromBE(s[..4]);
      if 1 <= n && |s| >= 4 + n {
        Slices(buf, cursor, 5, 4 + n);
      }
    }
  }

  lemma ParseUnfold(s: seq<byte>, max: nat)
    ensures var n := if |s| < 4 then 0 else FromBE(s[..4]);
            Parse(s, max) == if |s| < 4 then Parsed([], s, NeedMore)
                             else if n < 1 then Parsed([], s, ZeroLength)
                             else if n > max then Parsed([], s, TooLong)
                             else if |s| < 4 + n then Parsed([], s, NeedMore)
                             else var q := Parse(s[4 + n..], max);
                                  Parsed([Frame(s[4], s[5..4 + n])] + q.frames, q.rest, q.stop)
  {
    hide FromBE;
  }
}
