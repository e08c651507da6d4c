/** Length-prefixed frames: printing them, and reading them back from a stream of bytes. */
module Frames {
  import opened Bytes

  datatype Frame = Frame(op: byte, payload: seq<byte>)

  /** The length field counts the opcode and the payload. */
  function Len(f: Frame): nat {
    1 + |f.payload|
  }

  function Print(f: Frame): (s: seq<byte>)
    ensures |s| == 4 + Len(f)
  {
    ToBE(4, Len(f)) + [f.op] + f.payload
  }

  function PrintAll(fs: seq<Frame>): seq<byte> {
    if fs == [] then [] else Print(fs[0]) + PrintAll(fs[1..])
  }

  lemma FourOctets(v: nat)
    ensures ToBE(4, v) == [v / 0x100_0000 % 256, v / 0x1_0000 % 256, v / 0x100 % 256, v % 256]
  {
    assert v / 256 / 256 == v / 0x1_0000 && v / 256 / 256 / 256 == v / 0x100_0000;
    assert ToBE(1, v / 0x100_0000) == ToBE(0, v / 0x100_0000 / 256) + [v / 0x100_0000 % 256];
    assert ToBE(2, v / 0x1_0000) == ToBE(1, v / 0x100_0000) + [v / 0x1_0000 % 256];
    assert ToBE(3, v / 0x100) == ToBE(2, v / 0x1_0000) + [v / 0x100 % 256];
  }

  /** Fills a buffer of the right size in place: length, opcode, payload. */
  method EncodeFrame(op: byte, payload: seq<byte>) returns (frame: array<byte>)
    ensures fresh(frame) && frame[..] == Print(Frame(op, payload))
    ensures frame.Length == 5 + |payload| && frame[4] == op && frame[5..] == payload
    ensures forall i :: 0 <= i < 4 ==> frame[i] == Octet(1 + |payload|, 3 - i)
  {
    hide ToBE, Octet;
    frame := new byte[5 + |payload|](_ => 0);
    var len := 1 + |payload|;
    FourOctets(len);
    forall i | 0 <= i < 4 ensures ToBE(4, len)[i] == Octet(len, 3 - i) { OctetAt(4, len, i); }
    frame[0], frame[1] := len / 0x100_0000 % 256, len / 0x1_0000 % 256;
    frame[2], frame[3] := len / 0x100 % 256, len % 256;
    frame[4] := op;
    forall i | 0 <= i < |payload| {
      frame[5 + i] := payload[i];
    }
  }

  /** Why reading stopped: more bytes are needed, or the next length is zero or past the limit. */
  datatype Stop = NeedMore | ZeroLength | TooLong

  datatype Parsed = Parsed(frames: seq<Frame>, rest: seq<byte>, stop: Stop)

  function Parse(s: seq<byte>, max: nat): (p: Parsed)
    ensures |p.rest| <= |s|
    decreases |s|
  {
    if |s| < 4 then Parsed([], s, NeedMore)
    else
      var len := FromBE(s[..4]);
      if len < 1 then Parsed([], s, ZeroLength)
      else if len > max then Parsed([], s, TooLong)
      else if |s| < 4 + len then Parsed([], s, NeedMore)
      else
        var p := Parse(s[4 + len..], max);
        Parsed([Frame(s[4], s[5..4 + len])] + p.frames, p.rest, p.stop)
  }

  lemma {:induction false} ParseRest(s: seq<byte>, max: nat)
    ensures var p := Parse(s, max);
            p.rest == s[|s| - |p.rest|..] && (p.stop.NeedMore? ==> |p.rest| <= max + 3)
    decreases |s|
  {
    hide FromBE;
    var n := if |s| < 4 then 0 else 4 + FromBE(s[..4]);
    if |s| >= 4 && 5 <= n <= |s| { ParseRest(s[n..], max); }
  }

  predicate Fit(f: Frame, max: nat) {
    Len(f) <= max && Len(f) < U32
  }

  predicate AllFit(fs: seq<Frame>, max: nat) {
    forall i :: 0 <= i < |fs| ==> Fit(fs[i], max)
  }

  lemma HeaderOf(f: Frame, t: seq<byte>)
    requires Len(f) < U32
    ensures var s := Print(f) + t;
            && s[..4] == ToBE(4, Len(f)) && FromBE(s[..4]) == Len(f)
            && s[4] == f.op && s[5..4 + Len(f)] == f.payload && s[4 + Len(f)..] == t
  {
    hide ToBE, FromBE;
    Widths();
    FromToBE(4, Len(f));
  }

  lemma ParseOne(f: Frame, t: seq<byte>, max: nat)
    requires Fit(f, max)
    ensures var p := Parse(t, max);
            Parse(Print(f) + t, max) == Parsed([f] + p.frames, p.rest, p.stop)
  {
    hide FromBE, Print;
    HeaderOf(f, t);
  }

  /** A strict prefix of a frame is kept for later. */
  lemma ParsePart(f: Frame, k: nat, max: nat)
    requires Fit(f, max) && k < 4 + Len(f)
    ensures Parse(Print(f)[..k], max) == Parsed([], Print(f)[..k], NeedMore)
  {
    hide FromBE, Print;
    HeaderOf(f, []);
    assert Print(f) + [] == Print(f);
    if k >= 4 { assert Print(f)[..k][..4] == Print(f)[..4]; }
  }

  /**
   * Reading any prefix of a printed list of frames gives the whole frames in it, in order; what is
   * left over is shorter than one frame with its length field.
   */
  lemma {:induction false} ParsePrefix(fs: seq<Frame>, s: seq<byte>, len: nat, max: nat)
    requires AllFit(fs, len) && len <= max && s <= PrintAll(fs)
    ensures var p := Parse(s, max);
            && p.stop == NeedMore && p.frames <= fs && (p.rest == [] || |p.rest| <= len + 3)
            && (s == PrintAll(fs) ==> p.frames == fs && p.rest == [])
  {
    hide Parse, Print, FromBE;
    if fs == [] {
      ParseNothing(max);
    } else {
      var f, n := fs[0], 4 + Len(fs[0]);
      if |s| < n {
        assert s == Print(f)[..|s|];
        ParsePart(f, |s|, max);
      } else {
        var t := s[n..];
        assert s == Print(f) + t;
        assert t == PrintAll(fs[1..])[..|t|];
        ParsePrefix(fs[1..], t, len, max);
        ParseOne(f, t, max);
        assert fs == [f] + fs[1..];
      }
    }
  }

  lemma ParseNothing(max: nat)
    ensures Parse([], max) == Parsed([], [], NeedMore)
  {
  }

  /** One step of reading, when the stream is in order so far. */
  lemma ParseStep(s: seq<byte>, max: nat)
    requires |s| >= 4 && 1 <= FromBE(s[..4]) <= max
    ensures var n := 4 + FromBE(s[..4]);
            Parse(s, max) == if |s| < n then Parsed([], s, NeedMore)
                             else var p := Parse(s[n..], max);
                                  Parsed([Frame(s[4], s[5..n])] + p.frames, p.rest, p.stop)
  {
    hide FromBE;
  }

  lemma ParseInOrder(s: seq<byte>, max: nat)
    requires Parse(s, max).stop.NeedMore?
    ensures |s| >= 4 ==> 1 <= FromBE(s[..4]) <= max
    ensures |s| < 4 ==> Parse(s, max) == Parsed([], s, NeedMore)
  {
    hide FromBE;
  }

  /** Bytes may arrive in any pieces: reading on from what was left over is reading it all at once. */
  lemma {:induction false} ParseAppend(a: seq<byte>, b: seq<byte>, max: nat)
    requires Parse(a, max).stop.NeedMore?
    ensures var p := Parse(a, max);
            var q := Parse(p.rest + b, max);
            Parse(a + b, max) == Parsed(p.frames + q.frames, q.rest, q.stop)
    decreases |a|
  {
    hide FromBE, Parse;
    ParseInOrder(a, max);
    Nothing(Parse(a + b, max).frames);
    if |a| >= 4 {
      ParseStep(a, max);
      var n := 4 + FromBE(a[..4]);
      if |a| >= n {
        var tail := Parse(a[n..], max);
        ParseAppend(a[n..], b, max);
        SplitHeader(a, b, n);
        ParseStep(a + b, max);
        Assoc([Frame(a[4], a[5..n])], tail.frames, Parse(tail.rest + b, max).frames);
      }
    }
  }

  lemma SplitHeader(a: seq<byte>, b: seq<byte>, n: nat)
    requires 5 <= n <= |a|
    ensures (a + b)[..4] == a[..4] && (a + b)[4] == a[4] && (a + b)[5..n] == a[5..n]
    ensures (a + b)[n..] == a[n..] + b
  {
  }
}
