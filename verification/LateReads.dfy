/**
 * Reads that overlap with writes. The source resolves a fetch to a segment and its index under a
 * lock and reads the file after letting go of it, so anything may have been written in between.
 */
module LateReads {
  import opened Bytes
  import opened LogFormat
  import opened SegmentReader
  import opened OffsetIndex
  import opened Store
  import opened StoreRuns

  /** Resolve in `s`, read in `t`. */
  function LateFetch(s: State, t: State, offset: nat, max: nat): seq<Record> {
    match SegmentFor(s, offset)
    case None => []
    case Some(k) =>
      Wanted(Scan(Drop(Pick(t, k).log, Lookup(IndexOf(s, Pick(s, k)), offset))), offset, max)
  }

  // --------------------------------------------------------------- segments stay where they are

  /** Segment `k` of `s` is still segment `k` of `t`; its files have only grown. */
  predicate Stays(s: State, t: State, k: nat) {
    && Pick(t, k).base == Pick(s, k).base
    && LoadIndex(Pick(s, k).idx) <= LoadIndex(Pick(t, k).idx)
    && Records(Pick(s, k)) <= Records(Pick(t, k))
  }

  lemma StaysStep(s: State, a: Action, k: nat)
    requires Enabled(s, a) && Inv(s) && k <= |s.sealed|
    ensures |s.sealed| <= |Apply(s, a).sealed| && Stays(s, Apply(s, a), k)
    ensures Written(s) <= Written(Apply(s, a))
  {
    hide Inv, Written, LoadIndex, Accepted, Records;
    Step(s, a);
    if a.WriteIndex? {
      IndexGrows(s);
      SameLog(s.active, IndexOne(s).active);
    }
    if a.WriteLog? { LogGrows(s); }
  }

  lemma SameLog(g: Segment, h: Segment)
    requires g.log == h.log
    ensures Records(g) == Records(h)
  {
  }

  lemma LogGrows(s: State)
    requires Enabled(s, WriteLog) && Inv(s)
    ensures Records(s.active) <= Records(FlushBatch(s).active)
  {
    hide SealedOk, Clean, QueueOk, CacheOk, Cached, Records, EncodeLog;
    assert s.batch[..|s.batch|] == s.batch;
    LogCatchesUp(s.active, s.batch);
  }

  lemma IndexGrows(s: State)
    requires Enabled(s, WriteIndex) && Inv(s)
    ensures LoadIndex(s.active.idx) <= LoadIndex(IndexOne(s).active.idx)
  {
    hide SealedOk, Clean, QueueOk, CacheOk, Cached, LoadIndex, LogSize, Indexed, Records, Fits, EncodeEntry;
    var i := s.phase.done;
    NextToIndex(s);
    IndexNext(s.active, Ahead(s), s.batch[i]);
  }

  lemma NextToIndex(s: State)
    requires Enabled(s, WriteIndex) && Inv(s)
    ensures var r := s.batch[s.phase.done];
            && Clean(s.active, Ahead(s)) && Fits(r) && Ahead(s) == s.batch[..s.phase.done]
            && r.offset == s.active.base + |Records(s.active)| + |Ahead(s)|
            && s.fileBytes == |s.active.log| && |s.active.log| + LogSize(Ahead(s)) < U64
  {
    hide SealedOk, Clean, QueueOk, CacheOk, Cached, Records, Fits, LogSize;
    var rest, i := InFlight(s) + s.queue, s.phase.done;
    assert rest[i] == s.batch[i];
    LogSizeMonotone(s.batch, i, |s.batch|);
    assert s.batch[..|s.batch|] == s.batch;
  }

  lemma {:induction false} StaysRun(s: State, acts: seq<Action>, k: nat)
    requires Inv(s) && Run(s, acts).Some? && k <= |s.sealed|
    ensures var t := Run(s, acts).value;
            Inv(t) && |s.sealed| <= |t.sealed| && Stays(s, t, k) && Written(s) <= Written(t)
  {
    hide Inv, Enabled, Apply, Written, Pick, LoadIndex, Records;
    if acts != [] {
      var n := |acts| - 1;
      StaysRun(s, acts[..n], k);
      var t := Run(s, acts[..n]).value;
      Step(t, acts[n]);
      StaysStep(t, acts[n], k);
    }
  }

  // --------------------------------------------------------------- a late read

  /** Where the file that `offset` resolved to in `s` ends in `t`. */
  function LateEnd(s: State, t: State, offset: nat): nat {
    match SegmentFor(s, offset)
    case None => 0
    case Some(k) => if k < |t.sealed| then BaseAt(t.sealed, t.active.base, k + 1) else t.tail
  }

  lemma IndexKnown(s: State, k: nat)
    requires Inv(s) && k <= |s.sealed|
    ensures IndexOf(s, Pick(s, k)) <= LoadIndex(Pick(s, k).idx)
  {
    hide SealedOk, ActiveOk, QueueOk, OffsetsOk, PhaseOk, LoadIndex;
  }

  /** So that the binary search finds what the model looks up. */
  lemma IndexSorted(s: State, k: nat)
    requires Inv(s) && k <= |s.sealed|
    ensures Sorted(IndexOf(s, Pick(s, k)))
  {
    hide Scan, EncodeLog, EncodeIndex, Due, LoadIndex, AllFit, EntriesFit, QueueOk, OffsetsOk, PhaseOk;
    var g := Pick(s, k);
    var all := Records(g) + if k < |s.sealed| then [] else Ahead(s);
    LoadEncoded(Due(all, g.base, 0));
    DueBounds(all, g.base, 0, g.base);
  }

  lemma SegmentClean(s: State, k: nat)
    requires Inv(s) && k <= |s.sealed|
    ensures Clean(Pick(s, k), if k < |s.sealed| then [] else Ahead(s))
  {
    hide Clean, QueueOk, OffsetsOk, PhaseOk, CacheOk, Cached, Records;
  }

  /**
   * Whatever happens between resolving and reading, appends, batches and rotations included: the
   * read returns the log as it is when read, from exactly the offset asked for, without gap or
   * repeat, up to `max` records or the end of the file that was resolved.
   */
  lemma LateFetchIsSlice(s: State, acts: seq<Action>, offset: nat, max: nat)
    requires Inv(s) && Run(s, acts).Some?
    ensures var t := Run(s, acts).value;
            var end := LateEnd(s, t, offset);
            && FetchEnd(s, offset) <= end <= |Written(t)| && Written(s) <= Written(t)
            && LateFetch(s, t, offset, max) ==
               if offset < end then Take(Written(t)[offset..end], max) else []
  {
    hide Inv, Run, Written, Scan, LoadIndex, Lookup, Wanted, Clean, Records, SegmentFor, BaseAt, FetchEnd, IndexOf;
    hide Pick;
    Resolves(s, offset);
    var k, t := SegmentFor(s, offset).value, Run(s, acts).value;
    StaysRun(s, acts, k);
    IndexKnown(s, k);
    SegmentClean(t, k);
    FetchSegment(Pick(t, k), if k < |t.sealed| then [] else Ahead(t), IndexOf(s, Pick(s, k)), offset, max);
    SliceOfWritten(t, k);
    LaterSlice(t, k, offset, max);
    EndsLater(s, acts, offset);
  }

  lemma LaterSlice(t: State, k: nat, offset: nat, max: nat)
    requires Inv(t) && k <= |t.sealed| && Pick(t, k).base <= offset && Contiguous(Records(Pick(t, k)), Pick(t, k).base)
    ensures var end := if k < |t.sealed| then BaseAt(t.sealed, t.active.base, k + 1) else t.tail;
            && end <= |Written(t)|
            && Wanted(Records(Pick(t, k)), offset, max) ==
               if offset < end then Take(Written(t)[offset..end], max) else []
  {
    hide Inv, Written, Records, BaseAt, Pick, AtLeast, Take;
    var g := Pick(t, k);
    SliceOfWritten(t, k);
    AtLeastContiguous(Records(g), g.base, offset);
    var end := if k < |t.sealed| then BaseAt(t.sealed, t.active.base, k + 1) else t.tail;
    if offset < end { TwoSlices(Written(t), g.base, end, offset); } else { TakeNothing<Record>(max); }
  }

  lemma TakeNothing<T>(max: nat)
    ensures Take<T>([], max) == []
  {
  }

  lemma EndsLater(s: State, acts: seq<Action>, offset: nat)
    requires Inv(s) && Run(s, acts).Some?
    ensures FetchEnd(s, offset) <= LateEnd(s, Run(s, acts).value, offset)
  {
    hide Inv, Run, Written, LoadIndex, Records, SegmentFor, BaseAt, FetchEnd, Pick;
    Resolves(s, offset);
    var k, t := SegmentFor(s, offset).value, Run(s, acts).value;
    StaysRun(s, acts, k);
    EndOf(s, t, k, acts);
  }

  lemma EndOf(s: State, t: State, k: nat, acts: seq<Action>)
    requires Inv(s) && Run(s, acts) == Some(t) && k <= |s.sealed| <= |t.sealed|
    ensures (if k < |s.sealed| then BaseAt(s.sealed, s.active.base, k + 1) else s.tail)
         <= (if k < |t.sealed| then BaseAt(t.sealed, t.active.base, k + 1) else t.tail)
  {
    hide Inv, Run, Written, LoadIndex, Records;
    StaysRun(s, acts, k);
    SliceOfWritten(s, k);
    SliceOfWritten(t, k);
  }

  // --------------------------------------------------------------- catching up with a growing log

  const FETCH_BATCH: nat := 128

  /**
   * What a catch-up sends when others write meanwhile: `gaps[i]` happens between resolving and
   * reading in round `i`. It ends at the committed offset, or when a read returns nothing.
   */
  function Sent(s: State, offset: nat, gaps: seq<seq<Action>>): seq<Record>
    decreases |gaps|
  {
    if gaps == [] || offset >= s.committed || Run(s, gaps[0]).None? then []
    else
      var t := Run(s, gaps[0]).value;
      var got := LateFetch(s, t, offset, FETCH_BATCH);
      if got == [] then [] else got + Sent(t, offset + |got|, gaps[1..])
  }

  function FinalState(s: State, gaps: seq<seq<Action>>): Option<State>
    decreases |gaps|
  {
    if gaps == [] then Some(s)
    else if Run(s, gaps[0]).None? then None
    else FinalState(Run(s, gaps[0]).value, gaps[1..])
  }

  lemma {:induction false} LaterInv(s: State, gaps: seq<seq<Action>>)
    requires Inv(s) && FinalState(s, gaps).Some?
    ensures Inv(FinalState(s, gaps).value) && Written(s) <= Written(FinalState(s, gaps).value)
    decreases |gaps|
  {
    hide Inv, Run, Written;
    if gaps != [] {
      StaysRun(s, gaps[0], 0);
      LaterInv(Run(s, gaps[0]).value, gaps[1..]);
    }
  }

  /** These records are the log from `offset` on, as far as they go. */
  predicate From(all: seq<Record>, offset: nat, rs: seq<Record>) {
    offset + |rs| <= |all| && rs == all[offset..offset + |rs|]
  }

  /**
   * However the log grows and rotates meanwhile, a catch-up sends consecutive records from exactly
   * the offset it was asked for, each once, and all of them as they stand in the log. From the
   * committed offset on it sends nothing.
   */
  lemma {:induction false} CatchUpIsSlice(s: State, offset: nat, gaps: seq<seq<Action>>)
    requires Inv(s) && FinalState(s, gaps).Some?
    ensures offset <= |Written(s)| ==> From(Written(FinalState(s, gaps).value), offset, Sent(s, offset, gaps))
    ensures offset >= s.committed ==> Sent(s, offset, gaps) == []
    ensures s.committed <= |Written(s)|
    decreases |gaps|
  {
    hide Inv, Run, Written, LateFetch, From;
    LaterInv(s, gaps);
    CommittedRange(s);
    var all := Written(FinalState(s, gaps).value);
    FromNothing(all, offset);
    if gaps != [] {
      var t := Run(s, gaps[0]).value;
      var got := LateFetch(s, t, offset, FETCH_BATCH);
      if offset < s.committed && got != [] {
        Round(s, gaps[0], offset);
        StaysRun(s, gaps[0], 0);
        LaterInv(t, gaps[1..]);
        CatchUpIsSlice(t, offset + |got|, gaps[1..]);
        Onwards(Written(t), all, offset, got, Sent(t, offset + |got|, gaps[1..]));
      }
    }
  }

  lemma Round(s: State, acts: seq<Action>, offset: nat)
    requires Inv(s) && Run(s, acts).Some?
    ensures var t := Run(s, acts).value;
            var got := LateFetch(s, t, offset, FETCH_BATCH);
            got != [] ==> From(Written(t), offset, got) && offset + |got| <= |Written(t)|
  {
    hide Inv, Run, Written, LateFetch, LateEnd, FetchEnd;
    LateFetchIsSlice(s, acts, offset, FETCH_BATCH);
  }

  lemma FromNothing(all: seq<Record>, offset: nat)
    ensures offset <= |all| ==> From(all, offset, [])
  {
  }

  lemma Onwards(part: seq<Record>, all: seq<Record>, offset: nat, got: seq<Record>, sent: seq<Record>)
    requires part <= all && From(part, offset, got) && From(all, offset + |got|, sent)
    ensures From(all, offset, got + sent)
  {
  }
}
