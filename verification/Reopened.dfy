/** A store that comes back after a crash with its index as it was: every read of every later run. */
module Reopened {
  import opened Bytes
  import opened LogFormat
  import opened SegmentReader
  import opened OffsetIndex
  import opened Store
  import opened StoreRuns
  import opened LateReads
  import opened Batches
  import opened Recovery
  import opened StaleIndex

  /** A fetch returns the written log from the offset asked for, to the end of the file it resolved to. */
  predicate RightFetch(s: State, offset: nat, max: nat) {
    var end := FetchEnd(s, offset);
    && end <= |Written(s)|
    && Fetch(s, offset, max) == if offset < end then Take(Written(s)[offset..end], max) else []
  }

  // --------------------------------------------------------------- one entry too many

  /** The index file with one more entry after its first `n`. */
  function Padded(g: Segment, n: nat, e: Entry): Segment
    requires 16 * n <= |g.idx|
  {
    g.(idx := g.idx[..16 * n] + EncodeEntry(e) + g.idx[16 * n..])
  }

  function PadCache(cache: map<nat, seq<Entry>>, base: nat, n: nat, e: Entry): map<nat, seq<Entry>>
    requires base in cache ==> n <= |cache[base]|
  {
    if base in cache then cache[base := InsertAt(cache[base], n, e)] else cache
  }

  /** Segment `k` can be given one more entry after its first `n`. */
  predicate HasRoom(s: State, k: nat, n: nat) {
    && k <= |s.sealed| && 16 * n <= |Pick(s, k).idx|
    && (Pick(s, k).base in s.cache ==> n <= |s.cache[Pick(s, k).base]|)
  }

  /** The store whose segment `k` has that entry, in the file and in the cached index. */
  function Haunted(s: State, k: nat, n: nat, e: Entry): State
    requires HasRoom(s, k, n)
  {
    s.(sealed := if k < |s.sealed| then s.sealed[k := Padded(s.sealed[k], n, e)] else s.sealed,
       active := if k < |s.sealed| then s.active else Padded(s.active, n, e),
       cache := PadCache(s.cache, Pick(s, k).base, n, e))
  }

  lemma LoadPadded(idx: seq<byte>, n: nat, e: Entry)
    requires 16 * n <= |idx| && e.offset < U64 && e.position < U64
    ensures n <= |LoadIndex(idx)|
    ensures LoadIndex(idx[..16 * n] + EncodeEntry(e) + idx[16 * n..]) == InsertAt(LoadIndex(idx), n, e)
  {
    hide EntryAt, EncodeEntry;
    var file, es := idx[..16 * n] + EncodeEntry(e) + idx[16 * n..], LoadIndex(idx);
    assert |file| == |idx| + 16;
    forall i | 0 <= i < |es| + 1
      ensures LoadIndex(file)[i] == InsertAt(es, n, e)[i]
    {
      PaddedAt(idx, n, e, i);
    }
  }

  lemma PaddedAt(idx: seq<byte>, n: nat, e: Entry, i: nat)
    requires 16 * n <= |idx| && i <= |idx| / 16 && e.offset < U64 && e.position < U64
    ensures var file := idx[..16 * n] + EncodeEntry(e) + idx[16 * n..];
            && 16 * i + 16 <= |file|
            && EntryAt(file, i) == if i < n then EntryAt(idx, i) else if i == n then e else EntryAt(idx, i - 1)
  {
    hide FromBE, ToBE;
    var file := idx[..16 * n] + EncodeEntry(e) + idx[16 * n..];
    if i < n {
      assert file[16 * i..16 * i + 8] == idx[16 * i..16 * i + 8];
      assert file[16 * i + 8..16 * i + 16] == idx[16 * i + 8..16 * i + 16];
    } else if i == n {
      Widths();
      FromToBE(8, e.offset);
      FromToBE(8, e.position);
      assert file[16 * i..16 * i + 8] == ToBE(8, e.offset);
      assert file[16 * i + 8..16 * i + 16] == ToBE(8, e.position);
    } else {
      var j := i - 1;
      assert file[16 * i..16 * i + 8] == idx[16 * j..16 * j + 8];
      assert file[16 * i + 8..16 * i + 16] == idx[16 * j + 8..16 * j + 16];
    }
  }

  // --------------------------------------------------------------- it haunts every action alike

  lemma SameBases(s: State, k: nat, n: nat, e: Entry)
    requires HasRoom(s, k, n)
    ensures var t := Haunted(s, k, n, e);
            && |t.sealed| == |s.sealed| && t.active.base == s.active.base && t.active.log == s.active.log
            && t.tail == s.tail
            && (forall i :: 0 <= i < |s.sealed| ==>
                  t.sealed[i].base == s.sealed[i].base && t.sealed[i].log == s.sealed[i].log)
            && (forall i: nat :: i <= |s.sealed| ==>
                  Pick(t, i).base == Pick(s, i).base && Pick(t, i).log == Pick(s, i).log)
  {
    hide EncodeEntry;
  }

  lemma {:induction false} SameStart(gs: seq<Segment>, hs: seq<Segment>, offset: nat)
    requires |gs| == |hs| && forall i :: 0 <= i < |gs| ==> gs[i].base == hs[i].base
    ensures StartedBy(gs, offset) == StartedBy(hs, offset)
  {
    if gs != [] && gs[|gs| - 1].base > offset { SameStart(gs[..|gs| - 1], hs[..|hs| - 1], offset); }
  }

  lemma SameSegmentFor(s: State, k: nat, n: nat, e: Entry, offset: nat)
    requires HasRoom(s, k, n)
    ensures SegmentFor(Haunted(s, k, n, e), offset) == SegmentFor(s, offset)
    ensures FetchEnd(Haunted(s, k, n, e), offset) == FetchEnd(s, offset)
  {
    hide Haunted, HasRoom, StartedBy;
    SameBases(s, k, n, e);
    SameStart(Haunted(s, k, n, e).sealed, s.sealed, offset);
  }

  /** Actions that leave the index files and the cache alone. */
  predicate Plain(s: State, a: Action) {
    match a
    case WriteIndex => false
    case LoadCache(_) => false
    case Finish => s.fileBytes < SEGMENT_MAX_BYTES
    case _ => true
  }

  lemma PlainStep(s: State, k: nat, n: nat, e: Entry, a: Action)
    requires HasRoom(s, k, n) && Enabled(s, a) && Plain(s, a)
    ensures Enabled(Haunted(s, k, n, e), a) && HasRoom(Apply(s, a), k, n)
    ensures Apply(Haunted(s, k, n, e), a) == Haunted(Apply(s, a), k, n, e)
  {
    hide Padded, PadCache, LogSize, EncodeLog;
    PaddedLog(s, k, n, e);
  }

  lemma PaddedLog(s: State, k: nat, n: nat, e: Entry)
    requires HasRoom(s, k, n)
    ensures k == |s.sealed| ==>
              var log := s.active.log + EncodeLog(s.batch);
              Padded(s.active.(log := log), n, e) == Padded(s.active, n, e).(log := log)
    ensures k == |s.sealed| ==> Padded(s.active, n, e).base == s.active.base && Padded(s.active, n, e).log == s.active.log
  {
    hide EncodeEntry, EncodeLog;
  }

  lemma IndexStep(s: State, k: nat, n: nat, e: Entry)
    requires HasRoom(s, k, n) && Enabled(s, WriteIndex)
    ensures Enabled(Haunted(s, k, n, e), WriteIndex) && HasRoom(IndexOne(s), k, n)
    ensures IndexOne(Haunted(s, k, n, e)) == Haunted(IndexOne(s), k, n, e)
  {
    hide EncodeEntry, LogSize, InsertAt, DueNow;
    var i := s.phase.done;
    var more := DueNow(s.batch[i], s.active.base, s.fileBytes + LogSize(s.batch[..i]));
    if k == |s.sealed| { PadMore(s.active.idx, n, e, more); }
  }

  lemma PadMore(idx: seq<byte>, n: nat, e: Entry, more: seq<byte>)
    requires 16 * n <= |idx|
    ensures idx[..16 * n] + EncodeEntry(e) + idx[16 * n..] + more
         == (idx + more)[..16 * n] + EncodeEntry(e) + (idx + more)[16 * n..]
  {
    hide EncodeEntry;
  }

  lemma RotateHaunted(s: State, k: nat, n: nat, e: Entry)
    requires HasRoom(s, k, n) && (k < |s.sealed| ==> s.sealed[k].base != s.active.base)
    ensures HasRoom(Rotate(s), k, n) && Rotate(Haunted(s, k, n, e)) == Haunted(Rotate(s), k, n, e)
  {
    hide EncodeEntry, InsertAt;
    var h := Haunted(s, k, n, e);
    if k < |s.sealed| {
      var g := Padded(s.sealed[k], n, e);
      assert s.sealed[k := g] + [s.active] == (s.sealed + [s.active])[k := g];
      PadErase(s.cache, s.sealed[k].base, s.active.base, n, e);
    } else {
      assert s.sealed + [Padded(s.active, n, e)] == (s.sealed + [s.active])[k := Padded(s.active, n, e)];
      PadErased(s.cache, s.active.base, n, e);
    }
  }

  lemma PadErase(cache: map<nat, seq<Entry>>, base: nat, other: nat, n: nat, e: Entry)
    requires base != other && (base in cache ==> n <= |cache[base]|)
    ensures PadCache(cache, base, n, e) - {other} == PadCache(cache - {other}, base, n, e)
  {
    hide InsertAt;
  }

  lemma PadErased(cache: map<nat, seq<Entry>>, base: nat, n: nat, e: Entry)
    requires base in cache ==> n <= |cache[base]|
    ensures PadCache(cache, base, n, e) - {base} == cache - {base} == PadCache(cache - {base}, base, n, e)
  {
    hide InsertAt;
  }

  lemma LoadHaunted(s: State, k: nat, n: nat, e: Entry, offset: nat)
    requires HasRoom(s, k, n) && e.offset < U64 && e.position < U64
    requires forall i: nat :: i <= |s.sealed| && i != k ==> Pick(s, i).base != Pick(s, k).base
    ensures HasRoom(Apply(s, LoadCache(offset)), k, n)
    ensures Apply(Haunted(s, k, n, e), LoadCache(offset)) == Haunted(Apply(s, LoadCache(offset)), k, n, e)
  {
    hide EncodeEntry, InsertAt, LoadIndex, SegmentFor;
    SameSegmentFor(s, k, n, e, offset);
    SameBases(s, k, n, e);
    LoadPadded(Pick(s, k).idx, n, e);
    var h := Haunted(s, k, n, e);
    var j := SegmentFor(s, offset);
    if j.Some? {
      var g, b := Pick(s, j.value), Pick(s, k).base;
      if g.base !in s.cache { PadLoad(s.cache, b, n, e, g.base, LoadIndex(g.idx)); }
    }
  }

  lemma PadLoad(cache: map<nat, seq<Entry>>, base: nat, n: nat, e: Entry, other: nat, es: seq<Entry>)
    requires (base in cache ==> n <= |cache[base]|) && other !in cache && (base == other ==> n <= |es|)
    ensures PadCache(cache, base, n, e)[other := if other == base then InsertAt(es, n, e) else es]
         == PadCache(cache[other := es], base, n, e)
  {
  }

  lemma DistinctBases(s: State, k: nat)
    requires Inv(s) && k <= |s.sealed|
    ensures forall i: nat :: i <= |s.sealed| && i != k ==> Pick(s, i).base != Pick(s, k).base
  {
    hide Inv, Records, SealedOk;
    BasesAreOk(s);
    forall i: nat | i <= |s.sealed| && i != k
      ensures Pick(s, i).base != Pick(s, k).base
    {
      BasesIncrease(s.sealed, s.active.base, if i < k then i else k, if i < k then k else i);
    }
  }

  lemma SameEnabled(s: State, k: nat, n: nat, e: Entry, a: Action)
    requires HasRoom(s, k, n)
    ensures Enabled(Haunted(s, k, n, e), a) <==> Enabled(s, a)
  {
    hide EncodeEntry, InsertAt, LogSize;
  }

  lemma HauntedStep(s: State, k: nat, n: nat, e: Entry, a: Action)
    requires Inv(s) && HasRoom(s, k, n) && Enabled(s, a) && e.offset < U64 && e.position < U64
    ensures Enabled(Haunted(s, k, n, e), a) && HasRoom(Apply(s, a), k, n)
    ensures Apply(Haunted(s, k, n, e), a) == Haunted(Apply(s, a), k, n, e)
  {
    hide Inv, Haunted, HasRoom, SegmentFor, LogSize;
    SameEnabled(s, k, n, e, a);
    if Plain(s, a) {
      PlainStep(s, k, n, e, a);
    } else {
      Inside(s, k, n, e);
      DistinctBases(s, k);
      match a
      case WriteIndex => IndexStep(s, k, n, e);
      case LoadCache(offset) => LoadHaunted(s, k, n, e, offset);
      case Finish => RotateHaunted(s, k, n, e);
    }
  }

  lemma Inside(s: State, k: nat, n: nat, e: Entry)
    requires HasRoom(s, k, n)
    ensures k <= |s.sealed| && Haunted(s, k, n, e).fileBytes == s.fileBytes
    ensures (forall i: nat :: i <= |s.sealed| && i != k ==> Pick(s, i).base != Pick(s, k).base) && k < |s.sealed| ==>
              s.sealed[k].base != s.active.base
  {
    hide EncodeEntry;
    if k < |s.sealed| { assert Pick(s, |s.sealed|).base == s.active.base; }
  }

  // --------------------------------------------------------------- and no fetch

  /** Segment `k` begins with `keep`, and an index entry is due right after that. */
  predicate BeginsWith(s: State, k: nat, keep: seq<Record>) {
    k <= |s.sealed| && keep <= Records(Pick(s, k)) && AtMark(keep)
  }

  lemma {:induction false} SameRecords(gs: seq<Segment>, hs: seq<Segment>)
    requires |gs| == |hs| && forall i :: 0 <= i < |gs| ==> gs[i].log == hs[i].log
    ensures SegmentRecords(gs) == SegmentRecords(hs)
  {
    if gs != [] { SameRecords(gs[..|gs| - 1], hs[..|hs| - 1]); }
  }

  lemma SameWritten(s: State, k: nat, n: nat, e: Entry)
    requires HasRoom(s, k, n)
    ensures Written(Haunted(s, k, n, e)) == Written(s)
  {
    hide Haunted, HasRoom, SegmentRecords;
    SameBases(s, k, n, e);
    SameRecords(Haunted(s, k, n, e).sealed, s.sealed);
  }

  lemma PaddedIndex(s: State, k: nat, n: nat, e: Entry, j: nat)
    requires HasRoom(s, k, n) && j <= |s.sealed| && e.offset < U64 && e.position < U64
    requires forall i: nat :: i <= |s.sealed| && i != k ==> Pick(s, i).base != Pick(s, k).base
    ensures var h := Haunted(s, k, n, e);
            && n <= |IndexOf(s, Pick(s, k))|
            && IndexOf(h, Pick(h, j)) == if j == k then InsertAt(IndexOf(s, Pick(s, k)), n, e) else IndexOf(s, Pick(s, j))
  {
    hide EncodeEntry, InsertAt, LoadIndex;
    LoadPadded(Pick(s, k).idx, n, e);
  }

  /** Reading segment `k` through the longer index gives its records all the same. */
  lemma KeptRight(g: Segment, ahead: seq<Record>, keep: seq<Record>, es: seq<Entry>, offset: nat, max: nat)
    requires Clean(g, ahead) && keep <= Records(g) && AtMark(keep) && g.base + |keep| < U64
    requires es <= LoadIndex(g.idx) && |Due(keep, g.base, 0)| <= |es|
    ensures Wanted(Scan(Drop(g.log, Lookup(InsertAt(es, |Due(keep, g.base, 0)|, Mark(keep, g.base)), offset))), offset, max)
         == Wanted(Records(g), offset, max)
  {
    hide Scan, EncodeLog, Due, EncodeIndex, LoadIndex, Lookup, Wanted, AllFit, EntriesFit, InsertAt, AtMark, LogSize;
    var all := Records(g) + ahead;
    var more := all[|keep|..];
    assert all == keep + more;
    LoadEncoded(Due(all, g.base, 0));
    EncodeLogAppend(Records(g), ahead);
    InsertRight(keep, more, g.base, g.log, es, offset, max);
  }

  lemma HauntedFetch(s: State, k: nat, keep: seq<Record>, offset: nat, max: nat)
    requires Inv(s) && BeginsWith(s, k, keep) && HasRoom(s, k, |Due(keep, Pick(s, k).base, 0)|)
    requires Pick(s, k).base + |keep| < U64 && LogSize(keep) < U64
    ensures var h := Haunted(s, k, |Due(keep, Pick(s, k).base, 0)|, Mark(keep, Pick(s, k).base));
            RightFetch(h, offset, max)
  {
    hide Inv, Haunted, HasRoom, Written, Scan, Wanted, Lookup, Due, InsertAt, SegmentFor, FetchEnd, IndexOf, Records;
    hide LoadIndex, LogSize, AtMark, Pick, Take;
    var g := Pick(s, k);
    var n, e := |Due(keep, g.base, 0)|, Mark(keep, g.base);
    var h := Haunted(s, k, n, e);
    SameSegmentFor(s, k, n, e, offset);
    SameBases(s, k, n, e);
    SameWritten(s, k, n, e);
    DistinctBases(s, k);
    Resolves(s, offset);
    var j := SegmentFor(s, offset).value;
    PaddedIndex(s, k, n, e, j);
    FetchIsSlice(s, offset, max);
    if j == k {
      IndexKnown(s, k);
      SegmentClean(s, k);
      KeptRight(g, if k < |s.sealed| then [] else Ahead(s), keep, IndexOf(s, g), offset, max);
      FetchSegment(g, if k < |s.sealed| then [] else Ahead(s), IndexOf(s, g), offset, max);
    }
  }

  /** Every index, cached or on disk, is in order, as the binary search needs it. */
  ghost predicate IndexesSorted(s: State) {
    forall k: nat :: k <= |s.sealed| ==> Sorted(IndexOf(s, Pick(s, k)))
  }

  lemma InsertSorted(keep: seq<Record>, more: seq<Record>, base: nat, es: seq<Entry>)
    requires Contiguous(keep + more, base) && es <= Due(keep + more, base, 0) && |Due(keep, base, 0)| <= |es|
    ensures Sorted(InsertAt(es, |Due(keep, base, 0)|, Mark(keep, base)))
  {
    hide Due, LogSize;
    var d, n := Due(keep, base, 0), |Due(keep, base, 0)|;
    DueAppend(keep, more, base, 0);
    assert forall i :: 0 <= i < |keep| ==> keep[i] == (keep + more)[i];
    assert forall i :: 0 <= i < |more| ==> more[i] == (keep + more)[|keep| + i];
    DueBounds(keep, base, 0, base);
    DueBounds(more, base, LogSize(keep), base + |keep|);
    DueBounds(keep + more, base, 0, base);
    assert forall i :: 0 <= i < n ==> es[i] == d[i];
    assert forall i :: n <= i < |es| ==> es[i] == Due(more, base, LogSize(keep))[i - n];
  }

  lemma KeptSorted(g: Segment, ahead: seq<Record>, keep: seq<Record>, es: seq<Entry>)
    requires Clean(g, ahead) && keep <= Records(g) && es <= LoadIndex(g.idx) && |Due(keep, g.base, 0)| <= |es|
    ensures Sorted(InsertAt(es, |Due(keep, g.base, 0)|, Mark(keep, g.base)))
  {
    hide Scan, EncodeLog, Due, EncodeIndex, LoadIndex, AllFit, InsertAt, LogSize, Sorted;
    var all := Records(g) + ahead;
    var more := all[|keep|..];
    assert all == keep + more;
    LoadEncoded(Due(all, g.base, 0));
    InsertSorted(keep, more, g.base, es);
  }

  lemma AllSorted(s: State)
    requires Inv(s)
    ensures IndexesSorted(s)
  {
    hide Inv, IndexOf, Pick, Sorted;
    forall k: nat | k <= |s.sealed| ensures Sorted(IndexOf(s, Pick(s, k))) { IndexSorted(s, k); }
  }

  lemma HauntedSorted(s: State, k: nat, keep: seq<Record>)
    requires Inv(s) && BeginsWith(s, k, keep) && HasRoom(s, k, |Due(keep, Pick(s, k).base, 0)|)
    requires Pick(s, k).base + |keep| < U64 && LogSize(keep) < U64
    ensures IndexesSorted(Haunted(s, k, |Due(keep, Pick(s, k).base, 0)|, Mark(keep, Pick(s, k).base)))
  {
    hide Inv, Haunted, HasRoom, Due, InsertAt, IndexOf, Records, LoadIndex, LogSize, AtMark, Pick, Sorted;
    var g := Pick(s, k);
    var n, e := |Due(keep, g.base, 0)|, Mark(keep, g.base);
    var h := Haunted(s, k, n, e);
    SameBases(s, k, n, e);
    DistinctBases(s, k);
    IndexKnown(s, k);
    SegmentClean(s, k);
    forall j: nat | j <= |h.sealed|
      ensures Sorted(IndexOf(h, Pick(h, j)))
    {
      PaddedIndex(s, k, n, e, j);
      if j == k {
        KeptSorted(g, if k < |s.sealed| then [] else Ahead(s), keep, IndexOf(s, g));
      } else {
        IndexSorted(s, j);
      }
    }
  }

  // --------------------------------------------------------------- over whole runs

  lemma {:induction false} HauntedRun(s: State, k: nat, n: nat, e: Entry, acts: seq<Action>)
    requires Inv(s) && HasRoom(s, k, n) && e.offset < U64 && e.position < U64
    requires Run(Haunted(s, k, n, e), acts).Some?
    ensures Run(s, acts).Some?
    ensures var t := Run(s, acts).value;
            Inv(t) && HasRoom(t, k, n) && Run(Haunted(s, k, n, e), acts) == Some(Haunted(t, k, n, e))
  {
    hide Inv, Haunted, HasRoom, Enabled, Apply;
    if acts != [] {
      var m := |acts| - 1;
      HauntedRun(s, k, n, e, acts[..m]);
      var t := Run(s, acts[..m]).value;
      SameEnabled(t, k, n, e, acts[m]);
      Step(t, acts[m]);
      HauntedStep(t, k, n, e, acts[m]);
    }
  }

  lemma HauntedReads(s: State, k: nat, keep: seq<Record>, acts: seq<Action>, offset: nat, max: nat)
    requires Inv(s) && BeginsWith(s, k, keep) && HasRoom(s, k, |Due(keep, Pick(s, k).base, 0)|)
    requires Pick(s, k).base + |keep| < U64 && LogSize(keep) < U64
    requires Run(Haunted(s, k, |Due(keep, Pick(s, k).base, 0)|, Mark(keep, Pick(s, k).base)), acts).Some?
    ensures var h := Haunted(s, k, |Due(keep, Pick(s, k).base, 0)|, Mark(keep, Pick(s, k).base));
            RightFetch(Run(h, acts).value, offset, max) && IndexesSorted(Run(h, acts).value)
  {
    hide Inv, Haunted, HasRoom, Due, Records, LoadIndex, LogSize, AtMark, Pick, Run, RightFetch, IndexesSorted;
    var base := Pick(s, k).base;
    HauntedRun(s, k, |Due(keep, base, 0)|, Mark(keep, base), acts);
    StaysRun(s, acts, k);
    HauntedFetch(Run(s, acts).value, k, keep, offset, max);
    HauntedSorted(Run(s, acts).value, k, keep);
  }

  /** The store that would have come back had the index been cut with the log. */
  function CutBack(options: Options, s: State, k: nat): State
    requires k <= |s.active.log|
  {
    var t := AfterCrash(options, s, k);
    t.(active := t.active.(idx := EncodeIndex(Due(Records(t.active), t.active.base, 0))))
  }

  lemma CutBackInv(options: Options, s: State, k: nat)
    requires k <= |s.active.log| && Inv(s)
    ensures Inv(CutBack(options, s, k))
  {
    hide Inv, Scan, EncodeLog, LogSize, WholeRecords, Due, EncodeIndex, SegmentRecords;
    var t := AfterCrash(options, s, k);
    var idx := EncodeIndex(Due(Records(t.active), t.active.base, 0));
    RecoveredInv(options, s, k, idx);
    var lost := CrashSplit(options, s, k);
    var keep := Records(t.active);
    SameLog(t.active, t.active.(idx := idx));
    Nothing(keep);
  }

  /** What a crash leaves: the log of the records kept, the index of those and of the lost. */
  lemma CrashSplit(options: Options, s: State, k: nat) returns (lost: seq<Record>)
    requires k <= |s.active.log| && Inv(s)
    ensures var t := AfterCrash(options, s, k);
            var keep, es := Records(t.active), Due(Records(t.active) + lost, t.active.base, 0);
            && t.active.log == EncodeLog(keep) && t.active.base == s.active.base && t.tail == t.active.base + |keep|
            && AllFit(keep + lost) && Contiguous(keep + lost, t.active.base)
            && AllFit(keep) && Contiguous(keep, t.active.base)
            && EntriesFit(es) && t.active.idx == EncodeIndex(es) && LoadIndex(t.active.idx) == es
            && EntriesFit(Due(keep, t.active.base, 0)) && t.cache == map[] && t.sealed == s.sealed
  {
    hide Inv, Scan, EncodeLog, WholeRecords, Due, LoadIndex, EncodeIndex, SegmentRecords;
    RecoveredTail(s, k);
    CrashRecovery(options, s, k);
    ActiveClean(s);
    var rs, m := Records(s.active), WholeRecords(Records(s.active), k);
    var all := rs + Ahead(s);
    lost := rs[m..] + Ahead(s);
    assert all == rs[..m] + lost;
    LoadEncoded(Due(all, s.active.base, 0));
    DueAppend(rs[..m], lost, s.active.base, 0);
    FitParts(Due(rs[..m], s.active.base, 0), Due(lost, s.active.base, LogSize(rs[..m])));
    KeptFits(rs[..m], lost, s.active.base);
    assert AfterCrash(options, s, k).active == s.active.(log := EncodeLog(rs[..m]));
  }

  lemma FitParts(a: seq<Entry>, b: seq<Entry>)
    requires EntriesFit(a + b)
    ensures EntriesFit(a)
  {
    assert forall i :: 0 <= i < |a| ==> a[i] == (a + b)[i];
  }

  /** An index with no entry past the tail is the right one, or has the entry for the tail besides. */
  lemma TailOnly(options: Options, s: State, k: nat)
    requires k <= |s.active.log| && Inv(s)
    requires NoEntryPast(LoadIndex(AfterCrash(options, s, k).active.idx), AfterCrash(options, s, k).tail)
    ensures var t, u := AfterCrash(options, s, k), CutBack(options, s, k);
            var keep, base := Records(t.active), t.active.base;
            var n := |Due(keep, base, 0)|;
            t == u || (&& AtMark(keep) && base + |keep| < U64 && LogSize(keep) < U64
                       && HasRoom(u, |u.sealed|, n) && t == Haunted(u, |u.sealed|, n, Mark(keep, base)))
  {
    hide Inv, Scan, EncodeLog, WholeRecords, Due, LoadIndex, EncodeIndex, SegmentRecords, EncodeEntry, LogSize;
    hide AtMark, AfterCrash;
    var t, u := AfterCrash(options, s, k), CutBack(options, s, k);
    var lost := CrashSplit(options, s, k);
    var keep, base := Records(t.active), t.active.base;
    var d, e := Due(keep, base, 0), Mark(keep, base);
    EntriesAtTail(keep, lost, base);
    if lost != [] && AtMark(keep) {
      EncodeIndexLast(d, e);
      LastFits(d, e);
      var x := EncodeIndex(d);
      assert x[..16 * |d|] == x && x[16 * |d|..] == [];
      Nothing(x + EncodeEntry(e));
      assert (keep + lost)[|keep|] == lost[0];
    } else {
      Nothing(d);
    }
  }

  lemma LastFits(d: seq<Entry>, e: Entry)
    requires EntriesFit(d + [e])
    ensures e.offset < U64 && e.position < U64
  {
    assert (d + [e])[|d|] == e;
  }

  /**
   * A store comes back after a crash at any byte of any run. If no entry of its index is past the
   * tail, then after every list of actions, batches, rotations and cached indexes included, every
   * fetch is right, and every index it may use is in order.
   */
  lemma ReopenedReadsRight(options: Options, s: State, k: nat, acts: seq<Action>, offset: nat, max: nat)
    requires k <= |s.active.log| && Inv(s) && Run(AfterCrash(options, s, k), acts).Some?
    requires NoEntryPast(LoadIndex(AfterCrash(options, s, k).active.idx), AfterCrash(options, s, k).tail)
    ensures RightFetch(Run(AfterCrash(options, s, k), acts).value, offset, max)
    ensures IndexesSorted(Run(AfterCrash(options, s, k), acts).value)
  {
    hide Inv, Run, Due, LoadIndex, EncodeIndex, LogSize, AtMark, AfterCrash, Haunted, HasRoom, NoEntryPast, Fetch;
    hide FetchEnd, Written, Records;
    var t, u := AfterCrash(options, s, k), CutBack(options, s, k);
    CutBackInv(options, s, k);
    TailOnly(options, s, k);
    if t == u {
      RunInv(t, acts);
      FetchIsSlice(Run(t, acts).value, offset, max);
      AllSorted(Run(t, acts).value);
    } else {
      SameLog(t.active, u.active);
      HauntedReads(u, |u.sealed|, Records(t.active), acts, offset, max);
    }
  }

  // --------------------------------------------------------------- an entry past the tail

  /** One batch can take 129 records with a few kilobytes between them; the defaults can. */
  predicate Ample(o: Options) {
    o.queueCapacity >= 129 && o.maxPendingBytes >= 5200 && o.maxBatchRecords >= 129 && o.maxBatchBytes >= 5200
  }

  /** A few kilobytes can be written before the segment is sealed: in one batch, or well below the limit. */
  predicate CanGrow(o: Options, fileBytes: nat) {
    && o.queueCapacity >= 1 && o.maxPendingBytes >= 5200 && fileBytes + 5200 < U64
    && (Ample(o) || fileBytes + 5200 < SEGMENT_MAX_BYTES)
  }

  lemma {:induction false} PayloadsSmaller(rs: seq<Record>)
    ensures PayloadBytes(rs) <= LogSize(rs)
  {
    if rs != [] { PayloadsSmaller(rs[1..]); }
  }

  /** The first fetch caches the index as it is; then these records are written in one batch. */
  lemma WriteAfterLoad(options: Options, s: State, k: nat, more: seq<Record>) returns (acts: seq<Action>)
    requires k <= |s.active.log| && Inv(s) && s.sealed == []
    requires CanGrow(options, AfterCrash(options, s, k).fileBytes)
    requires more != [] && |more| <= 129 && LogSize(more) <= 5200
    requires Continues(Records(AfterCrash(options, s, k).active), more, s.active.base)
    ensures Run(AfterCrash(options, s, k), acts).Some?
    ensures var t, d := AfterCrash(options, s, k), Run(AfterCrash(options, s, k), acts).value;
            && d.sealed == [] && d.tail == t.tail + |more| && d.active.base == t.active.base
            && d.active.log == EncodeLog(Records(t.active) + more)
            && d.cache == map[t.active.base := LoadIndex(t.active.idx)]
  {
    hide Inv, Run, Scan, EncodeLog, LogSize, Due, LoadIndex, EncodeIndex, AllFit, Contiguous, WholeRecords;
    hide SegmentRecords;
    var t := AfterCrash(options, s, k);
    var lost := CrashSplit(options, s, k);
    var load := LoadCache(t.active.base);
    RunOne(t, load);
    var u := Apply(t, load);
    assert u == t.(cache := map[t.active.base := LoadIndex(t.active.idx)]) by { LoadsActive(t); }
    MoreParts(Records(t.active), more, t.active.base);
    CrashRecovery(options, s, k);
    EncodeLogAppend(Records(t.active), more);
    var rest := WriteMore(u, more);
    RunJoin(t, [load], rest);
    acts := [load] + rest;
  }

  lemma WriteMore(u: State, more: seq<Record>) returns (acts: seq<Action>)
    requires Idle(u) && !u.closed && CanGrow(u.options, u.fileBytes)
    requires more != [] && |more| <= 129 && LogSize(more) <= 5200 && AllFit(more) && Contiguous(more, u.nextOffset)
    ensures Run(u, acts).Some? && Grown(u, Run(u, acts).value, more)
  {
    hide Run, EncodeLog, LogSize, EncodeIndex, Due, AllFit, Contiguous;
    PayloadsSmaller(more);
    if Ample(u.options) {
      WriteAll(u, more);
      acts := Appends(more) + Repeat(Pop, |more|) + WriteActs(|more|);
    } else {
      forall i | 0 <= i < |more| ensures |more[i].payload| <= 5200 { PayloadWithin(more, i); }
      acts := WriteEach(u, more);
    }
  }

  lemma {:induction false} PayloadWithin(rs: seq<Record>, i: nat)
    requires i < |rs|
    ensures |rs[i].payload| <= LogSize(rs)
  {
    if i > 0 { PayloadWithin(rs[1..], i - 1); }
  }

  lemma LoadsActive(t: State)
    requires t.sealed == [] && t.cache == map[]
    ensures Apply(t, LoadCache(t.active.base)) == t.(cache := map[t.active.base := LoadIndex(t.active.idx)])
  {
    hide LoadIndex;
  }

  lemma MoreParts(keep: seq<Record>, more: seq<Record>, base: nat)
    requires Continues(keep, more, base)
    ensures AllFit(more) && Contiguous(more, base + |keep|)
  {
    assert forall i :: 0 <= i < |more| ==> more[i] == (keep + more)[|keep| + i];
  }

  lemma ReadsNothing(d: State, target: nat, es: seq<Entry>)
    requires d.sealed == [] && d.cache == map[d.active.base := es] && d.active.base <= target < d.tail
    requires Scan(Drop(d.active.log, Lookup(es, target))) == []
    ensures !RightFetch(d, target, 1)
  {
    hide Scan, Lookup;
    assert Fetch(d, target, 1) == [];
  }

  /** If an entry is past the tail, some run ends with a fetch that misses a written record. */
  lemma PastTailMisses(options: Options, s: State, k: nat) returns (acts: seq<Action>, target: nat)
    requires k <= |s.active.log| && Inv(s) && s.sealed == []
    requires CanGrow(options, AfterCrash(options, s, k).fileBytes)
    requires !NoEntryPast(LoadIndex(AfterCrash(options, s, k).active.idx), AfterCrash(options, s, k).tail)
    ensures Run(AfterCrash(options, s, k), acts).Some?
    ensures !RightFetch(Run(AfterCrash(options, s, k), acts).value, target, 1)
    ensures IndexesSorted(Run(AfterCrash(options, s, k), acts).value)
  {
    hide Inv, Run, Scan, EncodeLog, LogSize, Due, LoadIndex, EncodeIndex, AfterCrash, RightFetch, Lookup, Records;
    hide CanGrow, Right, Continues, Sorted, IndexesSorted;
    var t := AfterCrash(options, s, k);
    var lost := CrashSplit(options, s, k);
    var es := LoadIndex(t.active.idx);
    var i :| 0 <= i < |es| && es[i].offset > t.tail;
    var more, goal := WildIsWrong(Records(t.active), lost, t.active.base, i);
    target := goal;
    acts := WriteAfterLoad(options, s, k, more);
    ReadsNothing(Run(t, acts).value, target, es);
    DueBounds(Records(t.active) + lost, t.active.base, 0, t.active.base);
    OneIndex(Run(t, acts).value, es);
  }

  lemma OneIndex(d: State, es: seq<Entry>)
    requires d.sealed == [] && d.cache == map[d.active.base := es] && Sorted(es)
    ensures IndexesSorted(d)
  {
    hide Sorted;
  }

  /** After every list of actions every fetch is right. */
  ghost predicate AlwaysReadsRight(t: State) {
    forall acts: seq<Action>, offset: nat, max: nat :: Run(t, acts).Some? ==> RightFetch(Run(t, acts).value, offset, max)
  }

  /**
   * For a store whose first segment is active when it crashes, the condition is exact: after every
   * run every fetch is right if and only if no index entry is past the tail.
   */
  lemma ReopenedExact(options: Options, s: State, k: nat)
    requires k <= |s.active.log| && Inv(s) && s.sealed == []
    requires CanGrow(options, AfterCrash(options, s, k).fileBytes)
    ensures var t := AfterCrash(options, s, k);
            AlwaysReadsRight(t) <==> NoEntryPast(LoadIndex(t.active.idx), t.tail)
  {
    hide Inv, Run, LoadIndex, AfterCrash, RightFetch, NoEntryPast, CanGrow;
    var t := AfterCrash(options, s, k);
    if NoEntryPast(LoadIndex(t.active.idx), t.tail) {
      forall acts: seq<Action>, offset: nat, max: nat | Run(t, acts).Some?
        ensures RightFetch(Run(t, acts).value, offset, max)
      {
        ReopenedReadsRight(options, s, k, acts, offset, max);
      }
    } else {
      var acts, target := PastTailMisses(options, s, k);
    }
  }

  /** It happens: a crash between the index entries of a batch of 129 records and its log write. */
  lemma StaleEntry(options: Options) returns (acts: seq<Action>)
    requires Ample(options)
    ensures Run(Empty(options), acts).Some?
    ensures var s := Run(Empty(options), acts).value;
            && s.active.log == [] && Inv(s) && !AlwaysReadsRight(AfterCrash(options, s, 0))
  {
    hide Run, AlwaysReadsRight, NoEntryPast, Inv, LoadIndex, AfterCrash;
    acts := IndexBatch(options);
    EmptyInv(options);
    RunInv(Empty(options), acts);
    var s := Run(Empty(options), acts).value;
    NothingKept(options, s);
    ReopenedExact(options, s, 0);
  }

  lemma IndexBatch(options: Options) returns (acts: seq<Action>)
    requires Ample(options)
    ensures Run(Empty(options), acts).Some?
    ensures var s := Run(Empty(options), acts).value;
            && s.active.log == [] && s.sealed == [] && s.active.base == 0
            && !NoEntryPast(LoadIndex(s.active.idx), 0)
  {
    hide Run, LogSize, Due, EncodeIndex, LoadIndex, NoEntryPast, Empties;
    var all := Empties(0, 129);
    PayloadsSmaller(all);
    acts := IndexOnly(Empty(options), all);
    assert all[..|all|] == all;
    Nothing(EncodeIndex(Due(all, 0, 0)));
    DueFits(all);
    LoadEncoded(Due(all, 0, 0));
    PastFirst(all);
  }

  /** A batch whose index entries are written, but no log bytes. */
  lemma IndexOnly(s: State, rs: seq<Record>) returns (acts: seq<Action>)
    requires Batches.OneBatch(s, rs)
    ensures Run(s, acts) == Some(IndexedTo(Batched(s, rs), |rs|))
  {
    hide Run, Batches.OneBatch, CanWrite, IndexedTo, Appends, Repeat;
    BatchAll(s, rs);
    IndexAll(Batched(s, rs), |rs|);
    var first, second := Appends(rs) + Repeat(Pop, |rs|), [CloseBatch] + Repeat(WriteIndex, |rs|);
    RunJoin(s, first, second);
    acts := first + second;
  }

  lemma DueFits(all: seq<Record>)
    requires |all| == 129 && Contiguous(all, 0) && LogSize(all) < U64
    ensures EntriesFit(Due(all, 0, 0))
  {
    hide Due, LogSize;
    DueBounds(all, 0, 0, 0);
  }

  lemma NothingKept(options: Options, s: State)
    requires s.active.log == [] && s.sealed == [] && s.active.base == 0
    ensures var t := AfterCrash(options, s, 0);
            t.tail == 0 && t.fileBytes == 0 && t.active.idx == s.active.idx
  {
    hide FromBE;
    assert s.sealed + [s.active.(log := s.active.log[..0])] == [s.active.(log := s.active.log[..0])];
    ScanHead([]);
  }
}
