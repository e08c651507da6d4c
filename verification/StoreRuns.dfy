/** What holds over every run of a partition store, and what a fetch sees in any state of one. */
module StoreRuns {
  import opened Bytes
  import opened LogFormat
  import opened SegmentReader
  import opened OffsetIndex
  import opened Store

  /** The records an action adds to the accepted sequence. */
  function NewRecords(s: State, a: Action): seq<Record> {
    if Accepts(s, a) then [Record(s.nextOffset, a.timestamp, a.payload)] else []
  }

  /** The records an action adds to the files. */
  function NewWritten(s: State, a: Action): seq<Record> {
    if a.WriteLog? then s.batch else []
  }

  /** No action breaks the invariant, loses a record, reorders one or makes one up. */
  lemma Step(s: State, a: Action)
    requires Enabled(s, a) && Inv(s)
    ensures Inv(Apply(s, a))
    ensures Accepted(Apply(s, a)) == Accepted(s) + NewRecords(s, a)
    ensures Written(Apply(s, a)) == Written(s) + NewWritten(s, a)
  {
    hide Inv, Accepted, Enqueue, Records, SegmentRecords, Busy, BatchFull;
    Nothing(Accepted(s));
    Nothing(Written(s));
    match a
    case Append(payload, timestamp) =>
      if Accepts(s, a) { AppendStep(s, payload, timestamp); FilesKept(s, payload, timestamp); }
    case Pop => PopStep(s);
    case CloseBatch => CloseBatchStep(s);
    case WriteIndex => WriteIndexStep(s); IndexKeepsRecords(s);
    case WriteLog => WriteLogStep(s);
    case Publish => PublishStep(s);
    case Finish => FinishStep(s);
    case LoadCache(offset) => LoadCacheStep(s, offset);
    case Shutdown => ShutdownStep(s);
  }

  lemma FilesKept(s: State, payload: seq<byte>, timestamp: nat)
    ensures Written(Enqueue(s, payload, timestamp)) == Written(s)
  {
  }

  lemma IndexKeepsRecords(s: State)
    requires Enabled(s, WriteIndex)
    ensures Written(IndexOne(s)) == Written(s)
  {
    hide Scan, SegmentRecords, DueNow, LogSize;
  }

  // ------------------------------------------------------------------- runs

  /** The state a list of actions leads to, if each is enabled when its turn comes. */
  function Run(s: State, acts: seq<Action>): Option<State> {
    if acts == [] then Some(s)
    else
      var n := |acts| - 1;
      var t := Run(s, acts[..n]);
      if t.Some? && Enabled(t.value, acts[n]) then Some(Apply(t.value, acts[n])) else None
  }

  /** `n` times the same action. */
  function Repeat(a: Action, n: nat): (acts: seq<Action>)
    ensures |acts| == n
  {
    if n == 0 then [] else Repeat(a, n - 1) + [a]
  }

  /** The payloads a run accepted, in the order their appends returned. */
  function AcceptedBy(s: State, acts: seq<Action>): seq<seq<byte>> {
    if acts == [] then []
    else
      var n := |acts| - 1;
      var t := Run(s, acts[..n]);
      AcceptedBy(s, acts[..n]) + if t.Some? && Accepts(t.value, acts[n]) then [acts[n].payload] else []
  }

  function Payloads(rs: seq<Record>): (ps: seq<seq<byte>>)
    ensures |ps| == |rs|
    ensures forall i :: 0 <= i < |rs| ==> ps[i] == rs[i].payload
  {
    if rs == [] then [] else Payloads(rs[..|rs| - 1]) + [rs[|rs| - 1].payload]
  }

  lemma RunOne(s: State, a: Action)
    requires Enabled(s, a)
    ensures Run(s, [a]) == Some(Apply(s, a))
  {
    hide Enabled, Apply;
    RunLast(s, [], a);
    assert [] + [a] == [a];
  }

  lemma RunNothing(s: State, a: Action)
    ensures Run(s, Repeat(a, 0)) == Some(s)
  {
  }

  lemma RunLast(s: State, acts: seq<Action>, a: Action)
    ensures Run(s, acts + [a]) ==
            var t := Run(s, acts);
            if t.Some? && Enabled(t.value, a) then Some(Apply(t.value, a)) else None
  {
    hide Enabled, Apply;
    assert (acts + [a])[..|acts|] == acts;
  }

  /** Runs can be put one after the other. */
  lemma {:induction false} RunJoin(s: State, a: seq<Action>, b: seq<Action>)
    requires Run(s, a).Some?
    ensures Run(s, a + b) == Run(Run(s, a).value, b)
  {
    hide Enabled, Apply;
    if b == [] {
      Nothing(a);
    } else {
      hide Run;
      var n := |b| - 1;
      RunJoin(s, a, b[..n]);
      Assoc(a, b[..n], [b[n]]);
      assert b == b[..n] + [b[n]];
      RunLast(s, a + b[..n], b[n]);
      RunLast(Run(s, a).value, b[..n], b[n]);
    }
  }

  lemma PayloadsAppend(a: seq<Record>, b: seq<Record>)
    ensures Payloads(a + b) == Payloads(a) + Payloads(b)
  {
  }

  lemma {:induction false} RunInv(s: State, acts: seq<Action>)
    requires Inv(s) && Run(s, acts).Some?
    ensures Inv(Run(s, acts).value)
    ensures Payloads(Accepted(Run(s, acts).value)) == Payloads(Accepted(s)) + AcceptedBy(s, acts)
  {
    hide Inv, Accepted, Enabled, Apply, Payloads, Written;
    if acts == [] {
      Nothing(Payloads(Accepted(s)));
    } else {
      var n := |acts| - 1;
      var t := Run(s, acts[..n]).value;
      RunInv(s, acts[..n]);
      Step(t, acts[n]);
      PayloadsAppend(Accepted(t), NewRecords(t, acts[n]));
      PayloadsOfNew(t, acts[n]);
      Assoc(Payloads(Accepted(s)), AcceptedBy(s, acts[..n]), Payloads(NewRecords(t, acts[n])));
    }
  }

  lemma PayloadsOfNew(s: State, a: Action)
    ensures Payloads(NewRecords(s, a)) == if Accepts(s, a) then [a.payload] else []
  {
    hide Accepts;
  }

  /**
   * Over every interleaving of appends, batches, rotations and reads from an empty directory, the
   * files followed by what is in flight and what is queued hold exactly the accepted payloads, in
   * acceptance order, numbered 0, 1, 2 and so on; the writer's tail counts the records on disk,
   * and the committed offset never runs ahead of it.
   */
  lemma StoreRefinesLog(options: Options, acts: seq<Action>)
    requires Run(Empty(options), acts).Some?
    ensures var s := Run(Empty(options), acts).value;
            && Payloads(Accepted(s)) == AcceptedBy(Empty(options), acts)
            && Contiguous(Accepted(s), 0)
            && s.tail == |Written(s)| == s.active.base + |Records(s.active)|
            && s.committed == s.tail - (if s.phase.Flushed? then |s.batch| else 0)
            && s.nextOffset == |Accepted(s)|
  {
    hide Inv, Accepted, Enabled, Apply, Payloads, Written, Run, AcceptedBy;
    EmptyInv(options);
    RunInv(Empty(options), acts);
    var s := Run(Empty(options), acts).value;
    Numbered(s);
    assert Payloads([]) == [];
    assert [] + AcceptedBy(Empty(options), acts) == AcceptedBy(Empty(options), acts);
  }

  // -------------------------------------------------------- offsets and files

  lemma {:induction false} SealedRecords(sealed: seq<Segment>, next: nat)
    requires SealedOk(sealed, next)
    ensures |SegmentRecords(sealed)| == next && Contiguous(SegmentRecords(sealed), 0)
  {
    hide SealedOk, Records;
    if sealed == [] {
      assert next == 0 by { SealedFirst(sealed, next); }
    } else {
      var n := |sealed| - 1;
      DropLast(sealed, next);
      SealedRecords(sealed[..n], sealed[n].base);
    }
  }

  lemma SealedFirst(sealed: seq<Segment>, next: nat)
    requires SealedOk(sealed, next)
    ensures BaseAt(sealed, next, 0) == 0
  {
    hide Clean, Records;
  }

  lemma {:induction false} SealedSlice(sealed: seq<Segment>, next: nat, k: nat)
    requires SealedOk(sealed, next) && k < |sealed|
    ensures var lo, hi := sealed[k].base, BaseAt(sealed, next, k + 1);
            lo <= hi <= next == |SegmentRecords(sealed)| && SegmentRecords(sealed)[lo..hi] == Records(sealed[k])
  {
    hide SealedOk, Records;
    var n := |sealed| - 1;
    var init, g := sealed[..n], sealed[n];
    DropLast(sealed, next);
    SealedRecords(init, g.base);
    if k < n {
      SealedSlice(init, g.base, k);
      PrefixSlice(SegmentRecords(init), Records(g), init[k].base, BaseAt(init, g.base, k + 1));
    } else {
      assert (SegmentRecords(init) + Records(g))[g.base..next] == Records(g);
    }
  }

  lemma PrefixSlice<T>(a: seq<T>, b: seq<T>, lo: nat, hi: nat)
    requires lo <= hi <= |a|
    ensures (a + b)[lo..hi] == a[lo..hi]
  {
  }

  lemma DropLast(sealed: seq<Segment>, next: nat)
    requires SealedOk(sealed, next) && sealed != []
    ensures SealedOk(sealed[..|sealed| - 1], sealed[|sealed| - 1].base)
    ensures next == sealed[|sealed| - 1].base + |Records(sealed[|sealed| - 1])|
    ensures Contiguous(Records(sealed[|sealed| - 1]), sealed[|sealed| - 1].base)
  {
    hide Clean, Records;
    CleanNumbered(sealed[|sealed| - 1], []);
    var n := |sealed| - 1;
    var init := sealed[..n];
    forall i | 0 <= i < n ensures init[i].base + |Records(init[i])| == BaseAt(init, sealed[n].base, i + 1) {
      assert BaseAt(sealed, next, i + 1) == BaseAt(init, sealed[n].base, i + 1);
    }
    assert BaseAt(sealed, next, n + 1) == next;
  }

  lemma Numbered(s: State)
    requires Inv(s)
    ensures Contiguous(Accepted(s), 0) && |Accepted(s)| == s.nextOffset
    ensures s.tail == |Written(s)| == s.active.base + |Records(s.active)|
    ensures s.committed == s.tail - (if s.phase.Flushed? then |s.batch| else 0)
  {
    hide Scan, SegmentRecords, SealedOk, CacheOk, Cached, EncodeLog, Due, EncodeIndex, AllFit, QueueOk, EntriesFit;
    hide Records, Clean;
    SealedRecords(s.sealed, s.active.base);
    CleanNumbered(s.active, Ahead(s));
    var rest := InFlight(s) + s.queue;
    assert Contiguous(Written(s), 0);
    assert Contiguous(rest, s.tail);
  }

  lemma CleanNumbered(g: Segment, ahead: seq<Record>)
    requires Clean(g, ahead)
    ensures Contiguous(Records(g), g.base)
  {
    hide Scan, EncodeLog, Due, EncodeIndex, AllFit, EntriesFit;
    var all := Records(g) + ahead;
    assert forall i :: 0 <= i < |Records(g)| ==> Records(g)[i] == all[i];
  }

  /** After a shutdown nothing is accepted any more, whatever happens to what was accepted before. */
  lemma {:induction false} ShutdownIsFinal(s: State, before: seq<Action>, after: seq<Action>)
    requires Run(s, before + [Shutdown] + after).Some?
    ensures Run(s, before + [Shutdown] + after).value.closed
    ensures AcceptedBy(s, before + [Shutdown] + after) == AcceptedBy(s, before)
  {
    hide Enabled, Apply, Busy;
    var acts := before + [Shutdown] + after;
    var n := |acts| - 1;
    Nothing(AcceptedBy(s, acts[..n]));
    if after == [] {
      assert acts[..n] == before;
      Closes(Run(s, before).value);
    } else {
      assert acts[..n] == before + [Shutdown] + after[..|after| - 1];
      ShutdownIsFinal(s, before, after[..|after| - 1]);
      StaysClosed(Run(s, acts[..n]).value, acts[n]);
    }
  }

  lemma Closes(s: State)
    requires Enabled(s, Shutdown)
    ensures Apply(s, Shutdown).closed
  {
  }

  lemma StaysClosed(s: State, a: Action)
    requires Enabled(s, a) && s.closed
    ensures Apply(s, a).closed
  {
  }

  // ------------------------------------------------------------------ fetch

  function IndexOf(s: State, g: Segment): seq<Entry> {
    if g.base in s.cache then s.cache[g.base] else LoadIndex(g.idx)
  }

  /** Resolve the segment, look the offset up in its index, read the file from there. */
  function Fetch(s: State, offset: nat, max: nat): seq<Record> {
    match SegmentFor(s, offset)
    case None => []
    case Some(k) =>
      var g := Pick(s, k);
      Wanted(Scan(Drop(g.log, Lookup(IndexOf(s, g), offset))), offset, max)
  }

  /** Where the file that serves `offset` ends. */
  function FetchEnd(s: State, offset: nat): nat {
    if s.sealed == [] then s.tail
    else BaseAt(s.sealed, s.active.base, StartedBy(s.sealed, offset))
  }

  lemma FetchSegment(g: Segment, ahead: seq<Record>, es: seq<Entry>, offset: nat, max: nat)
    requires Clean(g, ahead) && es <= LoadIndex(g.idx)
    ensures Wanted(Scan(Drop(g.log, Lookup(es, offset))), offset, max) == Wanted(Records(g), offset, max)
    ensures Contiguous(Records(g), g.base)
  {
    hide Scan, EncodeLog, Due, EncodeIndex, LoadIndex, Lookup, Wanted, AllFit, EntriesFit;
    var all := Records(g) + ahead;
    LoadEncoded(Due(all, g.base, 0));
    EncodeLogAppend(Records(g), ahead);
    IndexRefinesScan(all, g.base, g.log, es, offset, max);
    CleanNumbered(g, ahead);
  }

  lemma {:induction false} StartedBySplits(gs: seq<Segment>, offset: nat)
    ensures var k := StartedBy(gs, offset);
            (k > 0 ==> gs[k - 1].base <= offset) && (forall i :: k <= i < |gs| ==> offset < gs[i].base)
  {
    if gs != [] && offset < gs[|gs| - 1].base { StartedBySplits(gs[..|gs| - 1], offset); }
  }

  lemma FetchFrom(s: State, k: nat, offset: nat, max: nat)
    requires Inv(s) && k <= |s.sealed| && Pick(s, k).base <= offset
    requires SegmentFor(s, offset) == Some(k)
    ensures var hi := if k < |s.sealed| then BaseAt(s.sealed, s.active.base, k + 1) else s.tail;
            hi <= |Written(s)|
            && Fetch(s, offset, max) == if offset < hi then Take(Written(s)[offset..hi], max) else []
  {
    hide Scan, Written, Clean, LoadIndex, Lookup, QueueOk, OffsetsOk, PhaseOk, Records, AtLeast, BaseAt, SegmentFor;
    var g := Pick(s, k);
    FetchSegment(g, if k < |s.sealed| then [] else Ahead(s), IndexOf(s, g), offset, max);
    AtLeastContiguous(Records(g), g.base, offset);
    SliceOfWritten(s, k);
    var hi := if k < |s.sealed| then BaseAt(s.sealed, s.active.base, k + 1) else s.tail;
    if offset < hi { TwoSlices(Written(s), g.base, hi, offset); }
  }

  /**
   * In every state a run can reach, a fetch returns the written log from exactly the offset asked
   * for, without gap or repeat, up to `max` records or the end of the segment file it resolved to.
   */
  lemma FetchIsSlice(s: State, offset: nat, max: nat)
    requires Inv(s)
    ensures FetchEnd(s, offset) <= |Written(s)|
    ensures Fetch(s, offset, max) ==
            if offset < FetchEnd(s, offset) then Take(Written(s)[offset..FetchEnd(s, offset)], max) else []
  {
    hide Inv, Written, Fetch, SegmentFor, BaseAt, FetchEnd, Pick;
    Resolves(s, offset);
    FetchFrom(s, SegmentFor(s, offset).value, offset, max);
  }

  /** Every offset resolves to a segment that starts at or before it. */
  lemma Resolves(s: State, offset: nat)
    requires Inv(s)
    ensures var k := SegmentFor(s, offset);
            && k.Some? && Pick(s, k.value).base <= offset
            && FetchEnd(s, offset) ==
               if k.value < |s.sealed| then BaseAt(s.sealed, s.active.base, k.value + 1) else s.tail
  {
    hide Inv, StartedBy, Records, Clean;
    StartedBySplits(s.sealed, offset);
    BasesAreOk(s);
    SealedFirst(s.sealed, s.active.base);
  }

  lemma TwoSlices<T>(s: seq<T>, lo: nat, hi: nat, mid: nat)
    requires lo <= mid <= hi <= |s|
    ensures s[lo..hi][mid - lo..] == s[mid..hi]
  {
  }

  lemma SliceOfWritten(s: State, k: nat)
    requires Inv(s) && k <= |s.sealed|
    ensures var hi := if k < |s.sealed| then BaseAt(s.sealed, s.active.base, k + 1) else s.tail;
            Pick(s, k).base <= hi <= |Written(s)| && Written(s)[Pick(s, k).base..hi] == Records(Pick(s, k))
  {
    hide Scan, SegmentRecords, Clean, CacheOk, Cached, QueueOk, OffsetsOk, PhaseOk, Records, SealedOk, BaseAt;
    SealedRecords(s.sealed, s.active.base);
    if k < |s.sealed| {
      SealedSlice(s.sealed, s.active.base, k);
      PrefixSlice(SegmentRecords(s.sealed), Records(s.active), s.sealed[k].base, BaseAt(s.sealed, s.active.base, k + 1));
    }
  }

  /**
   * Exactly when a fetch makes progress: the offset is written, and it is not in the active
   * segment of a store that has sealed one before.
   */
  lemma FetchProgress(s: State, offset: nat, max: nat)
    requires Inv(s)
    ensures Fetch(s, offset, max) != [] <==>
            max > 0 && offset < s.tail && (s.sealed == [] || offset < s.active.base)
  {
    hide Fetch, Inv, SegmentRecords, Clean, Records;
    FetchIsSlice(s, offset, max);
    assert SealedOk(s.sealed, s.active.base) by { BasesAreOk(s); }
    StartedBySplits(s.sealed, offset);
    var k := StartedBy(s.sealed, offset);
    Numbered(s);
    if s.sealed != [] && k < |s.sealed| && k + 1 <= |s.sealed| {
      BasesIncrease(s.sealed, s.active.base, k, |s.sealed|);
    }
  }

  lemma BasesAreOk(s: State)
    requires Inv(s)
    ensures SealedOk(s.sealed, s.active.base) && s.active.base <= s.tail
  {
    hide SealedOk, Clean, QueueOk, OffsetsOk, CacheOk, PhaseOk, Records;
  }

  lemma EndOfFile(s: State, offset: nat)
    requires Inv(s)
    ensures FetchEnd(s, offset) <= if s.sealed == [] then s.tail else s.active.base
  {
    hide Inv, SealedOk, Records, StartedBy;
    BasesAreOk(s);
    var k := StartedBy(s.sealed, offset);
    if k < |s.sealed| { BasesIncrease(s.sealed, s.active.base, k, |s.sealed|); }
  }

  lemma CommittedRange(s: State)
    requires Inv(s)
    ensures s.active.base <= s.committed <= s.tail == |Written(s)|
  {
    hide SealedOk, Clean, QueueOk, OffsetsOk, CacheOk, Cached, Written, Records;
    Numbered(s);
  }

  /** Every record a fetch returns has been committed. */
  predicate CommittedOnly(s: State, offset: nat, max: nat) {
    forall i :: 0 <= i < |Fetch(s, offset, max)| ==> Fetch(s, offset, max)[i].offset < s.committed
  }

  /**
   * Exactly when consumers are kept from uncommitted records: not while the bytes of a batch are
   * written and its offset is not yet published, as long as nothing has been sealed.
   */
  lemma FetchCommittedIff(s: State)
    requires Inv(s)
    ensures (forall offset: nat, max: nat :: CommittedOnly(s, offset, max)) <==>
            !(s.phase.Flushed? && s.sealed == [])
  {
    hide Inv, Fetch, FetchEnd;
    CommittedRange(s);
    if s.phase.Flushed? && s.sealed == [] {
      Dirty(s);
      FetchOffsets(s, s.committed, 1);
      assert Fetch(s, s.committed, 1)[0].offset == s.committed;
      assert !CommittedOnly(s, s.committed, 1);
    } else {
      forall offset: nat, max: nat
        ensures CommittedOnly(s, offset, max)
      {
        EndOfFile(s, offset);
        FetchOffsets(s, offset, max);
        CommittedEnd(s, offset);
      }
    }
  }

  lemma FetchOffsets(s: State, offset: nat, max: nat)
    requires Inv(s)
    ensures var got := Fetch(s, offset, max);
            && (forall i :: 0 <= i < |got| ==> got[i].offset == offset + i < FetchEnd(s, offset))
            && (got != [] <==> max > 0 && offset < FetchEnd(s, offset))
  {
    hide Inv, Fetch, FetchEnd, Written;
    FetchIsSlice(s, offset, max);
    WrittenNumbered(s);
  }

  lemma WrittenNumbered(s: State)
    requires Inv(s)
    ensures Contiguous(Written(s), 0)
  {
    hide Inv, Written, Records;
    Numbered(s);
    var all := Accepted(s);
    assert forall i :: 0 <= i < |Written(s)| ==> Written(s)[i] == all[i];
  }

  lemma CommittedEnd(s: State, offset: nat)
    requires Inv(s) && !(s.phase.Flushed? && s.sealed == [])
    ensures FetchEnd(s, offset) <= s.committed
  {
    hide SealedOk, ActiveOk, QueueOk, OffsetsOk, CacheOk, Cached, FetchEnd;
    EndOfFile(s, offset);
    CommittedRange(s);
  }

  lemma Dirty(s: State)
    requires Inv(s) && s.phase.Flushed? && s.sealed == []
    ensures s.committed < FetchEnd(s, s.committed)
  {
    hide SealedOk, ActiveOk, QueueOk, OffsetsOk, CacheOk, Cached;
  }
}
