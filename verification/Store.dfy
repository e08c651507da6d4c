/**
 * A partition store as a state machine. Each action is one region the source runs under a lock, or
 * one write of the background thread, so a run is any interleaving of producers, readers and I/O.
 */
module Store {
  import opened Bytes
  import opened LogFormat
  import opened SegmentReader
  import opened OffsetIndex

  datatype Options = Options(maxPendingBytes: nat, queueCapacity: nat,
                             maxBatchBytes: nat, maxBatchRecords: nat)

  /** A segment: its base offset and the bytes of its log file and of its index file. */
  datatype Segment = Segment(base: nat, log: seq<byte>, idx: seq<byte>)

  /** Where the background thread stands with the batch it took from the queue. */
  datatype Phase =
    | Gathering              // popping commands into the batch
    | Indexing(done: nat)    // index entries of the first `done` records are on disk
    | Flushed                // log bytes written, commit offset not yet published
    | Committed              // commit offset published, callbacks and rotation still to come

  datatype State = State(
    options: Options,
    queue: seq<Record>, pendingBytes: nat, nextOffset: nat, closed: bool,
    batch: seq<Record>, phase: Phase,
    sealed: seq<Segment>, active: Segment, tail: nat, fileBytes: nat,
    committed: nat,
    cache: map<nat, seq<Entry>>)

  datatype Action =
    | Append(payload: seq<byte>, timestamp: nat)
    | Pop
    | CloseBatch
    | WriteIndex
    | WriteLog
    | Publish
    | Finish
    | LoadCache(offset: nat)
    | Shutdown

  // ------------------------------------------------------------------ views

  function Records(g: Segment): seq<Record> {
    Scan(g.log)
  }

  function SegmentRecords(gs: seq<Segment>): seq<Record> {
    if gs == [] then [] else SegmentRecords(gs[..|gs| - 1]) + Records(gs[|gs| - 1])
  }

  /** Taken from the queue but not yet in the log file. */
  function InFlight(s: State): seq<Record> {
    if s.phase.Gathering? || s.phase.Indexing? then s.batch else []
  }

  /** Indexed on disk but not yet in the log file. */
  function Ahead(s: State): seq<Record> {
    if s.phase.Indexing? && s.phase.done <= |s.batch| then s.batch[..s.phase.done] else []
  }

  /** Decoding all segment files in order. */
  function Written(s: State): seq<Record> {
    SegmentRecords(s.sealed) + Records(s.active)
  }

  /** Everything accepted so far: on disk, then in flight, then queued. */
  function Accepted(s: State): seq<Record> {
    Written(s) + (InFlight(s) + s.queue)
  }

  function PayloadBytes(rs: seq<Record>): nat {
    if rs == [] then 0 else |rs[0].payload| + PayloadBytes(rs[1..])
  }

  // ---------------------------------------------------------------- actions

  predicate Busy(s: State, size: nat) {
    |s.queue| >= s.options.queueCapacity || s.pendingBytes + size > s.options.maxPendingBytes
  }

  predicate Accepts(s: State, a: Action) {
    a.Append? && !s.closed && !Busy(s, |a.payload|)
  }

  predicate BatchFull(s: State) {
    |s.batch| >= s.options.maxBatchRecords || LogSize(s.batch) >= s.options.maxBatchBytes
  }

  /** A batch of more than one record keeps to the record limit, and was short of the byte limit before the last. */
  predicate Limited(o: Options, batch: seq<Record>) {
    |batch| > 1 ==> |batch| <= o.maxBatchRecords && LogSize(batch[..|batch| - 1]) < o.maxBatchBytes
  }

  lemma NothingTaken(o: Options)
    ensures Limited(o, [])
  {
  }

  lemma StaysLimited(s: State, r: Record)
    requires s.batch == [] || !BatchFull(s)
    ensures Limited(s.options, s.batch + [r])
  {
    assert (s.batch + [r])[..|s.batch|] == s.batch;
  }

  /** Offsets, timestamps, file sizes and payload sizes stay within their integer types. */
  predicate Enabled(s: State, a: Action) {
    match a
    case Append(payload, timestamp) => |payload| < U32 && timestamp < U64 && s.nextOffset < U64
    case Pop => s.phase.Gathering? && s.queue != [] && (s.batch == [] || !BatchFull(s))
    case CloseBatch => s.phase.Gathering? && s.batch != []
    case WriteIndex => s.phase.Indexing? && s.phase.done < |s.batch|
                       && s.fileBytes + LogSize(s.batch) < U64
    case WriteLog => s.phase.Indexing? && s.phase.done == |s.batch|
    case Publish => s.phase.Flushed? && s.batch != []
    case Finish => s.phase.Committed?
    case LoadCache(_) => true
    case Shutdown => true
  }

  function DueNow(r: Record, base: nat, position: nat): seq<byte> {
    if Indexed(r, base) then EncodeEntry(Entry(r.offset, position)) else []
  }

  function Enqueue(s: State, payload: seq<byte>, timestamp: nat): State {
    s.(queue := s.queue + [Record(s.nextOffset, timestamp, payload)],
       nextOffset := s.nextOffset + 1,
       pendingBytes := s.pendingBytes + |payload|)
  }

  function PopOne(s: State): State
    requires Enabled(s, Pop)
  {
    s.(queue := s.queue[1..], batch := s.batch + [s.queue[0]],
       pendingBytes := Minus(s.pendingBytes, |s.queue[0].payload|))
  }

  /** Unsigned 64-bit subtraction. */
  function Minus(a: nat, b: nat): nat {
    if a >= b then a - b else (a - b) % U64
  }

  function IndexOne(s: State): State
    requires Enabled(s, WriteIndex)
  {
    var i := s.phase.done;
    var entry := DueNow(s.batch[i], s.active.base, s.fileBytes + LogSize(s.batch[..i]));
    s.(active := s.active.(idx := s.active.idx + entry), phase := Indexing(i + 1))
  }

  function FlushBatch(s: State): State {
    s.(active := s.active.(log := s.active.log + EncodeLog(s.batch)),
       fileBytes := s.fileBytes + LogSize(s.batch), tail := s.tail + |s.batch|, phase := Flushed)
  }

  function Rotate(s: State): State {
    s.(sealed := s.sealed + [s.active], active := Segment(s.tail, [], []), fileBytes := 0,
       cache := s.cache - {s.active.base}, batch := [], phase := Gathering)
  }

  function Apply(s: State, a: Action): State
    requires Enabled(s, a)
  {
    match a
    case Append(payload, timestamp) =>
      if Accepts(s, a) then Enqueue(s, payload, timestamp) else s
    case Pop => PopOne(s)
    case CloseBatch => s.(phase := Indexing(0))
    case WriteIndex => IndexOne(s)
    case WriteLog => FlushBatch(s)
    case Publish => s.(committed := s.batch[|s.batch| - 1].offset + 1, phase := Committed)
    case Finish => if s.fileBytes >= SEGMENT_MAX_BYTES then Rotate(s)
                   else s.(batch := [], phase := Gathering)
    case LoadCache(offset) =>
      var k := SegmentFor(s, offset);
      if k.None? || Pick(s, k.value).base in s.cache then s
      else s.(cache := s.cache[Pick(s, k.value).base := LoadIndex(Pick(s, k.value).idx)])
    case Shutdown => s.(closed := true)
  }

  // --------------------------------------------------------- finding a segment

  /** How many sealed segments start at or before `offset`. */
  function StartedBy(gs: seq<Segment>, offset: nat): (k: nat)
    ensures k <= |gs|
  {
    if gs == [] then 0
    else if gs[|gs| - 1].base <= offset then |gs|
    else StartedBy(gs[..|gs| - 1], offset)
  }

  /** Sealed segments are tried first; `|sealed|` stands for the active one. */
  function SegmentFor(s: State, offset: nat): (k: Option<nat>)
    ensures k.Some? ==> k.value <= |s.sealed|
  {
    var n := StartedBy(s.sealed, offset);
    if n > 0 then Some(n - 1)
    else if offset >= s.active.base then Some(|s.sealed|)
    else None
  }

  function Pick(s: State, k: nat): Segment {
    if k < |s.sealed| then s.sealed[k] else s.active
  }

  // -------------------------------------------------------------- invariant

  /**
   * The log file is the encoding of contiguous records from the base on, and the index file holds
   * exactly the entries due for them and for the records that are still ahead of the log.
   */
  predicate Clean(g: Segment, ahead: seq<Record>) {
    var rs := Records(g);
    && g.log == EncodeLog(rs)
    && AllFit(rs + ahead) && Contiguous(rs + ahead, g.base)
    && EntriesFit(Due(rs + ahead, g.base, 0))
    && g.idx == EncodeIndex(Due(rs + ahead, g.base, 0))
  }

  function BaseAt(sealed: seq<Segment>, next: nat, i: nat): nat {
    if i < |sealed| then sealed[i].base else next
  }

  /** Sealed segments are clean, hold something, and run without a gap from offset 0 to `next`. */
  predicate SealedOk(sealed: seq<Segment>, next: nat) {
    && (forall i :: 0 <= i < |sealed| ==> Clean(sealed[i], []) && Records(sealed[i]) != [])
    && (forall i :: 0 <= i < |sealed| ==>
          sealed[i].base + |Records(sealed[i])| == BaseAt(sealed, next, i + 1))
    && BaseAt(sealed, next, 0) == 0
  }

  predicate ActiveOk(active: Segment, ahead: seq<Record>, fileBytes: nat, tail: nat) {
    && Clean(active, ahead)
    && fileBytes == |active.log|
    && tail == active.base + |Records(active)|
  }

  predicate QueueOk(options: Options, pending: nat, queue: seq<Record>) {
    && pending == PayloadBytes(queue) <= options.maxPendingBytes
    && |queue| <= options.queueCapacity
  }

  /** Commands not yet in the log carry the next offsets, in order. */
  predicate OffsetsOk(rest: seq<Record>, tail: nat, nextOffset: nat) {
    AllFit(rest) && Contiguous(rest, tail) && nextOffset == tail + |rest|
  }

  predicate PhaseOk(phase: Phase, batch: seq<Record>, base: nat, tail: nat, committed: nat) {
    && (!phase.Gathering? ==> batch != [])
    && (phase.Indexing? ==> phase.done <= |batch|)
    && (phase.Flushed? || phase.Committed? ==>
          base + |batch| <= tail && batch[|batch| - 1].offset + 1 == tail)
    && committed == if phase.Flushed? then tail - |batch| else tail
  }

  /** A cached index is some earlier state of the index file of its segment. */
  predicate Cached(g: Segment, cache: map<nat, seq<Entry>>) {
    g.base in cache ==> cache[g.base] <= LoadIndex(g.idx)
  }

  predicate CacheOk(gs: seq<Segment>, cache: map<nat, seq<Entry>>) {
    forall i :: 0 <= i < |gs| ==> Cached(gs[i], cache)
  }

  predicate CachedBelow(cache: map<nat, seq<Entry>>, base: nat) {
    forall b :: b in cache ==> b <= base
  }

  predicate Inv(s: State) {
    && SealedOk(s.sealed, s.active.base)
    && ActiveOk(s.active, Ahead(s), s.fileBytes, s.tail)
    && QueueOk(s.options, s.pendingBytes, s.queue)
    && OffsetsOk(InFlight(s) + s.queue, s.tail, s.nextOffset)
    && PhaseOk(s.phase, s.batch, s.active.base, s.tail, s.committed)
    && CacheOk(s.sealed, s.cache) && Cached(s.active, s.cache)
    && CachedBelow(s.cache, s.active.base)
  }

  function Empty(options: Options): State {
    State(options, [], 0, 0, false, [], Gathering, [], Segment(0, [], []), 0, 0, 0, map[])
  }

  lemma EmptyInv(options: Options)
    ensures Inv(Empty(options)) && Accepted(Empty(options)) == []
  {
    hide FromBE, LogSize;
    ScanHead([]);
  }

  // ------------------------------------------------- every action keeps it

  lemma {:induction false} PayloadBytesAppend(a: seq<Record>, b: seq<Record>)
    ensures PayloadBytes(a + b) == PayloadBytes(a) + PayloadBytes(b)
  {
    if a == [] {
      assert a + b == b;
    } else {
      PayloadBytesAppend(a[1..], b);
      assert (a + b)[1..] == a[1..] + b;
    }
  }

  lemma AppendStep(s: State, payload: seq<byte>, timestamp: nat)
    requires Enabled(s, Append(payload, timestamp)) && Accepts(s, Append(payload, timestamp)) && Inv(s)
    ensures Inv(Enqueue(s, payload, timestamp))
    ensures Accepted(Enqueue(s, payload, timestamp))
         == Accepted(s) + [Record(s.nextOffset, timestamp, payload)]
  {
    hide SealedOk, ActiveOk, CacheOk, Cached, CachedBelow, PhaseOk, Records, SegmentRecords;
    var r := Record(s.nextOffset, timestamp, payload);
    PayloadBytesAppend(s.queue, [r]);
    Assoc(InFlight(s), s.queue, [r]);
    Assoc(Written(s), InFlight(s) + s.queue, [r]);
  }

  lemma PopStep(s: State)
    requires Enabled(s, Pop) && Inv(s)
    ensures Inv(PopOne(s)) && Accepted(PopOne(s)) == Accepted(s)
    ensures PopOne(s).pendingBytes == s.pendingBytes - |s.queue[0].payload|
  {
    hide SealedOk, ActiveOk, CacheOk, Cached, CachedBelow, OffsetsOk, Records, SegmentRecords, BatchFull;
    Assoc(s.batch, [s.queue[0]], s.queue[1..]);
    assert s.queue == [s.queue[0]] + s.queue[1..];
  }

  lemma CloseBatchStep(s: State)
    requires Enabled(s, CloseBatch) && Inv(s)
    ensures Inv(Apply(s, CloseBatch)) && Accepted(Apply(s, CloseBatch)) == Accepted(s)
  {
    hide SealedOk, ActiveOk, CacheOk, Cached, CachedBelow, OffsetsOk, QueueOk, Records, SegmentRecords;
    assert s.batch[..0] == [];
  }

  lemma PublishStep(s: State)
    requires Enabled(s, Publish) && Inv(s)
    ensures Inv(Apply(s, Publish)) && Accepted(Apply(s, Publish)) == Accepted(s)
  {
    hide SealedOk, ActiveOk, CacheOk, Cached, CachedBelow, OffsetsOk, QueueOk, Records, SegmentRecords;
  }

  lemma ShutdownStep(s: State)
    requires Enabled(s, Shutdown) && Inv(s)
    ensures Inv(Apply(s, Shutdown)) && Accepted(Apply(s, Shutdown)) == Accepted(s)
  {
    hide SealedOk, ActiveOk, CacheOk, Cached, CachedBelow, OffsetsOk, QueueOk, Records, SegmentRecords;
  }

  /** Writing the entry due for the next record keeps the index exact, and only extends it. */
  lemma IndexNext(g: Segment, ahead: seq<Record>, r: Record)
    requires Clean(g, ahead) && Fits(r)
    requires r.offset == g.base + |Records(g)| + |ahead|
    requires |g.log| + LogSize(ahead) < U64
    ensures var g' := g.(idx := g.idx + DueNow(r, g.base, |g.log| + LogSize(ahead)));
            Clean(g', ahead + [r]) && LoadIndex(g.idx) <= LoadIndex(g'.idx)
  {
    hide Scan, EncodeLog, Due, EncodeIndex, DueNow, Indexed, LogSize, LoadIndex, AllFit, Contiguous, EntriesFit;
    var rs := Records(g);
    var p := |g.log| + LogSize(ahead);
    var es, more := Due(rs + ahead, g.base, 0), Due([r], g.base, p);
    LogSizeAppend(rs, ahead);
    DueAppend(rs + ahead, [r], g.base, 0);
    Assoc(rs, ahead, [r]);
    OneMore(rs + ahead, r, g.base);
    EntriesFitMore(es, r, g.base, p);
    EncodeIndexMore(es, r, g.base, p);
    LoadEncoded(es);
    LoadEncoded(es + more);
  }

  lemma OneMore(rs: seq<Record>, r: Record, base: nat)
    requires AllFit(rs) && Contiguous(rs, base) && Fits(r) && r.offset == base + |rs|
    ensures AllFit(rs + [r]) && Contiguous(rs + [r], base)
  {
  }

  lemma EntriesFitMore(es: seq<Entry>, r: Record, base: nat, p: nat)
    requires EntriesFit(es) && Fits(r) && p < U64
    ensures EntriesFit(es + Due([r], base, p))
  {
    DueOne(r, base, p);
  }

  lemma DueOne(r: Record, base: nat, p: nat)
    ensures Due([r], base, p) == if Indexed(r, base) then [Entry(r.offset, p)] else []
  {
    assert [r][1..] == [];
  }

  lemma EncodeIndexMore(es: seq<Entry>, r: Record, base: nat, p: nat)
    ensures EncodeIndex(es + Due([r], base, p)) == EncodeIndex(es) + DueNow(r, base, p)
  {
    hide EncodeIndex, EncodeEntry;
    DueOne(r, base, p);
    if Indexed(r, base) {
      EncodeIndexLast(es, Entry(r.offset, p));
    } else {
      assert es + [] == es && EncodeIndex(es) + [] == EncodeIndex(es);
    }
  }

  /** Writing the batch brings the log level with its index. */
  lemma LogCatchesUp(g: Segment, batch: seq<Record>)
    requires Clean(g, batch)
    ensures var g' := g.(log := g.log + EncodeLog(batch));
            Clean(g', []) && Records(g') == Records(g) + batch
  {
    hide Scan, EncodeLog, Due, EncodeIndex, LogSize;
    var rs := Records(g);
    EncodeLogAppend(rs, batch);
    ScanLog(rs + batch);
    assert (rs + batch) + [] == rs + batch;
  }

  lemma WriteIndexStep(s: State)
    requires Enabled(s, WriteIndex) && Inv(s)
    ensures Inv(IndexOne(s)) && Accepted(IndexOne(s)) == Accepted(s)
  {
    hide SealedOk, Clean, CachedBelow, QueueOk, Scan, SegmentRecords, LoadIndex, LogSize, DueNow;
    var i := s.phase.done;
    var rest := InFlight(s) + s.queue;
    assert rest[i] == s.batch[i];
    LogSizeMonotone(s.batch, i, |s.batch|);
    assert s.batch[..|s.batch|] == s.batch;
    IndexNext(s.active, Ahead(s), s.batch[i]);
    assert s.batch[..i + 1] == s.batch[..i] + [s.batch[i]];
  }

  lemma WriteLogStep(s: State)
    requires Enabled(s, WriteLog) && Inv(s)
    ensures Inv(FlushBatch(s)) && Accepted(FlushBatch(s)) == Accepted(s)
    ensures Written(FlushBatch(s)) == Written(s) + s.batch
  {
    hide SealedOk, Clean, CachedBelow, QueueOk, Records, SegmentRecords, LoadIndex, LogSize, EncodeLog;
    assert Ahead(s) == s.batch;
    LogCatchesUp(s.active, s.batch);
    var rest := InFlight(s) + s.queue;
    assert rest[|s.batch| - 1] == s.batch[|s.batch| - 1];
    assert rest[|s.batch|..] == [] + s.queue;
    Assoc(SegmentRecords(s.sealed), Records(s.active), s.batch);
    Assoc(Written(s), s.batch, s.queue);
    assert [] + s.queue == s.queue;
  }

  lemma NewSegment(base: nat)
    ensures Clean(Segment(base, [], []), []) && Records(Segment(base, [], [])) == []
  {
    hide FromBE;
    ScanHead([]);
  }

  lemma RotateStep(s: State)
    requires s.phase.Committed? && s.fileBytes > 0 && Inv(s)
    ensures Inv(Rotate(s)) && Accepted(Rotate(s)) == Accepted(s) && Written(Rotate(s)) == Written(s)
  {
    hide Clean, QueueOk, OffsetsOk, Records, SegmentRecords, LoadIndex, SealedOk, CacheOk, Cached, CachedBelow;
    LogNotEmpty(s.active);
    NewSegment(s.tail);
    SealOne(s.sealed, s.active, s.tail);
    SealCache(s.sealed, s.active, s.cache, s.tail);
    assert Written(s) + [] == Written(s);
  }

  lemma SealOne(sealed: seq<Segment>, g: Segment, next: nat)
    requires SealedOk(sealed, g.base) && Clean(g, []) && Records(g) != []
    requires next == g.base + |Records(g)|
    ensures SealedOk(sealed + [g], next)
    ensures SegmentRecords(sealed + [g]) == SegmentRecords(sealed) + Records(g)
  {
    hide Clean, Records;
    var more := sealed + [g];
    assert more[..|sealed|] == sealed;
    forall i | 0 <= i < |more|
      ensures Clean(more[i], []) && Records(more[i]) != []
      ensures more[i].base + |Records(more[i])| == BaseAt(more, next, i + 1)
    {
      if i < |sealed| {
        assert BaseAt(more, next, i + 1) == BaseAt(sealed, g.base, i + 1);
      }
    }
  }

  lemma SealCache(sealed: seq<Segment>, g: Segment, cache: map<nat, seq<Entry>>, next: nat)
    requires CacheOk(sealed, cache) && CachedBelow(cache, g.base) && g.base < next
    ensures CacheOk(sealed + [g], cache - {g.base}) && CachedBelow(cache - {g.base}, next)
    ensures Cached(Segment(next, [], []), cache - {g.base})
  {
    hide LoadIndex;
  }

  lemma LogNotEmpty(g: Segment)
    requires Clean(g, []) && |g.log| > 0
    ensures Records(g) != []
  {
    hide Scan, Due, EncodeIndex;
  }

  lemma FinishStep(s: State)
    requires Enabled(s, Finish) && Inv(s)
    ensures Inv(Apply(s, Finish)) && Accepted(Apply(s, Finish)) == Accepted(s)
    ensures Written(Apply(s, Finish)) == Written(s)
  {
    hide SealedOk, ActiveOk, CacheOk, Cached, CachedBelow, OffsetsOk, QueueOk, Records, SegmentRecords;
    if s.fileBytes >= SEGMENT_MAX_BYTES { RotateStep(s); }
  }

  lemma {:induction false} BasesIncrease(sealed: seq<Segment>, next: nat, i: nat, j: nat)
    requires SealedOk(sealed, next) && i < j <= |sealed|
    ensures BaseAt(sealed, next, i) + |Records(sealed[i])| <= BaseAt(sealed, next, j)
    ensures BaseAt(sealed, next, i) < BaseAt(sealed, next, j)
    decreases j
  {
    hide Clean, Records;
    if j > i + 1 {
      BasesIncrease(sealed, next, i, j - 1);
      assert sealed[j - 1].base + |Records(sealed[j - 1])| == BaseAt(sealed, next, j);
    }
  }

  lemma LoadCacheStep(s: State, offset: nat)
    requires Enabled(s, LoadCache(offset)) && Inv(s)
    ensures Inv(Apply(s, LoadCache(offset)))
    ensures Accepted(Apply(s, LoadCache(offset))) == Accepted(s)
  {
    hide Clean, ActiveOk, OffsetsOk, QueueOk, PhaseOk, Records, SegmentRecords, LoadIndex, StartedBy, SealedOk;
    var k := SegmentFor(s, offset);
    if k.Some? && Pick(s, k.value).base !in s.cache {
      var g := Pick(s, k.value);
      forall i | 0 <= i <= |s.sealed| && i != k.value
        ensures Pick(s, i).base != g.base && g.base <= s.active.base
      {
        var a, b := if i < k.value then i else k.value, if i < k.value then k.value else i;
        BasesIncrease(s.sealed, s.active.base, a, b);
        if k.value < |s.sealed| { BasesIncrease(s.sealed, s.active.base, k.value, |s.sealed|); }
      }
      assert forall i :: 0 <= i < |s.sealed| ==> s.sealed[i] == Pick(s, i);
      assert Pick(s, |s.sealed|) == s.active;
    }
  }
}
