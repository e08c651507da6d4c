/** What a whole batch does to a store: appends, then taking, indexing and writing them together. */
module Batches {
  import opened Bytes
  import opened LogFormat
  import opened SegmentReader
  import opened OffsetIndex
  import opened Store
  import opened StoreRuns

  // --------------------------------------------------------------- appending

  function Appends(rs: seq<Record>): seq<Action> {
    if rs == [] then []
    else
      var n := |rs| - 1;
      Appends(rs[..n]) + [Append(rs[n].payload, rs[n].timestamp)]
  }

  /** The queue takes all of these records, under the offsets they carry. */
  predicate Roomy(s: State, rs: seq<Record>) {
    && !s.closed && AllFit(rs) && Contiguous(rs, s.nextOffset)
    && |s.queue| + |rs| <= s.options.queueCapacity
    && s.pendingBytes + PayloadBytes(rs) <= s.options.maxPendingBytes
  }

  function Queued(s: State, rs: seq<Record>): State {
    s.(queue := s.queue + rs, nextOffset := s.nextOffset + |rs|, pendingBytes := s.pendingBytes + PayloadBytes(rs))
  }

  lemma {:induction false} AppendAll(s: State, rs: seq<Record>)
    requires Roomy(s, rs)
    ensures Run(s, Appends(rs)) == Some(Queued(s, rs))
  {
    if rs == [] {
      Nothing(s.queue);
    } else {
      hide Run, Roomy, Queued, PayloadBytes, Enabled, Apply;
      var n := |rs| - 1;
      var r := rs[n];
      LastRoom(s, rs);
      AppendAll(s, rs[..n]);
      OneAppended(s, rs[..n], r);
      RunLast(s, Appends(rs[..n]), Append(r.payload, r.timestamp));
    }
  }

  lemma LastRoom(s: State, rs: seq<Record>)
    requires Roomy(s, rs) && rs != []
    ensures var n := |rs| - 1;
            && rs == rs[..n] + [rs[n]] && Roomy(s, rs[..n]) && !s.closed && Fits(rs[n])
            && rs[n].offset == s.nextOffset + n && |s.queue| + n < s.options.queueCapacity
            && PayloadBytes(rs) == PayloadBytes(rs[..n]) + |rs[n].payload|
            && s.pendingBytes + PayloadBytes(rs) <= s.options.maxPendingBytes
  {
    hide Fits, PayloadBytes;
    PayloadLast(rs);
  }

  lemma PayloadLast(rs: seq<Record>)
    requires rs != []
    ensures var n := |rs| - 1;
            rs == rs[..n] + [rs[n]] && PayloadBytes(rs) == PayloadBytes(rs[..n]) + |rs[n].payload|
  {
    hide PayloadBytes;
    var n := |rs| - 1;
    assert rs == rs[..n] + [rs[n]];
    PayloadBytesAppend(rs[..n], [rs[n]]);
    OnePayload(rs[n]);
  }

  lemma OnePayload(r: Record)
    ensures PayloadBytes([r]) == |r.payload|
  {
  }

  lemma OneAppended(s: State, rs: seq<Record>, r: Record)
    requires !s.closed && Fits(r) && r.offset == s.nextOffset + |rs| && |s.queue| + |rs| < s.options.queueCapacity
    requires PayloadBytes(rs + [r]) == PayloadBytes(rs) + |r.payload|
    requires s.pendingBytes + PayloadBytes(rs) + |r.payload| <= s.options.maxPendingBytes
    ensures var t, a := Queued(s, rs), Append(r.payload, r.timestamp);
            Enabled(t, a) && Accepts(t, a) && Apply(t, a) == Queued(s, rs + [r])
  {
    hide PayloadBytes, Queued, Enqueue;
    QueuedFields(s, rs);
    EnqueueQueued(s, rs, r);
  }

  lemma QueuedFields(s: State, rs: seq<Record>)
    ensures var t := Queued(s, rs);
            && t.closed == s.closed && t.options == s.options && |t.queue| == |s.queue| + |rs|
            && t.pendingBytes == s.pendingBytes + PayloadBytes(rs) && t.nextOffset == s.nextOffset + |rs|
  {
    hide PayloadBytes;
  }

  lemma EnqueueQueued(s: State, rs: seq<Record>, r: Record)
    requires r.offset == s.nextOffset + |rs| && PayloadBytes(rs + [r]) == PayloadBytes(rs) + |r.payload|
    ensures Enqueue(Queued(s, rs), r.payload, r.timestamp) == Queued(s, rs + [r])
  {
    hide PayloadBytes;
    var q := s.queue + (rs + [r]);
    Assoc(s.queue, rs, [r]);
    var t := Queued(s, rs);
    assert t.queue + [Record(t.nextOffset, r.timestamp, r.payload)] == q by { SameRecord(r, t.nextOffset); }
    assert |rs + [r]| == |rs| + 1;
  }

  lemma SameRecord(r: Record, offset: nat)
    requires r.offset == offset
    ensures [Record(offset, r.timestamp, r.payload)] == [r]
  {
  }

  // --------------------------------------------------------------- taking

  predicate CanTake(s: State, n: nat) {
    && s.phase.Gathering? && s.batch == [] && n <= |s.queue| && s.pendingBytes == PayloadBytes(s.queue)
    && (n <= 1 || (n <= s.options.maxBatchRecords && LogSize(s.queue[..n]) <= s.options.maxBatchBytes))
  }

  function Taken(s: State, n: nat): State
    requires n <= |s.queue|
  {
    s.(queue := s.queue[n..], batch := s.queue[..n], pendingBytes := PayloadBytes(s.queue[n..]))
  }

  lemma {:induction false} PopAll(s: State, n: nat)
    requires CanTake(s, n)
    ensures Run(s, Repeat(Pop, n)) == Some(Taken(s, n))
  {
    hide Run, LogSize, PayloadBytes, CanTake, Taken;
    if n == 0 {
      RunNothing(s, Pop);
      NothingTaken(s);
    } else {
      CanPop(s, n);
      PopAll(s, n - 1);
      RunLast(s, Repeat(Pop, n - 1), Pop);
      OneTaken(s, n);
    }
  }

  lemma NothingTaken(s: State)
    requires CanTake(s, 0)
    ensures Taken(s, 0) == s
  {
    assert s.queue[0..] == s.queue;
  }

  lemma CanPop(s: State, n: nat)
    requires 0 < n && CanTake(s, n)
    ensures CanTake(s, n - 1) && n <= |s.queue| && Enabled(Taken(s, n - 1), Pop)
  {
    hide LogSize, PayloadBytes;
    SizeBelow(s.queue, n);
  }

  lemma SizeBelow(rs: seq<Record>, n: nat)
    requires 0 < n <= |rs|
    ensures LogSize(rs[..n - 1]) < LogSize(rs[..n])
  {
    LogSizeLast(rs[..n - 1], rs[n - 1]);
    assert rs[..n] == rs[..n - 1] + [rs[n - 1]];
  }

  lemma OneTaken(s: State, n: nat)
    requires 0 < n <= |s.queue| && Enabled(Taken(s, n - 1), Pop)
    ensures PopOne(Taken(s, n - 1)) == Taken(s, n)
  {
    hide LogSize;
    var rest := s.queue[n - 1..];
    assert rest[1..] == s.queue[n..];
    assert s.queue[..n - 1] + [rest[0]] == s.queue[..n];
    assert PayloadBytes(rest) == |rest[0].payload| + PayloadBytes(rest[1..]);
  }

  // --------------------------------------------------------------- writing

  predicate CanWrite(s: State) {
    s.phase.Gathering? && s.batch != [] && s.fileBytes + LogSize(s.batch) < U64
  }

  /** The first `i` records of the batch are in the index, and none in the log. */
  function IndexedTo(s: State, i: nat): State
    requires i <= |s.batch|
  {
    s.(active := s.active.(idx := s.active.idx + EncodeIndex(Due(s.batch[..i], s.active.base, s.fileBytes))),
       phase := Indexing(i))
  }

  lemma {:induction false} IndexAll(s: State, i: nat)
    requires CanWrite(s) && i <= |s.batch|
    ensures Run(s, [CloseBatch] + Repeat(WriteIndex, i)) == Some(IndexedTo(s, i))
  {
    hide Run, LogSize, EncodeIndex, Due;
    if i == 0 {
      RunOne(s, CloseBatch);
      NothingIndexed(s);
    } else {
      IndexAll(s, i - 1);
      RunLast(s, [CloseBatch] + Repeat(WriteIndex, i - 1), WriteIndex);
      Assoc([CloseBatch], Repeat(WriteIndex, i - 1), [WriteIndex]);
      OneIndexed(s, i);
    }
  }

  lemma NothingIndexed(s: State)
    ensures s.active.idx + EncodeIndex(Due(s.batch[..0], s.active.base, s.fileBytes)) == s.active.idx
    ensures [CloseBatch] + Repeat(WriteIndex, 0) == [CloseBatch]
  {
  }

  lemma OneIndexed(s: State, i: nat)
    requires 0 < i <= |s.batch| && Enabled(IndexedTo(s, i - 1), WriteIndex)
    ensures IndexOne(IndexedTo(s, i - 1)) == IndexedTo(s, i)
  {
    hide LogSize, EncodeIndex, Due, Indexed;
    var rs, r := s.batch[..i - 1], s.batch[i - 1];
    var es, p := Due(rs, s.active.base, s.fileBytes), s.fileBytes + LogSize(rs);
    assert s.batch[..i] == rs + [r];
    DueAppend(rs, [r], s.active.base, s.fileBytes);
    EncodeIndexMore(es, r, s.active.base, p);
    Assoc(s.active.idx, EncodeIndex(es), DueNow(r, s.active.base, p));
  }

  /** The batch is in both files, and not yet committed. */
  function Flushed(s: State): State {
    FlushBatch(IndexedTo(s, |s.batch|))
  }

  function WriteActs(n: nat): seq<Action> {
    [CloseBatch] + Repeat(WriteIndex, n) + [WriteLog]
  }

  lemma FlushAll(s: State)
    requires CanWrite(s)
    ensures Run(s, WriteActs(|s.batch|)) == Some(Flushed(s))
  {
    hide Run, EncodeIndex, Due, LogSize, EncodeLog;
    IndexAll(s, |s.batch|);
    RunLast(s, [CloseBatch] + Repeat(WriteIndex, |s.batch|), WriteLog);
  }

  /** Nothing queued, nothing in flight. */
  predicate Idle(s: State) {
    s.phase.Gathering? && s.batch == [] && s.queue == [] && s.pendingBytes == 0
  }

  /** One batch holds all of these records, from the append on. */
  predicate OneBatch(s: State, rs: seq<Record>) {
    && Idle(s) && rs != [] && Roomy(s, rs) && s.fileBytes + LogSize(rs) < U64
    && (|rs| == 1 || (|rs| <= s.options.maxBatchRecords && LogSize(rs) <= s.options.maxBatchBytes))
  }

  /** The state in which `rs` has been appended and taken. */
  function Batched(s: State, rs: seq<Record>): State {
    s.(nextOffset := s.nextOffset + |rs|, batch := rs)
  }

  lemma BatchAll(s: State, rs: seq<Record>)
    requires OneBatch(s, rs)
    ensures Run(s, Appends(rs) + Repeat(Pop, |rs|)) == Some(Batched(s, rs)) && CanWrite(Batched(s, rs))
  {
    hide Run, LogSize, AllFit, Contiguous, PayloadBytes, CanTake, Taken, Queued;
    AppendAll(s, rs);
    TakenAll(s, rs);
    PopAll(Queued(s, rs), |rs|);
    RunJoin(s, Appends(rs), Repeat(Pop, |rs|));
  }

  lemma TakenAll(s: State, rs: seq<Record>)
    requires OneBatch(s, rs)
    ensures var t := Queued(s, rs);
            |t.queue| == |rs| && CanTake(t, |rs|) && Taken(t, |rs|) == Batched(s, rs)
  {
    hide LogSize, AllFit, Contiguous;
    assert s.queue + rs == rs && rs[..|rs|] == rs && rs[|rs|..] == [];
  }

  /** Appending records to an idle store and writing them in one batch. */
  lemma WriteAll(s: State, rs: seq<Record>)
    requires OneBatch(s, rs)
    ensures Run(s, Appends(rs) + Repeat(Pop, |rs|) + WriteActs(|rs|)) == Some(Flushed(Batched(s, rs)))
  {
    hide Run, OneBatch, CanWrite, Flushed;
    BatchAll(s, rs);
    FlushAll(Batched(s, rs));
    RunJoin(s, Appends(rs) + Repeat(Pop, |rs|), WriteActs(|rs|));
  }

  /** The same store with these records in its active log. */
  predicate Grown(s: State, t: State, rs: seq<Record>) {
    && t.options == s.options && t.closed == s.closed && t.sealed == s.sealed && t.cache == s.cache
    && t.active.base == s.active.base && t.active.log == s.active.log + EncodeLog(rs)
    && t.fileBytes == s.fileBytes + LogSize(rs) && t.tail == s.tail + |rs|
    && t.nextOffset == s.nextOffset + |rs|
  }

  /** The queue takes any one of these records, and together they do not fill the segment. */
  predicate EachFits(s: State, rs: seq<Record>) {
    && !s.closed && s.options.queueCapacity >= 1 && AllFit(rs) && Contiguous(rs, s.nextOffset)
    && (forall i :: 0 <= i < |rs| ==> |rs[i].payload| <= s.options.maxPendingBytes)
    && s.fileBytes + LogSize(rs) < SEGMENT_MAX_BYTES
  }

  /** One record in a batch of its own, committed, with no rotation after it. */
  lemma WriteSingle(s: State, r: Record) returns (acts: seq<Action>)
    requires Idle(s) && EachFits(s, [r])
    ensures Run(s, acts).Some?
    ensures var t := Run(s, acts).value; Idle(t) && Grown(s, t, [r])
  {
    hide Run, EncodeLog, EncodeIndex, Due, LogSize;
    OneRecord(r);
    assert [r][0] == r;
    WriteAll(s, [r]);
    var write := Appends([r]) + Repeat(Pop, 1) + WriteActs(1);
    var u := Flushed(Batched(s, [r]));
    RunLast(s, write, Publish);
    RunLast(s, write + [Publish], Finish);
    acts := write + [Publish] + [Finish];
    assert u.fileBytes < SEGMENT_MAX_BYTES;
  }

  /** Appending records to an idle store and writing each in a batch of its own. */
  lemma {:induction false} WriteEach(s: State, rs: seq<Record>) returns (acts: seq<Action>)
    requires Idle(s) && EachFits(s, rs)
    ensures Run(s, acts).Some?
    ensures var t := Run(s, acts).value; Idle(t) && Grown(s, t, rs)
    decreases |rs|
  {
    hide Run, Idle, EachFits, Grown;
    if rs == [] {
      acts := [];
      assert Run(s, []) == Some(s) by { RunNothing(s, Pop); }
      NothingGrown(s);
    } else {
      FirstFits(s, rs);
      acts := WriteSingle(s, rs[0]);
      var t := Run(s, acts).value;
      RestFits(s, t, rs);
      var more := WriteEach(t, rs[1..]);
      RunJoin(s, acts, more);
      GrownTwice(s, t, Run(t, more).value, rs);
      acts := acts + more;
    }
  }

  lemma NothingGrown(s: State)
    ensures Grown(s, s, [])
  {
    Nothing(s.active.log);
  }

  lemma FirstFits(s: State, rs: seq<Record>)
    requires EachFits(s, rs) && rs != []
    ensures EachFits(s, [rs[0]])
  {
    hide Fits;
    OneRecord(rs[0]);
  }

  lemma RestFits(s: State, t: State, rs: seq<Record>)
    requires EachFits(s, rs) && rs != [] && Grown(s, t, [rs[0]])
    ensures EachFits(t, rs[1..])
  {
    hide Fits, EncodeLog;
    OneRecord(rs[0]);
  }

  lemma GrownTwice(s: State, t: State, u: State, rs: seq<Record>)
    requires rs != [] && Grown(s, t, [rs[0]]) && Grown(t, u, rs[1..])
    ensures Grown(s, u, rs)
  {
    hide EncodeLog, LogSize;
    assert rs == [rs[0]] + rs[1..];
    EncodeLogAppend([rs[0]], rs[1..]);
    LogSizeAppend([rs[0]], rs[1..]);
    Assoc(s.active.log, EncodeLog([rs[0]]), EncodeLog(rs[1..]));
  }

  // --------------------------------------------------------------- an uncommitted record is read

  /** A consumer can read a record that has never been committed. */
  lemma UncommittedFetch(options: Options, payload: seq<byte>, timestamp: nat) returns (acts: seq<Action>)
    requires |payload| < U32 && timestamp < U64
    requires options.queueCapacity >= 1 && |payload| <= options.maxPendingBytes
    ensures Run(Empty(options), acts).Some?
    ensures var s := Run(Empty(options), acts).value;
            s.committed == 0 && exists max: nat :: !CommittedOnly(s, 0, max)
  {
    hide Run, CommittedOnly, Inv;
    var s, r := Empty(options), Record(0, timestamp, payload);
    OneRecord(r);
    WriteAll(s, [r]);
    acts := Appends([r]) + Repeat(Pop, 1) + WriteActs(1);
    EmptyInv(options);
    RunInv(s, acts);
    var t := Run(s, acts).value;
    Uncommitted(t);
  }

  lemma OneRecord(r: Record)
    ensures PayloadBytes([r]) == |r.payload| && LogSize([r]) == Size(r)
  {
    assert [r][1..] == [];
  }

  lemma Uncommitted(t: State)
    requires Inv(t) && t.phase.Flushed? && t.sealed == [] && t.committed == 0
    ensures !CommittedOnly(t, 0, 1)
  {
    hide Inv, Fetch, FetchEnd;
    Dirty(t);
    FetchOffsets(t, 0, 1);
    assert Fetch(t, 0, 1)[0].offset == 0;
  }
}
