/** How large files, batches and the queue can grow in a run that starts from an empty directory. */
module StoreBounds {
  import opened Bytes
  import opened LogFormat
  import opened SegmentReader
  import opened OffsetIndex
  import opened Store
  import opened StoreRuns

  /** One batch overshoots its limit by at most one record, one segment by at most one batch. */
  function SegmentBound(o: Options): int {
    (SEGMENT_MAX_BYTES - 1) + (o.maxBatchBytes - 1) + HEADER_SIZE + o.maxPendingBytes
  }

  predicate BatchOk(o: Options, batch: seq<Record>) {
    Limited(o, batch) && (batch != [] ==> |batch[|batch| - 1].payload| <= o.maxPendingBytes)
  }

  predicate FilesOk(gs: seq<Segment>, bound: int) {
    forall i :: 0 <= i < |gs| ==> |gs[i].log| <= bound
  }

  predicate Sized(s: State) {
    && BatchOk(s.options, s.batch)
    && FilesOk(s.sealed, SegmentBound(s.options))
    && (if s.phase.Flushed? || s.phase.Committed? then |s.active.log| <= SegmentBound(s.options)
        else |s.active.log| < SEGMENT_MAX_BYTES)
  }

  lemma BatchBytes(o: Options, batch: seq<Record>)
    requires BatchOk(o, batch) && o.maxBatchBytes >= 1 && batch != []
    ensures LogSize(batch) <= o.maxBatchBytes - 1 + HEADER_SIZE + o.maxPendingBytes
  {
    var n := |batch| - 1;
    LogSizeLast(batch[..n], batch[n]);
    assert batch[..n] + [batch[n]] == batch;
    if n == 0 { EmptyLog(); }
  }

  lemma SizedStep(s: State, a: Action)
    requires Enabled(s, a) && Inv(s) && Sized(s) && s.options.maxBatchBytes >= 1
    ensures Sized(Apply(s, a)) && Apply(s, a).options == s.options
  {
    hide SealedOk, Clean, OffsetsOk, CacheOk, Cached, LogSize, EncodeLog, Records, SegmentFor, LoadIndex, DueNow;
    match a
    case Append(_, _) =>
    case Pop =>
      StaysLimited(s, s.queue[0]);
    case CloseBatch =>
    case WriteIndex =>
    case WriteLog => BatchBytes(s.options, s.batch);
    case Publish =>
    case Finish =>
    case LoadCache(_) =>
    case Shutdown =>
  }

  lemma {:induction false} SizedRun(s: State, acts: seq<Action>)
    requires Run(s, acts).Some? && Inv(s) && Sized(s) && s.options.maxBatchBytes >= 1
    ensures Inv(Run(s, acts).value) && Sized(Run(s, acts).value)
    ensures Run(s, acts).value.options == s.options
  {
    hide Inv, Sized, Enabled, Apply;
    if acts != [] {
      var n := |acts| - 1;
      SizedRun(s, acts[..n]);
      var t := Run(s, acts[..n]).value;
      Step(t, acts[n]);
      SizedStep(t, acts[n]);
    }
  }

  /**
   * In every run from an empty directory: no file outgrows the bound, no batch its limits by more than
   * one record's bytes, the queue keeps within its capacity, and the byte counter is exactly the queued
   * payload, within its limit.
   */
  lemma Bounded(options: Options, acts: seq<Action>)
    requires options.maxBatchBytes >= 1 && Run(Empty(options), acts).Some?
    ensures var s := Run(Empty(options), acts).value;
            && FilesOk(s.sealed + [s.active], SegmentBound(options))
            && |s.batch| <= (if options.maxBatchRecords > 1 then options.maxBatchRecords else 1)
            && (s.batch != [] ==> LogSize(s.batch) < options.maxBatchBytes + HEADER_SIZE + options.maxPendingBytes)
            && |s.queue| <= options.queueCapacity
            && s.pendingBytes == PayloadBytes(s.queue) <= options.maxPendingBytes
  {
    hide Run, SealedOk, ActiveOk, OffsetsOk, CacheOk, Cached, PhaseOk;
    EmptyInv(options);
    SizedRun(Empty(options), acts);
    var s := Run(Empty(options), acts).value;
    if s.batch != [] { BatchBytes(options, s.batch); }
  }
}
