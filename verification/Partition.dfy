/** The partition store as the object the source has: fields updated in place, step by step. */
module Partition {
  import opened Bytes
  import opened LogFormat
  import opened SegmentReader
  import opened OffsetIndex
  import opened Store
  import opened StoreRuns
  import opened LateReads
  import opened SegmentNames
  import opened Recovery

  datatype AppendResult = Ok(offset: nat) | Rejected | Closed

  /** What a producer wants appended. */
  datatype Command = Command(payload: seq<byte>, timestamp: nat)

  predicate CommandsFit(cs: seq<Command>) {
    forall i :: 0 <= i < |cs| ==> |cs[i].payload| < U32 && cs[i].timestamp < U64
  }

  predicate ArrivalsFit(arrivals: seq<seq<Command>>) {
    forall i :: 0 <= i < |arrivals| ==> CommandsFit(arrivals[i])
  }

  function Total(arrivals: seq<seq<Command>>): nat {
    if arrivals == [] then 0 else |arrivals[0]| + Total(arrivals[1..])
  }

  /** Only producers and the taking of commands are at work. */
  predicate Taking(acts: seq<Action>) {
    forall i :: 0 <= i < |acts| ==> acts[i].Pop? || acts[i].Append?
  }

  /** Everything the background thread does to get a batch of `n` records committed. */
  function WriteActions(n: nat): seq<Action> {
    [CloseBatch] + Repeat(WriteIndex, n) + [WriteLog, Publish]
  }

  class PartitionStore {
    const options: Options
    var queue: seq<Record>
    var pendingBytes: nat
    var nextOffset: nat
    var closed: bool
    var batch: seq<Record>      // held by the background thread
    var phase: Phase
    var sealed: seq<Segment>
    var active: Segment         // the writer's two files and their base
    var tail: nat               // the writer's next offset
    var fileBytes: nat          // the writer's byte count
    var committed: nat
    var cache: map<nat, seq<Entry>>

    function View(): State
      reads this
    {
      State(options, queue, pendingBytes, nextOffset, closed, batch, phase,
            sealed, active, tail, fileBytes, committed, cache)
    }

    ghost predicate Valid()
      reads this
    {
      Inv(View())
    }

    /**
     * Opens a directory: recovers its last segment, takes every earlier one as sealed, and resumes
     * the writer where recovery ended. An empty directory gets a first segment with base 0.
     */
    constructor (options: Options, dir: Directory, listing: seq<string>)
      requires ListingOk(dir, listing) && Once(listing)
      ensures ListingOk(dir, Sort(listing)) && View() == Opened(options, SegmentsAt(dir, Sort(listing)))
    {
      hide Sort, Scan, EncodeLog, LogSize, First, Value;
      var rr, dir' := RecoverPartition(dir, listing);
      SortOnce(listing);
      var names := Sort(listing);
      var n := if names == [] then 0 else |names| - 1;
      var segments := [];
      var i := 0;
      while i < n
        invariant 0 <= i <= n && |segments| == i
        invariant forall j :: 0 <= j < i ==> segments[j] == SegmentAt(dir, names[j])
      {
        segments := segments + [SegmentAt(dir', names[i])];
        i := i + 1;
      }
      var writer := if names == [] then Segment(0, [], []) else SegmentAt(dir', names[n]);
      this.options := options;
      queue, pendingBytes, closed := [], 0, false;
      batch, phase := [], Gathering;
      sealed, active, cache := segments, writer, map[];
      tail, fileBytes := rr.nextOffset, rr.logEnd;
      nextOffset, committed := rr.nextOffset, rr.nextOffset;
      new;
      assert names != [] ==> segments == SegmentsAt(dir, names)[..n];
    }

    /** Accepts a message into the bounded queue, or says why not. */
    method Append(payload: seq<byte>, timestamp: nat) returns (r: AppendResult)
      requires Enabled(View(), Action.Append(payload, timestamp)) && Valid()
      modifies this
      ensures Valid() && View() == Apply(old(View()), Action.Append(payload, timestamp))
      ensures r.Ok? <==> Accepts(old(View()), Action.Append(payload, timestamp))
      ensures r.Closed? <==> old(closed)
      ensures r.Ok? ==> r.offset == old(|Accepted(View())|)
                        && Accepted(View()) == old(Accepted(View())) + [Record(r.offset, timestamp, payload)]
      ensures !r.Ok? ==> View() == old(View())
    {
      hide Inv, Accepted, Written;
      Step(View(), Action.Append(payload, timestamp));
      NextIsCount(View());
      if closed { return Closed; }
      if |queue| >= options.queueCapacity || pendingBytes + |payload| > options.maxPendingBytes {
        return Rejected;
      }
      var command := Record(nextOffset, timestamp, payload);
      nextOffset := nextOffset + 1;
      pendingBytes := pendingBytes + |payload|;
      queue := queue + [command];
      return Ok(command.offset);
    }

    /** Producers append while the background thread waits. */
    method Arrive(commands: seq<Command>, ghost start: State, ghost acts: seq<Action>) returns (ghost acts': seq<Action>)
      requires Valid() && CommandsFit(commands) && nextOffset + |commands| <= U64
      requires Run(start, acts) == Some(View()) && Taking(acts)
      modifies this
      ensures Valid() && Run(start, acts') == Some(View()) && Taking(acts')
      ensures phase == old(phase) && batch == old(batch) && nextOffset <= old(nextOffset) + |commands|
      ensures old(queue) <= queue
    {
      hide Inv, Run, Accepted, Busy;
      acts' := acts;
      for i := 0 to |commands|
        invariant Valid() && Run(start, acts') == Some(View()) && Taking(acts')
        invariant phase == old(phase) && batch == old(batch) && nextOffset <= old(nextOffset) + i
        invariant old(queue) <= queue
      {
        ghost var a := Action.Append(commands[i].payload, commands[i].timestamp);
        RunLast(start, acts', a);
        var r := Append(commands[i].payload, commands[i].timestamp);
        acts' := acts' + [a];
      }
    }

    /**
     * Moves commands from the queue to the batch until a limit is met or the clock cuts it off after
     * `deadline` of them. When the queue runs dry it waits, and `arrivals[j]` is what comes in during
     * wait `j`; it ends when nothing does.
     */
    method TakeBatch(deadline: nat, arrivals: seq<seq<Command>>) returns (ghost acts: seq<Action>)
      requires Valid() && phase.Gathering? && batch == [] && deadline > 0
      requires ArrivalsFit(arrivals) && nextOffset + Total(arrivals) <= U64
      modifies this
      ensures Valid() && phase.Gathering? && Run(old(View()), acts) == Some(View()) && Taking(acts)
      ensures Payloads(Accepted(View())) == Payloads(old(Accepted(View()))) + AcceptedBy(old(View()), acts)
      ensures old(queue) <= batch + queue
      ensures batch == [] <==> old(queue) == []
      ensures Limited(options, batch) && |batch| <= deadline
      ensures queue == [] || |batch| == deadline
              || |batch| >= options.maxBatchRecords || LogSize(batch) >= options.maxBatchBytes
    {
      hide Inv, Accepted, LogSize, Run, BatchFull, Minus, Enabled, Total, Limited;
      var batchBytes, waits := 0, 0;
      acts := [];
      Nothing(queue);
      EmptyLog();
      NothingTaken(options);
      RunNothing(View(), Pop);
      while queue != []
        invariant Valid() && phase.Gathering? && Run(old(View()), acts) == Some(View()) && Taking(acts)
        invariant old(queue) <= batch + queue && (batch == [] ==> queue == old(queue))
        invariant batch != [] ==> old(queue) != []
        invariant batchBytes == LogSize(batch) && |batch| <= deadline && Limited(options, batch)
        invariant queue != [] ==> batch == [] || (!BatchFull(View()) && |batch| < deadline)
        invariant waits <= |arrivals| && nextOffset + Total(arrivals[waits..]) <= U64
        decreases |arrivals| - waits, |queue|
      {
        batchBytes := PopOne(batchBytes, old(View()), acts);
        acts := acts + [Pop];
        if |batch| >= options.maxBatchRecords || batchBytes >= options.maxBatchBytes {
          FullNow(View());
          break;
        }
        NotFullNow(View());
        if |batch| >= deadline {
          break;
        }
        if queue == [] && waits < |arrivals| {
          TotalNext(arrivals, waits);
          ghost var before := View();
          acts := Arrive(arrivals[waits], old(View()), acts);
          SameBatch(before, View());
          waits := waits + 1;
        }
      }
      RunInv(old(View()), acts);
    }

    /** Moves the next command from the queue to the batch. */
    method PopOne(batchBytes: nat, ghost start: State, ghost acts: seq<Action>) returns (batchBytes': nat)
      requires Valid() && phase.Gathering? && queue != [] && (batch == [] || !BatchFull(View()))
      requires batchBytes == LogSize(batch) && Run(start, acts) == Some(View())
      modifies this`queue, this`pendingBytes, this`batch
      ensures Valid() && Run(start, acts + [Pop]) == Some(View()) && batchBytes' == LogSize(batch)
      ensures batch == old(batch) + [old(queue)[0]] && queue == old(queue)[1..] && batch + queue == old(batch + queue)
      ensures Limited(options, batch)
    {
      hide Inv, Accepted, LogSize, Run, BatchFull, Minus, Limited;
      ghost var before := View();
      StaysLimited(before, queue[0]);
      PopStep(before);
      RunLast(start, acts, Pop);
      LogSizeLast(batch, queue[0]);
      MovedOne(batch, queue);
      var command := queue[0];
      queue := queue[1..];
      pendingBytes := Minus(pendingBytes, |command.payload|);
      batchBytes' := batchBytes + HEADER_SIZE + |command.payload|;
      batch := batch + [command];
      assert View() == Store.PopOne(before);
    }

    /**
     * Writes the batch: the index entries that are due, one at a time, then all log bytes at once,
     * then the writer's counters, then the committed offset.
     */
    method WriteBatch() returns (committedRecords: seq<Record>)
      requires Valid() && phase.Gathering? && batch != [] && fileBytes + LogSize(batch) < U64
      modifies this
      ensures Valid() && Run(old(View()), WriteActions(|old(batch)|)) == Some(View())
      ensures committedRecords == batch == old(batch) && queue == old(queue)
      ensures Written(View()) == old(Written(View())) + committedRecords
      ensures committed == tail == old(tail) + |committedRecords|
    {
      hide Inv, Accepted, LogSize, Run, Encode, EncodeLog, Written, Indexed;
      ghost var start := View();
      ghost var acts := [CloseBatch];
      RunOne(start, CloseBatch);
      Step(start, CloseBatch);
      phase := Indexing(0);
      var buffer := [];
      var position := fileBytes;
      Nothing(Written(start));
      NothingEncoded(batch);
      var i := 0;
      while i < |batch|
        invariant 0 <= i <= |batch| && phase == Indexing(i) && Valid()
        invariant acts == [CloseBatch] + Repeat(WriteIndex, i) && Run(start, acts) == Some(View())
        invariant buffer == EncodeLog(batch[..i]) && position == fileBytes + LogSize(batch[..i])
        invariant batch == start.batch && queue == start.queue && tail == start.tail
        invariant fileBytes == start.fileBytes && Written(View()) == Written(start)
      {
        OneEncoded(batch, i);
        Assoc([CloseBatch], Repeat(WriteIndex, i), [WriteIndex]);
        buffer, position := IndexRecord(i, buffer, position, start, acts);
        acts := acts + [WriteIndex];
        i := i + 1;
      }
      assert batch[..|batch|] == batch;
      FlushBuffer(buffer, start, acts);
      WholeBatch(|batch|);
      committedRecords := batch;
    }

    /** Writes the index entry of one record if it is due, and adds the record to the buffer. */
    method IndexRecord(i: nat, buffer: seq<byte>, position: nat, ghost start: State, ghost acts: seq<Action>)
      returns (buffer': seq<byte>, position': nat)
      requires Enabled(View(), WriteIndex) && phase == Indexing(i) && Valid()
      requires position == fileBytes + LogSize(batch[..i]) && Run(start, acts) == Some(View())
      modifies this`active, this`phase
      ensures Valid() && Run(start, acts + [WriteIndex]) == Some(View()) && phase == Indexing(i + 1)
      ensures Written(View()) == old(Written(View()))
      ensures buffer' == buffer + Encode(batch[i]) && position' == position + Size(batch[i])
    {
      hide Inv, Accepted, LogSize, Run, Encode, Written, Indexed;
      ghost var before := View();
      var r := batch[i];
      Step(before, WriteIndex);
      Nothing(Written(before));
      RunLast(start, acts, WriteIndex);
      if Indexed(r, active.base) {
        active := active.(idx := active.idx + EncodeEntry(Entry(r.offset, position)));
      } else {
        Nothing(active.idx);
      }
      buffer' := buffer + Encode(r);
      position' := position + HEADER_SIZE + |r.payload|;
      phase := Indexing(i + 1);
      assert View() == IndexOne(before);
    }

    /** Appends the encoded batch to the log file, then moves the writer's counters and the committed offset. */
    method FlushBuffer(buffer: seq<byte>, ghost start: State, ghost acts: seq<Action>)
      requires Enabled(View(), WriteLog) && batch != [] && Valid() && buffer == EncodeLog(batch)
      requires Run(start, acts) == Some(View())
      modifies this`active, this`fileBytes, this`tail, this`committed, this`phase
      ensures Valid() && Run(start, acts + [WriteLog] + [Publish]) == Some(View())
      ensures committed == tail == old(tail) + |batch|
      ensures Written(View()) == old(Written(View())) + batch
    {
      hide Inv, Run, Written, Accepted, EncodeLog;
      ghost var before := View();
      Step(before, WriteLog);
      RunLast(start, acts, WriteLog);
      active := active.(log := active.log + buffer);
      fileBytes := fileBytes + |buffer|;
      tail := tail + |batch|;
      phase := Flushed;
      assert View() == FlushBatch(before);
      PublishBatch(start, acts + [WriteLog]);
    }

    /** Makes the written batch visible through the committed offset. */
    method PublishBatch(ghost start: State, ghost acts: seq<Action>)
      requires Enabled(View(), Publish) && Valid() && Run(start, acts) == Some(View())
      modifies this`committed, this`phase
      ensures Valid() && Run(start, acts + [Publish]) == Some(View())
      ensures committed == tail && Written(View()) == old(Written(View()))
    {
      hide Inv, Run, Written, Accepted;
      ghost var before := View();
      Step(before, Publish);
      RunLast(start, acts, Publish);
      PublishedAll(before);
      Nothing(Written(before));
      committed := batch[|batch| - 1].offset + 1;
      phase := Committed;
      assert View() == Apply(before, Publish);
    }

    /** Seals the active segment once it has reached the size limit, and lets the batch go. */
    method FinishBatch()
      requires Enabled(View(), Finish) && Valid()
      modifies this
      ensures Valid() && View() == Apply(old(View()), Finish)
      ensures Written(View()) == old(Written(View())) && phase.Gathering? && batch == []
      ensures fileBytes < SEGMENT_MAX_BYTES
      ensures old(fileBytes) >= SEGMENT_MAX_BYTES ==> sealed == old(sealed + [active]) && active.base == tail
    {
      hide Inv, Written, Accepted;
      Step(View(), Finish);
      Nothing(Written(View()));
      if fileBytes >= SEGMENT_MAX_BYTES {
        var oldBase := active.base;
        sealed := sealed + [active];
        cache := cache - {oldBase};
        active := Segment(tail, [], []);
        fileBytes := 0;
      }
      batch, phase := [], Gathering;
    }

    /** Binary search among the sealed segments, and only then the active one. */
    method FindSegmentFor(offset: nat) returns (k: Option<nat>)
      requires Valid()
      ensures k == SegmentFor(View(), offset)
    {
      hide Inv, SealedOk, Records, StartedBy;
      BasesAreOk(View());
      var lo, hi := 0, |sealed|;
      while lo < hi
        invariant 0 <= lo <= hi <= |sealed|
        invariant forall i :: 0 <= i < lo ==> sealed[i].base <= offset
        invariant forall i :: hi <= i < |sealed| ==> offset < sealed[i].base
      {
        var mid := (lo + hi) / 2;
        if offset < sealed[mid].base {
          forall i | mid <= i < |sealed| ensures offset < sealed[i].base {
            if i > mid { BasesIncrease(sealed, active.base, mid, i); }
          }
          hi := mid;
        } else {
          forall i | 0 <= i <= mid ensures sealed[i].base <= offset {
            if i < mid { BasesIncrease(sealed, active.base, i, mid); }
          }
          lo := mid + 1;
        }
      }
      StartedByIs(sealed, offset, lo);
      if lo > 0 { return Some(lo - 1); }
      return if offset >= active.base then Some(|sealed|) else None;
    }

    /** Finds the segment, and its index, which is kept in memory for the next time. */
    method Resolve(offset: nat) returns (k: Option<nat>, entries: seq<Entry>)
      requires Enabled(View(), LoadCache(offset)) && Valid()
      modifies this`cache
      ensures Valid() && View() == Apply(old(View()), LoadCache(offset))
      ensures k == SegmentFor(old(View()), offset)
      ensures k.Some? ==> entries == IndexOf(old(View()), Pick(old(View()), k.value)) && Sorted(entries)
      ensures k.Some? ==>
                var g := Pick(old(View()), k.value);
                && entries == (if g.base in old(cache) then old(cache)[g.base] else LoadIndex(g.idx))
                && cache == old(cache)[g.base := entries]
    {
      hide Inv, Written, Accepted, LoadIndex, StartedBy;
      Step(View(), LoadCache(offset));
      k := FindSegmentFor(offset);
      entries := [];
      if k.None? { return; }
      IndexSorted(View(), k.value);
      var g := Pick(View(), k.value);
      if g.base !in cache {
        var loaded := Load(g.idx);
        cache := cache[g.base := loaded];
      }
      entries := cache[g.base];
    }

    /** Looks the offset up in an index resolved before, and reads the file as it is now. */
    method ReadSegment(k: nat, entries: seq<Entry>, offset: nat, max: nat) returns (records: seq<Record>)
      requires k <= |sealed| && Sorted(entries)
      ensures records == Wanted(Scan(Drop(Pick(View(), k).log, Lookup(entries, offset))), offset, max)
    {
      hide Lookup, Wanted, Scan;
      var position := Search(entries, offset);
      records := Read(Pick(View(), k).log, position, offset, max);
    }

    /** Reads written messages. */
    method Fetch(offset: nat, max: nat) returns (records: seq<Record>)
      requires Enabled(View(), LoadCache(offset)) && Valid()
      modifies this`cache
      ensures Valid() && View() == Apply(old(View()), LoadCache(offset))
      ensures records == StoreRuns.Fetch(old(View()), offset, max)
    {
      hide Inv, Written, Accepted, LoadIndex, Lookup, Wanted, Scan, StartedBy, IndexOf;
      var k, entries := Resolve(offset);
      if k.None? { return []; }
      records := ReadSegment(k.value, entries, offset, max);
    }

    /** The writer's tail; queued commands are not counted. */
    method NextOffset() returns (n: nat)
      requires Valid()
      ensures n == |Written(View())| && n <= nextOffset
    {
      NextIsCount(View());
      n := tail;
    }
  }

  lemma NextIsCount(s: State)
    requires Inv(s)
    ensures s.nextOffset == |Accepted(s)| && s.tail == |Written(s)| <= s.nextOffset
  {
    hide Written, Inv;
    Numbered(s);
  }

  lemma PublishedAll(s: State)
    requires Enabled(s, Publish) && Inv(s)
    ensures Apply(s, Publish).committed == s.tail
  {
    hide SealedOk, ActiveOk, QueueOk, OffsetsOk, CacheOk, Cached;
  }

  lemma WholeBatch(n: nat)
    ensures WriteActions(n) == [CloseBatch] + Repeat(WriteIndex, n) + [WriteLog] + [Publish]
  {
  }

  lemma NothingEncoded(rs: seq<Record>)
    ensures EncodeLog(rs[..0]) == [] && LogSize(rs[..0]) == 0
    ensures [CloseBatch] + Repeat(WriteIndex, 0) == [CloseBatch]
  {
  }

  lemma TotalNext(arrivals: seq<seq<Command>>, i: nat)
    requires i < |arrivals|
    ensures Total(arrivals[i..]) == |arrivals[i]| + Total(arrivals[i + 1..])
  {
    assert arrivals[i..][1..] == arrivals[i + 1..];
  }

  lemma SameBatch(s: State, t: State)
    requires s.batch == t.batch && s.options == t.options
    ensures BatchFull(s) == BatchFull(t)
  {
  }

  lemma MovedOne(batch: seq<Record>, queue: seq<Record>)
    requires queue != []
    ensures (batch + [queue[0]]) + queue[1..] == batch + queue
  {
  }

  lemma FullNow(s: State)
    requires |s.batch| >= s.options.maxBatchRecords || LogSize(s.batch) >= s.options.maxBatchBytes
    ensures BatchFull(s)
  {
  }

  lemma NotFullNow(s: State)
    requires |s.batch| < s.options.maxBatchRecords && LogSize(s.batch) < s.options.maxBatchBytes
    ensures !BatchFull(s)
  {
  }

  lemma OneEncoded(rs: seq<Record>, i: nat)
    requires i < |rs|
    ensures EncodeLog(rs[..i + 1]) == EncodeLog(rs[..i]) + Encode(rs[i])
    ensures LogSize(rs[..i + 1]) == LogSize(rs[..i]) + Size(rs[i])
  {
    hide Encode;
    assert rs[..i + 1] == rs[..i] + [rs[i]];
    EncodeLogAppend(rs[..i], [rs[i]]);
    Nothing(Encode(rs[i]));
  }

  lemma {:induction false} StartedByIs(gs: seq<Segment>, offset: nat, k: nat)
    requires k <= |gs|
    requires forall i :: 0 <= i < k ==> gs[i].base <= offset
    requires forall i :: k <= i < |gs| ==> offset < gs[i].base
    ensures StartedBy(gs, offset) == k
  {
    if k < |gs| { StartedByIs(gs[..|gs| - 1], offset, k); }
  }
}
