/** Recovery after a crash and reopening after a shutdown, from the files of a directory. */
module Recovery {
  import opened Bytes
  import opened LogFormat
  import opened SegmentReader
  import opened OffsetIndex
  import opened SegmentNames
  import opened Store
  import opened StoreRuns

  /** The two files that share a segment's name. */
  datatype Files = Files(log: seq<byte>, idx: seq<byte>)

  type Directory = map<string, Files>

  datatype RecoveryResult = RecoveryResult(nextOffset: nat, logEnd: nat, recovered: nat, truncated: bool)

  /** A listing names existing segments only. */
  predicate ListingOk(dir: Directory, listing: seq<string>) {
    forall i :: 0 <= i < |listing| ==> listing[i] in dir && Numeric(listing[i])
  }

  lemma {:induction false} InsertKeeps(x: string, s: seq<string>)
    ensures |Insert(x, s)| == |s| + 1
    ensures forall y :: y in Insert(x, s) ==> y == x || y in s
  {
    hide Less;
    if s != [] && Less(s[0], x) { InsertKeeps(x, s[1..]); }
  }

  lemma {:induction false} SortKeeps(s: seq<string>)
    ensures |Sort(s)| == |s| && forall y :: y in Sort(s) ==> y in s
  {
    hide Insert;
    if s != [] {
      SortKeeps(s[1..]);
      InsertKeeps(s[0], Sort(s[1..]));
    }
  }

  lemma SortedOk(dir: Directory, listing: seq<string>)
    requires ListingOk(dir, listing)
    ensures ListingOk(dir, Sort(listing)) && |Sort(listing)| == |listing|
  {
    hide Sort;
    SortKeeps(listing);
    var names := Sort(listing);
    forall i | 0 <= i < |names| ensures names[i] in dir && Numeric(names[i]) {
      assert names[i] in listing;
    }
  }

  /** Each file is listed once. */
  predicate Once(s: seq<string>) {
    forall i, j :: 0 <= i < j < |s| ==> s[i] != s[j]
  }

  lemma {:induction false} InsertOnce(x: string, s: seq<string>)
    requires Once(s) && x !in s
    ensures Once(Insert(x, s))
  {
    hide Less;
    if s != [] && Less(s[0], x) {
      InsertOnce(x, s[1..]);
      InsertKeeps(x, s[1..]);
      var rest := Insert(x, s[1..]);
      forall i | 0 <= i < |rest| ensures rest[i] != s[0] { assert rest[i] in rest; }
    }
  }

  lemma {:induction false} SortOnce(s: seq<string>)
    requires Once(s)
    ensures Once(Sort(s))
  {
    hide Insert;
    if s != [] {
      SortOnce(s[1..]);
      SortKeeps(s[1..]);
      InsertOnce(s[0], Sort(s[1..]));
    }
  }

  function NextAfter(rs: seq<Record>, base: nat): nat {
    if rs == [] then base else rs[|rs| - 1].offset + 1
  }

  /**
   * Finds the last segment, walks its records, and cuts off whatever follows the last whole one.
   * Every other file, and every index file, is left as it is.
   */
  method RecoverPartition(dir: Directory, listing: seq<string>) returns (rr: RecoveryResult, dir': Directory)
    requires ListingOk(dir, listing)
    ensures listing == [] ==> rr == RecoveryResult(0, 0, 0, false) && dir' == dir
    ensures |Sort(listing)| == |listing| && ListingOk(dir, Sort(listing))
    ensures listing != [] ==>
              var last := Sort(listing)[|listing| - 1];
              var log := dir[last].log;
              && last in dir' && dir' == dir[last := dir'[last]] && dir'[last].idx == dir[last].idx
              && rr.logEnd <= |log| && dir'[last].log == log[..rr.logEnd]
              && dir'[last].log == EncodeLog(Scan(log)) && First(log[rr.logEnd..]) == None
              && rr.recovered == |Scan(log)|
              && rr.nextOffset == (if Scan(log) == [] then Value(last) else Scan(log)[|Scan(log)| - 1].offset + 1)
              && (rr.truncated <==> rr.logEnd < |log|)
  {
    hide Sort, Scan, EncodeLog, First;
    SortedOk(dir, listing);
    dir' := dir;
    if listing == [] { return RecoveryResult(0, 0, 0, false), dir; }
    var names := Sort(listing);
    var last := names[|names| - 1];
    var base := Value(last);
    var log := dir[last].log;
    var records, end := ScanValid(log, 0);
    WholeFile(log, end);
    var next := if records == [] then base else records[|records| - 1].offset + 1;
    var truncated := false;
    if end < |log| {
      dir' := dir[last := dir[last].(log := log[..end])];
      truncated := true;
    }
    rr := RecoveryResult(next, end, |records|, truncated);
  }

  lemma WholeFile(log: seq<byte>, end: nat)
    requires end <= |log|
    ensures Drop(log, 0) == log && log[0..end] == log[..end] && (end == |log| ==> log[..end] == log)
  {
  }

  /** What recovery leaves of a log file. */
  function Kept(log: seq<byte>): seq<byte> {
    EncodeLog(Scan(log))
  }

  /** Recovering twice is recovering once: nothing is cut and the same records are found again. */
  lemma RecoveryIsIdempotent(log: seq<byte>)
    ensures Kept(log) <= log && Scan(Kept(log)) == Scan(log) && Kept(Kept(log)) == Kept(log)
  {
    hide Scan, EncodeLog;
    EncodeScan(log);
    ScanLog(Scan(log));
  }

  /** Of a log cut at any byte, recovery keeps exactly the records that were whole. */
  lemma TornLogKeepsWholeRecords(rs: seq<Record>, k: nat)
    requires AllFit(rs) && k <= LogSize(rs)
    ensures Kept(EncodeLog(rs)[..k]) == EncodeLog(rs[..WholeRecords(rs, k)])
    ensures LogSize(rs[..WholeRecords(rs, k)]) <= k
    ensures WholeRecords(rs, k) < |rs| ==> k < LogSize(rs[..WholeRecords(rs, k) + 1])
  {
    hide Scan, EncodeLog, LogSize, WholeRecords;
    ScanTorn(rs, k);
    WholeRecordsExact(rs, k);
  }

  // ------------------------------------------------------------------ opening

  function SegmentAt(dir: Directory, name: string): Segment
    requires name in dir && Numeric(name)
  {
    Segment(Value(name), dir[name].log, dir[name].idx)
  }

  function SegmentsAt(dir: Directory, names: seq<string>): (gs: seq<Segment>)
    requires ListingOk(dir, names)
    ensures |gs| == |names| && forall i :: 0 <= i < |names| ==> gs[i] == SegmentAt(dir, names[i])
  {
    seq(|names|, i requires 0 <= i < |names| => SegmentAt(dir, names[i]))
  }

  /** The state of a store opened on segments, sorted by name, whose last one has been recovered. */
  function Opened(options: Options, gs: seq<Segment>): State {
    if gs == [] then Empty(options)
    else
      var n := |gs| - 1;
      var rs := Scan(gs[n].log);
      var next := NextAfter(rs, gs[n].base);
      State(options, [], 0, next, false, [], Gathering,
            gs[..n], gs[n].(log := EncodeLog(rs)), next, LogSize(rs), next, map[])
  }

  // ------------------------------------------------------- files of a store

  function Bases(gs: seq<Segment>): (bs: seq<nat>)
    ensures |bs| == |gs| && forall i :: 0 <= i < |gs| ==> bs[i] == gs[i].base
  {
    seq(|gs|, i requires 0 <= i < |gs| => gs[i].base)
  }

  function DirectoryOf(gs: seq<Segment>): Directory {
    if gs == [] then map[]
    else
      var n := |gs| - 1;
      DirectoryOf(gs[..n])[Name(gs[n].base) := Files(gs[n].log, gs[n].idx)]
  }

  lemma {:induction false} FileOf(gs: seq<Segment>, i: nat)
    requires Small(Bases(gs)) && Increasing(Bases(gs)) && i < |gs|
    ensures Name(gs[i].base) in DirectoryOf(gs)
    ensures DirectoryOf(gs)[Name(gs[i].base)] == Files(gs[i].log, gs[i].idx)
  {
    hide Name;
    var n := |gs| - 1;
    if i < n {
      assert Small(Bases(gs[..n])) && Increasing(Bases(gs[..n])) by {
        assert forall j :: 0 <= j < n ==> Bases(gs[..n])[j] == Bases(gs)[j];
      }
      FileOf(gs[..n], i);
      assert Bases(gs)[i] < Bases(gs)[n];
      NameOrder(gs[i].base, gs[n].base);
    }
  }

  /** Reading a store's files back in sorted order gives its segments, base offsets included. */
  lemma SegmentsReadBack(gs: seq<Segment>, listing: seq<nat>)
    requires Small(Bases(gs)) && Increasing(Bases(gs)) && Lists(listing, Bases(gs))
    ensures var dir, names := DirectoryOf(gs), Names(listing);
            && ListingOk(dir, Sort(names)) && SegmentsAt(dir, Sort(names)) == gs
  {
    hide Name, Sort, Value;
    var names := Sort(Names(listing));
    SortedListing(Bases(gs), listing);
    forall i | 0 <= i < |gs|
      ensures names[i] in DirectoryOf(gs) && Numeric(names[i])
      ensures SegmentAt(DirectoryOf(gs), names[i]) == gs[i]
    {
      assert names[i] == Name(gs[i].base);
      NameIsNumeric(gs[i].base);
      FileOf(gs, i);
      assert Bases(gs)[i] <= U64;
      ValueOfName(gs[i].base);
    }
  }

  lemma NameIsNumeric(base: nat)
    ensures Numeric(Name(base))
  {
  }

  // ---------------------------------------------------------------- a crash

  /** The segments a crash leaves when the active log file keeps only its first `k` bytes. */
  function Crashed(s: State, k: nat): seq<Segment>
    requires k <= |s.active.log|
  {
    s.sealed + [s.active.(log := s.active.log[..k])]
  }

  lemma BaseFits(s: State)
    requires Inv(s)
    ensures s.active.base <= U64
  {
    hide Scan, EncodeLog, EncodeIndex, Due, QueueOk, OffsetsOk, PhaseOk, CacheOk, Cached, EntriesFit;
    if s.sealed != [] {
      var n := |s.sealed| - 1;
      DropLast(s.sealed, s.active.base);
      assert Clean(s.sealed[n], []) && Records(s.sealed[n]) != [];
      var rs := Records(s.sealed[n]);
      assert rs + [] == rs;
      assert Fits(rs[|rs| - 1]);
    }
  }

  lemma CrashedNames(s: State, k: nat)
    requires k <= |s.active.log| && Inv(s)
    ensures Small(Bases(Crashed(s, k))) && Increasing(Bases(Crashed(s, k)))
  {
    hide Inv, SealedOk, Records;
    BaseFits(s);
    BasesAreOk(s);
    var bs := Bases(Crashed(s, k));
    forall i | 0 <= i < |bs| ensures bs[i] == BaseAt(s.sealed, s.active.base, i) <= U64 {
      if i < |s.sealed| { BasesIncrease(s.sealed, s.active.base, i, |s.sealed|); }
    }
    forall i, j | 0 <= i < j < |bs| ensures bs[i] < bs[j] {
      BasesIncrease(s.sealed, s.active.base, i, j);
    }
  }

  /** The state a store comes back in after a crash. */
  function AfterCrash(options: Options, s: State, k: nat): State
    requires k <= |s.active.log|
  {
    Opened(options, Crashed(s, k))
  }

  /** However the directory is listed, opening it sees the segments the crash left. */
  lemma CrashedFilesReadBack(options: Options, s: State, k: nat, listing: seq<nat>)
    requires k <= |s.active.log| && Inv(s) && Lists(listing, Bases(Crashed(s, k)))
    ensures var dir, names := DirectoryOf(Crashed(s, k)), Sort(Names(listing));
            ListingOk(dir, names) && Opened(options, SegmentsAt(dir, names)) == AfterCrash(options, s, k)
  {
    hide Inv, Opened, Sort, Names, Bases;
    CrashedNames(s, k);
    SegmentsReadBack(Crashed(s, k), listing);
  }

  /**
   * Whatever byte the active log is cut at, in whatever state of a run: the store comes back with
   * the longest prefix of the written records that is whole, and resumes at the offset after it.
   */
  lemma CrashRecovery(options: Options, s: State, k: nat)
    requires k <= |s.active.log| && Inv(s)
    ensures var t, m := AfterCrash(options, s, k), WholeRecords(Records(s.active), k);
            && t.tail == t.committed == t.nextOffset == s.active.base + m
            && t.sealed == s.sealed && Records(t.active) == Records(s.active)[..m]
            && t.fileBytes == |t.active.log| <= k
            && t.tail <= |Written(s)| && Written(t) == Written(s)[..t.tail]
            && Accepted(t) == Written(t)
  {
    hide Inv, Scan, EncodeLog, LogSize, WholeRecords, SegmentRecords;
    RecoveredTail(s, k);
    var t, m := AfterCrash(options, s, k), WholeRecords(Records(s.active), k);
    assert Crashed(s, k)[..|s.sealed|] == s.sealed;
    assert Written(s)[..t.tail] == SegmentRecords(s.sealed) + Records(s.active)[..m];
    Nothing(Written(t));
    assert [] + t.queue == [];
  }

  lemma RecoveredTail(s: State, k: nat)
    requires k <= |s.active.log| && Inv(s)
    ensures var rs, m := Records(s.active), WholeRecords(Records(s.active), k);
            && Scan(s.active.log[..k]) == rs[..m] && Scan(EncodeLog(rs[..m])) == rs[..m]
            && LogSize(rs[..m]) <= k && NextAfter(rs[..m], s.active.base) == s.active.base + m
            && |SegmentRecords(s.sealed)| == s.active.base
  {
    hide Scan, EncodeLog, LogSize, WholeRecords, Due, EncodeIndex, SealedOk, QueueOk, OffsetsOk, PhaseOk, CacheOk;
    hide Cached, EntriesFit;
    SealedRecords(s.sealed, s.active.base);
    CleanNumbered(s.active, Ahead(s));
    RecordsFit(s.active, Ahead(s));
    ScanTorn(Records(s.active), k);
    WholeRecordsExact(Records(s.active), k);
    ScanLog(Records(s.active)[..WholeRecords(Records(s.active), k)]);
  }

  lemma RecordsFit(g: Segment, ahead: seq<Record>)
    requires Clean(g, ahead)
    ensures AllFit(Records(g))
  {
    hide Scan, EncodeLog, Due, EncodeIndex, Contiguous, EntriesFit;
    var all := Records(g) + ahead;
    assert forall i :: 0 <= i < |Records(g)| ==> Records(g)[i] == all[i];
  }

  predicate NoEntryFrom(es: seq<Entry>, offset: nat) {
    forall i :: 0 <= i < |es| ==> es[i].offset < offset
  }

  /**
   * Recovery cuts the log but not the index. The store it leaves satisfies the invariant, and with
   * it every theorem about runs and fetches, exactly when no index entry names a lost record.
   */
  lemma CrashKeepsInvariantIff(options: Options, s: State, k: nat)
    requires k <= |s.active.log| && Inv(s)
    ensures Inv(AfterCrash(options, s, k)) <==>
            NoEntryFrom(LoadIndex(s.active.idx), AfterCrash(options, s, k).tail)
  {
    hide Inv, Scan, EncodeLog, LogSize, WholeRecords, Clean, SegmentRecords;
    var t, m := AfterCrash(options, s, k), WholeRecords(Records(s.active), k);
    RecoveredInv(options, s, k, s.active.idx);
    CrashRecovery(options, s, k);
    ActiveClean(s);
    IndexCut(s.active, Ahead(s), m);
    assert t.active == s.active.(log := EncodeLog(Records(s.active)[..m])) by { RecoveredTail(s, k); }
    assert t.active.(idx := s.active.idx) == t.active && t.(active := t.active) == t;
  }

  lemma ActiveClean(s: State)
    requires Inv(s)
    ensures Clean(s.active, Ahead(s))
  {
    hide Clean, SealedOk, QueueOk, OffsetsOk, PhaseOk, CacheOk, Cached, Records;
  }

  /** With any index file at all, the recovered store is as good as its active segment. */
  lemma RecoveredInv(options: Options, s: State, k: nat, idx: seq<byte>)
    requires k <= |s.active.log| && Inv(s)
    ensures var t := AfterCrash(options, s, k);
            Inv(t.(active := t.active.(idx := idx))) <==> Clean(t.active.(idx := idx), [])
  {
    hide Scan, EncodeLog, LogSize, WholeRecords, SealedOk, QueueOk, CacheOk, Cached, Clean;
    var t := AfterCrash(options, s, k);
    var u := t.(active := t.active.(idx := idx));
    RecoveredTail(s, k);
    assert Crashed(s, k)[..|s.sealed|] == s.sealed;
    NoCache(s.sealed, u.active);
    assert QueueOk(options, 0, []) by { EmptyQueue(options); }
    ActiveCut(u);
  }

  lemma NoCache(sealed: seq<Segment>, active: Segment)
    ensures CacheOk(sealed, map[]) && Cached(active, map[])
  {
  }

  lemma EmptyQueue(options: Options)
    ensures QueueOk(options, 0, [])
  {
  }

  lemma ActiveCut(t: State)
    requires t.fileBytes == |t.active.log| && t.tail == t.active.base + |Records(t.active)|
    requires t.phase.Gathering?
    ensures ActiveOk(t.active, Ahead(t), t.fileBytes, t.tail) <==> Clean(t.active, [])
  {
    hide Clean;
  }

  /** Cutting the log back to `m` records leaves the index exact iff no entry is past the cut. */
  lemma IndexCut(g: Segment, ahead: seq<Record>, m: nat)
    requires Clean(g, ahead) && m <= |Records(g)|
    ensures Clean(g.(log := EncodeLog(Records(g)[..m])), []) <==>
            NoEntryFrom(LoadIndex(g.idx), g.base + m)
  {
    hide Scan, EncodeLog, Due, EncodeIndex, LoadIndex, LogSize;
    var all := Records(g) + ahead;
    var keep, lost := all[..m], all[m..];
    assert keep == Records(g)[..m] && all == keep + lost;
    RecordsFit(g, ahead);
    ScanLog(keep);
    Nothing(keep);
    DueAppend(keep, lost, g.base, 0);
    LoadEncoded(Due(all, g.base, 0));
    DueBounds(keep, g.base, 0, g.base);
    DueBounds(lost, g.base, LogSize(keep), g.base + m);
    var es, rest := Due(keep, g.base, 0), Due(lost, g.base, LogSize(keep));
    if rest == [] {
      Nothing(es);
    } else {
      assert (es + rest)[|es|] == rest[0];
      assert |EncodeIndex(es + rest)| > |EncodeIndex(es)|;
    }
  }

  /** After a clean shutdown, reopening rebuilds the very same store. */
  lemma Reopen(options: Options, s: State, listing: seq<nat>)
    requires Inv(s) && s.options == options && s.phase.Gathering? && s.batch == [] && s.queue == []
    requires Lists(listing, Bases(s.sealed + [s.active]))
    ensures var dir, names := DirectoryOf(s.sealed + [s.active]), Sort(Names(listing));
            && ListingOk(dir, names)
            && Opened(options, SegmentsAt(dir, names)) == s.(closed := false, cache := map[])
  {
    hide Scan, EncodeLog, LogSize, WholeRecords, SealedOk, Clean, CacheOk, Cached, Sort, Lists;
    var k := |s.active.log|;
    assert s.active.log[..k] == s.active.log;
    assert Crashed(s, k) == s.sealed + [s.active];
    CrashedNames(s, k);
    SegmentsReadBack(Crashed(s, k), listing);
    assert Crashed(s, k)[..|s.sealed|] == s.sealed;
    WholeLog(s.active, Ahead(s));
  }

  lemma WholeLog(g: Segment, ahead: seq<Record>)
    requires Clean(g, ahead)
    ensures g.log == EncodeLog(Scan(g.log)) && NextAfter(Scan(g.log), g.base) == g.base + |Records(g)|
  {
    hide Scan, EncodeLog, Due, EncodeIndex, AllFit, EntriesFit;
    CleanNumbered(g, ahead);
  }
}
