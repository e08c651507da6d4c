/** What an index that outlived part of its log does to later reads. */
module StaleIndex {
  import opened Bytes
  import opened LogFormat
  import opened SegmentReader
  import opened OffsetIndex
  import opened Store
  import opened StoreRuns
  import opened Recovery

  /** A read through the index returns what a scan of the whole file would. */
  predicate Right(rs: seq<Record>, es: seq<Entry>, target: nat, max: nat) {
    Wanted(Scan(Drop(EncodeLog(rs), Lookup(es, target))), target, max) == Wanted(Scan(EncodeLog(rs)), target, max)
  }

  predicate Continues(keep: seq<Record>, more: seq<Record>, base: nat) {
    AllFit(keep + more) && Contiguous(keep + more, base)
  }

  /**
   * Whatever is appended to the records that were kept, and however many of the entries due for it
   * have been added to the index when it is loaded, every read through the index is right.
   */
  ghost predicate AlwaysRight(keep: seq<Record>, es: seq<Entry>, base: nat) {
    forall more: seq<Record>, n: nat, target: nat, max: nat ::
      Continues(keep, more, base) && n <= |LaterEntries(keep, more, base)| ==>
        Right(keep + more, es + LaterEntries(keep, more, base)[..n], target, max)
  }

  /** The entries due for what is appended. */
  function LaterEntries(keep: seq<Record>, more: seq<Record>, base: nat): seq<Entry> {
    Due(more, base, LogSize(keep))
  }

  predicate NoEntryPast(es: seq<Entry>, tail: nat) {
    forall i :: 0 <= i < |es| ==> es[i].offset <= tail
  }

  // --------------------------------------------------------------- entries at the tail do no harm

  /** The entry that marks the end of `keep`. */
  function Mark(keep: seq<Record>, base: nat): Entry {
    Entry(base + |keep|, LogSize(keep))
  }

  /** An entry is due at the tail. */
  predicate AtMark(keep: seq<Record>) {
    |keep| % INDEX_INTERVAL == 0
  }

  /** The only entry due for lost records that is not past the tail is the one for the tail. */
  lemma EntriesAtTail(keep: seq<Record>, lost: seq<Record>, base: nat)
    requires Contiguous(keep + lost, base) && NoEntryPast(Due(keep + lost, base, 0), base + |keep|)
    ensures Due(keep + lost, base, 0) ==
            Due(keep, base, 0) + if lost != [] && AtMark(keep) then [Mark(keep, base)] else []
  {
    hide LogSize, NoEntryPast, Due;
    if lost == [] {
      Nothing(keep);
      Nothing(Due(keep, base, 0));
    } else {
      var p := LogSize(keep);
      DueAppend(keep, lost, base, 0);
      LostTail(keep, lost, base);
      DueNext(lost, base, p);
      var head, rest := DueFor(lost[0], base, p), Due(lost[1..], base, p + LogFormat.Size(lost[0]));
      DueBounds(lost[1..], base, p + LogFormat.Size(lost[0]), base + |keep| + 1);
      Nothing(head);
      if rest != [] {
        EntryPast(Due(keep, base, 0), head, rest, base + |keep|);
      }
    }
  }

  /** What is due once a record follows `keep`. */
  lemma MarkedNext(keep: seq<Record>, x: seq<Record>, base: nat)
    requires x != [] && x[0].offset == base + |keep| && AtMark(keep)
    ensures var rest := Due(x[1..], base, LogSize(keep) + LogFormat.Size(x[0]));
            Due(keep + x, base, 0) == Due(keep, base, 0) + ([Mark(keep, base)] + rest)
  {
    hide LogSize, Due;
    DueAppend(keep, x, base, 0);
    DueNext(x, base, LogSize(keep));
  }

  function DueFor(r: Record, base: nat, pos: nat): seq<Entry> {
    if Indexed(r, base) then [Entry(r.offset, pos)] else []
  }

  lemma DueNext(rs: seq<Record>, base: nat, pos: nat)
    requires rs != []
    ensures Due(rs, base, pos) == DueFor(rs[0], base, pos) + Due(rs[1..], base, pos + LogFormat.Size(rs[0]))
  {
  }

  lemma LostTail(keep: seq<Record>, lost: seq<Record>, base: nat)
    requires Contiguous(keep + lost, base) && lost != []
    ensures lost[0].offset == base + |keep| && Contiguous(lost[1..], base + |keep| + 1)
  {
    assert forall i :: 0 <= i < |lost| ==> lost[i] == (keep + lost)[|keep| + i];
  }

  lemma EntryPast(es: seq<Entry>, head: seq<Entry>, rest: seq<Entry>, tail: nat)
    requires rest != [] && rest[0].offset > tail
    ensures !NoEntryPast(es + (head + rest), tail)
  {
    assert (es + (head + rest))[|es| + |head|] == rest[0];
  }

  function InsertAt(es: seq<Entry>, n: nat, e: Entry): seq<Entry>
    requires n <= |es|
  {
    es[..n] + [e] + es[n..]
  }

  /** A repeated entry changes no lookup. */
  lemma {:induction false} LookupTwice(a: seq<Entry>, e: Entry, b: seq<Entry>, target: nat)
    ensures Lookup(a + [e] + ([e] + b), target) == Lookup(a + ([e] + b), target)
  {
    if b == [] {
      var es := a + [e];
      assert a + ([e] + b) == es && es + ([e] + b) == es + [e];
      assert (es + [e])[..|es|] == es && es[..|a|] == a;
    } else {
      var n := |b| - 1;
      var x, y := a + [e] + ([e] + b), a + ([e] + b);
      LookupTwice(a, e, b[..n], target);
      assert x[..|x| - 1] == a + [e] + ([e] + b[..n]) && y[..|y| - 1] == a + ([e] + b[..n]);
      assert x[|x| - 1] == b[n] == y[|y| - 1];
    }
  }

  /** Reading through an index with one entry too many, for the record after `keep`. */
  lemma InsertRight(keep: seq<Record>, more: seq<Record>, base: nat, file: seq<byte>, es: seq<Entry>,
                    target: nat, max: nat)
    requires Continues(keep, more, base) && AtMark(keep) && base + |keep| < U64
    requires file <= EncodeLog(keep + more) && es <= Due(keep + more, base, 0) && |Due(keep, base, 0)| <= |es|
    ensures Wanted(Scan(Drop(file, Lookup(InsertAt(es, |Due(keep, base, 0)|, Mark(keep, base)), target))), target, max)
         == Wanted(Scan(file), target, max)
  {
    hide Due, EncodeLog, Lookup, Scan, Wanted, LogSize, AtMark;
    var x := if more == [] then [Record(base + |keep|, 0, [])] else more;
    FirstAfter(keep, more, x, base);
    MarkedNext(keep, x, base);
    if more == [] {
      Nothing(keep);
      EndInsert(es, Due(keep, base, 0), Mark(keep, base), Due(x[1..], base, LogSize(keep) + LogFormat.Size(x[0])));
    } else {
      EndInsert(es, Due(keep, base, 0), Mark(keep, base), Due(more[1..], base, LogSize(keep) + LogFormat.Size(more[0])));
    }
    var d, e := Due(keep, base, 0), Mark(keep, base);
    if |es| == |d| {
      IndexRefinesScan(keep + x, base, file, d + [e], target, max);
    } else {
      var b := es[|d| + 1..];
      LookupTwice(d, e, b, target);
      IndexRefinesScan(keep + x, base, file, es, target, max);
    }
  }

  lemma EndInsert(es: seq<Entry>, d: seq<Entry>, e: Entry, rest: seq<Entry>)
    requires (es <= d || es <= d + ([e] + rest)) && |d| <= |es|
    ensures d + [e] <= d + ([e] + rest) && es <= d + ([e] + rest)
    ensures |es| == |d| ==> InsertAt(es, |d|, e) == d + [e]
    ensures |es| > |d| ==> var b := es[|d| + 1..]; es == d + ([e] + b) && InsertAt(es, |d|, e) == d + [e] + ([e] + b)
  {
  }

  lemma TameIsRight(keep: seq<Record>, lost: seq<Record>, base: nat, more: seq<Record>, n: nat, target: nat, max: nat)
    requires AllFit(keep + lost) && Contiguous(keep + lost, base) && Continues(keep, more, base)
    requires NoEntryPast(Due(keep + lost, base, 0), base + |keep|) && n <= |LaterEntries(keep, more, base)|
    ensures Right(keep + more, Due(keep + lost, base, 0) + LaterEntries(keep, more, base)[..n], target, max)
  {
    hide Due, EncodeLog, Lookup, Scan, Wanted, LogSize, AtMark;
    var d, part := Due(keep, base, 0), LaterEntries(keep, more, base)[..n];
    EntriesAtTail(keep, lost, base);
    DueAppend(keep, more, base, 0);
    assert d + part <= Due(keep + more, base, 0);
    if lost != [] && AtMark(keep) {
      assert lost[0] == (keep + lost)[|keep|];
      InsertRight(keep, more, base, EncodeLog(keep + more), d + part, target, max);
      assert InsertAt(d + part, |d|, Mark(keep, base)) == d + [Mark(keep, base)] + part;
    } else {
      Nothing(d);
      IndexRefinesScan(keep + more, base, EncodeLog(keep + more), d + part, target, max);
    }
  }

  lemma FirstAfter(keep: seq<Record>, more: seq<Record>, x: seq<Record>, base: nat)
    requires Continues(keep, more, base) && base + |keep| < U64
    requires x == if more == [] then [Record(base + |keep|, 0, [])] else more
    ensures x[0].offset == base + |keep| && Continues(keep, x, base) && EncodeLog(keep + more) <= EncodeLog(keep + x)
  {
    hide EncodeLog, Continues;
    if more == [] {
      Nothing(keep);
      EncodeLogAppend(keep, x);
      ContinuesOne(keep, x[0], base);
    } else {
      ContinuesAt(keep, more, base);
    }
  }

  lemma ContinuesOne(keep: seq<Record>, r: Record, base: nat)
    requires Continues(keep, [], base) && Fits(r) && r.offset == base + |keep|
    ensures Continues(keep, [r], base)
  {
    hide Fits;
    assert keep + [] == keep;
  }

  lemma ContinuesAt(keep: seq<Record>, more: seq<Record>, base: nat)
    requires Continues(keep, more, base) && more != []
    ensures more[0].offset == base + |keep|
  {
    assert more[0] == (keep + more)[|keep|];
  }

  // --------------------------------------------------------------- entries past it do

  function Empties(offset: nat, n: nat): (rs: seq<Record>)
    ensures |rs| == n && Contiguous(rs, offset) && LogSize(rs) == 20 * n
    ensures offset + n <= U64 ==> AllFit(rs)
    decreases n
  {
    if n == 0 then [] else [Record(offset, 0, [])] + Empties(offset + 1, n - 1)
  }

  /** One record with the given payload, then `n` empty ones. */
  function Continuation(offset: nat, payload: seq<byte>, n: nat): (rs: seq<Record>)
    ensures |rs| == n + 1 && LogSize(rs) == 20 + |payload| + 20 * n
  {
    [Record(offset, 0, payload)] + Empties(offset + 1, n)
  }

  lemma FreshContinues(keep: seq<Record>, base: nat, payload: seq<byte>, n: nat)
    requires AllFit(keep) && Contiguous(keep, base) && |payload| < U32 && base + |keep| + n < U64
    ensures Continues(keep, Continuation(base + |keep|, payload, n), base)
  {
  }

  function Ones(n: nat): (s: seq<byte>)
    ensures |s| == n
  {
    seq(n, _ => 255)
  }

  lemma OnesValue(n: nat, i: nat)
    requires i + 4 <= n
    ensures FromBE(Ones(n)[i..i + 4]) == U32 - 1
  {
    var s := Ones(n)[i..i + 4];
    assert s == [255, 255, 255, 255];
    assert s[..3] == [255, 255, 255] && s[..2] == [255, 255] && s[..1] == [255];
    assert s[..3][..2] == s[..2] && s[..2][..1] == s[..1] && s[..1][..0] == [];
    assert FromBE(s[..1]) == 255;
    assert FromBE(s[..2]) == 255 * 256 + 255;
    assert FromBE(s[..3]) == (255 * 256 + 255) * 256 + 255;
  }

  /** What may follow so that nothing can be read `gap` bytes after the records that were kept. */
  function Blinding(gap: nat, n: nat): (s: seq<byte>)
    ensures |s| < 20 * (n + 2)
  {
    if gap >= 20 * (n + 1) then [] else Ones(gap + 20)
  }

  lemma Blind(keep: seq<Record>, offset: nat, gap: nat, n: nat)
    requires 20 <= gap && n <= 128
    ensures Scan(Drop(EncodeLog(keep + Continuation(offset, Blinding(gap, n), n)), LogSize(keep) + gap)) == []
  {
    hide LogSize, EncodeLog, Scan, FromBE, Ones, Drop, Continuation;
    var more := Continuation(offset, Blinding(gap, n), n);
    LogSizeAppend(keep, more);
    ScanAt(EncodeLog(keep + more), LogSize(keep) + gap);
    if gap < 20 * (n + 1) {
      LengthAt(keep, offset, gap, n);
    }
  }

  lemma LengthAt(keep: seq<Record>, offset: nat, gap: nat, n: nat)
    requires 20 <= gap
    ensures var file := EncodeLog(keep + Continuation(offset, Ones(gap + 20), n));
            && LogSize(keep) + gap + 20 <= |file|
            && SizeAt(file, LogSize(keep) + gap) == U32 - 1
  {
    hide LogSize, EncodeLog, FromBE, Ones, Encode;
    var more, p := Continuation(offset, Ones(gap + 20), n), LogSize(keep) + gap;
    EncodeLogAppend(keep, more);
    FirstOf(more);
    PayloadAt(more[0], EncodeLog(more[1..]), gap);
    SliceAfter(EncodeLog(keep), EncodeLog(more), gap + 16, gap + 20);
  }

  lemma FirstOf(rs: seq<Record>)
    requires rs != []
    ensures EncodeLog(rs) == Encode(rs[0]) + EncodeLog(rs[1..])
  {
  }

  lemma SliceAfter(a: seq<byte>, b: seq<byte>, i: nat, j: nat)
    requires i <= j <= |b|
    ensures (a + b)[|a| + i..|a| + j] == b[i..j]
  {
  }

  lemma PayloadAt(r: Record, rest: seq<byte>, gap: nat)
    requires 20 <= gap && r.payload == Ones(gap + 20)
    ensures FromBE((Encode(r) + rest)[gap + 16..gap + 20]) == U32 - 1
  {
    hide FromBE, ToBE, Ones;
    InPayload(ToBE(8, r.offset) + ToBE(8, r.timestamp) + ToBE(4, |r.payload|), r.payload, rest, gap);
    OnesValue(gap + 20, gap - 4);
  }

  lemma InPayload(header: seq<byte>, payload: seq<byte>, rest: seq<byte>, gap: nat)
    requires |header| == 20 <= gap <= |payload|
    ensures (header + payload + rest)[gap + 16..gap + 20] == payload[gap - 4..gap]
  {
  }

  /** The entry due for record `k` is the one a lookup of its offset finds. */
  lemma LookupDue(all: seq<Record>, base: nat, k: nat)
    requires Contiguous(all, base) && k < |all| && Indexed(all[k], base)
    ensures Lookup(Due(all, base, 0), base + k) == LogSize(all[..k])
  {
    hide LogSize, Lookup, Due;
    var a, b, p := all[..k], all[k..], LogSize(all[..k]);
    assert all == a + b;
    DueAppend(a, b, base, 0);
    DueNext(b, base, p);
    var fs := Due(b[1..], base, p + LogFormat.Size(b[0]));
    DueBounds(a, base, 0, base);
    DueBounds(b[1..], base, p + LogFormat.Size(b[0]), base + k + 1);
    LookupMiddle(Due(a, base, 0), Entry(base + k, p), fs);
  }

  lemma LookupMiddle(es: seq<Entry>, e: Entry, fs: seq<Entry>)
    requires forall i :: 0 <= i < |es| ==> es[i].offset < e.offset
    requires forall i :: 0 <= i < |fs| ==> e.offset < fs[i].offset
    ensures Lookup(es + ([e] + fs), e.offset) == e.position
  {
    hide Lookup;
    LookupSplit(es + ([e] + fs), e.offset, |es| + 1);
  }

  /** An entry past the tail means that the next multiple of 128 after the tail was indexed. */
  lemma NextDue(all: seq<Record>, base: nat, m: nat, i: nat) returns (k: nat)
    requires Contiguous(all, base) && i < |Due(all, base, 0)| && Due(all, base, 0)[i].offset > base + m
    ensures m < k < |all| && k <= m + 128 && Indexed(all[k], base)
  {
    var o := DueMarks(all, base, 0, i);
    k := (m / 128 + 1) * 128;
    DueIndexed(all, base, 0, i);
    assert o % 128 == 0;
  }

  lemma {:induction false} DueIndexed(rs: seq<Record>, base: nat, pos: nat, i: nat)
    requires i < |Due(rs, base, pos)|
    ensures var o := Due(rs, base, pos)[i].offset; o >= base && (o - base) % 128 == 0
  {
    var skip := if Indexed(rs[0], base) then 1 else 0;
    if i >= skip { DueIndexed(rs[1..], base, pos + LogFormat.Size(rs[0]), i - skip); }
  }

  lemma {:induction false} AtLeastHeaders(rs: seq<Record>)
    ensures LogSize(rs) >= 20 * |rs|
  {
    if rs != [] { AtLeastHeaders(rs[1..]); }
  }

  /** A continuation of the log after which the record at an indexed, lost offset cannot be read. */
  lemma WildIsWrong(keep: seq<Record>, lost: seq<Record>, base: nat, i: nat)
      returns (more: seq<Record>, target: nat)
    requires AllFit(keep + lost) && Contiguous(keep + lost, base)
    requires i < |Due(keep + lost, base, 0)| && Due(keep + lost, base, 0)[i].offset > base + |keep|
    ensures Continues(keep, more, base) && !Right(keep + more, Due(keep + lost, base, 0), target, 1)
    ensures Scan(Drop(EncodeLog(keep + more), Lookup(Due(keep + lost, base, 0), target))) == []
    ensures more != [] && |more| <= 129 && LogSize(more) <= 5200 && base + |keep| < target < base + |keep + more|
  {
    hide Due, EncodeLog, Lookup, Scan, LogSize, Blinding, Empties, Continuation;
    var all, m := keep + lost, |keep|;
    var k := NextDue(all, base, m, i);
    target := base + k;
    LookupDue(all, base, k);
    var gap := LogSize(lost[..k - m]);
    assert all[..k] == keep + lost[..k - m];
    LogSizeAppend(keep, lost[..k - m]);
    AtLeastHeaders(lost[..k - m]);
    more := Continuation(base + m, Blinding(gap, k - m), k - m);
    KeptFits(keep, lost, base);
    assert Fits(all[k]);
    FreshContinues(keep, base, Blinding(gap, k - m), k - m);
    Blind(keep, base + m, gap, k - m);
    Missed(keep + more, base, target);
  }

  lemma KeptFits(keep: seq<Record>, lost: seq<Record>, base: nat)
    requires AllFit(keep + lost) && Contiguous(keep + lost, base)
    ensures AllFit(keep) && Contiguous(keep, base)
  {
    assert forall i :: 0 <= i < |keep| ==> keep[i] == (keep + lost)[i];
  }

  lemma Missed(rs: seq<Record>, base: nat, target: nat)
    requires AllFit(rs) && Contiguous(rs, base) && base <= target < base + |rs|
    ensures Wanted(Scan(EncodeLog(rs)), target, 1) != [] == Wanted([], target, 1)
  {
    hide Scan, EncodeLog;
    ScanLog(rs);
    AtLeastContiguous(rs, base, target);
  }

  /**
   * After recovery has cut the log back to `keep`, an index written for `keep + lost` is harmless,
   * for every continuation and every read, exactly when it has no entry past the tail.
   */
  lemma StaleIndexExact(keep: seq<Record>, lost: seq<Record>, base: nat)
    requires AllFit(keep + lost) && Contiguous(keep + lost, base)
    ensures var es := Due(keep + lost, base, 0);
            AlwaysRight(keep, es, base) <==> NoEntryPast(es, base + |keep|)
  {
    hide Due, Right, Continues;
    var es := Due(keep + lost, base, 0);
    if NoEntryPast(es, base + |keep|) {
      forall more: seq<Record>, n: nat, target: nat, max: nat |
          Continues(keep, more, base) && n <= |LaterEntries(keep, more, base)|
        ensures Right(keep + more, es + LaterEntries(keep, more, base)[..n], target, max)
      {
        TameIsRight(keep, lost, base, more, n, target, max);
      }
    } else {
      var i :| 0 <= i < |es| && es[i].offset > base + |keep|;
      var more, target := WildIsWrong(keep, lost, base, i);
      assert es + LaterEntries(keep, more, base)[..0] == es;
    }
  }

  /** The same of a store that comes back after a crash at any point of a run. */
  lemma CrashedIndexExact(options: Options, s: State, k: nat)
    requires k <= |s.active.log| && Inv(s)
    ensures var t := AfterCrash(options, s, k);
            AlwaysRight(Records(t.active), LoadIndex(t.active.idx), t.active.base) <==>
            NoEntryPast(LoadIndex(t.active.idx), t.tail)
  {
    hide AlwaysRight, NoEntryPast, Scan, EncodeLog, WholeRecords, Due, LoadIndex, EncodeIndex, SealedOk, QueueOk;
    hide CacheOk, Cached;
    RecoveredTail(s, k);
    var rs, m := Records(s.active), WholeRecords(Records(s.active), k);
    CrashRecovery(options, s, k);
    var all := rs + Ahead(s);
    LoadEncoded(Due(all, s.active.base, 0));
    assert all == rs[..m] + (rs[m..] + Ahead(s));
    StaleIndexExact(rs[..m], rs[m..] + Ahead(s), s.active.base);
  }

  /** 129 records have an entry past the first. */
  lemma PastFirst(all: seq<Record>)
    requires |all| == 129 && Contiguous(all, 0)
    ensures !NoEntryPast(Due(all, 0, 0), 0)
  {
    hide Due, LogSize, Contiguous;
    var a, b := all[..128], all[128..];
    assert all[128].offset == 128 by { Numbered128(all); }
    assert all == a + b && b == [all[128]];
    DueAppend(a, b, 0, 0);
    LastDue(all[128], LogSize(a));
    assert Due(all, 0, 0)[|Due(a, 0, 0)|].offset == 128;
  }

  lemma Numbered128(all: seq<Record>)
    requires |all| == 129 && Contiguous(all, 0)
    ensures all[128].offset == 128
  {
  }

  lemma LastDue(r: Record, pos: nat)
    requires r.offset == 128
    ensures Due([r], 0, pos) == [Entry(128, pos)]
  {
  }
}
