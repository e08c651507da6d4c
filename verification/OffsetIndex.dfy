/** The sparse index of a segment: every 128th record's byte position, and lookup in it. */
module OffsetIndex {
  import opened Bytes
  import opened LogFormat
  import opened SegmentReader

  datatype Entry = Entry(offset: nat, position: nat)

  predicate EntriesFit(es: seq<Entry>) {
    forall i :: 0 <= i < |es| ==> es[i].offset < U64 && es[i].position < U64
  }

  predicate Sorted(es: seq<Entry>) {
    forall i, j :: 0 <= i < j < |es| ==> es[i].offset <= es[j].offset
  }

  function EncodeEntry(e: Entry): (s: seq<byte>)
    ensures |s| == INDEX_ENTRY_SIZE
  {
    ToBE(8, e.offset) + ToBE(8, e.position)
  }

  function EncodeIndex(es: seq<Entry>): (s: seq<byte>)
    ensures |s| == INDEX_ENTRY_SIZE * |es|
  {
    if es == [] then [] else EncodeIndex(es[..|es| - 1]) + EncodeEntry(es[|es| - 1])
  }

  function EntryAt(file: seq<byte>, i: nat): Entry
    requires 16 * i + 16 <= |file|
  {
    Entry(FromBE(file[16 * i..16 * i + 8]), FromBE(file[16 * i + 8..16 * i + 16]))
  }

  function LoadIndex(file: seq<byte>): seq<Entry> {
    seq(|file| / 16, i requires 0 <= i < |file| / 16 => EntryAt(file, i))
  }

  /** Loads the whole index file, turning each big-endian pair into an entry. */
  method Load(file: seq<byte>) returns (entries: seq<Entry>)
    ensures entries == LoadIndex(file)
  {
    entries := [];
    var i := 0;
    while i < |file| / 16
      invariant 0 <= i <= |file| / 16 && |entries| == i
      invariant forall j :: 0 <= j < i ==> entries[j] == EntryAt(file, j)
    {
      hide FromBE;
      entries := entries + [EntryAt(file, i)];
      i := i + 1;
    }
  }

  lemma {:induction false} EntryAtEncoded(es: seq<Entry>, i: nat)
    requires EntriesFit(es) && i < |es|
    ensures EntryAt(EncodeIndex(es), i) == es[i]
  {
    hide FromBE, ToBE;
    var n := |es| - 1;
    var init, last, file := EncodeIndex(es[..n]), EncodeEntry(es[n]), EncodeIndex(es);
    if i < n {
      EntryAtEncoded(es[..n], i);
      assert file[16 * i..16 * i + 8] == init[16 * i..16 * i + 8];
      assert file[16 * i + 8..16 * i + 16] == init[16 * i + 8..16 * i + 16];
    } else {
      Widths();
      FromToBE(8, es[n].offset);
      FromToBE(8, es[n].position);
      assert file[16 * i..16 * i + 8] == ToBE(8, es[n].offset);
      assert file[16 * i + 8..16 * i + 16] == ToBE(8, es[n].position);
    }
  }

  /** Where the fields of an entry are: its offset in the first eight octets, its position in the next. */
  lemma {:induction false} EntryLayout(es: seq<Entry>, k: nat, i: nat)
    requires k < |es| && i < 8
    ensures EncodeIndex(es)[16 * k + i] == Octet(es[k].offset, 7 - i)
    ensures EncodeIndex(es)[16 * k + 8 + i] == Octet(es[k].position, 7 - i)
  {
    hide ToBE, Octet;
    var n := |es| - 1;
    if k < n {
      EntryLayout(es[..n], k, i);
    } else {
      OctetAt(8, es[k].offset, i);
      OctetAt(8, es[k].position, i);
    }
  }

  /** Loading an index file gives back the entries that were written to it. */
  lemma LoadEncoded(es: seq<Entry>)
    requires EntriesFit(es)
    ensures LoadIndex(EncodeIndex(es)) == es
  {
    hide EntryAt, EncodeIndex;
    forall i | 0 <= i < |es| ensures LoadIndex(EncodeIndex(es))[i] == es[i] {
      EntryAtEncoded(es, i);
    }
  }

  lemma EncodeIndexLast(es: seq<Entry>, e: Entry)
    ensures EncodeIndex(es + [e]) == EncodeIndex(es) + EncodeEntry(e)
  {
    assert (es + [e])[..|es|] == es;
  }

  /** The position of the last entry at or below `target`, or the start of the file. */
  function Lookup(es: seq<Entry>, target: nat): nat {
    if es == [] then 0
    else if es[|es| - 1].offset <= target then es[|es| - 1].position
    else Lookup(es[..|es| - 1], target)
  }

  lemma {:induction false} LookupSplit(es: seq<Entry>, target: nat, k: nat)
    requires k <= |es|
    requires forall i :: 0 <= i < k ==> es[i].offset <= target
    requires forall i :: k <= i < |es| ==> target < es[i].offset
    ensures Lookup(es, target) == if k == 0 then 0 else es[k - 1].position
  {
    if k < |es| { LookupSplit(es[..|es| - 1], target, k); }
  }

  /**
   * Binary search for the first entry past `target`, then one step back. In a sorted index that is
   * the last entry at or below the target; in any other it is still some entry at or below it.
   */
  method Search(es: seq<Entry>, target: nat) returns (position: nat)
    ensures Sorted(es) ==> position == Lookup(es, target)
    ensures position == 0 || exists i :: 0 <= i < |es| && es[i].position == position && es[i].offset <= target
  {
    var lo, hi := 0, |es|;
    while lo < hi
      invariant 0 <= lo <= hi <= |es|
      invariant lo > 0 ==> es[lo - 1].offset <= target
      invariant Sorted(es) ==> forall i :: 0 <= i < lo ==> es[i].offset <= target
      invariant Sorted(es) ==> forall i :: hi <= i < |es| ==> target < es[i].offset
    {
      hide Lookup;
      var mid := (lo + hi) / 2;
      if target < es[mid].offset { hi := mid; } else { lo := mid + 1; }
    }
    if Sorted(es) { LookupSplit(es, target, lo); }
    position := if lo == 0 then 0 else es[lo - 1].position;
  }

  // ------------------------------------------------- the entries a writer emits

  predicate Indexed(r: Record, base: nat) {
    r.offset >= base && (r.offset - base) % INDEX_INTERVAL == 0
  }

  /** The entries due for `rs` when its first record lands at byte `pos`. */
  function Due(rs: seq<Record>, base: nat, pos: nat): seq<Entry> {
    if rs == [] then []
    else (if Indexed(rs[0], base) then [Entry(rs[0].offset, pos)] else [])
         + Due(rs[1..], base, pos + Size(rs[0]))
  }

  lemma {:induction false} DueAppend(a: seq<Record>, b: seq<Record>, base: nat, pos: nat)
    ensures Due(a + b, base, pos) == Due(a, base, pos) + Due(b, base, pos + LogSize(a))
  {
    hide Indexed, Due, Size;
    if a == [] {
      Nothing(b);
      DueNothing(base, pos);
      Nothing(Due(b, base, pos));
    } else {
      var p := pos + Size(a[0]);
      DueAppend(a[1..], b, base, p);
      assert (a + b)[1..] == a[1..] + b;
      DueFirst(a, base, pos);
      DueFirst(a + b, base, pos);
      Assoc(if Indexed(a[0], base) then [Entry(a[0].offset, pos)] else [],
            Due(a[1..], base, p), Due(b, base, p + LogSize(a[1..])));
    }
  }

  lemma DueFirst(rs: seq<Record>, base: nat, pos: nat)
    requires rs != []
    ensures Due(rs, base, pos)
         == (if Indexed(rs[0], base) then [Entry(rs[0].offset, pos)] else []) + Due(rs[1..], base, pos + Size(rs[0]))
  {
    hide Indexed, Size;
  }

  lemma DueNothing(base: nat, pos: nat)
    ensures Due([], base, pos) == []
  {
  }

  /** Every entry marks the first byte of the record it names. */
  lemma {:induction false} DueMarks(rs: seq<Record>, base: nat, pos: nat, i: nat) returns (k: nat)
    requires i < |Due(rs, base, pos)|
    ensures k < |rs| && Due(rs, base, pos)[i] == Entry(rs[k].offset, pos + LogSize(rs[..k]))
  {
    var skip := if Indexed(rs[0], base) then 1 else 0;
    if i < skip {
      k := 0;
    } else {
      k := DueMarks(rs[1..], base, pos + Size(rs[0]), i - skip);
      assert rs[..k + 1][1..] == rs[1..][..k];
      k := k + 1;
    }
  }

  lemma {:induction false} DueBounds(rs: seq<Record>, base: nat, pos: nat, from: nat)
    requires Contiguous(rs, from)
    ensures Sorted(Due(rs, base, pos))
    ensures forall i :: 0 <= i < |Due(rs, base, pos)| ==>
              from <= Due(rs, base, pos)[i].offset < from + |rs|
              && Due(rs, base, pos)[i].position <= pos + LogSize(rs)
  {
    if rs != [] { DueBounds(rs[1..], base, pos + Size(rs[0]), from + 1); }
  }

  /** A lookup lands at the start, or on the boundary before a record at or below the target. */
  lemma {:induction false} LookupMarks(es: seq<Entry>, rs: seq<Record>, base: nat, target: nat)
    returns (k: nat)
    requires es <= Due(rs, base, 0)
    ensures k <= |rs| && Lookup(es, target) == LogSize(rs[..k])
    ensures k == 0 || (k < |rs| && rs[k].offset <= target)
  {
    if es == [] {
      k := 0;
    } else if es[|es| - 1].offset <= target {
      k := DueMarks(rs, base, 0, |es| - 1);
    } else {
      k := LookupMarks(es[..|es| - 1], rs, base, target);
    }
  }

  lemma {:induction false} LogSizeMonotone(rs: seq<Record>, i: nat, j: nat)
    requires i <= j <= |rs|
    ensures LogSize(rs[..i]) <= LogSize(rs[..j])
  {
    LogSizeAppend(rs[..i], rs[i..j]);
    assert rs[..i] + rs[i..j] == rs[..j];
  }

  /**
   * The sparse index refines the linear scan. `file` is any byte prefix of the encoding of `rs`,
   * so a batch may be half written; `es` is any prefix of the entries due for `rs`, so the index
   * may run ahead of the bytes or lag behind them. Reading from the looked-up position returns
   * exactly what a scan from byte 0 would.
   */
  lemma IndexRefinesScan(rs: seq<Record>, base: nat, file: seq<byte>, es: seq<Entry>,
                         target: nat, max: nat)
    requires AllFit(rs) && Contiguous(rs, base)
    requires file <= EncodeLog(rs) && es <= Due(rs, base, 0)
    ensures Wanted(Scan(Drop(file, Lookup(es, target))), target, max)
         == Wanted(Scan(file), target, max)
  {
    hide Scan, EncodeLog, Due, Lookup, LogSize, WholeRecords, AtLeast;
    var k := LookupMarks(es, rs, base, target);
    var p := LogSize(rs[..k]);
    EmptyLog();
    if p <= |file| {
      SplitAt(rs, k, file);
      ScanEncode(rs[..k], Drop(file, p));
      AtLeastAppend(rs[..k], Scan(Drop(file, p)), target);
      AtLeastNone(rs[..k], target);
    } else {
      var m := WholeRecords(rs, |file|);
      WholeRecordsExact(rs, |file|);
      assert file == EncodeLog(rs)[..|file|];
      ScanTorn(rs, |file|);
      if m > k { LogSizeMonotone(rs, k, m); }
      assert m <= k;
      AtLeastNone(rs[..m], target);
      ScanHead(Drop(file, p));
      AtLeastNone([], target);
    }
  }

  lemma SplitAt(rs: seq<Record>, k: nat, file: seq<byte>)
    requires k <= |rs| && file <= EncodeLog(rs) && LogSize(rs[..k]) <= |file|
    ensures file == EncodeLog(rs[..k]) + Drop(file, LogSize(rs[..k]))
  {
    hide EncodeLog, LogSize;
    EncodeLogAppend(rs[..k], rs[k..]);
    assert rs == rs[..k] + rs[k..];
  }
}
