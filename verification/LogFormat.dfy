/** The on-disk record format of a segment file and the sparse index beside it. */
module LogFormat {
  import opened Bytes

  const HEADER_SIZE: nat := 20
  const SEGMENT_MAX_BYTES: nat := 64 * 1024 * 1024
  const INDEX_INTERVAL: nat := 128
  const INDEX_ENTRY_SIZE: nat := 16

  datatype Record = Record(offset: nat, timestamp: nat, payload: seq<byte>)

  /** Every field fits the integer the header stores it in. */
  predicate Fits(r: Record) {
    r.offset < U64 && r.timestamp < U64 && |r.payload| < U32
  }

  predicate AllFit(rs: seq<Record>) {
    forall i :: 0 <= i < |rs| ==> Fits(rs[i])
  }

  function Size(r: Record): (n: nat)
    ensures n >= HEADER_SIZE
  {
    HEADER_SIZE + |r.payload|
  }

  function Encode(r: Record): (s: seq<byte>)
    ensures |s| == Size(r)
  {
    ToBE(8, r.offset) + ToBE(8, r.timestamp) + ToBE(4, |r.payload|) + r.payload
  }

  /** Where the fields of a record are: offset, timestamp and payload size, big-endian, then the payload. */
  lemma RecordLayout(r: Record, i: nat)
    requires i < 20 + |r.payload|
    ensures Encode(r)[i] == if i < 8 then Octet(r.offset, 7 - i)
                            else if i < 16 then Octet(r.timestamp, 15 - i)
                            else if i < 20 then Octet(|r.payload|, 19 - i) else r.payload[i - 20]
  {
    hide ToBE, Octet;
    if i < 8 {
      OctetAt(8, r.offset, i);
    } else if i < 16 {
      OctetAt(8, r.timestamp, i - 8);
    } else if i < 20 {
      OctetAt(4, |r.payload|, i - 16);
    }
  }

  function LogSize(rs: seq<Record>): nat {
    if rs == [] then 0 else Size(rs[0]) + LogSize(rs[1..])
  }

  function EncodeLog(rs: seq<Record>): (s: seq<byte>)
    ensures |s| == LogSize(rs)
  {
    if rs == [] then [] else Encode(rs[0]) + EncodeLog(rs[1..])
  }

  /** The record at the front of `s`, if its header and its whole payload are there. */
  function First(s: seq<byte>): (r: Option<Record>)
    ensures r.Some? ==> Size(r.value) <= |s|
  {
    if |s| < HEADER_SIZE then None
    else
      var size := FromBE(s[16..20]);
      if |s| < HEADER_SIZE + size then None
      else Some(Record(FromBE(s[..8]), FromBE(s[8..16]), s[HEADER_SIZE..HEADER_SIZE + size]))
  }

  /** All whole records from the front of `s`, up to the first one that is cut short. */
  function Scan(s: seq<byte>): seq<Record>
    decreases |s|
  {
    match First(s)
    case None => []
    case Some(r) => [r] + Scan(s[Size(r)..])
  }

  function AtLeast(rs: seq<Record>, offset: nat): seq<Record> {
    if rs == [] then []
    else (if rs[0].offset >= offset then [rs[0]] else []) + AtLeast(rs[1..], offset)
  }

  function Take<T>(s: seq<T>, n: nat): seq<T> {
    if |s| <= n then s else s[..n]
  }

  predicate Contiguous(rs: seq<Record>, base: nat) {
    forall i :: 0 <= i < |rs| ==> rs[i].offset == base + i
  }

  // ---------------------------------------------------------------- records

  lemma Fields<T>(a: seq<T>, b: seq<T>, c: seq<T>, d: seq<T>, t: seq<T>)
    ensures var s := a + b + c + d + t;
            var i, j, k := |a|, |a| + |b|, |a| + |b| + |c|;
            s[..i] == a && s[i..j] == b && s[j..k] == c && s[k..k + |d|] == d
  {
  }

  lemma FirstEncode(r: Record, t: seq<byte>)
    requires Fits(r)
    ensures First(Encode(r) + t) == Some(r)
  {
    Widths();
    FromToBE(8, r.offset);
    FromToBE(8, r.timestamp);
    FromToBE(4, |r.payload|);
    Fields(ToBE(8, r.offset), ToBE(8, r.timestamp), ToBE(4, |r.payload|), r.payload, t);
  }

  /** Whatever parses as a record is exactly the encoding of that record. */
  lemma EncodeFirst(s: seq<byte>)
    requires First(s).Some?
    ensures Fits(First(s).value)
    ensures Encode(First(s).value) == s[..Size(First(s).value)]
  {
    var r := First(s).value;
    Widths();
    ToFromBE(s[..8]);
    ToFromBE(s[8..16]);
    ToFromBE(s[16..20]);
    assert s[..Size(r)] == s[..8] + s[8..16] + s[16..20] + s[20..Size(r)];
  }

  /** A strict prefix of an encoded record never parses. */
  lemma TornRecord(r: Record, k: nat)
    requires Fits(r) && k < Size(r)
    ensures First(Encode(r)[..k]) == None
  {
    if k >= HEADER_SIZE {
      hide ToBE, FromBE, Pow256;
      Widths();
      FromToBE(4, |r.payload|);
      Fields(ToBE(8, r.offset), ToBE(8, r.timestamp), ToBE(4, |r.payload|), r.payload, []);
      Nothing(Encode(r));
      assert Encode(r)[..k][16..20] == Encode(r)[16..20];
    }
  }

  lemma {:induction false} LogSizeAppend(a: seq<Record>, b: seq<Record>)
    ensures LogSize(a + b) == LogSize(a) + LogSize(b)
  {
    if a == [] {
      assert a + b == b;
    } else {
      LogSizeAppend(a[1..], b);
      assert (a + b)[1..] == a[1..] + b;
    }
  }

  lemma {:induction false} EncodeLogAppend(a: seq<Record>, b: seq<Record>)
    ensures EncodeLog(a + b) == EncodeLog(a) + EncodeLog(b)
  {
    hide Encode;
    if a == [] {
      assert a + b == b;
    } else {
      EncodeLogAppend(a[1..], b);
      assert (a + b)[1..] == a[1..] + b;
      Assoc(Encode(a[0]), EncodeLog(a[1..]), EncodeLog(b));
    }
  }

  /** Scanning undoes encoding and carries on into whatever follows. */
  lemma {:induction false} ScanEncode(rs: seq<Record>, t: seq<byte>)
    requires AllFit(rs)
    ensures Scan(EncodeLog(rs) + t) == rs + Scan(t)
  {
    hide Encode, First;
    if rs == [] {
      assert EncodeLog(rs) + t == t;
    } else {
      var s := EncodeLog(rs) + t;
      var rest := EncodeLog(rs[1..]) + t;
      Assoc(Encode(rs[0]), EncodeLog(rs[1..]), t);
      FirstEncode(rs[0], rest);
      assert s[Size(rs[0])..] == rest;
      ScanEncode(rs[1..], t);
      Assoc([rs[0]], rs[1..], Scan(t));
    }
  }

  lemma ScanLog(rs: seq<Record>)
    requires AllFit(rs)
    ensures Scan(EncodeLog(rs)) == rs
  {
    ScanEncode(rs, []);
    assert EncodeLog(rs) + [] == EncodeLog(rs);
  }

  /** Encoding undoes scanning: the records found are the bytes walked over, nothing else. */
  lemma {:induction false} EncodeScan(s: seq<byte>)
    ensures AllFit(Scan(s))
    ensures LogSize(Scan(s)) <= |s|
    ensures EncodeLog(Scan(s)) == s[..LogSize(Scan(s))]
    ensures First(s[LogSize(Scan(s))..]) == None
    decreases |s|
  {
    hide Encode, First;
    match First(s)
    case None =>
      assert s[0..] == s;
    case Some(r) =>
      EncodeFirst(s);
      var t := s[Size(r)..];
      EncodeScan(t);
      var n := LogSize(Scan(t));
      assert Scan(s)[1..] == Scan(t);
      assert s[..Size(r) + n] == s[..Size(r)] + t[..n];
      assert s[Size(r) + n..] == t[n..];
  }

  /** The scan is the longest list of whole records that the bytes begin with. */
  lemma ScanIsLongest(rs: seq<Record>, s: seq<byte>)
    requires AllFit(rs) && EncodeLog(rs) <= s
    ensures rs <= Scan(s)
  {
    ScanEncode(rs, s[LogSize(rs)..]);
    assert s == EncodeLog(rs) + s[LogSize(rs)..];
  }

  /** Number of leading records of `rs` that fit in the first `k` bytes of its encoding. */
  function WholeRecords(rs: seq<Record>, k: nat): (m: nat)
    ensures m <= |rs|
  {
    if rs == [] || k < Size(rs[0]) then 0 else 1 + WholeRecords(rs[1..], k - Size(rs[0]))
  }

  lemma {:induction false} ScanTorn(rs: seq<Record>, k: nat)
    requires AllFit(rs) && k <= LogSize(rs)
    ensures Scan(EncodeLog(rs)[..k]) == rs[..WholeRecords(rs, k)]
  {
    hide Encode, First;
    if rs == [] {
    } else if k < Size(rs[0]) {
      TornRecord(rs[0], k);
      assert EncodeLog(rs)[..k] == Encode(rs[0])[..k];
    } else {
      var n := Size(rs[0]);
      var rest := EncodeLog(rs[1..])[..k - n];
      ScanTorn(rs[1..], k - n);
      assert EncodeLog(rs)[..k] == Encode(rs[0]) + rest;
      FirstEncode(rs[0], rest);
      assert (Encode(rs[0]) + rest)[n..] == rest;
    }
  }

  lemma {:induction false} WholeRecordsExact(rs: seq<Record>, k: nat)
    ensures LogSize(rs[..WholeRecords(rs, k)]) <= k
    ensures WholeRecords(rs, k) < |rs| ==> k < LogSize(rs[..WholeRecords(rs, k) + 1])
  {
    if rs != [] && k >= Size(rs[0]) {
      WholeRecordsExact(rs[1..], k - Size(rs[0]));
      var m := WholeRecords(rs[1..], k - Size(rs[0]));
      assert rs[..m + 1][1..] == rs[1..][..m];
      if m < |rs| - 1 { assert rs[..m + 2][1..] == rs[1..][..m + 1]; }
    } else if rs != [] {
      assert rs[..1][1..] == [];
    }
  }

  // ------------------------------------------------------------- filtering

  lemma {:induction false} AtLeastAppend(a: seq<Record>, b: seq<Record>, t: nat)
    ensures AtLeast(a + b, t) == AtLeast(a, t) + AtLeast(b, t)
  {
    if a == [] {
      assert a + b == b;
    } else {
      AtLeastAppend(a[1..], b, t);
      assert (a + b)[1..] == a[1..] + b;
      Assoc(if a[0].offset >= t then [a[0]] else [], AtLeast(a[1..], t), AtLeast(b, t));
    }
  }

  lemma {:induction false} AtLeastNone(rs: seq<Record>, t: nat)
    requires forall i :: 0 <= i < |rs| ==> rs[i].offset < t
    ensures AtLeast(rs, t) == []
  {
    if rs != [] { AtLeastNone(rs[1..], t); }
  }

  lemma {:induction false} AtLeastAll(rs: seq<Record>, t: nat)
    requires forall i :: 0 <= i < |rs| ==> rs[i].offset >= t
    ensures AtLeast(rs, t) == rs
  {
    if rs != [] { AtLeastAll(rs[1..], t); }
  }

  lemma AtLeastContiguous(rs: seq<Record>, base: nat, t: nat)
    requires Contiguous(rs, base)
    ensures AtLeast(rs, t) ==
            if t <= base then rs else if t - base <= |rs| then rs[t - base..] else []
  {
    hide AtLeast;
    if t <= base {
      AtLeastAll(rs, t);
    } else if t - base <= |rs| {
      var k := t - base;
      AtLeastAppend(rs[..k], rs[k..], t);
      assert rs == rs[..k] + rs[k..];
      AtLeastNone(rs[..k], t);
      AtLeastAll(rs[k..], t);
    } else {
      AtLeastNone(rs, t);
    }
  }
}
