/** Reading records back from a segment file, seen as the bytes it holds when it is read. */
module SegmentReader {
  import opened Bytes
  import opened LogFormat

  /** What a read of up to `max` records at or past `start` is meant to return. */
  function Wanted(rs: seq<Record>, start: nat, max: nat): seq<Record> {
    Take(AtLeast(rs, start), max)
  }

  lemma WantedStep(r: Record, rs: seq<Record>, start: nat, max: nat)
    requires max > 0
    ensures r.offset < start ==> Wanted([r] + rs, start, max) == Wanted(rs, start, max)
    ensures r.offset >= start ==> Wanted([r] + rs, start, max) == [r] + Wanted(rs, start, max - 1)
  {
    assert ([r] + rs)[1..] == rs;
  }

  lemma WantedNothing(rs: seq<Record>, start: nat)
    ensures Wanted(rs, start, 0) == []
  {
  }

  lemma WantedNone(start: nat, max: nat)
    ensures Wanted([], start, max) == []
  {
  }

  lemma ScanHead(s: seq<byte>)
    ensures |s| < HEADER_SIZE ==> Scan(s) == []
    ensures |s| >= HEADER_SIZE ==>
              var n := FromBE(s[16..20]);
              Scan(s) == if |s| < 20 + n then []
                         else [Record(FromBE(s[..8]), FromBE(s[8..16]), s[20..20 + n])] + Scan(s[20 + n..])
  {
    hide FromBE;
    match First(s)
    case None =>
    case Some(r) => assert Size(r) == 20 + FromBE(s[16..20]);
  }

  function SizeAt(file: seq<byte>, pos: nat): nat
    requires pos + HEADER_SIZE <= |file|
  {
    FromBE(file[pos + 16..pos + 20])
  }

  function RecordAt(file: seq<byte>, pos: nat): Record
    requires pos + HEADER_SIZE <= |file| && pos + HEADER_SIZE + SizeAt(file, pos) <= |file|
  {
    Record(FromBE(file[pos..pos + 8]), FromBE(file[pos + 8..pos + 16]),
           file[pos + 20..pos + 20 + SizeAt(file, pos)])
  }

  /** One step of a scan that holds a file position instead of the bytes left. */
  lemma ScanAt(file: seq<byte>, pos: nat)
    ensures pos + HEADER_SIZE > |file| ==> Scan(Drop(file, pos)) == []
    ensures pos + HEADER_SIZE <= |file| ==>
              var n := SizeAt(file, pos);
              Scan(Drop(file, pos)) == if pos + 20 + n > |file| then []
                                       else [RecordAt(file, pos)] + Scan(Drop(file, pos + 20 + n))
  {
    hide FromBE, Scan;
    var s := Drop(file, pos);
    ScanHead(s);
    if pos + HEADER_SIZE <= |file| {
      assert s[..8] == file[pos..pos + 8];
      assert s[8..16] == file[pos + 8..pos + 16];
      assert s[16..20] == file[pos + 16..pos + 20];
      var n := SizeAt(file, pos);
      if pos + 20 + n <= |file| {
        assert s[20..20 + n] == file[pos + 20..pos + 20 + n];
        assert s[20 + n..] == Drop(file, pos + 20 + n);
      }
    }
  }

  /**
   * Reads from `position`: skips records below `start` without looking at their payload, and
   * stops at the first header or wanted payload that is cut short. For any bytes at all this is
   * the first `max` whole records from there whose offset is at least `start`.
   */
  method Read(file: seq<byte>, position: nat, start: nat, max: nat) returns (records: seq<Record>)
    ensures records == Wanted(Scan(Drop(file, position)), start, max)
  {
    hide FromBE, Scan, Wanted, Drop;
    records := [];
    var pos := position;
    ghost var left := Scan(Drop(file, position));
    while |records| < max
      invariant |records| <= max && left == Scan(Drop(file, pos))
      invariant Wanted(Scan(Drop(file, position)), start, max)
             == records + Wanted(left, start, max - |records|)
      decreases |file| - pos
    {
      ScanAt(file, pos);
      if |file| < pos + HEADER_SIZE {
        WantedNone(start, max - |records|);
        return;
      }
      var offset := FromBE(file[pos..pos + 8]);
      var timestamp := FromBE(file[pos + 8..pos + 16]);
      var size := FromBE(file[pos + 16..pos + 20]);
      pos := pos + HEADER_SIZE;
      if |file| < pos + size {
        WantedNone(start, max - |records|);
        ScanAt(file, pos + size);
      } else {
        WantedStep(left[0], left[1..], start, max - |records|);
      }
      if offset < start {
        pos := pos + size;
        left := Scan(Drop(file, pos));
        continue;
      }
      if |file| < pos + size {
        return;
      }
      var payload := file[pos..pos + size];
      pos := pos + size;
      left := Scan(Drop(file, pos));
      Assoc(records, [Record(offset, timestamp, payload)], Wanted(left, start, max - |records| - 1));
      records := records + [Record(offset, timestamp, payload)];
    }
    WantedNothing(left, start);
  }

  /**
   * Walks every whole record from `from`. The records returned are, re-encoded, exactly the bytes
   * up to the returned position, and no further whole record starts there. Past the end of the file
   * there are none.
   */
  method ScanValid(file: seq<byte>, from: nat) returns (records: seq<Record>, end: nat)
    ensures records == Scan(Drop(file, from)) && end == from + LogSize(records) && AllFit(records)
    ensures from <= |file| ==>
              end <= |file| && EncodeLog(records) == file[from..end] && First(file[end..]) == None
    ensures from > |file| ==> records == [] && end == from
  {
    hide FromBE, Scan, First, EncodeLog, LogSize, Drop;
    records, end := [], from;
    ghost var left := Scan(Drop(file, from));
    Nothing(left);
    EmptyLog();
    while true
      invariant from <= end && left == Scan(Drop(file, end))
      invariant end <= |file| || (records == [] && end == from)
      invariant Scan(Drop(file, from)) == records + left
      invariant end == from + LogSize(records)
      decreases |file| - end
    {
      ScanAt(file, end);
      if |file| < end + HEADER_SIZE {
        break;
      }
      var size := FromBE(file[end + 16..end + 20]);
      if |file| < end + HEADER_SIZE + size {
        break;
      }
      var r := Record(FromBE(file[end..end + 8]), FromBE(file[end + 8..end + 16]),
                      file[end + 20..end + 20 + size]);
      end := end + HEADER_SIZE + size;
      left := Scan(Drop(file, end));
      Assoc(records, [r], left);
      LogSizeLast(records, r);
      records := records + [r];
    }
    Nothing(records);
    if from <= |file| { ScannedBytes(file, from); } else { NothingFits(); }
  }

  lemma NothingFits()
    ensures AllFit([])
  {
  }

  lemma EmptyLog()
    ensures LogSize([]) == 0
  {
  }

  lemma ScannedBytes(file: seq<byte>, from: nat)
    requires from <= |file|
    ensures var rs := Scan(Drop(file, from));
            var end := from + LogSize(rs);
            AllFit(rs) && end <= |file| && EncodeLog(rs) == file[from..end] && First(file[end..]) == None
  {
    hide Scan, First, EncodeLog, LogSize;
    var s := Drop(file, from);
    EncodeScan(s);
    var n := LogSize(Scan(s));
    assert s[..n] == file[from..from + n];
    assert s[n..] == file[from + n..];
  }

  lemma LogSizeLast(rs: seq<Record>, r: Record)
    ensures LogSize(rs + [r]) == LogSize(rs) + Size(r)
  {
    LogSizeAppend(rs, [r]);
  }
}
