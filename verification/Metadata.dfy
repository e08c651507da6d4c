/** The answer to a metadata request, as a broker prints it and a client reads it. */
module Metadata {
  import opened Bytes

  datatype Broker = Broker(id: nat, host: seq<byte>, port: nat)

  /** What a client keeps: how to reach every broker, and which broker leads each partition. */
  datatype Meta = Meta(brokers: map<nat, Broker>, leaders: map<nat, nat>)

  type Leader = (nat, nat)             // a partition and the broker that leads it

  // --------------------------------------------------------------- printing

  /** The length of the host is cut to one octet; the host itself is not cut. */
  function PrintBroker(b: Broker): seq<byte> {
    ToBE(4, b.id) + [|b.host| % 256] + b.host + ToBE(2, b.port)
  }

  function PrintBrokers(bs: seq<Broker>): seq<byte> {
    if bs == [] then [] else PrintBroker(bs[0]) + PrintBrokers(bs[1..])
  }

  function PrintLeader(l: Leader): seq<byte> {
    ToBE(2, l.0) + ToBE(4, l.1)
  }

  function PrintLeaders(ls: seq<Leader>): seq<byte> {
    if ls == [] then [] else PrintLeader(ls[0]) + PrintLeaders(ls[1..])
  }

  function Print(bs: seq<Broker>, ls: seq<Leader>): seq<byte> {
    ToBE(2, |bs|) + (PrintBrokers(bs) + (ToBE(2, |ls|) + PrintLeaders(ls)))
  }

  /** Where the fields of a broker are: its id, the length of its host, the host, and its port. */
  lemma BrokerLayout(b: Broker, i: nat)
    requires i < 7 + |b.host|
    ensures var n := |b.host|;
            PrintBroker(b)[i] == if i < 4 then Octet(b.id, 3 - i) else if i == 4 then n % 256
                                 else if i < 5 + n then b.host[i - 5] else Octet(b.port, 6 + n - i)
  {
    hide ToBE, Octet;
    if i < 4 { OctetAt(4, b.id, i); } else if i >= 5 + |b.host| { OctetAt(2, b.port, i - 5 - |b.host|); }
  }

  /** Where the fields of a leader are: the partition's number, then the broker's id. */
  lemma LeaderLayout(l: Leader, i: nat)
    requires i < 6
    ensures PrintLeader(l)[i] == if i < 2 then Octet(l.0, 1 - i) else Octet(l.1, 5 - i)
  {
    hide ToBE, Octet;
    if i < 2 { OctetAt(2, l.0, i); } else { OctetAt(4, l.1, i - 2); }
  }

  // --------------------------------------------------------------- reading

  function ReadBroker(s: seq<byte>): Option<(Broker, seq<byte>)> {
    var n: nat := if |s| < 5 then 0 else s[4];
    if |s| < 7 + n then None
    else
      Some((Broker(FromBE(s[..4]), s[5..5 + n], FromBE(s[5 + n..7 + n])), s[7 + n..]))
  }

  function ReadBrokers(s: seq<byte>, n: nat): Option<(seq<Broker>, seq<byte>)> {
    if n == 0 then Some(([], s))
    else
      match ReadBroker(s)
      case None => None
      case Some((b, t)) =>
        match ReadBrokers(t, n - 1)
        case None => None
        case Some((bs, u)) => Some(([b] + bs, u))
  }

  function ReadLeaders(s: seq<byte>, n: nat): Option<seq<Leader>> {
    if n == 0 then Some([])
    else if |s| < 6 then None
    else
      match ReadLeaders(s[6..], n - 1)
      case None => None
      case Some(ls) => Some([(FromBE(s[..2]), FromBE(s[2..6]))] + ls)
  }

  /** Later entries replace earlier ones with the same key. */
  function ById(bs: seq<Broker>): map<nat, Broker> {
    if bs == [] then map[] else ById(bs[..|bs| - 1])[bs[|bs| - 1].id := bs[|bs| - 1]]
  }

  function ByPartition(ls: seq<Leader>): map<nat, nat> {
    if ls == [] then map[] else ByPartition(ls[..|ls| - 1])[ls[|ls| - 1].0 := ls[|ls| - 1].1]
  }

  function ReadTail(s: seq<byte>): Option<seq<Leader>> {
    if |s| < 2 then None else ReadLeaders(s[2..], FromBE(s[..2]))
  }

  function Read(s: seq<byte>): Option<Meta> {
    if |s| < 2 then None
    else
      match ReadBrokers(s[2..], FromBE(s[..2]))
      case None => None
      case Some((bs, t)) =>
        match ReadTail(t)
        case None => None
        case Some(ls) => Some(Meta(ById(bs), ByPartition(ls)))
  }

  // --------------------------------------------------------------- the round trip

  predicate Sane(b: Broker) {
    b.id < U32 && b.port < U16
  }

  predicate AllSane(bs: seq<Broker>) {
    forall i :: 0 <= i < |bs| ==> Sane(bs[i])
  }

  predicate ShortHosts(bs: seq<Broker>) {
    forall i :: 0 <= i < |bs| ==> |bs[i].host| < 256
  }

  predicate LeadersFit(ls: seq<Leader>) {
    |ls| < U16 && forall i :: 0 <= i < |ls| ==> ls[i].0 < U16 && ls[i].1 < U32
  }

  lemma Digits(n: nat, v: nat, t: seq<byte>)
    requires v < Pow256(n)
    ensures (ToBE(n, v) + t)[..n] == ToBE(n, v) && FromBE(ToBE(n, v)) == v && (ToBE(n, v) + t)[n..] == t
  {
    hide ToBE, FromBE, Pow256;
    FromToBE(n, v);
  }

  lemma ReadOne(b: Broker, t: seq<byte>)
    requires Sane(b) && |b.host| < 256
    ensures ReadBroker(PrintBroker(b) + t) == Some((b, t))
  {
    hide ToBE, FromBE, Pow256;
    Widths();
    var s, n := PrintBroker(b) + t, 5 + |b.host|;
    FromToBE(4, b.id);
    FromToBE(2, b.port);
    assert s[..4] == ToBE(4, b.id) && s[4] == |b.host|;
    assert s[5..n] == b.host && s[n..n + 2] == ToBE(2, b.port) && s[n + 2..] == t;
  }

  lemma {:induction false} ReadMany(bs: seq<Broker>, t: seq<byte>)
    requires AllSane(bs) && ShortHosts(bs)
    ensures ReadBrokers(PrintBrokers(bs) + t, |bs|) == Some((bs, t))
  {
    hide PrintBroker, ReadBroker;
    if bs == [] {
      assert PrintBrokers(bs) + t == t;
    } else {
      var u := PrintBrokers(bs[1..]) + t;
      ReadMany(bs[1..], t);
      ReadOne(bs[0], u);
      Assoc(PrintBroker(bs[0]), PrintBrokers(bs[1..]), t);
      assert bs == [bs[0]] + bs[1..];
    }
  }

  lemma {:induction false} ReadLeaderTable(ls: seq<Leader>)
    requires LeadersFit(ls)
    ensures ReadLeaders(PrintLeaders(ls), |ls|) == Some(ls)
  {
    hide ToBE, FromBE, Pow256;
    if ls != [] {
      Widths();
      ReadLeaderTable(ls[1..]);
      var s := PrintLeaders(ls);
      FromToBE(2, ls[0].0);
      FromToBE(4, ls[0].1);
      assert s[..2] == ToBE(2, ls[0].0) && s[2..6] == ToBE(4, ls[0].1) && s[6..] == PrintLeaders(ls[1..]);
      assert ls == [ls[0]] + ls[1..];
    }
  }

  lemma ReadPrinted(bs: seq<Broker>, ls: seq<Leader>)
    requires AllSane(bs) && ShortHosts(bs) && |bs| < U16 && LeadersFit(ls)
    ensures Read(Print(bs, ls)) == Some(Meta(ById(bs), ByPartition(ls)))
  {
    hide ToBE, FromBE, Pow256, PrintBrokers, ReadBrokers, PrintLeaders, ReadLeaders, ById, ByPartition;
    hide AllSane, ShortHosts;
    Widths();
    var tail := ToBE(2, |ls|) + PrintLeaders(ls);
    Digits(2, |bs|, PrintBrokers(bs) + tail);
    ReadMany(bs, tail);
    Digits(2, |ls|, PrintLeaders(ls));
    ReadLeaderTable(ls);
  }

  lemma MoreBytes(s: seq<byte>, u: seq<byte>)
    requires ReadBroker(s).Some?
    ensures ReadBroker(s + u) == Some((ReadBroker(s).value.0, ReadBroker(s).value.1 + u))
  {
    hide FromBE;
    var n: nat := s[4];
    assert (s + u)[..4] == s[..4] && (s + u)[5..5 + n] == s[5..5 + n];
    assert (s + u)[5 + n..7 + n] == s[5 + n..7 + n] && (s + u)[7 + n..] == s[7 + n..] + u;
  }

  /** What can be read from some bytes is read in the same way when more follow. */
  lemma {:induction false} BrokersThenMore(s: seq<byte>, u: seq<byte>, n: nat)
    requires ReadBrokers(s, n).Some?
    ensures ReadBrokers(s + u, n) == Some((ReadBrokers(s, n).value.0, ReadBrokers(s, n).value.1 + u))
    decreases n
  {
    hide ReadBroker;
    if n > 0 {
      MoreBytes(s, u);
      BrokersThenMore(ReadBroker(s).value.1, u, n - 1);
    }
  }

  lemma {:induction false} LeadersNeed(s: seq<byte>, n: nat)
    requires ReadLeaders(s, n).Some?
    ensures |s| >= 6 * n
  {
    if n > 0 { LeadersNeed(s[6..], n - 1); }
  }

  lemma {:induction false} LeadersLength(ls: seq<Leader>)
    ensures |PrintLeaders(ls)| == 6 * |ls|
  {
    hide ToBE;
    if ls != [] { LeadersLength(ls[1..]); }
  }

  /** Reading needs every byte that was printed: an answer cut short anywhere is refused. */
  lemma CutShort(bs: seq<Broker>, ls: seq<Leader>, k: nat)
    requires AllSane(bs) && ShortHosts(bs) && |bs| < U16 && LeadersFit(ls) && k < |Print(bs, ls)|
    ensures Read(Print(bs, ls)[..k]).None?
  {
    hide ToBE, FromBE, Pow256, PrintBrokers, ReadBrokers, PrintLeaders, ReadLeaders, ById, ByPartition, AllSane;
    hide ShortHosts;
    var tail := ToBE(2, |ls|) + PrintLeaders(ls);
    var all := Print(bs, ls);
    if k >= 2 {
      Widths();
      Digits(2, |bs|, PrintBrokers(bs) + tail);
      ReadMany(bs, tail);
      var s, u := all[2..k], all[k..];
      assert all[..k][..2] == all[..2] && all[..k][2..] == s && s + u == all[2..];
      if ReadBrokers(s, |bs|).Some? {
        BrokersThenMore(s, u, |bs|);
        TailCutShort(ls, ReadBrokers(s, |bs|).value.1, u);
      }
    }
  }

  lemma TailCutShort(ls: seq<Leader>, t: seq<byte>, u: seq<byte>)
    requires LeadersFit(ls) && u != [] && t + u == ToBE(2, |ls|) + PrintLeaders(ls)
    ensures ReadTail(t).None?
  {
    hide ToBE, FromBE, Pow256, PrintLeaders, ReadLeaders;
    if |t| >= 2 {
      Widths();
      Digits(2, |ls|, PrintLeaders(ls));
      LeadersLength(ls);
      assert t[..2] == (t + u)[..2];
      if ReadLeaders(t[2..], |ls|).Some? { LeadersNeed(t[2..], |ls|); }
    }
  }

  // --------------------------------------------------------------- and exactly when it holds

  /** A host that was read is never longer than its length octet can say. */
  lemma {:induction false} HostsRead(s: seq<byte>, n: nat)
    ensures match ReadBrokers(s, n) case None => true case Some((bs, t)) => |bs| == n && ShortHosts(bs)
  {
    hide FromBE;
    if n > 0 && ReadBroker(s).Some? {
      var t := ReadBroker(s).value.1;
      HostsRead(t, n - 1);
    }
  }

  lemma {:induction false} ByIdFrom(bs: seq<Broker>)
    ensures |ById(bs)| <= |bs| && forall k :: k in ById(bs) ==> ById(bs)[k] in bs && ById(bs)[k].id == k
  {
    if bs != [] {
      ByIdFrom(bs[..|bs| - 1]);
      assert ById(bs).Keys == ById(bs[..|bs| - 1]).Keys + {bs[|bs| - 1].id};
    }
  }

  predicate DistinctIds(bs: seq<Broker>) {
    forall i, j :: 0 <= i < j < |bs| ==> bs[i].id != bs[j].id
  }

  /** With distinct ids, nothing is replaced: every broker can be found under its id. */
  lemma {:induction false} ByIdDistinct(bs: seq<Broker>)
    requires DistinctIds(bs)
    ensures |ById(bs)| == |bs|
    ensures forall i :: 0 <= i < |bs| ==> bs[i].id in ById(bs) && ById(bs)[bs[i].id] == bs[i]
  {
    if bs != [] {
      var n := |bs| - 1;
      var m := ById(bs[..n]);
      ByIdDistinct(bs[..n]);
      NewId(bs);
      assert ById(bs).Keys == m.Keys + {bs[n].id};
    }
  }

  lemma NewId(bs: seq<Broker>)
    requires bs != [] && DistinctIds(bs)
    ensures bs[|bs| - 1].id !in ById(bs[..|bs| - 1])
  {
    hide ById;
    ByIdFrom(bs[..|bs| - 1]);
  }

  /** The client learns what the broker knows if and only if hosts and their number fit their fields. */
  lemma RoundTrip(bs: seq<Broker>, ls: seq<Leader>)
    requires AllSane(bs) && DistinctIds(bs) && LeadersFit(ls)
    ensures Read(Print(bs, ls)) == Some(Meta(ById(bs), ByPartition(ls)))
            <==> ShortHosts(bs) && |bs| < U16
  {
    hide AllSane, LeadersFit, Print, ByPartition;
    if ShortHosts(bs) && |bs| < U16 {
      ReadPrinted(bs, ls);
    } else if Read(Print(bs, ls)) == Some(Meta(ById(bs), ByPartition(ls))) {
      hide FromBE;
      var s := Print(bs, ls);
      HostsRead(s[2..], FromBE(s[..2]));
      var read := ReadBrokers(s[2..], FromBE(s[..2])).value.0;
      SameMap(bs, read);
      Widths();
    }
  }

  lemma SameMap(bs: seq<Broker>, read: seq<Broker>)
    requires DistinctIds(bs) && ById(bs) == ById(read) && ShortHosts(read)
    ensures ShortHosts(bs) && |bs| <= |read|
  {
    hide ById;
    ByIdDistinct(bs);
    ByIdFrom(read);
    forall i | 0 <= i < |bs|
      ensures |bs[i].host| < 256
    {
      assert ById(read)[bs[i].id] in read;
    }
  }

  // --------------------------------------------------------------- the two programs

  const LOCALHOST: seq<byte> := [49, 50, 55, 46, 48, 46, 48, 46, 49]

  /** The leader a broker reports for each partition: the one on record, or else by rotation. */
  function Assigned(table: seq<Option<nat>>, total: nat): (ls: seq<Leader>)
    requires total > 0
    ensures |ls| == |table|
  {
    seq(|table|, i requires 0 <= i < |table| => (i, if table[i].Some? then table[i].value else i % total))
  }

  /** Every partition has an entry, in order, so the client's table is total. */
  lemma {:induction false} ByPartitionTotal(ls: seq<Leader>)
    requires forall i :: 0 <= i < |ls| ==> ls[i].0 == i
    ensures forall k: nat :: k in ByPartition(ls) <==> k < |ls|
    ensures forall i :: 0 <= i < |ls| ==> ByPartition(ls)[i] == ls[i].1
  {
    if ls != [] {
      ByPartitionTotal(ls[..|ls| - 1]);
    }
  }

  /** What is printed fits its fields: every number, every host, and how many there are of each. */
  predicate Printable(bs: seq<Broker>, table: seq<Option<nat>>) {
    && AllSane(bs) && ShortHosts(bs) && DistinctIds(bs) && |bs| < U16 && |table| < U16
    && forall i :: 0 <= i < |table| ==> table[i].Some? ==> table[i].value < U32
  }

  /**
   * A client that has read this finds the answering broker and every peer under their ids, and nobody
   * else, and for each partition the leader on record or else the one by rotation.
   */
  ghost predicate Informed(m: Meta, bs: seq<Broker>, table: seq<Option<nat>>)
    requires bs != []
  {
    && |m.brokers| == |bs| && (forall i :: 0 <= i < |bs| ==> bs[i].id in m.brokers && m.brokers[bs[i].id] == bs[i])
    && (forall p: nat :: p in m.leaders <==> p < |table|)
    && forall p :: 0 <= p < |table| ==>
         m.leaders[p] == match table[p] case Some(l) => l case None => p % |bs|
  }

  /** What a client reads from the answer is what the broker knows. */
  lemma AnswerInforms(bs: seq<Broker>, table: seq<Option<nat>>)
    requires bs != [] && Printable(bs, table)
    ensures Read(Print(bs, Assigned(table, |bs|))).Some?
    ensures Informed(Read(Print(bs, Assigned(table, |bs|))).value, bs, table)
  {
    hide Read, Print, ById, ByPartition;
    var ls := Assigned(table, |bs|);
    assert forall i :: 0 <= i < |ls| ==> ls[i] == (i, if table[i].Some? then table[i].value else i % |bs|);
    ReadPrinted(bs, ls);
    ByIdDistinct(bs);
    ByPartitionTotal(ls);
  }

  /** Answering a metadata request for a topic whose partitions are led as in `table`. */
  method HandleMetadata(id: nat, port: nat, peers: seq<Broker>, table: seq<Option<nat>>)
    returns (resp: seq<byte>)
    ensures resp == Print([Broker(id, LOCALHOST, port)] + peers, Assigned(table, 1 + |peers|))
    ensures var bs := [Broker(id, LOCALHOST, port)] + peers;
            Printable(bs, table) ==> Read(resp).Some? && Informed(Read(resp).value, bs, table)
  {
    hide ToBE, PrintBroker, PrintLeader;
    ghost var bs := [Broker(id, LOCALHOST, port)] + peers;
    var total := 1 + |peers|;
    ghost var ls := Assigned(table, total);
    resp := ToBE(2, 1 + |peers|);
    ghost var all := resp + PrintBrokers(bs);
    assert bs[1..] == peers;
    Assoc(resp, PrintBroker(bs[0]), PrintBrokers(peers));
    resp := resp + PrintBroker(Broker(id, LOCALHOST, port));
    for i := 0 to |peers|
      invariant resp + PrintBrokers(peers[i..]) == all
    {
      BrokersFrom(resp, peers, i);
      resp := resp + PrintBroker(peers[i]);
    }
    assert resp == all;
    ghost var tail := ToBE(2, |table|) + PrintLeaders(ls);
    Assoc(ToBE(2, |bs|), PrintBrokers(bs), tail);
    Assoc(all, ToBE(2, |table|), PrintLeaders(ls));
    resp := resp + ToBE(2, |table|);
    assert ls[0..] == ls;
    for i := 0 to |table|
      invariant resp + PrintLeaders(ls[i..]) == Print(bs, ls)
    {
      var leader := match table[i] case Some(l) => l case None => i % total;
      LeadersFrom(resp, ls, i);
      resp := resp + PrintLeader((i, leader));
    }
    if Printable(bs, table) { AnswerInforms(bs, table); }
  }

  lemma BrokersFrom(resp: seq<byte>, bs: seq<Broker>, i: nat)
    requires i < |bs|
    ensures resp + PrintBrokers(bs[i..]) == resp + PrintBroker(bs[i]) + PrintBrokers(bs[i + 1..])
  {
    hide PrintBroker;
    assert bs[i..][1..] == bs[i + 1..];
  }

  lemma LeadersFrom(resp: seq<byte>, ls: seq<Leader>, i: nat)
    requires i < |ls|
    ensures resp + PrintLeaders(ls[i..]) == resp + PrintLeader(ls[i]) + PrintLeaders(ls[i + 1..])
  {
    hide PrintLeader;
    assert ls[i..][1..] == ls[i + 1..];
  }

  /** The brokers in `seen` are read; the ones still to come begin at `offset`. */
  predicate BrokersSeen(payload: seq<byte>, count: nat, offset: nat, i: nat, seen: seq<Broker>)
    requires 2 <= offset <= |payload| && i <= count
  {
    ReadBrokers(payload[2..], count) ==
      match ReadBrokers(payload[offset..], count - i)
      case None => None
      case Some((bs, t)) => Some((seen + bs, t))
  }

  predicate Cut(payload: seq<byte>, offset: nat)
    requires offset <= |payload|
  {
    offset + 5 > |payload| || offset + 7 + payload[offset + 4] > |payload|
  }

  function BrokerAt(payload: seq<byte>, offset: nat): Broker
    requires offset <= |payload| && !Cut(payload, offset)
  {
    var n := offset + 5 + payload[offset + 4];
    Broker(FromBE(payload[offset..offset + 4]), payload[offset + 5..n], FromBE(payload[n..n + 2]))
  }

  lemma ReadBrokerAt(payload: seq<byte>, offset: nat)
    requires offset <= |payload|
    ensures ReadBroker(payload[offset..]) ==
            if Cut(payload, offset) then None
            else Some((BrokerAt(payload, offset), payload[offset + 7 + payload[offset + 4]..]))
  {
    hide FromBE;
    var s := payload[offset..];
    if !Cut(payload, offset) {
      var n: nat := s[4];
      Slices(payload, offset, 0, 4);
      Slices(payload, offset, 5, 5 + n);
      Slices(payload, offset, 5 + n, 7 + n);
    }
  }

  lemma BrokerStep(payload: seq<byte>, count: nat, offset: nat, i: nat, seen: seq<Broker>)
    requires 2 <= offset <= |payload| && i < count && BrokersSeen(payload, count, offset, i, seen)
    ensures if Cut(payload, offset) then ReadBrokers(payload[2..], count).None?
            else BrokersSeen(payload, count, offset + 7 + payload[offset + 4], i + 1, seen + [BrokerAt(payload, offset)])
  {
    hide ReadBroker, BrokerAt;
    ReadBrokerAt(payload, offset);
    if !Cut(payload, offset) {
      var r := ReadBrokers(payload[offset + 7 + payload[offset + 4]..], count - i - 1);
      if r.Some? { Assoc(seen, [BrokerAt(payload, offset)], r.value.0); }
    }
  }

  lemma BrokersDone(payload: seq<byte>, count: nat, offset: nat, seen: seq<Broker>)
    requires 2 <= offset <= |payload| && BrokersSeen(payload, count, offset, count, seen)
    ensures ReadBrokers(payload[2..], count) == Some((seen, payload[offset..]))
  {
    assert seen + [] == seen;
  }

  predicate LeadersSeen(payload: seq<byte>, start: nat, count: nat, offset: nat, i: nat, seen: seq<Leader>)
    requires start <= offset <= |payload| && i <= count
  {
    ReadLeaders(payload[start..], count) ==
      match ReadLeaders(payload[offset..], count - i)
      case None => None
      case Some(ls) => Some(seen + ls)
  }

  lemma LeaderStep(payload: seq<byte>, start: nat, count: nat, offset: nat, i: nat, seen: seq<Leader>)
    requires start <= offset <= |payload| && i < count && LeadersSeen(payload, start, count, offset, i, seen)
    ensures if offset + 6 > |payload| then ReadLeaders(payload[start..], count).None?
            else LeadersSeen(payload, start, count, offset + 6, i + 1,
                             seen + [(FromBE(payload[offset..offset + 2]), FromBE(payload[offset + 2..offset + 6]))])
  {
    hide FromBE;
    if offset + 6 <= |payload| {
      Slices(payload, offset, 0, 2);
      Slices(payload, offset, 2, 6);
      var l := (FromBE(payload[offset..offset + 2]), FromBE(payload[offset + 2..offset + 6]));
      var r := ReadLeaders(payload[offset + 6..], count - i - 1);
      if r.Some? { Assoc(seen, [l], r.value); }
    }
  }

  lemma LeadersDone(payload: seq<byte>, start: nat, count: nat, offset: nat, seen: seq<Leader>)
    requires start <= offset <= |payload| && LeadersSeen(payload, start, count, offset, count, seen)
    ensures ReadLeaders(payload[start..], count) == Some(seen)
  {
    assert seen + [] == seen;
  }

  lemma NothingSeen(payload: seq<byte>, start: nat, count: nat)
    requires start <= |payload|
    ensures LeadersSeen(payload, start, count, start, 0, [])
    ensures start == 2 ==> BrokersSeen(payload, count, 2, 0, [])
  {
    hide ReadLeaders, ReadBrokers;
    var r := ReadLeaders(payload[start..], count);
    if r.Some? { assert [] + r.value == r.value; }
    var b := ReadBrokers(payload[start..], count);
    if b.Some? { assert [] + b.value.0 == b.value.0; }
  }

  /** Reading an answer, entry by entry. */
  method ParseMetadata(payload: seq<byte>)
    returns (ok: bool, brokers: map<nat, Broker>, leaders: map<nat, nat>)
    ensures ok == Read(payload).Some?
    ensures ok ==> Meta(brokers, leaders) == Read(payload).value
  {
    hide FromBE, ReadBrokers, ReadLeaders, BrokersSeen, LeadersSeen;
    ok, brokers, leaders := false, map[], map[];
    if 2 > |payload| {
      return;
    }
    var count := FromBE(payload[..2]);
    var offset := 2;
    ghost var seen: seq<Broker> := [];
    NothingSeen(payload, 2, count);
    for i := 0 to count
      invariant 2 <= offset <= |payload| && brokers == ById(seen)
      invariant BrokersSeen(payload, count, offset, i, seen)
    {
      BrokerStep(payload, count, offset, i, seen);
      if offset + 5 > |payload| {
        return;
      }
      ghost var b := if Cut(payload, offset) then Broker(0, [], 0) else BrokerAt(payload, offset);
      var id := FromBE(payload[offset..offset + 4]);
      var hostLen := payload[offset + 4];
      offset := offset + 5;
      if offset + hostLen + 2 > |payload| {
        return;
      }
      var host := payload[offset..offset + hostLen];
      offset := offset + hostLen;
      var port := FromBE(payload[offset..offset + 2]);
      offset := offset + 2;
      brokers := brokers[id := Broker(id, host, port)];
      ByIdNext(seen, b);
      seen := seen + [b];
    }
    BrokersDone(payload, count, offset, seen);
    Slices(payload, offset, 0, if offset + 2 > |payload| then 0 else 2);
    if offset + 2 > |payload| {
      return;
    }
    var parts := FromBE(payload[offset..offset + 2]);
    offset := offset + 2;
    ghost var start := offset;
    ghost var led: seq<Leader> := [];
    NothingSeen(payload, start, parts);
    for i := 0 to parts
      invariant start <= offset <= |payload| && leaders == ByPartition(led)
      invariant LeadersSeen(payload, start, parts, offset, i, led)
    {
      LeaderStep(payload, start, parts, offset, i, led);
      if offset + 6 > |payload| {
        return;
      }
      var part := FromBE(payload[offset..offset + 2]);
      var leader := FromBE(payload[offset + 2..offset + 6]);
      offset := offset + 6;
      leaders := leaders[part := leader];
      ByPartitionNext(led, (part, leader));
      led := led + [(part, leader)];
    }
    LeadersDone(payload, start, parts, offset, led);
    ok := true;
  }

  lemma ByIdNext(bs: seq<Broker>, b: Broker)
    ensures ById(bs + [b]) == ById(bs)[b.id := b]
  {
    assert (bs + [b])[..|bs|] == bs;
  }

  lemma ByPartitionNext(ls: seq<Leader>, l: Leader)
    ensures ByPartition(ls + [l]) == ByPartition(ls)[l.0 := l.1]
  {
    assert (ls + [l])[..|ls|] == ls;
  }
}
