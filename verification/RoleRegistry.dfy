/** The registry of partitions a broker knows, and how roles are first assigned in it. */
module RoleRegistry {
  import opened Bytes
  import opened PartitionMeta
  import opened SegmentNames
  import Election

  datatype Entry = Entry(topic: string, partition: nat, role: Role, leaderId: BrokerId, epoch: nat,
                         replicas: seq<Replica>)

  // --------------------------------------------------------------- keys

  function Decimal(n: nat): (s: string)
    ensures s != [] && forall i :: 0 <= i < |s| ==> s[i] != '-'
  {
    if n < 10 then [Digit(n)] else Decimal(n / 10) + [Digit(n % 10)]
  }

  lemma DigitInjective(d: nat, e: nat)
    requires d < 10 && e < 10 && Digit(d) == Digit(e)
    ensures d == e
  {
  }

  lemma {:induction false} DecimalInjective(m: nat, n: nat)
    requires Decimal(m) == Decimal(n)
    ensures m == n
  {
    var s, t := Decimal(m), Decimal(n);
    assert s[|s| - 1] == t[|t| - 1];
    DigitInjective(m % 10, n % 10);
    if m >= 10 && n >= 10 {
      assert s[..|s| - 1] == Decimal(m / 10) && t[..|t| - 1] == Decimal(n / 10);
      DecimalInjective(m / 10, n / 10);
    }
  }

  function Key(topic: string, partition: nat): string {
    topic + "-" + Decimal(partition)
  }

  /** No two partitions share a key, even when topics contain the separator or digits. */
  lemma KeyInjective(t: string, p: nat, u: string, q: nat)
    requires Key(t, p) == Key(u, q)
    ensures t == u && p == q
  {
    hide Decimal;
    var s := Key(t, p);
    LastDash(t, p);
    LastDash(u, q);
    assert s[..|t|] == t && s[..|u|] == u;
    assert s[|t| + 1..] == Decimal(p) && s[|u| + 1..] == Decimal(q);
    DecimalInjective(p, q);
  }

  /** The separator is the last dash of a key. */
  lemma LastDash(t: string, p: nat)
    ensures |t| < |Key(t, p)| && Key(t, p)[|t|] == '-'
    ensures forall i :: |t| < i < |Key(t, p)| ==> Key(t, p)[i] != '-'
  {
    hide Decimal;
  }

  // --------------------------------------------------------------- roles

  function Created(topic: string, partition: nat): Entry {
    Entry(topic, partition, Follower, 0, 0, [])
  }

  /** What is on record for a partition, or would be created when it is asked for. */
  function Found(meta: map<string, Entry>, topic: string, partition: nat): Entry {
    if Key(topic, partition) in meta then meta[Key(topic, partition)] else Created(topic, partition)
  }

  /** The leader by rotation; every broker starts out in sync. */
  function Seeded(e: Entry, partition: nat, broker: BrokerId, brokers: nat): Entry
    requires brokers > 0
  {
    var leader := Election.SeededLeader(partition, brokers);
    e.(leaderId := leader, role := Election.RoleOf(broker, leader), replicas := Replicas(brokers))
  }

  function Count(counts: seq<nat>, i: nat): nat {
    if i < |counts| then counts[i] else 1
  }

  /** The partition is one of those of the first `n` topics, or of the first `k` of the next. */
  predicate Covered(topics: seq<string>, counts: seq<nat>, n: nat, k: nat, topic: string, partition: nat)
    requires n <= |topics|
  {
    || (exists i :: 0 <= i < n && topics[i] == topic && partition < Count(counts, i))
    || (n < |topics| && topics[n] == topic && partition < k)
  }

  ghost predicate AssignedUpTo(before: map<string, Entry>, meta: map<string, Entry>, broker: BrokerId, brokers: nat,
                               topics: seq<string>, counts: seq<nat>, n: nat, k: nat)
    requires n <= |topics| && brokers > 0
  {
    forall t: string, p: nat :: Found(meta, t, p) ==
      if Covered(topics, counts, n, k, t, p) then Seeded(Found(before, t, p), p, broker, brokers)
      else Found(before, t, p)
  }

  lemma NothingAssigned(meta: map<string, Entry>, broker: BrokerId, brokers: nat, topics: seq<string>, counts: seq<nat>)
    requires brokers > 0
    ensures AssignedUpTo(meta, meta, broker, brokers, topics, counts, 0, 0)
  {
    hide Found, Seeded;
  }

  lemma AssignOne(before: map<string, Entry>, meta: map<string, Entry>, broker: BrokerId, brokers: nat,
                  topics: seq<string>, counts: seq<nat>, n: nat, k: nat)
    requires n < |topics| && brokers > 0 && AssignedUpTo(before, meta, broker, brokers, topics, counts, n, k)
    ensures var e := Found(meta, topics[n], k);
            AssignedUpTo(before, meta[Key(topics[n], k) := Seeded(e, k, broker, brokers)], broker, brokers,
                         topics, counts, n, k + 1)
  {
    hide Key, Seeded;
    var e := Found(meta, topics[n], k);
    var after := meta[Key(topics[n], k) := Seeded(e, k, broker, brokers)];
    forall t: string, p: nat
      ensures Found(after, t, p) ==
              if Covered(topics, counts, n, k + 1, t, p) then Seeded(Found(before, t, p), p, broker, brokers)
              else Found(before, t, p)
    {
      if Key(t, p) == Key(topics[n], k) {
        KeyInjective(t, p, topics[n], k);
        SeededTwice(Found(before, t, p), p, broker, brokers);
      }
    }
  }

  lemma SeededTwice(e: Entry, p: nat, broker: BrokerId, brokers: nat)
    requires brokers > 0
    ensures Seeded(Seeded(e, p, broker, brokers), p, broker, brokers) == Seeded(e, p, broker, brokers)
  {
  }

  lemma NextTopic(before: map<string, Entry>, meta: map<string, Entry>, broker: BrokerId, brokers: nat,
                  topics: seq<string>, counts: seq<nat>, n: nat)
    requires n < |topics| && brokers > 0
    requires AssignedUpTo(before, meta, broker, brokers, topics, counts, n, Count(counts, n))
    ensures AssignedUpTo(before, meta, broker, brokers, topics, counts, n + 1, 0)
  {
    hide Found, Seeded, Count;
    forall t: string, p: nat
      ensures Covered(topics, counts, n + 1, 0, t, p) == Covered(topics, counts, n, Count(counts, n), t, p)
    {
      if n < |topics| && topics[n] == t && p < Count(counts, n) { assert topics[n] == t; }
    }
  }

  /** A partition of one of the topics: below the topic's count, or the only one if it has no count. */
  predicate Listed(topics: seq<string>, counts: seq<nat>, topic: string, partition: nat) {
    exists i :: 0 <= i < |topics| && topics[i] == topic && if i < |counts| then partition < counts[i] else partition == 0
  }

  /**
   * Every listed partition is led by the broker its number gives in turn, has everybody in sync, and
   * keeps its epoch; every other partition is as it was.
   */
  ghost predicate RolesAssigned(before: map<string, Entry>, meta: map<string, Entry>, broker: BrokerId, brokers: nat,
                                topics: seq<string>, counts: seq<nat>)
    requires brokers > 0
  {
    forall t: string, p: nat :: RoleAt(Found(before, t, p), Found(meta, t, p), p, broker, brokers,
                                       Listed(topics, counts, t, p))
  }

  predicate RoleAt(was: Entry, now: Entry, partition: nat, broker: BrokerId, brokers: nat, listed: bool)
    requires brokers > 0
  {
    && now.topic == was.topic && now.partition == was.partition && now.epoch == was.epoch
    && (!listed ==> now == was)
    && (listed ==>
      && now.leaderId == partition % brokers && now.role == (if partition % brokers == broker then Leader else Follower)
      && |now.replicas| == brokers && forall r :: 0 <= r < brokers ==> now.replicas[r] == Replica(r, 0, 0, true))
  }

  lemma AllAssigned(before: map<string, Entry>, meta: map<string, Entry>, broker: BrokerId, brokers: nat,
                    topics: seq<string>, counts: seq<nat>)
    requires brokers > 0 && AssignedUpTo(before, meta, broker, brokers, topics, counts, |topics|, 0)
    ensures RolesAssigned(before, meta, broker, brokers, topics, counts)
  {
    hide Found;
    forall t: string, p: nat
      ensures RoleAt(Found(before, t, p), Found(meta, t, p), p, broker, brokers, Listed(topics, counts, t, p))
    {
      CoveredIsListed(topics, counts, t, p);
    }
  }

  lemma CoveredIsListed(topics: seq<string>, counts: seq<nat>, t: string, p: nat)
    ensures Covered(topics, counts, |topics|, 0, t, p) == Listed(topics, counts, t, p)
  {
  }

  /** One broker's part in the election, as its registry has it. */
  function View(e: Entry): Election.Broker {
    Election.Broker(e.role, e.leaderId, e.epoch, 0, true, !e.role.Leader?, false, {})
  }

  /**
   * When every broker of a cluster assigns roles in its own, empty registry, they agree: each
   * partition of each topic has one leader, the same for all, which alone takes the role; everyone
   * else follows, and the election of that partition is in its initial state.
   */
  lemma RolesSeedElection(metas: seq<map<string, Entry>>, topics: seq<string>, counts: seq<nat>, t: string, p: nat)
    requires metas != [] && Listed(topics, counts, t, p)
    requires forall b :: 0 <= b < |metas| ==> RolesAssigned(map[], metas[b], b, |metas|, topics, counts)
    ensures var views := seq(|metas|, b requires 0 <= b < |metas| => View(Found(metas[b], t, p)));
            && Election.Init(Election.System(views, {}), p)
            && (forall b :: 0 <= b < |metas| ==> (views[b].role.Leader? <==> b == p % |metas|))
            && (forall b :: 0 <= b < |metas| ==> Found(metas[b], t, p).replicas == Replicas(|metas|))
  {
    hide Found, RolesAssigned, Listed;
    forall b | 0 <= b < |metas|
      ensures RoleAt(Created(t, p), Found(metas[b], t, p), p, b, |metas|, true)
      ensures Found(metas[b], t, p).replicas == Replicas(|metas|)
    {
      AssignedAt(metas[b], b, |metas|, topics, counts, t, p);
    }
  }

  lemma AssignedAt(meta: map<string, Entry>, broker: BrokerId, brokers: nat, topics: seq<string>, counts: seq<nat>,
                   t: string, p: nat)
    requires brokers > 0 && RolesAssigned(map[], meta, broker, brokers, topics, counts) && Listed(topics, counts, t, p)
    ensures RoleAt(Created(t, p), Found(meta, t, p), p, broker, brokers, true)
  {
    hide RoleAt, Listed;
    assert Found(map[], t, p) == Created(t, p);
  }

  class PartitionMetaRegistry {
    var meta: map<string, Entry>

    constructor ()
      ensures meta == map[]
    {
      meta := map[];
    }

    method Get(topic: string, partition: nat) returns (e: Entry)
      modifies this
      ensures e == Found(old(meta), topic, partition) && meta == old(meta)[Key(topic, partition) := e]
      ensures Key(topic, partition) !in old(meta) ==> e == Entry(topic, partition, Follower, 0, 0, [])
    {
      var key := Key(topic, partition);
      if key !in meta {
        meta := meta[key := Created(topic, partition)];
      }
      e := meta[key];
      assert meta == old(meta)[key := e];
    }

    /** Every partition of every topic gets its leader and role; nothing else changes. */
    method AssignRoles(broker: BrokerId, brokers: nat, topics: seq<string>, counts: seq<nat>)
      modifies this
      ensures brokers == 0 ==> meta == old(meta)
      ensures brokers > 0 ==> RolesAssigned(old(meta), meta, broker, brokers, topics, counts)
    {
      if brokers == 0 {
        return;
      }
      hide AssignedUpTo, RolesAssigned, Key, Found, Seeded;
      NothingAssigned(meta, broker, brokers, topics, counts);
      for i := 0 to |topics|
        invariant AssignedUpTo(old(meta), meta, broker, brokers, topics, counts, i, 0)
      {
        var count := Count(counts, i);
        for p := 0 to count
          invariant AssignedUpTo(old(meta), meta, broker, brokers, topics, counts, i, p)
        {
          AssignOne(old(meta), meta, broker, brokers, topics, counts, i, p);
          var e := Get(topics[i], p);
          meta := meta[Key(topics[i], p) := Seeded(e, p, broker, brokers)];
        }
        NextTopic(old(meta), meta, broker, brokers, topics, counts, i);
      }
      AllAssigned(old(meta), meta, broker, brokers, topics, counts);
    }
  }
}
