/** What a leader knows about its replicas: their progress and who is in sync. */
module PartitionMeta {
  import opened Bytes

  type BrokerId = nat

  datatype Role = Leader | Follower | Candidate

  datatype Replica = Replica(id: BrokerId, ack: nat, lastSeen: nat, inIsr: bool)

  // ------------------------------------------------------ reading the replicas

  function IsrIds(rs: seq<Replica>): (ids: seq<BrokerId>)
    ensures forall b :: b in ids <==> exists i :: 0 <= i < |rs| && rs[i].inIsr && rs[i].id == b
  {
    if rs == [] then []
    else
      var n := |rs| - 1;
      assert rs == rs[..n] + [rs[n]];
      IsrIds(rs[..n]) + if rs[n].inIsr then [rs[n].id] else []
  }

  predicate IsrAcked(rs: seq<Replica>, offset: nat) {
    forall i :: 0 <= i < |rs| && rs[i].inIsr ==> rs[i].ack >= offset
  }

  /** The first replica with this id, or the number of replicas if there is none. */
  function IndexOf(rs: seq<Replica>, id: BrokerId): (k: nat)
    ensures k <= |rs| && (k < |rs| ==> rs[k].id == id)
    ensures forall i :: 0 <= i < k ==> rs[i].id != id
  {
    if rs == [] || rs[0].id == id then 0 else 1 + IndexOf(rs[1..], id)
  }

  function LeaderCommitted(rs: seq<Replica>, leader: BrokerId): nat {
    var k := IndexOf(rs, leader);
    if k < |rs| then rs[k].ack else 0
  }

  function Max(a: nat, b: nat): nat {
    if a >= b then a else b
  }

  // ---------------------------------------------------------------- updates

  function Acked(r: Replica, acked: nat, maxLag: nat, committed: nat): Replica {
    var ack := Max(r.ack, acked);
    r.(ack := ack, inIsr := r.inIsr || (committed >= ack && committed - ack <= maxLag))
  }

  function OnAck(rs: seq<Replica>, id: BrokerId, acked: nat, maxLag: nat, committed: nat): (r: seq<Replica>)
    ensures |r| == |rs| && forall i :: 0 <= i < |rs| ==> r[i].id == rs[i].id
  {
    var k := IndexOf(rs, id);
    if k < |rs| then rs[k := Acked(rs[k], acked, maxLag, committed)] else rs
  }

  /** The leader's own progress, as its commit worker records it. */
  function OnCommit(rs: seq<Replica>, leader: BrokerId, committed: nat): (r: seq<Replica>)
    ensures |r| == |rs| && forall i :: 0 <= i < |rs| ==> r[i].id == rs[i].id
  {
    var k := IndexOf(rs, leader);
    if k < |rs| then rs[k := rs[k].(ack := Max(rs[k].ack, committed))] else rs
  }

  /** Elapsed time as the source computes it, in unsigned 64-bit arithmetic. */
  function Elapsed(now: nat, then_: nat): nat {
    (now - then_) % U64
  }

  function Ticked(r: Replica, leader: BrokerId, now: nat, timeout: nat): Replica {
    if r.id != leader && r.inIsr && Elapsed(now, r.lastSeen) > timeout then r.(inIsr := false) else r
  }

  function OnTick(rs: seq<Replica>, leader: BrokerId, now: nat, timeout: nat): (r: seq<Replica>)
    ensures |r| == |rs| && forall i :: 0 <= i < |rs| ==> r[i] == Ticked(rs[i], leader, now, timeout)
  {
    seq(|rs|, i requires 0 <= i < |rs| => Ticked(rs[i], leader, now, timeout))
  }

  function Replicas(n: nat): (rs: seq<Replica>)
    ensures |rs| == n && forall i :: 0 <= i < n ==> rs[i] == Replica(i, 0, 0, true)
  {
    seq(n, i requires 0 <= i < n => Replica(i, 0, 0, true))
  }

  // ------------------------------------------------------------------- runs

  datatype Action =
    | Ack(id: BrokerId, acked: nat)
    | Commit(committed: nat)
    | Tick(now: nat, timeout: nat)

  function Apply(rs: seq<Replica>, leader: BrokerId, maxLag: nat, a: Action): seq<Replica> {
    match a
    case Ack(id, acked) => OnAck(rs, id, acked, maxLag, LeaderCommitted(rs, leader))
    case Commit(committed) => OnCommit(rs, leader, committed)
    case Tick(now, timeout) => OnTick(rs, leader, now, timeout)
  }

  function After(n: nat, leader: BrokerId, maxLag: nat, acts: seq<Action>): seq<Replica> {
    if acts == [] then Replicas(n)
    else Apply(After(n, leader, maxLag, acts[..|acts| - 1]), leader, maxLag, acts[|acts| - 1])
  }

  /** The most a broker has reported: followers by acknowledging, the leader by committing. */
  function Reported(acts: seq<Action>, leader: BrokerId, id: BrokerId): nat {
    if acts == [] then 0
    else
      var before := Reported(acts[..|acts| - 1], leader, id);
      match acts[|acts| - 1]
      case Ack(b, acked) => if b == id then Max(before, acked) else before
      case Commit(committed) => if leader == id then Max(before, committed) else before
      case Tick(_, _) => before
  }

  predicate InOrder(rs: seq<Replica>) {
    forall i :: 0 <= i < |rs| ==> rs[i].id == i
  }

  lemma {:induction false} IndexIsId(rs: seq<Replica>, id: BrokerId)
    requires InOrder(rs)
    ensures IndexOf(rs, id) == if id < |rs| then id else |rs|
  {
    var k := IndexOf(rs, id);
    if id < |rs| { assert rs[id].id == id; }
  }

  /**
   * Over every run of acknowledgements, commits and evictions from the seeded roles, each replica's
   * progress is the most it has reported, and the leader is never out of the in-sync set.
   */
  lemma {:induction false} Progress(n: nat, leader: BrokerId, maxLag: nat, acts: seq<Action>)
    requires leader < n
    ensures var rs := After(n, leader, maxLag, acts);
            && |rs| == n && InOrder(rs) && rs[leader].inIsr
            && forall i :: 0 <= i < n ==> rs[i].ack == Reported(acts, leader, i)
  {
    if acts != [] {
      var k := |acts| - 1;
      Progress(n, leader, maxLag, acts[..k]);
      var rs := After(n, leader, maxLag, acts[..k]);
      match acts[k]
      case Ack(id, _) => IndexIsId(rs, id);
      case Commit(_) => IndexIsId(rs, leader);
      case Tick(_, _) =>
    }
  }

  /** The highest offset that a re-admitted replica is guaranteed to have reached. */
  function Floor(committed: nat, maxLag: nat): nat {
    if committed > maxLag then committed - maxLag else 0
  }

  /**
   * The in-sync watermark. No step takes it back, save that letting a replica in again may lower it
   * to that replica's own progress, which is within the allowed lag of the leader.
   */
  lemma Watermark(rs: seq<Replica>, leader: BrokerId, maxLag: nat, a: Action, offset: nat)
    requires IsrAcked(rs, offset)
    ensures offset <= Floor(LeaderCommitted(rs, leader), maxLag) ==>
              IsrAcked(Apply(rs, leader, maxLag, a), offset)
    ensures a.Ack? ==>
              var k := IndexOf(rs, a.id);
              var readmitted := k < |rs| && !rs[k].inIsr && Apply(rs, leader, maxLag, a)[k].inIsr;
              IsrAcked(Apply(rs, leader, maxLag, a), offset) <==>
              (readmitted ==> offset <= Max(rs[k].ack, a.acked))
    ensures !a.Ack? ==> IsrAcked(Apply(rs, leader, maxLag, a), offset)
  {
    if a.Ack? {
      var k := IndexOf(rs, a.id);
      var rs' := Apply(rs, leader, maxLag, a);
      if k < |rs| && rs'[k].inIsr && rs'[k].ack < offset { assert !IsrAcked(rs', offset); }
    }
  }

  // ------------------------------------------------- leaving and coming back

  /** A tick that finds everybody silent; nothing ever updates the time a replica was last seen. */
  predicate Evicts(a: Action) {
    a.Tick? && a.now % U64 > a.timeout
  }

  /** Action `j` of the run is an acknowledgement that brings replica `i` within the allowed lag. */
  predicate CatchesUp(n: nat, leader: BrokerId, maxLag: nat, acts: seq<Action>, j: nat, i: nat)
    requires j < |acts|
  {
    var rs := After(n, leader, maxLag, acts[..j]);
    acts[j].Ack? && acts[j].id == i < |rs| &&
      var ack := Max(rs[i].ack, acts[j].acked);
      ack <= LeaderCommitted(rs, leader) <= ack + maxLag
  }

  /** Action `k` evicts and nothing later brings replica `i` back. */
  predicate GoneSince(n: nat, leader: BrokerId, maxLag: nat, acts: seq<Action>, k: nat, i: nat)
    requires k < |acts|
  {
    Evicts(acts[k]) && forall j :: k < j < |acts| ==> !CatchesUp(n, leader, maxLag, acts, j, i)
  }

  lemma GoneMore(n: nat, leader: BrokerId, maxLag: nat, acts: seq<Action>, k: nat, i: nat)
    requires k + 1 < |acts|
    ensures GoneSince(n, leader, maxLag, acts, k, i) <==>
            GoneSince(n, leader, maxLag, acts[..|acts| - 1], k, i)
            && !CatchesUp(n, leader, maxLag, acts, |acts| - 1, i)
  {
    hide Evicts;
    var init := acts[..|acts| - 1];
    forall j | k < j < |init|
      ensures CatchesUp(n, leader, maxLag, init, j, i) == CatchesUp(n, leader, maxLag, acts, j, i)
    {
      assert init[..j] == acts[..j];
    }
  }

  lemma SeenNever(n: nat, leader: BrokerId, maxLag: nat, acts: seq<Action>)
    ensures var rs := After(n, leader, maxLag, acts);
            |rs| == n && forall i :: 0 <= i < n ==> rs[i].lastSeen == 0
  {
  }

  /** One action: only an evicting tick takes a replica out, and only catching up lets it in. */
  lemma OutStep(n: nat, leader: BrokerId, maxLag: nat, acts: seq<Action>, i: nat)
    requires leader < n && i < n && acts != []
    ensures var m := |acts| - 1;
            var before, after := After(n, leader, maxLag, acts[..m]), After(n, leader, maxLag, acts);
            && |before| == |after| == n
            && (!after[i].inIsr <==>
                (i != leader && (Evicts(acts[m]) || (!before[i].inIsr && !CatchesUp(n, leader, maxLag, acts, m, i)))))
  {
    var m := |acts| - 1;
    var before := After(n, leader, maxLag, acts[..m]);
    Progress(n, leader, maxLag, acts[..m]);
    Progress(n, leader, maxLag, acts);
    SeenNever(n, leader, maxLag, acts[..m]);
    match acts[m]
    case Ack(id, acked) => IndexIsId(before, id);
    case Commit(_) => IndexIsId(before, leader);
    case Tick(_, _) =>
  }

  /**
   * Only silence takes a follower out of the in-sync set, however far it lags: over every run it is
   * out if and only if some tick found it silent and it has not caught up by acknowledging since.
   */
  lemma {:induction false} OutIffSilent(n: nat, leader: BrokerId, maxLag: nat, acts: seq<Action>, i: nat)
    requires leader < n && i < n
    ensures |After(n, leader, maxLag, acts)| == n
    ensures !After(n, leader, maxLag, acts)[i].inIsr <==>
            i != leader && exists k :: 0 <= k < |acts| && GoneSince(n, leader, maxLag, acts, k, i)
  {
    hide After, CatchesUp, GoneSince;
    if acts == [] {
      NobodyOut(n, leader, maxLag);
    } else {
      var m := |acts| - 1;
      OutStep(n, leader, maxLag, acts, i);
      OutIffSilent(n, leader, maxLag, acts[..m], i);
      GoneNow(n, leader, maxLag, acts, i);
      forall k | 0 <= k < m
        ensures GoneSince(n, leader, maxLag, acts, k, i) <==>
                GoneSince(n, leader, maxLag, acts[..m], k, i) && !CatchesUp(n, leader, maxLag, acts, m, i)
      {
        GoneMore(n, leader, maxLag, acts, k, i);
      }
    }
  }

  lemma GoneNow(n: nat, leader: BrokerId, maxLag: nat, acts: seq<Action>, i: nat)
    requires acts != []
    ensures GoneSince(n, leader, maxLag, acts, |acts| - 1, i) <==> Evicts(acts[|acts| - 1])
  {
  }

  lemma NobodyOut(n: nat, leader: BrokerId, maxLag: nat)
    ensures |After(n, leader, maxLag, [])| == n && forall i :: 0 <= i < n ==> After(n, leader, maxLag, [])[i].inIsr
  {
  }

  /** A run in which a follower that lags by more than is allowed stays in sync. */
  lemma LaggingStays(n: nat, leader: BrokerId, maxLag: nat, i: nat, committed: nat)
    requires leader < n && i < n && i != leader && committed > maxLag
    ensures var rs := After(n, leader, maxLag, [Commit(committed)]);
            |rs| == n && rs[i].inIsr && LeaderCommitted(rs, leader) > rs[i].ack + maxLag
  {
    var acts := [Commit(committed)];
    assert acts[..0] == [];
    Progress(n, leader, maxLag, acts);
    IndexIsId(Replicas(n), leader);
    IndexIsId(After(n, leader, maxLag, acts), leader);
  }

  // ----------------------------------------------------------- the object

  class Meta {
    var leaderId: BrokerId
    var replicas: seq<Replica>

    /** Seeds the replicas of a partition: everybody is in sync to begin with. */
    constructor (leaderId: BrokerId, brokers: nat)
      ensures this.leaderId == leaderId && replicas == Replicas(brokers)
    {
      this.leaderId := leaderId;
      var rs := [];
      var i := 0;
      while i < brokers
        invariant 0 <= i <= brokers && rs == Replicas(brokers)[..i]
      {
        rs := rs + [Replica(i, 0, 0, true)];
        i := i + 1;
      }
      replicas := rs;
    }

    method GetIsrIds() returns (ids: seq<BrokerId>)
      ensures ids == IsrIds(replicas)
    {
      ids := [];
      var i := 0;
      while i < |replicas|
        invariant 0 <= i <= |replicas| && ids == IsrIds(replicas[..i])
      {
        assert replicas[..i + 1][..i] == replicas[..i];
        if replicas[i].inIsr { ids := ids + [replicas[i].id]; }
        i := i + 1;
      }
      assert replicas[..i] == replicas;
    }

    method HasIsrAcked(offset: nat) returns (all: bool)
      ensures all <==> IsrAcked(replicas, offset)
    {
      var i := 0;
      while i < |replicas|
        invariant 0 <= i <= |replicas| && IsrAcked(replicas[..i], offset)
      {
        if replicas[i].inIsr && replicas[i].ack < offset { return false; }
        i := i + 1;
      }
      return true;
    }

    method LeaderCommittedOffset() returns (committed: nat)
      ensures committed == LeaderCommitted(replicas, leaderId)
    {
      var i := 0;
      while i < |replicas|
        invariant 0 <= i <= |replicas| && forall j :: 0 <= j < i ==> replicas[j].id != leaderId
      {
        if replicas[i].id == leaderId { return replicas[i].ack; }
        i := i + 1;
      }
      return 0;
    }

    /** Records a follower's progress and lets it back in once it has caught up. */
    method OnReplicaAck(id: BrokerId, acked: nat, maxLag: nat, committed: nat)
      modifies this`replicas
      ensures replicas == OnAck(old(replicas), id, acked, maxLag, committed)
    {
      var i := 0;
      while i < |replicas|
        invariant 0 <= i <= |replicas| && replicas == old(replicas)
        invariant forall j :: 0 <= j < i ==> replicas[j].id != id
      {
        var r := replicas[i];
        if r.id == id {
          r := r.(ack := Max(r.ack, acked));
          if !r.inIsr && committed >= r.ack && committed - r.ack <= maxLag {
            r := r.(inIsr := true);
          }
          replicas := replicas[i := r];
          break;
        }
        i := i + 1;
      }
    }

    /** Evicts followers that have been silent for too long. */
    method TickIsr(now: nat, timeout: nat)
      modifies this`replicas
      ensures replicas == OnTick(old(replicas), leaderId, now, timeout)
      ensures forall i :: 0 <= i < |replicas| ==>
                var r := old(replicas)[i];
                replicas[i] == r.(inIsr := r.inIsr && (r.id == leaderId || (now - r.lastSeen) % U64 <= timeout))
    {
      var i := 0;
      while i < |replicas|
        invariant 0 <= i <= |replicas| == |old(replicas)|
        invariant forall j :: 0 <= j < i ==> replicas[j] == Ticked(old(replicas)[j], leaderId, now, timeout)
        invariant forall j :: i <= j < |replicas| ==> replicas[j] == old(replicas)[j]
      {
        var r := replicas[i];
        if r.id != leaderId && r.inIsr && Elapsed(now, r.lastSeen) > timeout {
          replicas := replicas[i := r.(inIsr := false)];
        }
        i := i + 1;
      }
    }

    /** The worker's note of how far the leader itself has committed. */
    method OnLeaderCommit(committed: nat)
      modifies this`replicas
      ensures replicas == OnCommit(old(replicas), leaderId, committed)
    {
      var i := 0;
      while i < |replicas|
        invariant 0 <= i <= |replicas| && replicas == old(replicas)
        invariant forall j :: 0 <= j < i ==> replicas[j].id != leaderId
      {
        if replicas[i].id == leaderId {
          replicas := replicas[i := replicas[i].(ack := Max(replicas[i].ack, committed))];
          break;
        }
        i := i + 1;
      }
    }
  }
}
