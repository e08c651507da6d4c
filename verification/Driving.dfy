/**
 * Runs that lead somewhere: committing all a leader has, and getting a follower to acknowledge. They
 * keep to the order of the I/O thread: one record a batch, published, its callbacks fired or the
 * worker notified, and only then the next.
 */
module Driving {
  import opened Bytes
  import opened PartitionMeta
  import opened DeferredAcks
  import opened Replication
  import opened Durability

  // --------------------------------------------------------------- a follower catches up

  /** Of the leader's log the follower has the first `m` records committed and the next `q` queued. */
  predicate Sits(node: Node, log: seq<Payload>, m: nat, q: nat) {
    m + q <= |log| && node.pipe == Pipe(log[..m], log[m..m + q], m) && |node.origin| == m + q && Placed(node)
  }

  /** Only this follower has moved; what it has acknowledged has not arrived yet. */
  predicate OnlyFollower(s: System, t: System, h: BrokerId) {
    && t == s.(followers := t.followers, acks := t.acks) && s.acks <= t.acks
    && t.followers.Keys == s.followers.Keys && h in s.followers
    && forall f :: f in s.followers && f != h ==> t.followers[f] == s.followers[f]
  }

  lemma OnlyTwice(s: System, t: System, u: System, h: BrokerId)
    requires OnlyFollower(s, t, h) && OnlyFollower(t, u, h)
    ensures OnlyFollower(s, u, h)
  {
  }

  lemma NodeStep(s: System, h: BrokerId, a: Step)
    requires h in s.followers && (a == FollowerWrite(h, 1) || a == FollowerPublish(h) || a == FollowerFire(h))
    requires a.FollowerWrite? ==> s.followers[h].pipe.queued != []
    ensures Run(s, [a]).Some?
    ensures var t, node := Run(s, [a]).value, s.followers[h];
            && OnlyFollower(s, t, h) && h in t.followers && t.followers[h].origin == node.origin
            && (a.FollowerWrite? ==> t.followers[h] == node.(pipe := PipeWrite(node.pipe, 1)))
            && (a.FollowerPublish? ==> t.followers[h] == node.(pipe := PipePublish(node.pipe)))
            && (a.FollowerFire? ==> t.followers[h].pipe == node.pipe)
            && (a.FollowerFire? ==>
                  forall o :: o in node.awaiting && o < node.pipe.committed ==> AckFrame(h, o + 1) in t.acks)
  {
    hide Run, PipeWrite, PipePublish;
    RunOne(s, a);
    if a.FollowerFire? {
      var node := s.followers[h];
      forall o | o in node.awaiting && o < node.pipe.committed
        ensures AckFrame(h, o + 1) in AckFrames(h, node)
      {
        assert o in DueAcks(node);
      }
    }
  }

  /** One batch of one record: written, published, callbacks fired. */
  lemma WriteOne(s: System, h: BrokerId, log: seq<Payload>, m: nat, q: nat) returns (steps: seq<Step>)
    requires h in s.followers && q > 0 && Sits(s.followers[h], log, m, q)
    ensures Run(s, steps).Some?
    ensures var t := Run(s, steps).value;
            && OnlyFollower(s, t, h) && Sits(t.followers[h], log, m + 1, q - 1)
            && (m in s.followers[h].awaiting ==> AckFrame(h, m + 1) in t.acks)
  {
    hide Run, OnlyFollower;
    assert s.followers[h].pipe.queued != [];
    NodeStep(s, h, FollowerWrite(h, 1));
    var s1 := Run(s, [FollowerWrite(h, 1)]).value;
    NodeStep(s1, h, FollowerPublish(h));
    RunJoin(s, [FollowerWrite(h, 1)], [FollowerPublish(h)]);
    var two := [FollowerWrite(h, 1)] + [FollowerPublish(h)];
    var s2 := Run(s, two).value;
    NodeStep(s2, h, FollowerFire(h));
    RunJoin(s, two, [FollowerFire(h)]);
    steps := two + [FollowerFire(h)];
    OnlyTwice(s, s1, s2, h);
    OnlyTwice(s, s2, Run(s, steps).value, h);
    OneMoved(s.followers[h], log, m, q);
    SamePlaced(s.followers[h], Run(s, steps).value.followers[h]);
  }

  lemma Still(s: System, t: System, h: BrokerId)
    requires OnlyFollower(s, t, h)
    ensures h in t.followers
  {
  }

  lemma OneMoved(node: Node, log: seq<Payload>, m: nat, q: nat)
    requires q > 0 && Sits(node, log, m, q)
    ensures PipePublish(PipeWrite(node.pipe, 1)) == Pipe(log[..m + 1], log[m + 1..m + q], m + 1)
  {
    hide Placed;
    var queued := log[m..m + q];
    assert queued[..1] == [log[m]] && queued[1..] == log[m + 1..m + q];
    assert log[..m] + [log[m]] == log[..m + 1];
  }

  lemma SamePlaced(a: Node, b: Node)
    requires a.origin == b.origin
    ensures Placed(a) == Placed(b)
  {
  }

  /** What the I/O thread had begun is finished: what is written gets published, what is due is fired. */
  lemma SettleFollower(s: System, h: BrokerId) returns (steps: seq<Step>)
    requires h in s.followers && NodeOk(s.leader.log, s.followers[h]) && Placed(s.followers[h])
    ensures Run(s, steps).Some?
    ensures var t, pipe := Run(s, steps).value, s.followers[h].pipe;
            OnlyFollower(s, t, h) && Sits(t.followers[h], s.leader.log, |pipe.log|, |pipe.queued|)
  {
    hide Run, OnlyFollower;
    var node := s.followers[h];
    assert OnlyFollower(s, s, h) by { Unmoved(s, h); }
    Settled(s.leader.log, node);
    if node.pipe.committed < |node.pipe.log| {
      NodeStep(s, h, FollowerPublish(h));
      var s1 := Run(s, [FollowerPublish(h)]).value;
      NodeStep(s1, h, FollowerFire(h));
      RunJoin(s, [FollowerPublish(h)], [FollowerFire(h)]);
      steps := [FollowerPublish(h)] + [FollowerFire(h)];
      OnlyTwice(s, s1, Run(s, steps).value, h);
    } else if DueAcks(node) != {} {
      NodeStep(s, h, FollowerFire(h));
      steps := [FollowerFire(h)];
    } else {
      RunNothing(s);
      steps := [];
    }
    SamePlaced(node, Run(s, steps).value.followers[h]);
  }

  lemma Unmoved(s: System, h: BrokerId)
    requires h in s.followers
    ensures OnlyFollower(s, s, h)
  {
  }

  lemma Settled(log: seq<Payload>, node: Node)
    requires NodeOk(log, node) && Placed(node)
    ensures var m, q := |node.pipe.log|, |node.pipe.queued|;
            && m + q <= |log| && |node.origin| == m + q && node.pipe.committed <= m
            && PipePublish(node.pipe) == Pipe(log[..m], log[m..m + q], m)
  {
    PlacedIsPrefix(log, node);
    var all, m, q := Everything(node.pipe), |node.pipe.log|, |node.pipe.queued|;
    assert all[..m] == node.pipe.log && all[m..] == node.pipe.queued;
    assert log[..m] == all[..m] && log[m..m + q] == all[m..];
  }

  lemma {:induction false} DrainQueue(s: System, h: BrokerId, log: seq<Payload>, m: nat, q: nat)
      returns (steps: seq<Step>)
    requires h in s.followers && Sits(s.followers[h], log, m, q)
    ensures Run(s, steps).Some?
    ensures var t := Run(s, steps).value; OnlyFollower(s, t, h) && Sits(t.followers[h], log, m + q, 0)
    decreases q
  {
    hide Run, Sits, OnlyFollower;
    if q == 0 {
      steps := [];
      RunNothing(s);
      Unmoved(s, h);
    } else {
      steps := WriteOne(s, h, log, m, q);
      var u := Run(s, steps).value;
      Still(s, u, h);
      var more := DrainQueue(u, h, log, m + 1, q - 1);
      RunJoin(s, steps, more);
      OnlyTwice(s, u, Run(u, more).value, h);
      steps := steps + more;
    }
  }

  /** One more record arrives at a follower that has nothing queued, and is committed. */
  lemma TakeOne(s: System, h: BrokerId, m: nat) returns (steps: seq<Step>)
    requires h in s.followers && m < |s.leader.log| && Sits(s.followers[h], s.leader.log, m, 0)
    requires Sync(m, s.leader.log[m]) in s.syncs
    ensures Run(s, steps).Some?
    ensures var t := Run(s, steps).value;
            && OnlyFollower(s, t, h) && Sits(t.followers[h], s.leader.log, m + 1, 0) && AckFrame(h, m + 1) in t.acks
  {
    hide Run, OnlyFollower;
    var d := Deliver(h, Sync(m, s.leader.log[m]), true);
    RunOne(s, d);
    var u := Run(s, [d]).value;
    Delivered(s, h, m);
    Still(s, u, h);
    var write := WriteOne(u, h, s.leader.log, m, 1);
    RunJoin(s, [d], write);
    steps := [d] + write;
    OnlyTwice(s, u, Run(s, steps).value, h);
  }

  lemma Delivered(s: System, h: BrokerId, m: nat)
    requires h in s.followers && m < |s.leader.log| && Sits(s.followers[h], s.leader.log, m, 0)
    requires Sync(m, s.leader.log[m]) in s.syncs
    ensures var d := Deliver(h, Sync(m, s.leader.log[m]), true);
            var u := Replication.Apply(s, d);
            && Enabled(s, d) && OnlyFollower(s, u, h) && Sits(u.followers[h], s.leader.log, m, 1)
            && m in u.followers[h].awaiting
  {
    var log := s.leader.log;
    var none := log[m..m + 0];
    assert none + [log[m]] == log[m..m + 1];
  }

  /** Every record up to `target` has been sent. */
  predicate Streamed(s: System, target: nat) {
    target < |s.leader.log| && forall o :: 0 <= o <= target ==> Sync(o, s.leader.log[o]) in s.syncs
  }

  lemma SameStream(s: System, t: System, target: nat)
    requires Streamed(s, target) && t.leader == s.leader && t.syncs == s.syncs
    ensures Streamed(t, target)
  {
  }

  lemma {:induction false} TakeUpTo(s: System, h: BrokerId, m: nat, target: nat) returns (steps: seq<Step>)
    requires h in s.followers && m <= target && Streamed(s, target) && Sits(s.followers[h], s.leader.log, m, 0)
    ensures Run(s, steps).Some?
    ensures var t := Run(s, steps).value;
            && OnlyFollower(s, t, h) && Sits(t.followers[h], s.leader.log, target + 1, 0)
            && AckFrame(h, target + 1) in t.acks
    decreases target - m
  {
    hide Run, Sits;
    steps := TakeOne(s, h, m);
    var u := Run(s, steps).value;
    if m < target {
      SameStream(s, u, target);
      var more := TakeUpTo(u, h, m + 1, target);
      RunJoin(s, steps, more);
      OnlyTwice(s, u, Run(u, more).value, h);
      steps := steps + more;
    }
  }

  // --------------------------------------------------------------- and acknowledges

  /** The follower has not got as far as `target`, and what it has is in its place. */
  predicate Drivable(s: System, h: BrokerId, target: nat) {
    && h in s.followers && NodeOk(s.leader.log, s.followers[h]) && Placed(s.followers[h])
    && |Everything(s.followers[h].pipe)| <= target
  }

  /** The leader has learnt of one acknowledgement, and nobody but this follower has moved. */
  predicate Learnt(s: System, t: System, h: BrokerId, acked: nat) {
    && t == s.(followers := t.followers, acks := t.acks, events := t.events, replicas := t.replicas)
    && t.followers.Keys == s.followers.Keys && h in s.followers
    && (forall f :: f in s.followers && f != h ==> t.followers[f] == s.followers[f])
    && t.events == s.events + [FollowerAck(h, acked)]
    && t.replicas == OnAck(s.replicas, h, acked, s.maxLag, LeaderCommitted(s.replicas, s.leaderId))
  }

  /**
   * From any guarded state in which a follower is not ahead of `target`, it can be brought to hold
   * the leader's log up to there and to acknowledge it, with no other broker taking a step.
   */
  lemma DriveAck(s: System, h: BrokerId, target: nat) returns (steps: seq<Step>)
    requires Drivable(s, h, target) && Streamed(s, target)
    ensures Run(s, steps).Some?
    ensures var t := Run(s, steps).value;
            Learnt(s, t, h, target + 1) && Sits(t.followers[h], s.leader.log, target + 1, 0)
  {
    hide Run, NodeOk, Placed, OnAck, LeaderCommitted, Streamed, Sits;
    var pipe := s.followers[h].pipe;
    var settle := SettleFollower(s, h);
    var s1 := Run(s, settle).value;
    var drain := DrainQueue(s1, h, s.leader.log, |pipe.log|, |pipe.queued|);
    RunJoin(s, settle, drain);
    var s2 := Run(s1, drain).value;
    OnlyTwice(s, s1, s2, h);
    SameStream(s, s2, target);
    var take := TakeUpTo(s2, h, |pipe.log| + |pipe.queued|, target);
    RunJoin(s, settle + drain, take);
    var s3 := Run(s2, take).value;
    OnlyTwice(s, s2, s3, h);
    var k := AckArrives(AckFrame(h, target + 1));
    RunLast(s, settle + drain + take, k);
    steps := settle + drain + take + [k];
  }

  /** These brokers, one after the other. */
  lemma {:induction false} DriveAll(s: System, brokers: seq<BrokerId>, target: nat) returns (steps: seq<Step>)
    requires NoRepeats(brokers) && Streamed(s, target)
    requires forall i :: 0 <= i < |brokers| ==> brokers[i] in s.followers && Drivable(s, brokers[i], target)
    ensures Run(s, steps).Some?
    ensures var t := Run(s, steps).value;
            && t.events == s.events + Acks(brokers, target + 1) && SameLeader(s, t)
            && (forall f :: f in s.followers && f !in brokers ==> t.followers[f] == s.followers[f])
            && (forall b :: b in brokers ==> b in s.followers && Sits(t.followers[b], s.leader.log, target + 1, 0))
  {
    hide Run, Drivable, Streamed, Sits, OnAck, LeaderCommitted;
    if brokers == [] {
      steps := [];
      RunNothing(s);
      Nothing(s.events);
    } else {
      var n := |brokers| - 1;
      var before := DriveAll(s, brokers[..n], target);
      var u, h := Run(s, before).value, brokers[n];
      assert h !in brokers[..n] && brokers == brokers[..n] + [h];
      SameStream(s, u, target);
      StillDrivable(s, u, h, target);
      var more := DriveAck(u, h, target);
      RunJoin(s, before, more);
      steps := before + more;
      Assoc(s.events, Acks(brokers[..n], target + 1), [FollowerAck(h, target + 1)]);
    }
  }

  predicate SameLeader(s: System, t: System) {
    && t.leaderId == s.leaderId && t.maxLag == s.maxLag && t.leader == s.leader
    && t.commits == s.commits && t.syncs == s.syncs && t.followers.Keys == s.followers.Keys
  }

  lemma StillDrivable(s: System, u: System, h: BrokerId, target: nat)
    requires Drivable(s, h, target) && SameLeader(s, u) && u.followers[h] == s.followers[h]
    ensures Drivable(u, h, target)
  {
    hide NodeOk, Placed, Everything;
  }

  // --------------------------------------------------------------- the leader commits all it has

  predicate Spans(b: Batch, offset: nat) {
    b.base <= offset < b.base + b.count
  }

  /** The worker has yet to hear that `offset` is committed. */
  predicate Ahead(s: System, offset: nat) {
    offset >= s.notified || exists i :: 0 <= i < |s.commits| && Spans(s.commits[i], offset)
  }

  /** What the leader's thread does keeps every offset that was ahead in sight of the worker. */
  ghost predicate Notifies(s: System, t: System) {
    && t == s.(leader := t.leader, notified := t.notified, commits := t.commits)
    && Everything(t.leader) == Everything(s.leader) && (forall o: nat :: Ahead(s, o) ==> Ahead(t, o))
    && t.notified <= t.leader.committed <= |t.leader.log| && CommitsOk(t.commits, t.leader.committed)
  }

  lemma NotifyStep(s: System)
    requires s.notified <= s.leader.committed <= |s.leader.log| && CommitsOk(s.commits, s.leader.committed)
    ensures Run(s, [LeaderNotify]).Some?
    ensures var t := Run(s, [LeaderNotify]).value;
            Notifies(s, t) && t.leader == s.leader && t.notified == s.leader.committed
  {
    hide Run, Everything;
    RunOne(s, LeaderNotify);
    var t := Run(s, [LeaderNotify]).value;
    var b := Batch(s.notified, s.leader.committed - s.notified);
    assert t.commits == s.commits + [b] && t.commits[|s.commits|] == b;
    assert forall i :: 0 <= i < |s.commits| ==> t.commits[i] == s.commits[i];
    forall o: nat | Ahead(s, o) ensures Ahead(t, o) {
      if s.notified <= o < s.leader.committed { assert Spans(t.commits[|s.commits|], o); }
    }
  }

  lemma PublishStep(s: System)
    requires s.notified <= s.leader.committed <= |s.leader.log| && CommitsOk(s.commits, s.leader.committed)
    ensures Run(s, [LeaderPublish]).Some?
    ensures var t := Run(s, [LeaderPublish]).value;
            Notifies(s, t) && t.leader == PipePublish(s.leader) && t.notified == s.notified
  {
    hide Run;
    RunOne(s, LeaderPublish);
  }

  lemma WriteStep(s: System)
    requires s.notified <= s.leader.committed <= |s.leader.log| && CommitsOk(s.commits, s.leader.committed)
    requires s.leader.queued != []
    ensures Run(s, [LeaderWrite(1)]).Some?
    ensures var t := Run(s, [LeaderWrite(1)]).value;
            Notifies(s, t) && t.leader == PipeWrite(s.leader, 1) && t.notified == s.notified
  {
    hide Run;
    RunOne(s, LeaderWrite(1));
    var q := s.leader.queued;
    assert q[..1] + q[1..] == q;
    Assoc(s.leader.log, q[..1], q[1..]);
  }

  lemma NotifiesTwice(s: System, t: System, u: System)
    requires Notifies(s, t) && Notifies(t, u)
    ensures Notifies(s, u)
  {
    hide Everything, CommitsOk, Ahead;
  }

  /** Finishing what is begun: the batch already committed is notified, one already written published. */
  lemma LeaderSettle(s: System) returns (steps: seq<Step>)
    requires s.notified <= s.leader.committed <= |s.leader.log| && CommitsOk(s.commits, s.leader.committed)
    ensures Run(s, steps).Some?
    ensures var t := Run(s, steps).value;
            && Notifies(s, t) && t.leader == Pipe(s.leader.log, s.leader.queued, |s.leader.log|)
            && t.notified == |s.leader.log|
  {
    hide Run, Everything, CommitsOk, Ahead;
    steps := [];
    RunNothing(s);
    var t := s;
    if s.notified < s.leader.committed {
      NotifyStep(s);
      steps := [LeaderNotify];
      t := Run(s, steps).value;
    }
    if s.leader.committed < |s.leader.log| {
      PublishStep(t);
      RunJoin(s, steps, [LeaderPublish]);
      var u := Run(t, [LeaderPublish]).value;
      NotifyStep(u);
      RunJoin(s, steps + [LeaderPublish], [LeaderNotify]);
      steps := steps + [LeaderPublish] + [LeaderNotify];
      NotifiesTwice(t, u, Run(s, steps).value);
      NotifiesTwice(s, t, Run(s, steps).value);
    }
  }

  /** One batch of one record: written, published, handed to the worker. */
  lemma LeaderBatch(s: System) returns (steps: seq<Step>)
    requires s.notified == s.leader.committed == |s.leader.log| && CommitsOk(s.commits, s.leader.committed)
    requires s.leader.queued != []
    ensures Run(s, steps).Some?
    ensures var t, q := Run(s, steps).value, s.leader.queued;
            && Notifies(s, t) && t.leader == Pipe(s.leader.log + [q[0]], q[1..], |s.leader.log| + 1)
            && t.notified == |s.leader.log| + 1
  {
    hide Run, Everything, CommitsOk, Ahead;
    WriteStep(s);
    var a := Run(s, [LeaderWrite(1)]).value;
    PublishStep(a);
    RunJoin(s, [LeaderWrite(1)], [LeaderPublish]);
    var b := Run(a, [LeaderPublish]).value;
    NotifyStep(b);
    RunJoin(s, [LeaderWrite(1)] + [LeaderPublish], [LeaderNotify]);
    steps := [LeaderWrite(1)] + [LeaderPublish] + [LeaderNotify];
    NotifiesTwice(s, a, b);
    NotifiesTwice(s, b, Run(s, steps).value);
    assert s.leader.queued[..1] == [s.leader.queued[0]];
  }

  lemma {:induction false} LeaderAll(s: System) returns (steps: seq<Step>)
    requires s.notified == s.leader.committed == |s.leader.log| && CommitsOk(s.commits, s.leader.committed)
    ensures Run(s, steps).Some?
    ensures var t, n := Run(s, steps).value, |Everything(s.leader)|;
            Notifies(s, t) && t.leader == Pipe(Everything(s.leader), [], n) && t.notified == n
    decreases |s.leader.queued|
  {
    hide Run, CommitsOk, Ahead;
    if s.leader.queued == [] {
      steps := [];
      RunNothing(s);
      Nothing(s.leader.log);
    } else {
      steps := LeaderBatch(s);
      var t := Run(s, steps).value;
      var more := LeaderAll(t);
      RunJoin(s, steps, more);
      NotifiesTwice(s, t, Run(t, more).value);
      steps := steps + more;
    }
  }

  function CommitEvents(bs: seq<Batch>): (es: seq<Event>)
    ensures |es| == |bs| && forall i :: 0 <= i < |es| ==> es[i] == LeaderCommit(bs[i].base, bs[i].count)
  {
    seq(|bs|, i requires 0 <= i < |bs| => LeaderCommit(bs[i].base, bs[i].count))
  }

  /** The worker handles every batch that waits for it. */
  lemma {:induction false} DrainCommits(s: System) returns (steps: seq<Step>)
    requires CommitsOk(s.commits, s.leader.committed) && s.leader.committed <= |s.leader.log|
    ensures Run(s, steps).Some?
    ensures var t := Run(s, steps).value;
            && t.events == s.events + CommitEvents(s.commits) && t.commits == []
            && t.leader == s.leader && t.followers == s.followers && t.leaderId == s.leaderId
            && s.syncs <= t.syncs && forall i, o :: 0 <= i < |s.commits| && Spans(s.commits[i], o) ==> Out(t, o)
    decreases |s.commits|
  {
    hide Run, OnCommit, Frames;
    if s.commits == [] {
      steps := [];
      RunNothing(s);
      Nothing(s.events);
    } else {
      RunOne(s, Worker);
      var u := Run(s, [Worker]).value;
      var more := DrainCommits(u);
      RunJoin(s, [Worker], more);
      steps := [Worker] + more;
      var b := s.commits[0];
      forall i, o | 0 <= i < |s.commits| && Spans(s.commits[i], o) ensures Out(Run(s, steps).value, o) {
        if i == 0 { Streams(s, o); } else { assert s.commits[i] == u.commits[i - 1]; }
      }
      assert CommitEvents(s.commits) == [LeaderCommit(b.base, b.count)] + CommitEvents(s.commits[1..]);
      Assoc(s.events, [LeaderCommit(b.base, b.count)], CommitEvents(s.commits[1..]));
    }
  }

  /** The worker sends every record of the batch it handles. */
  lemma Streams(s: System, o: nat)
    requires Enabled(s, Worker) && Spans(s.commits[0], o)
    ensures Out(Replication.Apply(s, Worker), o)
  {
    hide OnCommit;
    var b := s.commits[0];
    assert Sync(o, s.leader.log[o]) in Frames(s.leader.log, b.base, b.count);
  }

  /**
   * Everything accepted gets written, committed, handed to the worker and sent by it. Only what the
   * worker was already past is sent on request.
   */
  lemma CommitAll(s: System, offset: nat) returns (steps: seq<Step>, commits: seq<Event>)
    requires s.notified <= s.leader.committed <= |s.leader.log| && CommitsOk(s.commits, s.leader.committed)
    requires Ahead(s, offset) && offset < |Everything(s.leader)|
    ensures Run(s, steps).Some?
    ensures var t, n := Run(s, steps).value, |Everything(s.leader)|;
            && t.events == s.events + commits && t.followers == s.followers && t.leaderId == s.leaderId
            && t.leader == Pipe(Everything(s.leader), [], n) && Streamed(t, n - 1)
            && (forall i :: 0 <= i < |commits| ==> commits[i].LeaderCommit?)
            && exists i :: 0 <= i < |commits| && Covers(commits[i], offset)
  {
    hide Run, Frames, Everything, CommitsOk;
    var n := |Everything(s.leader)|;
    var serve := [Serve(0, s.notified)];
    RunOne(s, Serve(0, s.notified));
    var s0 := Run(s, serve).value;
    var settle := LeaderSettle(s0);
    RunJoin(s, serve, settle);
    var s1 := Run(s0, settle).value;
    var all := LeaderAll(s1);
    RunJoin(s, serve + settle, all);
    var u := Run(s1, all).value;
    NotifiesTwice(s0, s1, u);
    var drain := DrainCommits(u);
    RunJoin(s, serve + settle + all, drain);
    steps := serve + settle + all + drain;
    commits := CommitEvents(u.commits);
    assert Ahead(s0, offset) && Ahead(u, offset);
    var i :| 0 <= i < |u.commits| && Spans(u.commits[i], offset);
    assert Covers(commits[i], offset);
    var t := Run(u, drain).value;
    forall o | 0 <= o <= n - 1 ensures Sync(o, t.leader.log[o]) in t.syncs {
      AllOut(s, s0, u, t, o);
    }
  }

  lemma AllOut(s: System, s0: System, u: System, t: System, o: nat)
    requires s.notified <= |s.leader.log| && s0 == Replication.Apply(s, Serve(0, s.notified))
    requires Notifies(s0, u) && u.notified == |u.leader.log| && u.leader.log == Everything(s.leader)
    requires t.leader == u.leader && u.syncs <= t.syncs && o < |u.leader.log|
    requires forall i, x :: 0 <= i < |u.commits| && Spans(u.commits[i], x) ==> Out(t, x)
    ensures Out(t, o)
  {
    hide CommitsOk;
    if o < s.notified {
      assert Sync(o, s.leader.log[o]) in Frames(s.leader.log, 0, s.notified);
      assert Everything(s.leader)[o] == s.leader.log[o];
    } else {
      assert Ahead(s0, o) && Ahead(u, o);
    }
  }
}
