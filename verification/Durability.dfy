/** What acks=all is for: what a released acknowledgement says about the followers' logs. */
module Durability {
  import opened Bytes
  import opened PartitionMeta
  import opened DeferredAcks
  import opened Replication

  function Run(s: System, steps: seq<Step>): Option<System> {
    if steps == [] then Some(s)
    else
      var n := |steps| - 1;
      var t := Run(s, steps[..n]);
      if t.Some? && Enabled(t.value, steps[n]) then Some(Replication.Apply(t.value, steps[n])) else None
  }

  lemma RunNothing(s: System)
    ensures Run(s, []) == Some(s)
  {
  }

  lemma RunLast(s: System, steps: seq<Step>, a: Step)
    ensures Run(s, steps + [a]) ==
            var t := Run(s, steps);
            if t.Some? && Enabled(t.value, a) then Some(Replication.Apply(t.value, a)) else None
  {
    hide Enabled, Replication.Apply;
    assert (steps + [a])[..|steps|] == steps;
  }

  lemma RunOne(s: System, a: Step)
    ensures Run(s, [a]) == if Enabled(s, a) then Some(Replication.Apply(s, a)) else None
  {
    hide Enabled, Replication.Apply;
    RunNothing(s);
    RunLast(s, [], a);
    Nothing([a]);
  }

  /** Runs can be put one after the other, and taken apart. */
  lemma {:induction false} RunJoin(s: System, a: seq<Step>, b: seq<Step>)
    ensures Run(s, a + b) == match Run(s, a) case None => None case Some(t) => Run(t, b)
  {
    hide Enabled, Replication.Apply;
    if b == [] {
      Nothing(a);
    } else {
      hide Run;
      var n := |b| - 1;
      RunJoin(s, a, b[..n]);
      Assoc(a, b[..n], [b[n]]);
      assert b == b[..n] + [b[n]];
      RunLast(s, a + b[..n], b[n]);
      if Run(s, a).Some? { RunLast(Run(s, a).value, b[..n], b[n]); }
    }
  }

  /**
   * The follower checks an incoming record against its writer's tail, but the store numbers it after
   * whatever is still queued. The two agree exactly when nothing is queued.
   */
  predicate Guarded(s: System, a: Step)
    requires Enabled(s, a)
  {
    a.Deliver? && a.accepted && a.sync.offset == |s.followers[a.follower].pipe.log| ==>
      s.followers[a.follower].pipe.queued == []
  }

  /** Every record the run accepted was accepted into an empty queue. */
  predicate AllGuarded(s: System, steps: seq<Step>)
    requires Run(s, steps).Some?
  {
    steps == [] ||
      var n := |steps| - 1;
      AllGuarded(s, steps[..n]) && Guarded(Run(s, steps[..n]).value, steps[n])
  }

  /** The in-sync set is never swept. */
  predicate NoEvict(steps: seq<Step>) {
    forall i :: 0 <= i < |steps| ==> !steps[i].Evict?
  }

  lemma {:induction false} RunInv(s: System, steps: seq<Step>)
    requires Inv(s) && Run(s, steps).Some?
    ensures Inv(Run(s, steps).value)
  {
    hide Inv, Enabled, Replication.Apply;
    if steps != [] {
      var n := |steps| - 1;
      RunInv(s, steps[..n]);
      StepInv(Run(s, steps[..n]).value, steps[n]);
    }
  }

  // ------------------------------------------------------------- placement

  lemma ReceivePlaced(log: seq<Payload>, node: Node, sync: Sync, accepted: bool)
    requires NodeOk(log, node)
    ensures !Placed(node) ==> !Placed(Receive(node, sync, accepted))
    ensures Placed(node) ==>
              (Placed(Receive(node, sync, accepted)) <==>
               (accepted && sync.offset == |node.pipe.log| ==> node.pipe.queued == []))
  {
    var more := Receive(node, sync, accepted);
    assert forall i :: 0 <= i < |node.origin| ==> more.origin[i] == node.origin[i];
    if accepted && sync.offset == |node.pipe.log| {
      assert more.origin[|node.origin|] == sync.offset;
    }
  }

  /** One step keeps every record in its place iff it is guarded, and no step puts one back. */
  lemma PlacedStep(s: System, a: Step)
    requires Enabled(s, a) && Inv(s)
    ensures AllPlaced(Replication.Apply(s, a)) <==> AllPlaced(s) && Guarded(s, a)
  {
    hide NodeOk, Placed, SyncsOk, AcksOk, CommitsOk, EventsOk, OnAck, OnCommit, OnTick, IsrIds, Everything, Receive;
    var t := Replication.Apply(s, a);
    assert t.followers.Keys == s.followers.Keys;
    if a.Deliver? {
      ReceivePlaced(s.leader.log, s.followers[a.follower], a.sync, a.accepted);
      if AllPlaced(s) {
        assert Placed(s.followers[a.follower]);
        if AllPlaced(t) { assert Placed(t.followers[a.follower]); }
      } else {
        var f :| f in s.followers && !Placed(s.followers[f]);
        assert !Placed(t.followers[f]);
      }
    } else {
      forall f | f in s.followers ensures Placed(t.followers[f]) == Placed(s.followers[f]) {
        SameOrigin(s.followers[f], t.followers[f]);
      }
    }
  }

  lemma SameOrigin(a: Node, b: Node)
    ensures a.origin == b.origin ==> (Placed(a) <==> Placed(b))
  {
  }

  /**
   * Over a whole run: every follower has every record at the offset the leader has it at, if and
   * only if no record was ever accepted while others were still queued.
   */
  lemma {:induction false} PlacementExact(s: System, steps: seq<Step>)
    requires Init(s) && Run(s, steps).Some?
    ensures AllPlaced(Run(s, steps).value) <==> AllGuarded(s, steps)
  {
    hide Inv, Init, AllPlaced, Enabled, Replication.Apply, Guarded;
    InitInv(s);
    if steps != [] {
      var n := |steps| - 1;
      PlacementExact(s, steps[..n]);
      RunInv(s, steps[..n]);
      PlacedStep(Run(s, steps[..n]).value, steps[n]);
    }
  }

  /** Records in their place make the follower's log, queue included, a prefix of the leader's. */
  lemma PlacedIsPrefix(log: seq<Payload>, node: Node)
    requires NodeOk(log, node) && Placed(node)
    ensures Everything(node.pipe) <= log
  {
    hide Everything;
    var all := Everything(node.pipe);
    if all != [] { assert node.origin[|all| - 1] == |all| - 1; }
    assert forall i :: 0 <= i < |all| ==> all[i] == log[i];
  }

  /**
   * In every guarded run, every follower's log is a prefix of the leader's, and no acknowledgement
   * in flight claims more than its sender has committed.
   */
  lemma FollowerPrefix(s: System, steps: seq<Step>)
    requires Init(s) && Run(s, steps).Some? && AllGuarded(s, steps)
    ensures var t := Run(s, steps).value;
            && (forall f :: f in t.followers ==> Everything(t.followers[f].pipe) <= t.leader.log)
            && (forall k :: k in t.acks ==> k.follower in t.followers
                                            && k.acked <= t.followers[k.follower].pipe.committed)
  {
    hide Run, AllGuarded, Init, SyncsOk, CommitsOk, EventsOk, NodeOk, Placed, Everything;
    InitInv(s);
    RunInv(s, steps);
    PlacementExact(s, steps);
    var t := Run(s, steps).value;
    forall f | f in t.followers ensures Everything(t.followers[f].pipe) <= t.leader.log {
      PlacedIsPrefix(t.leader.log, t.followers[f]);
    }
  }

  predicate Distinct(log: seq<Payload>) {
    forall i, j :: 0 <= i < j < |log| ==> log[i] != log[j]
  }

  /** If the leader's records are all different, the prefix property holds exactly in guarded runs. */
  lemma PrefixIffGuarded(s: System, steps: seq<Step>)
    requires Init(s) && Run(s, steps).Some? && Distinct(Run(s, steps).value.leader.log)
    ensures var t := Run(s, steps).value;
            (forall f :: f in t.followers ==> Everything(t.followers[f].pipe) <= t.leader.log)
            <==> AllGuarded(s, steps)
  {
    hide Run, AllGuarded, Init, SyncsOk, CommitsOk, EventsOk, AcksOk, NodeOk, Placed, Everything;
    InitInv(s);
    RunInv(s, steps);
    PlacementExact(s, steps);
    var t := Run(s, steps).value;
    forall f | f in t.followers
      ensures Everything(t.followers[f].pipe) <= t.leader.log <==> Placed(t.followers[f])
    {
      if Placed(t.followers[f]) { PlacedIsPrefix(t.leader.log, t.followers[f]); }
      if Everything(t.followers[f].pipe) <= t.leader.log { PrefixIsPlaced(t.leader.log, t.followers[f]); }
    }
  }

  lemma PrefixIsPlaced(log: seq<Payload>, node: Node)
    requires NodeOk(log, node) && Distinct(log) && Everything(node.pipe) <= log
    ensures Placed(node)
  {
    hide Everything;
    var all := Everything(node.pipe);
    forall i | 0 <= i < |node.origin| ensures node.origin[i] == i {
      assert all[i] == log[i] == log[node.origin[i]];
    }
  }

  // ------------------------------------------------------------- durability

  /** The follower has committed the leader's record of `offset`, at that offset. */
  predicate Holds(s: System, f: BrokerId, offset: nat) {
    && f in s.followers && offset < |s.leader.log|
    && offset < s.followers[f].pipe.committed <= |s.followers[f].pipe.log|
    && s.followers[f].pipe.log[offset] == s.leader.log[offset]
  }

  /** Without any guard: release means the leader committed and enough followers acknowledged. */
  lemma ReleasedIsAcknowledged(s: System, p: Pending)
    requires Inv(s) && p in LedgerAfter(s.events).released
    ensures p.offset < s.leader.committed && |p.acked| >= p.required
    ensures forall f :: f in p.acked ==> f in s.followers && p.offset < s.followers[f].pipe.committed
  {
    hide LedgerAfter, SyncsOk, NodeOk, CommitsOk;
    Evidence(s.events);
    assert Backed(p, s.events);
    assert Ready(p);
    var b: nat, c: nat :| b <= p.offset < b + c && LeaderCommit(b, c) in s.events;
    forall f | f in p.acked ensures f in s.followers && p.offset < s.followers[f].pipe.committed {
      assert Acknowledged(s.events, f, p.offset);
      var k: nat :| k > p.offset && FollowerAck(f, k) in s.events;
      assert AckFrame(f, k) in s.acks;
    }
  }

  /**
   * acks=all, end to end: in every guarded run, whenever a producer's acknowledgement has been let
   * go, the leader has committed the record and at least as many distinct followers as were required
   * have it committed at the same offset.
   */
  lemma Durable(s: System, steps: seq<Step>, p: Pending) returns (holders: set<BrokerId>)
    requires Init(s) && Run(s, steps).Some? && AllGuarded(s, steps)
    requires p in LedgerAfter(Run(s, steps).value.events).released
    ensures var t := Run(s, steps).value;
            && p.offset < t.leader.committed <= |t.leader.log|
            && |holders| >= p.required && t.leaderId !in holders
            && forall f :: f in holders ==> Holds(t, f, p.offset)
  {
    hide Run, AllGuarded, Init, LedgerAfter, SyncsOk, CommitsOk, EventsOk, AcksOk;
    InitInv(s);
    RunInv(s, steps);
    PlacementExact(s, steps);
    var t := Run(s, steps).value;
    ReleasedIsAcknowledged(t, p);
    holders := p.acked;
    forall f | f in holders ensures Holds(t, f, p.offset) {
      PlacedHolds(t, f, p.offset);
    }
  }

  lemma PlacedHolds(t: System, f: BrokerId, offset: nat)
    requires f in t.followers && NodeOk(t.leader.log, t.followers[f]) && Placed(t.followers[f])
    requires offset < t.followers[f].pipe.committed
    ensures Holds(t, f, offset)
  {
    PlacedIsPrefix(t.leader.log, t.followers[f]);
    assert Everything(t.followers[f].pipe)[offset] == t.followers[f].pipe.log[offset];
  }

  // ----------------------------------------------------- what the worker does

  /** The leader's record of this offset has been sent. */
  predicate Out(s: System, o: nat) {
    o < |s.leader.log| && Sync(o, s.leader.log[o]) in s.syncs
  }

  /** Every record of every batch the worker has handled has been sent, as the leader has it. */
  ghost predicate Told(s: System) {
    forall i, o: nat :: 0 <= i < |s.events| && Covers(s.events[i], o) ==> Out(s, o)
  }

  /** And the leader's own progress covers it. */
  predicate Noted(s: System) {
    forall i :: 0 <= i < |s.events| && s.events[i].LeaderCommit? && s.events[i].count > 0 ==>
      s.leaderId < |s.replicas| && s.replicas[s.leaderId].ack >= s.events[i].base + s.events[i].count
  }

  lemma ToldStep(s: System, a: Step)
    requires Enabled(s, a) && Inv(s) && Told(s)
    ensures Told(Replication.Apply(s, a))
  {
    hide MembersOk, SyncsOk, NodesOk, EventsOk, AcksOk, OnAck, OnCommit, OnTick, LeaderCommitted, Required;
    var t := Replication.Apply(s, a);
    GrowStep(s, a);
    forall i, o: nat | 0 <= i < |t.events| && Covers(t.events[i], o)
      ensures Out(t, o)
    {
      if i < |s.events| {
        assert Covers(s.events[i], o) && Out(s, o);
      } else {
        var b := s.commits[0];
        assert Sync(o, s.leader.log[o]) in Frames(s.leader.log, b.base, b.count);
      }
    }
  }

  lemma NotedStep(s: System, a: Step)
    requires Enabled(s, a) && Inv(s) && Noted(s)
    ensures Noted(Replication.Apply(s, a))
  {
    hide SyncsOk, NodesOk, CommitsOk, EventsOk, AcksOk, Frames, LeaderCommitted, Required;
    var t := Replication.Apply(s, a);
    if a.Worker? { IndexIsId(s.replicas, s.leaderId); }
    assert t.replicas[s.leaderId].ack >= s.replicas[s.leaderId].ack;
  }

  lemma {:induction false} ToldRun(s: System, steps: seq<Step>)
    requires Inv(s) && Told(s) && Noted(s) && Run(s, steps).Some?
    ensures Inv(Run(s, steps).value) && Told(Run(s, steps).value) && Noted(Run(s, steps).value)
  {
    hide Inv, Told, Noted, Enabled, Replication.Apply;
    if steps != [] {
      var n := |steps| - 1;
      ToldRun(s, steps[..n]);
      var t := Run(s, steps[..n]).value;
      StepInv(t, steps[n]);
      ToldStep(t, steps[n]);
      NotedStep(t, steps[n]);
    }
  }

  /**
   * Over every run: once the worker has handled a batch, a frame with the leader's record has been
   * sent for every offset of it, and the leader's entry in the replica list has reached its end.
   */
  lemma WorkerStreams(s: System, steps: seq<Step>, base: nat, count: nat, o: nat)
    requires Init(s) && Run(s, steps).Some? && LeaderCommit(base, count) in Run(s, steps).value.events
    requires base <= o < base + count
    ensures var t := Run(s, steps).value;
            && o < |t.leader.log| && Sync(o, t.leader.log[o]) in t.syncs
            && t.leaderId < |t.replicas| && t.replicas[t.leaderId].ack >= base + count
  {
    hide Run, Inv;
    InitInv(s);
    ToldRun(s, steps);
    var t := Run(s, steps).value;
    var i :| 0 <= i < |t.events| && t.events[i] == LeaderCommit(base, count);
    assert Covers(t.events[i], o) && Out(t, o);
  }

  // ------------------------------------------------ nothing is taken back

  /** What the leader has accepted or written, and what any follower has written, only grows. */
  lemma {:induction false} LogsGrow(s: System, steps: seq<Step>)
    requires Run(s, steps).Some?
    ensures var t := Run(s, steps).value;
            && Everything(s.leader) <= Everything(t.leader) && s.leader.log <= t.leader.log
            && s.followers.Keys == t.followers.Keys
            && forall f :: f in s.followers ==> s.followers[f].pipe.log <= t.followers[f].pipe.log
  {
    if steps != [] {
      hide Everything, PipeWrite, PipeAppend, Enabled, Replication.Apply;
      var n := |steps| - 1;
      LogsGrow(s, steps[..n]);
      GrowStep(Run(s, steps[..n]).value, steps[n]);
    }
  }

  lemma GrowStep(s: System, a: Step)
    requires Enabled(s, a)
    ensures var t := Replication.Apply(s, a);
            && Everything(s.leader) <= Everything(t.leader) && s.leader.log <= t.leader.log
            && s.followers.Keys == t.followers.Keys
            && forall f :: f in s.followers ==> s.followers[f].pipe.log <= t.followers[f].pipe.log
  {
    if a.LeaderWrite? {
      assert Everything(PipeWrite(s.leader, a.n)) == Everything(s.leader);
    }
  }
}
