/**
 * What acks=all is meant to be: every follower in sync when the acknowledgement was deferred has the
 * record when it is released. The code counts acknowledgements and does not ask who sends them.
 */
module Snapshot {
  import opened Bytes
  import opened PartitionMeta
  import opened DeferredAcks
  import opened Replication
  import opened Durability
  import opened Driving

  /** The followers in sync, which is what a deferred acknowledgement counts. */
  function InSync(s: System): set<BrokerId> {
    Members(IsrIds(s.replicas)) - {s.leaderId}
  }

  lemma {:induction false} IdsBelow(rs: seq<Replica>)
    requires InOrder(rs)
    ensures |Members(IsrIds(rs))| == |IsrIds(rs)| && forall b :: b in IsrIds(rs) ==> b < |rs|
  {
    if rs != [] {
      var n := |rs| - 1;
      IdsBelow(rs[..n]);
      var ids := IsrIds(rs[..n]);
      assert n !in Members(ids);
      if rs[n].inIsr { assert Members(ids + [n]) == Members(ids) + {n}; } else { Nothing(ids); }
    }
  }

  /** The number of followers required is the number of those in sync, and all of them are followers. */
  lemma SnapshotSize(s: System)
    requires MembersOk(s.leaderId, s.replicas, s.followers.Keys)
    ensures |InSync(s)| == Required(s.replicas) && InSync(s) <= s.followers.Keys
    ensures forall f :: f in InSync(s) <==> f in s.followers && f < |s.replicas| && s.replicas[f].inIsr
  {
    IdsBelow(s.replicas);
    var ids := Members(IsrIds(s.replicas));
    assert s.replicas[s.leaderId].id == s.leaderId;
    assert s.leaderId in ids;
    assert ids == InSync(s) + {s.leaderId};
    forall f
      ensures f in InSync(s) <==> f in s.followers && f < |s.replicas| && s.replicas[f].inIsr
    {
      if f in s.followers { assert s.replicas[f].id == f; }
    }
  }

  /** Each of these followers has acknowledged past `offset`. */
  ghost predicate Covered(events: seq<Event>, followers: set<BrokerId>, offset: nat) {
    forall f :: f in followers ==> Acknowledged(events, f, offset)
  }

  lemma SubsetOfSameSize(a: set<BrokerId>, b: set<BrokerId>)
    requires a <= b && |a| >= |b|
    ensures a == b
  {
    assert b == a + (b - a);
  }

  /** A quorum as large as the snapshot, from within the snapshot, is the snapshot. */
  lemma QuorumIsSnapshot(events: seq<Event>, p: Pending, followers: set<BrokerId>)
    requires p in LedgerAfter(events).released && p.required == |followers|
    requires forall f :: Acknowledged(events, f, p.offset) ==> f in followers
    ensures p.acked == followers && Covered(events, followers, p.offset)
  {
    hide LedgerAfter, Acknowledged, CommitSeen;
    Evidence(events);
    assert Backed(p, events) && Ready(p);
    SubsetOfSameSize(p.acked, followers);
  }

  /** Released entries of this registration, in a run that goes on after it. */
  predicate ReleasedIn(t: System, token: Token, p: Pending) {
    p in LedgerAfter(t.events).released && TokenOf(p) == token
  }

  /**
   * An acknowledgement is deferred in some state of a run, and released later. If only followers
   * that were in sync when it was deferred have acknowledged past its record, then every one of
   * them has, and has committed past it, though some may have left the in-sync set since. In a
   * guarded run every one of them holds the record.
   */
  lemma QuorumCoversSnapshot(s: System, before: seq<Step>, token: Token, after: seq<Step>, p: Pending)
    requires Init(s) && Run(s, before + [Defer(token)] + after).Some? && Run(s, before).Some?
    requires ReleasedIn(Run(s, before + [Defer(token)] + after).value, token, p)
    requires forall f :: Acknowledged(Run(s, before + [Defer(token)] + after).value.events, f, token.offset)
               ==> f in InSync(Run(s, before).value)
    ensures var u, t := Run(s, before).value, Run(s, before + [Defer(token)] + after).value;
            && Covered(t.events, InSync(u), token.offset)
            && (forall f :: f in InSync(u) ==> f in t.followers && token.offset < t.followers[f].pipe.committed)
            && (AllGuarded(s, before + [Defer(token)] + after) ==>
                 forall f :: f in InSync(u) ==> Holds(t, f, token.offset))
  {
    hide Run, AllGuarded, Init, LedgerAfter, InSync, Acknowledged, SyncsOk, CommitsOk, EventsOk, AcksOk, NodeOk;
    hide Placed, Holds;
    var steps := before + [Defer(token)] + after;
    var u, t := Run(s, before).value, Run(s, steps).value;
    InitInv(s);
    RunInv(s, before);
    RunInv(s, steps);
    DeferredThere(s, before, token, after);
    SnapshotSize(u);
    QuorumIsSnapshot(t.events, p, InSync(u));
    ReleasedIsAcknowledged(t, p);
    PlacementExact(s, steps);
    if AllGuarded(s, steps) {
      forall f | f in InSync(u) ensures Holds(t, f, token.offset) {
        PlacedHolds(t, f, token.offset);
      }
    }
  }

  lemma DeferredThere(s: System, before: seq<Step>, token: Token, after: seq<Step>)
    requires Run(s, before + [Defer(token)] + after).Some? && Run(s, before).Some?
    ensures Enabled(Run(s, before).value, Defer(token))
    ensures token.required == Required(Run(s, before).value.replicas)
  {
    hide Run, Enabled, Replication.Apply;
    RunJoin(s, before + [Defer(token)], after);
    RunLast(s, before, Defer(token));
    assert Enabled(Run(s, before).value, Defer(token));
    NeedsSnapshot(Run(s, before).value, token);
  }

  lemma NeedsSnapshot(u: System, token: Token)
    requires Enabled(u, Defer(token))
    ensures token.required == Required(u.replicas)
  {
  }

  // --------------------------------------------------------------- exactly when a release covers it

  /** Whatever happens after it is deferred, a release of this acknowledgement covers the snapshot. */
  ghost predicate AlwaysCovered(u: System, token: Token) {
    forall after: seq<Step>, p: Pending ::
      Run(u, [Defer(token)] + after).Some? && ReleasedIn(Run(u, [Defer(token)] + after).value, token, p)
      ==> Covered(Run(u, [Defer(token)] + after).value.events, InSync(u), token.offset)
  }

  /** Only followers ever acknowledge. */
  lemma FollowersAcknowledge(t: System, f: BrokerId, offset: nat)
    requires Inv(t) && Acknowledged(t.events, f, offset)
    ensures f in t.followers && offset < t.followers[f].pipe.committed
  {
    hide MembersOk, SyncsOk, NodesOk, CommitsOk;
    var k: nat :| k > offset && FollowerAck(f, k) in t.events;
    assert AckFrame(f, k) in t.acks;
  }

  lemma {:induction false} SameMembers(s: System, steps: seq<Step>)
    requires Inv(s) && Run(s, steps).Some?
    ensures Inv(Run(s, steps).value) && Run(s, steps).value.followers.Keys == s.followers.Keys
  {
    hide Inv, Enabled, Replication.Apply;
    if steps != [] {
      var n := |steps| - 1;
      SameMembers(s, steps[..n]);
      var t := Run(s, steps[..n]).value;
      StepInv(t, steps[n]);
      Unhidden(t, steps[n]);
    }
  }

  lemma Unhidden(t: System, a: Step)
    requires Enabled(t, a) && Inv(t)
    ensures Replication.Apply(t, a).followers.Keys == t.followers.Keys
  {
    hide MembersOk, SyncsOk, NodesOk, CommitsOk, EventsOk, AcksOk, Enabled, Replication.Apply;
    MembersStep(t, a);
  }

  /** If every follower is in sync when it is deferred, every release covers all of them. */
  lemma FullSnapshot(u: System, token: Token, after: seq<Step>, p: Pending)
    requires Inv(u) && InSync(u) == u.followers.Keys && Run(u, [Defer(token)] + after).Some?
    requires ReleasedIn(Run(u, [Defer(token)] + after).value, token, p)
    ensures Covered(Run(u, [Defer(token)] + after).value.events, InSync(u), token.offset)
  {
    hide Run, LedgerAfter, InSync, Acknowledged, SyncsOk, NodesOk, CommitsOk, EventsOk, AcksOk;
    var t := Run(u, [Defer(token)] + after).value;
    SameMembers(u, [Defer(token)] + after);
    RunNothing(u);
    Nothing([Defer(token)]);
    assert [] + [Defer(token)] + after == [Defer(token)] + after;
    DeferredThere(u, [], token, after);
    SnapshotSize(u);
    forall f | Acknowledged(t.events, f, p.offset) ensures f in InSync(u) {
      FollowersAcknowledge(t, f, p.offset);
    }
    QuorumIsSnapshot(t.events, p, InSync(u));
  }

  lemma Enumerate(a: set<BrokerId>) returns (s: seq<BrokerId>)
    ensures NoRepeats(s) && Members(s) == a && |s| == |a|
  {
    s := [];
    var left := a;
    while left != {}
      invariant NoRepeats(s) && Members(s) + left == a && Members(s) !! left && |s| + |left| == |a|
      decreases |left|
    {
      var b :| b in left;
      assert Members(s + [b]) == Members(s) + {b};
      s, left := s + [b], left - {b};
    }
  }

  lemma {:induction false} EventsGrow(s: System, steps: seq<Step>)
    requires Run(s, steps).Some?
    ensures s.events <= Run(s, steps).value.events
  {
    hide Enabled;
    if steps != [] { EventsGrow(s, steps[..|steps| - 1]); }
  }

  lemma StillCovered(events: seq<Event>, more: seq<Event>, followers: set<BrokerId>, offset: nat)
    requires events <= more && Covered(events, followers, offset)
    ensures Covered(more, followers, offset)
  {
    forall f | f in followers ensures Acknowledged(more, f, offset) {
      assert Acknowledged(events, f, offset);
      var k: nat :| k > offset && FollowerAck(f, k) in events;
      assert FollowerAck(f, k) in more;
    }
  }

  // ------------------------------------------------------- deferred too late

  /** No entry of this registration is, or ever was, known to be committed. */
  ghost predicate Unheard(events: seq<Event>, token: Token) {
    var l := LedgerAfter(events);
    && (forall p :: p in l.pending && TokenOf(p) == token ==> !p.leaderCommitted)
    && (forall p :: p in l.released ==> TokenOf(p) != token)
  }

  lemma UnheardStep(events: seq<Event>, a: Event, token: Token)
    requires Unheard(events, token) && !Covers(a, token.offset)
    ensures Unheard(events + [a], token)
  {
    hide LedgerAfter;
    LedgerMore(events, a);
    var l, m := LedgerAfter(events), LedgerAfter(events + [a]);
    match a
    case Register(t) =>
    case FollowerAck(f, k) => UnheardSettle(l, CountAll(l.pending, f, k), token);
    case LeaderCommit(base, count) => UnheardSettle(l, MarkAll(l.pending, base, count), token);
  }

  lemma UnheardSettle(l: Ledger, ps: seq<Pending>, token: Token)
    requires |ps| == |l.pending| && forall i :: 0 <= i < |ps| ==> TokenOf(ps[i]) == TokenOf(l.pending[i])
    requires forall i :: 0 <= i < |ps| && TokenOf(ps[i]) == token ==> !ps[i].leaderCommitted
    requires forall p :: p in l.released ==> TokenOf(p) != token
    ensures var m := Settle(l, ps);
            && (forall p :: p in m.pending && TokenOf(p) == token ==> !p.leaderCommitted)
            && (forall p :: p in m.released ==> TokenOf(p) != token)
  {
  }

  /** The worker is past this offset, and no entry of this registration was there when it passed. */
  ghost predicate TooLate(s: System, token: Token) {
    !Ahead(s, token.offset) && Unheard(s.events, token)
  }

  lemma LateStep(s: System, a: Step, token: Token)
    requires Enabled(s, a) && s.notified <= s.leader.committed && TooLate(s, token)
    ensures TooLate(Replication.Apply(s, a), token)
  {
    hide Unheard, OnAck, OnCommit, OnTick, LeaderCommitted, Required, Frames;
    match a
    case Defer(t) => UnheardStep(s.events, Register(t), token);
    case Worker =>
      var b := s.commits[0];
      assert !Spans(b, token.offset);
      UnheardStep(s.events, LeaderCommit(b.base, b.count), token);
      assert forall i :: 0 <= i < |s.commits| - 1 ==> s.commits[1..][i] == s.commits[i + 1];
    case LeaderNotify =>
      var more := s.commits + [Batch(s.notified, s.leader.committed - s.notified)];
      assert forall i :: 0 <= i < |more| ==> !Spans(more[i], token.offset);
    case AckArrives(k) => UnheardStep(s.events, FollowerAck(k.follower, k.acked), token);
    case _ =>
  }

  lemma {:induction false} LateRun(s: System, steps: seq<Step>, token: Token)
    requires Inv(s) && TooLate(s, token) && Run(s, steps).Some?
    ensures Inv(Run(s, steps).value) && TooLate(Run(s, steps).value, token)
  {
    hide Inv, TooLate, Enabled, Replication.Apply;
    if steps != [] {
      var n := |steps| - 1;
      LateRun(s, steps[..n], token);
      var t := Run(s, steps[..n]).value;
      StepInv(t, steps[n]);
      NotifiedFirst(t);
      LateStep(t, steps[n], token);
    }
  }

  lemma NotifiedFirst(s: System)
    requires Inv(s)
    ensures s.notified <= s.leader.committed <= |s.leader.log| && CommitsOk(s.commits, s.leader.committed)
  {
    hide MembersOk, SyncsOk, NodesOk, EventsOk, AcksOk;
  }

  /** An acknowledgement deferred once the worker is past its record is never released. */
  lemma NeverReleased(u: System, token: Token, after: seq<Step>, p: Pending)
    requires Inv(u) && Register(token) !in u.events && !Ahead(u, token.offset)
    requires Run(u, [Defer(token)] + after).Some?
    ensures !ReleasedIn(Run(u, [Defer(token)] + after).value, token, p)
  {
    hide Inv, Run, LedgerAfter;
    Evidence(u.events);
    assert Unheard(u.events, token) by { Unregistered(u.events, token); }
    LateRun(u, [Defer(token)] + after, token);
  }

  lemma Unregistered(events: seq<Event>, token: Token)
    requires Register(token) !in events
    ensures Unheard(events, token)
  {
    hide LedgerAfter, Acknowledged, CommitSeen;
    Evidence(events);
  }

  // ------------------------------------------------------- released by anybody

  lemma Enough(events: seq<Event>, token: Token, commits: seq<Event>, hs: seq<BrokerId>, acked: nat) returns (p: Pending)
    requires NoRepeats(hs) && |hs| == token.required && acked > token.offset
    requires forall i :: 0 <= i < |commits| ==> commits[i].LeaderCommit?
    requires exists i :: 0 <= i < |commits| && Covers(commits[i], token.offset)
    ensures p in LedgerAfter(events + [Register(token)] + commits + Acks(hs, acked)).released
    ensures TokenOf(p) == token && p.acked == Members(hs)
  {
    hide LedgerAfter, Acks;
    RegisteredWaits(events, token);
    var start, q := events + [Register(token)], Fresh(token).(leaderCommitted := true);
    if hs == [] {
      ReleasedAtOnce(start, commits, Fresh(token));
      StaysReleased(start + commits, Acks(hs, acked), q);
      p := q;
    } else {
      MarkedBy(start, commits, Fresh(token));
      CountedBy(start + commits, hs, acked, q);
      p := q.(acked := Members(hs), isrAcked := |hs|);
    }
  }

  lemma {:induction false} AcksFrom(hs: seq<BrokerId>, acked: nat, f: BrokerId, k: nat)
    requires FollowerAck(f, k) in Acks(hs, acked)
    ensures f in hs
  {
    var n := |hs| - 1;
    if FollowerAck(f, k) in Acks(hs[..n], acked) { AcksFrom(hs[..n], acked, f, k); }
  }

  lemma OthersSilent(events: seq<Event>, token: Token, commits: seq<Event>, hs: seq<BrokerId>, acked: nat, f: BrokerId)
    requires !Acknowledged(events, f, token.offset) && f !in hs
    requires forall i :: 0 <= i < |commits| ==> commits[i].LeaderCommit?
    ensures !Acknowledged(events + [Register(token)] + commits + Acks(hs, acked), f, token.offset)
  {
    hide Acks;
    forall k: nat | k > token.offset
      ensures FollowerAck(f, k) !in events + [Register(token)] + commits + Acks(hs, acked)
    {
      if FollowerAck(f, k) in Acks(hs, acked) { AcksFrom(hs, acked, f, k); }
    }
  }

  lemma CanDrive(u: System, v: System, h: BrokerId, n: nat)
    requires Inv(u) && AllPlaced(u) && h in u.followers && n >= |u.leader.log|
    requires v.followers == u.followers && u.leader.log <= v.leader.log
    ensures h in v.followers && Drivable(v, h, n)
  {
    hide MembersOk, SyncsOk, EventsOk, AcksOk, CommitsOk, Everything, NodeOk, Placed;
    var node := u.followers[h];
    PlacedIsPrefix(u.leader.log, node);
    NodeGrows(u.leader.log, v.leader.log[|u.leader.log|..], node);
    assert u.leader.log + v.leader.log[|u.leader.log|..] == v.leader.log;
  }

  lemma StillPlaced(u: System, t: System, hs: seq<BrokerId>, log: seq<Payload>, n: nat)
    requires AllPlaced(u) && t.followers.Keys == u.followers.Keys
    requires forall f :: f in u.followers && f !in hs ==> t.followers[f] == u.followers[f]
    requires forall b :: b in hs ==> b in t.followers && Sits(t.followers[b], log, n, 0)
    ensures AllPlaced(t)
  {
    hide Placed;
    forall f | f in t.followers ensures Placed(t.followers[f]) {
      if f in hs { assert Sits(t.followers[f], log, n, 0); }
    }
  }

  /** Deferring, one more record behind it, and everything committed and sent. */
  lemma CommitFrom(u: System, token: Token) returns (steps: seq<Step>, commits: seq<Event>)
    requires Inv(u) && Enabled(u, Defer(token)) && Ahead(u, token.offset)
    ensures Run(u, [Defer(token)] + steps).Some?
    ensures var v, all := Run(u, [Defer(token)] + steps).value, Everything(u.leader) + [[]];
            && v.events == u.events + [Register(token)] + commits && v.followers == u.followers
            && v.leader == Pipe(all, [], |all|) && u.leader.log <= all && Streamed(v, |all| - 1)
            && (forall i :: 0 <= i < |commits| ==> commits[i].LeaderCommit?)
            && exists i :: 0 <= i < |commits| && Covers(commits[i], token.offset)
  {
    hide Run, Inv, Required, Streamed;
    NotifiedFirst(u);
    RunOne(u, Defer(token));
    var u1 := Run(u, [Defer(token)]).value;
    RunOne(u1, LeaderAppend([]));
    var u2 := Run(u1, [LeaderAppend([])]).value;
    Assoc(u.leader.log, u.leader.queued, [[]]);
    var rest, cs := CommitAll(u2, token.offset);
    RunJoin(u1, [LeaderAppend([])], rest);
    steps, commits := [LeaderAppend([])] + rest, cs;
    RunJoin(u, [Defer(token)], steps);
  }

  /**
   * From any guarded state in which the worker is not past the record, any brokers of the required
   * number release the acknowledgement, in a guarded continuation and without anybody else.
   */
  lemma ReleasedByAny(u: System, token: Token, hs: seq<BrokerId>) returns (after: seq<Step>, p: Pending)
    requires Inv(u) && AllPlaced(u) && Enabled(u, Defer(token)) && Ahead(u, token.offset)
    requires NoRepeats(hs) && |hs| == token.required && Members(hs) <= u.followers.Keys
    ensures Run(u, [Defer(token)] + after).Some?
    ensures var t := Run(u, [Defer(token)] + after).value;
            && ReleasedIn(t, token, p) && p.acked == Members(hs) && AllPlaced(t)
            && forall f :: f !in hs && Acknowledged(t.events, f, token.offset) ==> Acknowledged(u.events, f, token.offset)
  {
    hide Run, Inv, AllPlaced, LedgerAfter, Acknowledged, Sits, Streamed, Drivable, Acks, Ahead;
    var n := |Everything(u.leader)|;
    var commit, cs := CommitFrom(u, token);
    var v := Run(u, [Defer(token)] + commit).value;
    forall i | 0 <= i < |hs| ensures hs[i] in v.followers && Drivable(v, hs[i], n) {
      assert hs[i] in Members(hs);
      CanDrive(u, v, hs[i], n);
    }
    var drive := DriveAll(v, hs, n);
    RunJoin(u, [Defer(token)] + commit, drive);
    after := commit + drive;
    Assoc([Defer(token)], commit, drive);
    var t := Run(u, [Defer(token)] + after).value;
    p := Enough(u.events, token, cs, hs, n + 1);
    forall f | f !in hs && Acknowledged(t.events, f, token.offset)
      ensures Acknowledged(u.events, f, token.offset)
    {
      if !Acknowledged(u.events, f, token.offset) { OthersSilent(u.events, token, cs, hs, n + 1, f); }
    }
    StillPlaced(u, t, hs, v.leader.log, n + 1);
  }

  lemma Sizes(u: System, token: Token)
    requires Inv(u) && Enabled(u, Defer(token))
    ensures |InSync(u)| == token.required && InSync(u) <= u.followers.Keys
  {
    hide InSync, SyncsOk, NodesOk, CommitsOk, EventsOk, AcksOk;
    SnapshotSize(u);
  }

  /** An outsider's acknowledgement stands in for that of a follower in sync that has sent none. */
  lemma OutsiderReleases(u: System, token: Token, insider: BrokerId, outsider: BrokerId)
      returns (after: seq<Step>, p: Pending)
    requires Inv(u) && AllPlaced(u) && Enabled(u, Defer(token)) && Ahead(u, token.offset)
    requires insider in InSync(u) && !Acknowledged(u.events, insider, token.offset)
    requires outsider in u.followers.Keys - InSync(u)
    ensures Run(u, [Defer(token)] + after).Some?
    ensures var t := Run(u, [Defer(token)] + after).value;
            && ReleasedIn(t, token, p) && !Acknowledged(t.events, insider, token.offset)
            && outsider in p.acked && AllPlaced(t)
  {
    hide Run, Inv, AllPlaced, InSync, Acknowledged, Enabled, ReleasedIn, Ahead;
    Sizes(u, token);
    var ackers := InSync(u) - {insider} + {outsider};
    var hs := Enumerate(ackers);
    assert insider !in Members(hs);
    after, p := ReleasedByAny(u, token, hs);
  }

  /**
   * For an acknowledgement deferred in any guarded run: every release covers the followers in sync
   * when it was deferred if and only if they have all acknowledged already, or no follower is out
   * of sync, or the worker is past the record, so that there is no release.
   */
  lemma SnapshotExact(s: System, before: seq<Step>, token: Token)
    requires Init(s) && Run(s, before).Some? && AllGuarded(s, before)
    requires Enabled(Run(s, before).value, Defer(token)) && Register(token) !in Run(s, before).value.events
    ensures var u := Run(s, before).value;
            AlwaysCovered(u, token) <==>
            || Covered(u.events, InSync(u), token.offset)
            || InSync(u) == u.followers.Keys
            || !Ahead(u, token.offset)
  {
    hide Run, AllGuarded, Init, Inv, Enabled, InSync, AllPlaced, LedgerAfter, ReleasedIn, Acknowledged, Ahead;
    var u := Run(s, before).value;
    InitInv(s);
    RunInv(s, before);
    PlacementExact(s, before);
    Sizes(u, token);
    if Covered(u.events, InSync(u), token.offset) || InSync(u) == u.followers.Keys || !Ahead(u, token.offset) {
      forall after: seq<Step>, p: Pending |
          Run(u, [Defer(token)] + after).Some? && ReleasedIn(Run(u, [Defer(token)] + after).value, token, p)
        ensures Covered(Run(u, [Defer(token)] + after).value.events, InSync(u), token.offset)
      {
        AnyRelease(u, token, after, p);
      }
    } else {
      var insider :| insider in InSync(u) && !Acknowledged(u.events, insider, token.offset);
      assert u.followers.Keys == InSync(u) + (u.followers.Keys - InSync(u));
      var outsider :| outsider in u.followers.Keys - InSync(u);
      var after, p := OutsiderReleases(u, token, insider, outsider);
      assert !Covered(Run(u, [Defer(token)] + after).value.events, InSync(u), token.offset);
    }
  }

  lemma AnyRelease(u: System, token: Token, after: seq<Step>, p: Pending)
    requires Inv(u) && Register(token) !in u.events && Run(u, [Defer(token)] + after).Some?
    requires ReleasedIn(Run(u, [Defer(token)] + after).value, token, p)
    requires || Covered(u.events, InSync(u), token.offset) || InSync(u) == u.followers.Keys || !Ahead(u, token.offset)
    ensures Covered(Run(u, [Defer(token)] + after).value.events, InSync(u), token.offset)
  {
    hide Run, Inv, InSync, LedgerAfter, ReleasedIn, Acknowledged, Ahead, Covered;
    if !Ahead(u, token.offset) { NeverReleased(u, token, after, p); }
    if InSync(u) == u.followers.Keys { FullSnapshot(u, token, after, p); }
    if Covered(u.events, InSync(u), token.offset) {
      EventsGrow(u, [Defer(token)] + after);
      StillCovered(u.events, Run(u, [Defer(token)] + after).value.events, InSync(u), token.offset);
    }
  }

  /** Some continuation releases this acknowledgement. */
  ghost predicate CanBeReleased(u: System, token: Token) {
    exists after: seq<Step>, p: Pending ::
      Run(u, [Defer(token)] + after).Some? && ReleasedIn(Run(u, [Defer(token)] + after).value, token, p)
  }

  /**
   * The acknowledgement is deferred after the append, so the worker may have passed the record in
   * between: it can still be released if and only if that has not happened.
   */
  lemma ReleasableIff(s: System, before: seq<Step>, token: Token)
    requires Init(s) && Run(s, before).Some? && AllGuarded(s, before)
    requires Enabled(Run(s, before).value, Defer(token)) && Register(token) !in Run(s, before).value.events
    ensures CanBeReleased(Run(s, before).value, token) <==> Ahead(Run(s, before).value, token.offset)
  {
    hide Run, AllGuarded, Init, Inv, Enabled, InSync, AllPlaced, LedgerAfter, ReleasedIn, Acknowledged, Ahead;
    var u := Run(s, before).value;
    InitInv(s);
    RunInv(s, before);
    PlacementExact(s, before);
    Sizes(u, token);
    if Ahead(u, token.offset) {
      var hs := Enumerate(InSync(u));
      var after, p := ReleasedByAny(u, token, hs);
    } else if CanBeReleased(u, token) {
      var after: seq<Step>, p: Pending :|
        Run(u, [Defer(token)] + after).Some? && ReleasedIn(Run(u, [Defer(token)] + after).value, token, p);
      NeverReleased(u, token, after, p);
    }
  }

  // ------------------------------------------------------- nobody is evicted

  predicate AllInSync(s: System) {
    forall i :: 0 <= i < |s.replicas| ==> s.replicas[i].inIsr
  }

  /** Every acknowledgement deferred so far waits for every follower. */
  ghost predicate AllNeeded(s: System) {
    forall i :: 0 <= i < |s.events| && s.events[i].Register? ==> s.events[i].token.required == |s.followers.Keys|
  }

  lemma NoEvictStep(s: System, a: Step)
    requires Enabled(s, a) && !a.Evict? && Inv(s) && AllInSync(s) && AllNeeded(s)
    ensures AllInSync(Replication.Apply(s, a)) && AllNeeded(Replication.Apply(s, a))
  {
    hide MembersOk, SyncsOk, NodesOk, CommitsOk, EventsOk, AcksOk, Frames, LeaderCommitted, Required;
    MembersStep(s, a);
    if a.Defer? { Everybody(s); }
  }

  lemma Everybody(s: System)
    requires MembersOk(s.leaderId, s.replicas, s.followers.Keys) && AllInSync(s)
    ensures InSync(s) == s.followers.Keys && Required(s.replicas) == |s.followers.Keys|
  {
    hide InSync, Required;
    SnapshotSize(s);
    assert InSync(s) == s.followers.Keys;
  }

  lemma {:induction false} NoEvictRun(s: System, steps: seq<Step>)
    requires Inv(s) && AllInSync(s) && AllNeeded(s) && Run(s, steps).Some? && NoEvict(steps)
    ensures var t := Run(s, steps).value; Inv(t) && AllInSync(t) && AllNeeded(t)
  {
    hide Inv, AllInSync, AllNeeded, Enabled, Replication.Apply;
    if steps != [] {
      var n := |steps| - 1;
      NoEvictRun(s, steps[..n]);
      var t := Run(s, steps[..n]).value;
      StepInv(t, steps[n]);
      NoEvictStep(t, steps[n]);
    }
  }

  /**
   * As long as nobody is evicted, acks=all is what it promises: whenever an acknowledgement has been
   * let go, every follower of the cluster has acknowledged past its record and committed it, and in
   * a guarded run every one of them holds it.
   */
  lemma EveryFollowerHas(s: System, steps: seq<Step>, p: Pending)
    requires Init(s) && AllInSync(s) && Run(s, steps).Some? && NoEvict(steps)
    requires p in LedgerAfter(Run(s, steps).value.events).released
    ensures var t := Run(s, steps).value;
            && Covered(t.events, t.followers.Keys, p.offset) && p.offset < t.leader.committed
            && (forall f :: f in t.followers ==> p.offset < t.followers[f].pipe.committed)
            && (AllGuarded(s, steps) ==> forall f :: f in t.followers ==> Holds(t, f, p.offset))
  {
    hide Run, AllGuarded, LedgerAfter, AllInSync, Acknowledged, MembersOk, SyncsOk, CommitsOk, EventsOk, AcksOk;
    hide NodeOk, Placed, Holds, NoEvict;
    var t := Run(s, steps).value;
    InitInv(s);
    NoEvictRun(s, steps);
    Needed(t, p);
    forall f | Acknowledged(t.events, f, p.offset) ensures f in t.followers.Keys {
      FollowersAcknowledge(t, f, p.offset);
    }
    QuorumIsSnapshot(t.events, p, t.followers.Keys);
    ReleasedIsAcknowledged(t, p);
    PlacementExact(s, steps);
    if AllGuarded(s, steps) {
      forall f | f in t.followers ensures Holds(t, f, p.offset) {
        PlacedHolds(t, f, p.offset);
      }
    }
  }

  lemma Needed(t: System, p: Pending)
    requires AllNeeded(t) && p in LedgerAfter(t.events).released
    ensures p.required == |t.followers.Keys|
  {
    hide LedgerAfter, Acknowledged, CommitSeen;
    Evidence(t.events);
    assert Backed(p, t.events);
    var i :| 0 <= i < |t.events| && t.events[i] == Register(TokenOf(p));
  }

  // --------------------------------------------------------------- such a snapshot comes about

  const NewNode := Node(Pipe([], [], 0), {}, [])

  /** Three brokers with empty logs; broker 0 leads. */
  function Three(maxLag: nat): System {
    System(0, maxLag, Pipe([], [], 0), 0, [], Replicas(3), [], map[1 := NewNode, 2 := NewNode], {}, {})
  }

  lemma ThreeInit(maxLag: nat)
    ensures Init(Three(maxLag))
  {
  }

  /** The leader commits a record, and both followers are found silent. */
  function Deserted(maxLag: nat, a: Payload): System {
    Three(maxLag).(leader := Pipe([a], [], 1), notified := 1,
                   replicas := OnTick(OnCommit(Replicas(3), 0, 1), 0, 1, 0),
                   events := [LeaderCommit(0, 1)], syncs := {Sync(0, a)})
  }

  lemma Desert(maxLag: nat, a: Payload) returns (steps: seq<Step>)
    ensures Run(Three(maxLag), steps) == Some(Deserted(maxLag, a))
  {
    hide Run, OnCommit, OnTick, Replicas;
    var s := Three(maxLag);
    var first := CommitFirst(s, a);
    var batches, events := [Batch(0, 1)], [LeaderCommit(0, 1)];
    Nothing(events);
    OneFrame(a);
    assert batches[1..] == [] && {} + {Sync(0, a)} == {Sync(0, a)};
    RunLast(s, first, Worker);
    var more := first + [Worker];
    assert Run(s, more) == Some(s.(leader := Pipe([a], [], 1), notified := 1, events := events,
                                   replicas := OnCommit(Replicas(3), 0, 1), syncs := {Sync(0, a)}));
    RunLast(s, more, Evict(1, 0));
    steps := more + [Evict(1, 0)];
  }

  lemma CommitFirst(s: System, a: Payload) returns (steps: seq<Step>)
    requires s.leader == Pipe([], [], 0) && s.notified == 0 && s.commits == []
    ensures Run(s, steps) == Some(s.(leader := Pipe([a], [], 1), notified := 1, commits := [Batch(0, 1)]))
  {
    hide Run;
    var log := [a];
    Nothing([Batch(0, 1)]);
    assert log[..1] == log && |log[1..]| == 0 && [] + log == log;
    RunOne(s, LeaderAppend(a));
    var s1 := [LeaderAppend(a)];
    RunLast(s, s1, LeaderWrite(1));
    var s2 := s1 + [LeaderWrite(1)];
    RunLast(s, s2, LeaderPublish);
    var s3 := s2 + [LeaderPublish];
    assert Run(s, s3) == Some(s.(leader := Pipe(log, [], 1)));
    RunLast(s, s3, LeaderNotify);
    steps := s3 + [LeaderNotify];
  }

  lemma OneFrame(a: Payload)
    ensures Frames([a], 0, 1) == {Sync(0, a)}
  {
    var log := [a];
    forall m ensures m in Frames(log, 0, 1) <==> m in {Sync(0, a)} {
      if m == Sync(0, a) { assert m == Sync(0, log[0]); }
    }
  }

  /** One of them acknowledges and is let back in. */
  lemma Readmitted(maxLag: nat)
    ensures var rs := OnTick(OnCommit(Replicas(3), 0, 1), 0, 1, 0);
            var t := OnAck(rs, 1, 1, maxLag, LeaderCommitted(rs, 0));
            InOrder(t) && |t| == 3 && t[0].inIsr && t[1].inIsr && !t[2].inIsr
  {
    var rs := Replicas(3);
    IndexIsId(rs, 0);
    var cs := OnCommit(rs, 0, 1);
    var ts := OnTick(cs, 0, 1, 0);
    IndexIsId(ts, 0);
    IndexIsId(ts, 1);
  }

  /**
   * A run of three brokers: one follower in sync, one evicted. The record is committed and its
   * acknowledgement released by the one that is not in sync, and the one that is never sends any.
   */
  lemma OutsiderFillsQuorum(maxLag: nat, a: Payload, b: Payload)
      returns (before: seq<Step>, token: Token, after: seq<Step>, p: Pending)
    ensures Init(Three(maxLag)) && Run(Three(maxLag), before).Some?
    ensures var u := Run(Three(maxLag), before).value;
            && InSync(u) == {1} && Run(u, [Defer(token)] + after).Some?
            && var t := Run(u, [Defer(token)] + after).value;
            && ReleasedIn(t, token, p) && !Acknowledged(t.events, 1, token.offset) && AllPlaced(t)
  {
    hide Run, LedgerAfter, InSync, Acknowledged, Sits, OnAck, OnTick, OnCommit, LeaderCommitted, Inv, ReleasedIn;
    var s := Three(maxLag);
    ThreeInit(maxLag);
    InitInv(s);
    var first := Desert(maxLag, a);
    var d := Deserted(maxLag, a);
    FreshNode(d);
    var ack := DriveAck(d, 1, 0);
    RunJoin(s, first, ack);
    var c := Run(s, first + ack).value;
    RunLast(s, first + ack, LeaderAppend(b));
    before := first + ack + [LeaderAppend(b)];
    RunInv(s, before);
    var u := Run(s, before).value;
    Readmitted(maxLag);
    token := Token(1, [0], 7, 1);
    OneInSync(u);
    assert AllPlaced(u) by { TwoPlaced(u, [a]); }
    NotYet(u, 1, 1);
    after, p := OutsiderReleases(u, token, 1, 2);
  }

  /** Nobody can have acknowledged a record that the leader has not written. */
  lemma NotYet(u: System, f: BrokerId, offset: nat)
    requires Inv(u) && AllPlaced(u) && offset >= |u.leader.log|
    ensures !Acknowledged(u.events, f, offset)
  {
    if Acknowledged(u.events, f, offset) {
      FollowersAcknowledge(u, f, offset);
      PlacedIsPrefix(u.leader.log, u.followers[f]);
      assert false;
    }
  }

  lemma FreshNode(d: System)
    requires d.followers == map[1 := NewNode, 2 := NewNode] && d.leader.log != [] && d.syncs == {Sync(0, d.leader.log[0])}
    ensures Drivable(d, 1, 0) && Streamed(d, 0)
  {
  }

  lemma OneInSync(u: System)
    requires Inv(u) && u.leaderId == 0 && u.followers.Keys == {1, 2}
    requires |u.replicas| == 3 && u.replicas[1].inIsr && !u.replicas[2].inIsr
    ensures InSync(u) == {1} && Required(u.replicas) == 1
  {
    hide InSync, SyncsOk, NodesOk, CommitsOk, EventsOk, AcksOk;
    SnapshotSize(u);
    assert InSync(u) == {1};
  }

  lemma TwoPlaced(u: System, log: seq<Payload>)
    requires u.followers.Keys == {1, 2} && Sits(u.followers[1], log, 1, 0) && u.followers[2] == NewNode
    ensures AllPlaced(u)
  {
  }
}
