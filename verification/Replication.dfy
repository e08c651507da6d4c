/**
 * The replication protocol of one partition under a single leader. The network may lose, repeat and
 * reorder frames: a frame once sent can arrive any number of times, at any time, or never.
 */
module Replication {
  import opened Bytes
  import opened LogFormat
  import opened PartitionMeta
  import opened DeferredAcks

  type Payload = seq<byte>

  /** A partition store, abstractly: what is on disk, what is accepted but not yet, what is committed. */
  datatype Pipe = Pipe(log: seq<Payload>, queued: seq<Payload>, committed: nat)

  function PipeAppend(p: Pipe, payload: Payload): Pipe {
    p.(queued := p.queued + [payload])
  }

  function PipeWrite(p: Pipe, n: nat): Pipe
    requires n <= |p.queued|
  {
    p.(log := p.log + p.queued[..n], queued := p.queued[n..])
  }

  function PipePublish(p: Pipe): Pipe {
    p.(committed := |p.log|)
  }

  function Everything(p: Pipe): seq<Payload> {
    p.log + p.queued
  }

  /**
   * A follower: its store, the offsets whose commit it has yet to acknowledge, and, for each record
   * it ever accepted, the leader's offset in the frame that brought it.
   */
  datatype Node = Node(pipe: Pipe, awaiting: set<nat>, origin: seq<nat>)

  datatype Sync = Sync(offset: nat, payload: Payload)

  datatype AckFrame = AckFrame(follower: BrokerId, acked: nat)

  datatype Batch = Batch(base: nat, count: nat)

  datatype System = System(
    leaderId: BrokerId, maxLag: nat,
    leader: Pipe, notified: nat, commits: seq<Batch>,
    replicas: seq<Replica>, events: seq<Event>,
    followers: map<BrokerId, Node>,
    syncs: set<Sync>, acks: set<AckFrame>)

  datatype Step =
    | LeaderAppend(payload: Payload)
    | LeaderWrite(n: nat)
    | LeaderPublish
    | LeaderNotify                              // hand the committed batch to the worker
    | Defer(token: Token)                       // hold a producer's acknowledgement back
    | Worker                                    // release, record progress, stream one batch
    | Serve(start: nat, n: nat)                 // answer a follower's FETCH_LOG
    | Deliver(follower: BrokerId, sync: Sync, accepted: bool)
    | FollowerWrite(follower: BrokerId, n: nat)
    | FollowerPublish(follower: BrokerId)
    | FollowerFire(follower: BrokerId)          // acknowledge what has been committed
    | AckArrives(ack: AckFrame)
    | Evict(now: nat, timeout: nat)

  function Required(replicas: seq<Replica>): nat {
    if |IsrIds(replicas)| > 0 then |IsrIds(replicas)| - 1 else 0
  }

  predicate Enabled(s: System, a: Step) {
    match a
    case LeaderAppend(_) => true
    case LeaderWrite(n) => n <= |s.leader.queued|
    case LeaderPublish => true
    case LeaderNotify => s.notified <= s.leader.committed
    case Defer(token) => token.offset < |Everything(s.leader)| && token.required == Required(s.replicas)
    case Worker => s.commits != [] && s.commits[0].base + s.commits[0].count <= |s.leader.log|
    case Serve(start, n) => start + n <= |s.leader.log|
    case Deliver(f, sync, _) => f in s.followers && sync in s.syncs
    case FollowerWrite(f, n) => f in s.followers && n <= |s.followers[f].pipe.queued|
    case FollowerPublish(f) => f in s.followers
    case FollowerFire(f) => f in s.followers
    case AckArrives(ack) => ack in s.acks
    case Evict(_, _) => true
  }

  function Frames(log: seq<Payload>, base: nat, count: nat): set<Sync>
    requires base + count <= |log|
  {
    set o | base <= o < base + count :: Sync(o, log[o])
  }

  /**
   * A record arrives. One that is not at the follower's tail only costs the connection; one that is
   * gets a callback first and is then appended, if the queue takes it.
   */
  function Receive(node: Node, sync: Sync, accepted: bool): Node {
    if sync.offset != |node.pipe.log| then node
    else if accepted then
      Node(PipeAppend(node.pipe, sync.payload), node.awaiting + {sync.offset}, node.origin + [sync.offset])
    else node.(awaiting := node.awaiting + {sync.offset})
  }

  function DueAcks(node: Node): set<nat> {
    set o | o in node.awaiting && o < node.pipe.committed
  }

  function AckFrames(f: BrokerId, node: Node): set<AckFrame> {
    set o | o in DueAcks(node) :: AckFrame(f, o + 1)
  }

  function Apply(s: System, a: Step): System
    requires Enabled(s, a)
  {
    match a
    case LeaderAppend(payload) => s.(leader := PipeAppend(s.leader, payload))
    case LeaderWrite(n) => s.(leader := PipeWrite(s.leader, n))
    case LeaderPublish => s.(leader := PipePublish(s.leader))
    case LeaderNotify =>
      s.(commits := s.commits + [Batch(s.notified, s.leader.committed - s.notified)],
         notified := s.leader.committed)
    case Defer(token) => s.(events := s.events + [Register(token)])
    case Worker =>
      var b := s.commits[0];
      s.(commits := s.commits[1..],
         events := s.events + [LeaderCommit(b.base, b.count)],
         replicas := if b.count == 0 then s.replicas else OnCommit(s.replicas, s.leaderId, b.base + b.count),
         syncs := s.syncs + Frames(s.leader.log, b.base, b.count))
    case Serve(start, n) => s.(syncs := s.syncs + Frames(s.leader.log, start, n))
    case Deliver(f, sync, accepted) => s.(followers := s.followers[f := Receive(s.followers[f], sync, accepted)])
    case FollowerWrite(f, n) =>
      s.(followers := s.followers[f := s.followers[f].(pipe := PipeWrite(s.followers[f].pipe, n))])
    case FollowerPublish(f) =>
      s.(followers := s.followers[f := s.followers[f].(pipe := PipePublish(s.followers[f].pipe))])
    case FollowerFire(f) =>
      var node := s.followers[f];
      s.(followers := s.followers[f := node.(awaiting := node.awaiting - DueAcks(node))],
         acks := s.acks + AckFrames(f, node))
    case AckArrives(ack) =>
      s.(events := s.events + [FollowerAck(ack.follower, ack.acked)],
         replicas := OnAck(s.replicas, ack.follower, ack.acked, s.maxLag,
                           LeaderCommitted(s.replicas, s.leaderId)))
    case Evict(now, timeout) => s.(replicas := OnTick(s.replicas, s.leaderId, now, timeout))
  }

  // -------------------------------------------------------------- invariant

  /** Every SYNC frame carries the leader's record of that offset. */
  predicate SyncsOk(log: seq<Payload>, syncs: set<Sync>) {
    forall m :: m in syncs ==> m.offset < |log| && log[m.offset] == m.payload
  }

  /** Every record a follower has accepted is the leader's record of the offset it came under. */
  predicate NodeOk(log: seq<Payload>, node: Node) {
    && node.pipe.committed <= |node.pipe.log|
    && |node.origin| == |Everything(node.pipe)|
    && forall i :: 0 <= i < |node.origin| ==>
         node.origin[i] < |log| && Everything(node.pipe)[i] == log[node.origin[i]]
  }

  predicate NodesOk(log: seq<Payload>, followers: map<BrokerId, Node>) {
    forall f :: f in followers ==> NodeOk(log, followers[f])
  }

  /** No acknowledgement claims more than its sender has committed. */
  predicate AcksOk(acks: set<AckFrame>, followers: map<BrokerId, Node>) {
    forall k :: k in acks ==> k.follower in followers && k.acked <= followers[k.follower].pipe.committed
  }

  predicate CommitsOk(commits: seq<Batch>, committed: nat) {
    forall i :: 0 <= i < |commits| ==> commits[i].base + commits[i].count <= committed
  }

  predicate EventOk(e: Event, committed: nat, accepted: nat, acks: set<AckFrame>) {
    match e
    case Register(token) => token.offset < accepted
    case FollowerAck(f, k) => AckFrame(f, k) in acks
    case LeaderCommit(base, count) => base + count <= committed
  }

  predicate EventsOk(events: seq<Event>, committed: nat, accepted: nat, acks: set<AckFrame>) {
    forall i :: 0 <= i < |events| ==> EventOk(events[i], committed, accepted, acks)
  }

  /** Replicas are listed by id, the leader is in sync, and the followers are all the others. */
  ghost predicate MembersOk(leaderId: BrokerId, replicas: seq<Replica>, followers: set<BrokerId>) {
    && InOrder(replicas) && leaderId < |replicas| && replicas[leaderId].inIsr
    && forall f: BrokerId :: f in followers <==> f < |replicas| && f != leaderId
  }

  ghost predicate Inv(s: System) {
    && MembersOk(s.leaderId, s.replicas, s.followers.Keys)
    && s.notified <= s.leader.committed <= |s.leader.log|
    && CommitsOk(s.commits, s.leader.committed)
    && SyncsOk(s.leader.log, s.syncs)
    && NodesOk(s.leader.log, s.followers)
    && AcksOk(s.acks, s.followers)
    && EventsOk(s.events, s.leader.committed, |Everything(s.leader)|, s.acks)
  }

  /** At start-up nothing is in flight and every follower holds some prefix of the leader's log. */
  ghost predicate Init(s: System) {
    && MembersOk(s.leaderId, s.replicas, s.followers.Keys)
    && s.notified == s.leader.committed == |s.leader.log| && s.leader.queued == []
    && s.commits == [] && s.events == [] && s.syncs == {} && s.acks == {}
    && forall f :: f in s.followers ==>
         var node := s.followers[f];
         && node.pipe.log <= s.leader.log && node.pipe.queued == []
         && node.pipe.committed == |node.pipe.log| && node.awaiting == {}
         && |node.origin| == |node.pipe.log| && Placed(node)
  }

  /** Each record sits at the offset it was sent under. */
  predicate Placed(node: Node) {
    forall i :: 0 <= i < |node.origin| ==> node.origin[i] == i
  }

  predicate AllPlaced(s: System) {
    forall f :: f in s.followers ==> Placed(s.followers[f])
  }

  lemma InitInv(s: System)
    requires Init(s)
    ensures Inv(s) && AllPlaced(s)
  {
  }

  lemma NodeGrows(log: seq<Payload>, more: seq<Payload>, node: Node)
    requires NodeOk(log, node)
    ensures NodeOk(log + more, node)
  {
  }

  lemma NodesGrow(log: seq<Payload>, more: seq<Payload>, followers: map<BrokerId, Node>)
    requires NodesOk(log, followers)
    ensures NodesOk(log + more, followers)
  {
    hide NodeOk;
    forall f | f in followers ensures NodeOk(log + more, followers[f]) {
      NodeGrows(log, more, followers[f]);
    }
  }

  /** What a follower's own steps keep. */
  lemma NodeSteps(log: seq<Payload>, node: Node, sync: Sync, accepted: bool, n: nat)
    requires NodeOk(log, node)
    ensures sync.offset < |log| && log[sync.offset] == sync.payload ==> NodeOk(log, Receive(node, sync, accepted))
    ensures n <= |node.pipe.queued| ==> NodeOk(log, node.(pipe := PipeWrite(node.pipe, n)))
    ensures NodeOk(log, node.(pipe := PipePublish(node.pipe)))
  {
    if sync.offset == |node.pipe.log| && accepted {
      Assoc(node.pipe.log, node.pipe.queued, [sync.payload]);
    }
    if n <= |node.pipe.queued| {
      Assoc(node.pipe.log, node.pipe.queued[..n], node.pipe.queued[n..]);
      assert node.pipe.queued[..n] + node.pipe.queued[n..] == node.pipe.queued;
    }
  }

  lemma StepInv(s: System, a: Step)
    requires Enabled(s, a) && Inv(s)
    ensures Inv(Apply(s, a))
  {
    hide NodeOk, OnAck, OnCommit, OnTick, IsrIds, MembersOk, LeaderCommitted;
    MembersStep(s, a);
    match a
    case LeaderAppend(payload) =>
    case LeaderWrite(n) =>
      NodesGrow(s.leader.log, s.leader.queued[..n], s.followers);
      assert Everything(PipeWrite(s.leader, n)) == Everything(s.leader);
    case LeaderPublish =>
    case LeaderNotify =>
    case Defer(_) =>
    case Worker =>
    case Serve(_, _) =>
    case Deliver(f, sync, accepted) => NodeSteps(s.leader.log, s.followers[f], sync, accepted, 0);
    case FollowerWrite(f, n) => NodeSteps(s.leader.log, s.followers[f], Sync(0, []), false, n);
    case FollowerPublish(f) => NodeSteps(s.leader.log, s.followers[f], Sync(0, []), false, 0); PublishKeepsAcks(s, f);
    case FollowerFire(f) => FireKeeps(s, f);
    case AckArrives(_) =>
    case Evict(_, _) =>
  }

  /** Nobody joins or leaves the cluster, and the leader never leaves the in-sync set. */
  lemma MembersStep(s: System, a: Step)
    requires Enabled(s, a) && MembersOk(s.leaderId, s.replicas, s.followers.Keys)
    ensures var t := Apply(s, a);
            && t.leaderId == s.leaderId && |t.replicas| == |s.replicas| && t.followers.Keys == s.followers.Keys
            && MembersOk(t.leaderId, t.replicas, t.followers.Keys)
  {
    hide LeaderCommitted, Acked, Ticked;
    match a
    case Worker => CommitMembers(s.replicas, s.leaderId, s.commits[0].base + s.commits[0].count);
    case AckArrives(ack) =>
      AckMembers(s.replicas, ack.follower, ack.acked, s.maxLag, LeaderCommitted(s.replicas, s.leaderId), s.leaderId);
    case Evict(now, timeout) => TickMembers(s.replicas, s.leaderId, now, timeout);
    case _ =>
  }

  lemma CommitMembers(rs: seq<Replica>, leader: BrokerId, committed: nat)
    requires InOrder(rs) && leader < |rs| && rs[leader].inIsr
    ensures var t := OnCommit(rs, leader, committed); InOrder(t) && t[leader].inIsr
  {
  }

  lemma AckMembers(rs: seq<Replica>, id: BrokerId, acked: nat, maxLag: nat, committed: nat, leader: BrokerId)
    requires InOrder(rs) && leader < |rs| && rs[leader].inIsr
    ensures var t := OnAck(rs, id, acked, maxLag, committed); InOrder(t) && t[leader].inIsr
  {
  }

  lemma TickMembers(rs: seq<Replica>, leader: BrokerId, now: nat, timeout: nat)
    requires InOrder(rs) && leader < |rs| && rs[leader].inIsr
    ensures var t := OnTick(rs, leader, now, timeout); InOrder(t) && t[leader].inIsr
  {
  }

  lemma PublishKeepsAcks(s: System, f: BrokerId)
    requires f in s.followers && AcksOk(s.acks, s.followers) && NodeOk(s.leader.log, s.followers[f])
    ensures AcksOk(s.acks, Apply(s, FollowerPublish(f)).followers)
  {
  }

  lemma FireKeeps(s: System, f: BrokerId)
    requires f in s.followers && Inv(s)
    ensures Inv(Apply(s, FollowerFire(f)))
  {
    var node := s.followers[f];
    assert NodeOk(s.leader.log, node.(awaiting := node.awaiting - DueAcks(node)));
  }
}
