/** The protocol run on real stores: what it guarantees about the bytes in the brokers' files. */
module Cluster {
  import opened Bytes
  import opened LogFormat
  import St = Store
  import SR = StoreRuns
  import opened PartitionMeta
  import opened DeferredAcks
  import Re = Replication
  import Du = Durability
  import Sn = Snapshot

  // --------------------------------------------- a store is a pipe with files

  function Rest(s: St.State): seq<Record> {
    St.InFlight(s) + s.queue
  }

  function Abs(s: St.State): Re.Pipe {
    Re.Pipe(SR.Payloads(St.Written(s)), SR.Payloads(Rest(s)), s.committed)
  }

  /** What an action of the store is in terms of the pipe; most of them are nothing. */
  function AbsApply(p: Re.Pipe, s: St.State, a: St.Action): Re.Pipe {
    if St.Accepts(s, a) then Re.PipeAppend(p, a.payload)
    else if a.WriteLog? && |s.batch| <= |p.queued| then Re.PipeWrite(p, |s.batch|)
    else if a.Publish? then Re.PipePublish(p)
    else p
  }

  lemma Split(w: seq<Record>, r: seq<Record>, w': seq<Record>, r': seq<Record>, moved: seq<Record>, more: seq<Record>)
    requires w' == w + moved && w' + r' == (w + r) + more && |moved| <= |r|
    ensures moved == r[..|moved|] && r' == r[|moved|..] + more
  {
    var all := w' + r';
    assert all[|w|..][..|moved|] == moved;
    assert all[|w|..] == r + more;
    assert all[|w'|..] == r';
    assert (r + more)[..|moved|] == r[..|moved|];
    assert (r + more)[|moved|..] == r[|moved|..] + more;
    assert all[|w|..][|moved|..] == all[|w'|..];
  }

  lemma PayloadsSlice(rs: seq<Record>, n: nat)
    requires n <= |rs|
    ensures SR.Payloads(rs[..n]) == SR.Payloads(rs)[..n] && SR.Payloads(rs[n..]) == SR.Payloads(rs)[n..]
  {
    hide SR.Payloads;
  }

  /** The store refines the pipe, action by action. */
  lemma StoreRefinesPipe(s: St.State, a: St.Action)
    requires St.Enabled(s, a) && St.Inv(s)
    ensures Abs(St.Apply(s, a)) == AbsApply(Abs(s), s, a)
    ensures a.WriteLog? ==> |s.batch| <= |Abs(s).queued|
  {
    hide St.Inv, St.Written, St.InFlight, St.Enabled, St.Apply, St.Accepts, SR.Payloads;
    var t := St.Apply(s, a);
    var moved, more := SR.NewWritten(s, a), SR.NewRecords(s, a);
    SR.Step(s, a);
    MovedFits(s, a);
    Split(St.Written(s), Rest(s), St.Written(t), Rest(t), moved, more);
    PayloadsSlice(Rest(s), |moved|);
    SR.PayloadsAppend(St.Written(s), moved);
    SR.PayloadsAppend(Rest(s)[|moved|..], more);
    SR.PayloadsOfNew(s, a);
    Nothing(Rest(s));
    Nothing(Abs(s).log);
    Nothing(Abs(s).queued);
    assert Abs(s).queued[0..] == Abs(s).queued && Abs(s).queued[..0] == [];
    CommitEffect(s, a);
    NoPayloads();
  }

  lemma NoPayloads()
    ensures SR.Payloads([]) == []
  {
  }

  lemma MovedFits(s: St.State, a: St.Action)
    requires St.Enabled(s, a)
    ensures |SR.NewWritten(s, a)| <= |Rest(s)|
  {
    hide LogSize;
  }

  lemma CommitEffect(s: St.State, a: St.Action)
    requires St.Enabled(s, a) && St.Inv(s)
    ensures St.Apply(s, a).committed == if a.Publish? then |St.Written(s)| else s.committed
    ensures |Abs(s).log| == |St.Written(s)| && (St.Accepts(s, a) ==> a.Append?)
  {
    hide St.SealedOk, St.ActiveOk, St.QueueOk, St.OffsetsOk, St.CacheOk, St.Cached, St.Written, St.Records, LogSize;
    SR.Numbered(s);
  }

  /** Nothing is queued or in flight exactly when the next offset to assign is the writer's tail. */
  lemma QueueEmptyIff(s: St.State)
    requires St.Inv(s)
    ensures Abs(s).queued == [] <==> s.nextOffset == s.tail
    ensures |Abs(s).log| == s.tail
  {
    hide St.SealedOk, St.ActiveOk, St.QueueOk, St.CacheOk, St.Cached, St.PhaseOk, St.Written;
    SR.Numbered(s);
  }

  // ----------------------------------------------------------------- cluster

  /** The protocol's own state, and the store of every broker. */
  datatype State = State(sys: Re.System, leader: St.State, stores: map<BrokerId, St.State>)

  ghost predicate Linked(c: State) {
    && St.Inv(c.leader) && c.sys.leader == Abs(c.leader)
    && c.stores.Keys == c.sys.followers.Keys
    && forall f :: f in c.stores ==> St.Inv(c.stores[f]) && c.sys.followers[f].pipe == Abs(c.stores[f])
  }

  datatype Move =
    | AtLeader(action: St.Action)
    | AtFollower(follower: BrokerId, action: St.Action)
    | Receive(follower: BrokerId, sync: Re.Sync, timestamp: nat)
    | Protocol(step: Re.Step)

  /** Steps of the protocol that touch no store. */
  predicate StoreFree(a: Re.Step) {
    a.LeaderNotify? || a.Defer? || a.Worker? || a.Serve? || a.FollowerFire? || a.AckArrives? || a.Evict?
  }

  predicate Enabled(c: State, m: Move) {
    match m
    case AtLeader(a) => St.Enabled(c.leader, a)
    case AtFollower(f, a) => f in c.stores && f in c.sys.followers && !a.Append? && St.Enabled(c.stores[f], a)
    case Receive(f, sync, timestamp) =>
      f in c.stores && f in c.sys.followers && sync in c.sys.syncs
      && St.Enabled(c.stores[f], St.Append(sync.payload, timestamp))
    case Protocol(a) => StoreFree(a) && Re.Enabled(c.sys, a)
  }

  function WithPipe(sys: Re.System, f: BrokerId, pipe: Re.Pipe): Re.System
    requires f in sys.followers
  {
    sys.(followers := sys.followers[f := sys.followers[f].(pipe := pipe)])
  }

  /**
   * A broker's own action moves its store; a record that arrives is compared with the store's tail
   * and, if it fits, noted for acknowledgement and appended, whatever the store says to that.
   */
  function Apply(c: State, m: Move): State
    requires Enabled(c, m)
  {
    match m
    case AtLeader(a) =>
      var s := St.Apply(c.leader, a);
      c.(leader := s, sys := c.sys.(leader := Abs(s)))
    case AtFollower(f, a) =>
      var s := St.Apply(c.stores[f], a);
      c.(stores := c.stores[f := s], sys := WithPipe(c.sys, f, Abs(s)))
    case Receive(f, sync, timestamp) =>
      if sync.offset != c.stores[f].tail then c
      else
        var a := St.Append(sync.payload, timestamp);
        var s := St.Apply(c.stores[f], a);
        var node := c.sys.followers[f];
        var origin := if St.Accepts(c.stores[f], a) then node.origin + [sync.offset] else node.origin;
        c.(stores := c.stores[f := s],
           sys := c.sys.(followers := c.sys.followers[f :=
                    Re.Node(Abs(s), node.awaiting + {sync.offset}, origin)]))
    case Protocol(a) => c.(sys := Re.Apply(c.sys, a))
  }

  /** The store a record arrives at has nothing queued: its next offset is the writer's tail. */
  predicate Guarded(c: State, m: Move) {
    m.Receive? && m.follower in c.stores ==> c.stores[m.follower].nextOffset == c.stores[m.follower].tail
  }

  /** The protocol step a move amounts to, if any. */
  function StepOf(c: State, m: Move): seq<Re.Step>
    requires Enabled(c, m)
  {
    match m
    case AtLeader(a) =>
      if St.Accepts(c.leader, a) then [Re.LeaderAppend(a.payload)]
      else if a.WriteLog? then [Re.LeaderWrite(|c.leader.batch|)]
      else if a.Publish? then [Re.LeaderPublish]
      else []
    case AtFollower(f, a) =>
      if a.WriteLog? then [Re.FollowerWrite(f, |c.stores[f].batch|)]
      else if a.Publish? then [Re.FollowerPublish(f)]
      else []
    case Receive(f, sync, timestamp) =>
      [Re.Deliver(f, sync, St.Accepts(c.stores[f], St.Append(sync.payload, timestamp)))]
    case Protocol(a) => [a]
  }

  /** At most one protocol step, enabled where the move is, leading where the move leads. */
  ghost predicate Simulates(sys: Re.System, steps: seq<Re.Step>, sys': Re.System) {
    if steps == [] then sys' == sys
    else |steps| == 1 && Re.Enabled(sys, steps[0]) && sys' == Re.Apply(sys, steps[0])
  }

  lemma LeaderMove(c: State, a: St.Action)
    requires Enabled(c, AtLeader(a)) && Linked(c)
    ensures Linked(Apply(c, AtLeader(a)))
    ensures Simulates(c.sys, StepOf(c, AtLeader(a)), Apply(c, AtLeader(a)).sys)
  {
    hide St.Inv, St.Apply, St.Enabled, Abs, St.Accepts, Re.PipeWrite, Re.PipeAppend, Re.PipePublish;
    SR.Step(c.leader, a);
    StoreRefinesPipe(c.leader, a);
  }

  /** Replacing one broker's store and its pipe together keeps the link. */
  lemma Relink(c: State, f: BrokerId, s: St.State, node: Re.Node)
    requires Linked(c) && f in c.stores && St.Inv(s) && node.pipe == Abs(s)
    ensures Linked(c.(stores := c.stores[f := s], sys := c.sys.(followers := c.sys.followers[f := node])))
  {
    hide St.Inv, Abs;
  }

  lemma Unlink(c: State, f: BrokerId)
    requires Linked(c) && f in c.stores
    ensures St.Inv(c.stores[f]) && f in c.sys.followers && c.sys.followers[f].pipe == Abs(c.stores[f])
  {
    hide St.Inv, Abs;
  }

  lemma FollowerMove(c: State, f: BrokerId, a: St.Action)
    requires Enabled(c, AtFollower(f, a)) && Linked(c)
    ensures Linked(Apply(c, AtFollower(f, a)))
    ensures Simulates(c.sys, StepOf(c, AtFollower(f, a)), Apply(c, AtFollower(f, a)).sys)
  {
    hide Linked, St.Inv, St.Apply, St.Enabled, St.Accepts, SR.NewRecords, SR.NewWritten, Abs, Re.PipeWrite;
    hide Re.PipePublish;
    Unlink(c, f);
    SR.Step(c.stores[f], a);
    StoreRefinesPipe(c.stores[f], a);
    OnlyAppends(c.stores[f], a);
    SamePipe(c.sys, f);
    var s := St.Apply(c.stores[f], a);
    Relink(c, f, s, c.sys.followers[f].(pipe := Abs(s)));
  }

  lemma OnlyAppends(s: St.State, a: St.Action)
    ensures St.Accepts(s, a) ==> a.Append?
  {
  }

  lemma SamePipe(sys: Re.System, f: BrokerId)
    requires f in sys.followers
    ensures WithPipe(sys, f, sys.followers[f].pipe) == sys
  {
  }

  lemma ReceiveMove(c: State, f: BrokerId, sync: Re.Sync, timestamp: nat)
    requires Enabled(c, Receive(f, sync, timestamp)) && Linked(c)
    ensures Linked(Apply(c, Receive(f, sync, timestamp)))
    ensures Simulates(c.sys, StepOf(c, Receive(f, sync, timestamp)), Apply(c, Receive(f, sync, timestamp)).sys)
  {
    hide Linked, St.Inv, St.Apply, St.Enabled, Abs, St.Accepts, Re.PipeAppend;
    var a := St.Append(sync.payload, timestamp);
    Unlink(c, f);
    SR.Step(c.stores[f], a);
    StoreRefinesPipe(c.stores[f], a);
    QueueEmptyIff(c.stores[f]);
    SameNode(c.sys, f);
    var s, node := St.Apply(c.stores[f], a), c.sys.followers[f];
    var origin := if St.Accepts(c.stores[f], a) then node.origin + [sync.offset] else node.origin;
    Relink(c, f, s, Re.Node(Abs(s), node.awaiting + {sync.offset}, origin));
  }

  lemma ReceiveGuarded(c: State, m: Move)
    requires Enabled(c, m) && m.Receive? && Linked(c) && Simulates(c.sys, StepOf(c, m), Apply(c, m).sys)
    ensures Guarded(c, m) ==> Du.Guarded(c.sys, StepOf(c, m)[0])
  {
    hide St.Inv, St.Apply, St.Enabled, Abs, St.Accepts, Re.Apply, Apply;
    QueueEmptyIff(c.stores[m.follower]);
  }

  lemma SameNode(sys: Re.System, f: BrokerId)
    requires f in sys.followers
    ensures sys.(followers := sys.followers[f := sys.followers[f]]) == sys
  {
  }

  lemma ProtocolMove(c: State, a: Re.Step)
    requires Enabled(c, Protocol(a)) && Linked(c)
    ensures Linked(Apply(c, Protocol(a)))
    ensures Simulates(c.sys, StepOf(c, Protocol(a)), Apply(c, Protocol(a)).sys)
  {
    hide St.Inv, Abs, OnAck, OnCommit, OnTick, LeaderCommitted;
  }

  // -------------------------------------------------------------------- runs

  function Run(c: State, moves: seq<Move>): Option<State> {
    if moves == [] then Some(c)
    else
      var n := |moves| - 1;
      var d := Run(c, moves[..n]);
      if d.Some? && Enabled(d.value, moves[n]) then Some(Apply(d.value, moves[n])) else None
  }

  predicate AllGuarded(c: State, moves: seq<Move>)
    requires Run(c, moves).Some?
  {
    moves == [] ||
      var n := |moves| - 1;
      AllGuarded(c, moves[..n]) && Guarded(Run(c, moves[..n]).value, moves[n])
  }

  /** Every move keeps stores and protocol linked and is at most one step of the protocol. */
  lemma AnyMove(c: State, m: Move)
    requires Enabled(c, m) && Linked(c)
    ensures Linked(Apply(c, m)) && Simulates(c.sys, StepOf(c, m), Apply(c, m).sys)
    ensures Guarded(c, m) && StepOf(c, m) != [] ==> Du.Guarded(c.sys, StepOf(c, m)[0])
  {
    hide Linked, Enabled, Apply, Re.Apply, Re.Enabled, Simulates, StepOf, Du.Guarded;
    match m
    case AtLeader(a) => LeaderMove(c, a); NoDelivery(c, m);
    case AtFollower(f, a) => FollowerMove(c, f, a); NoDelivery(c, m);
    case Receive(f, sync, timestamp) => ReceiveMove(c, f, sync, timestamp); ReceiveGuarded(c, m);
    case Protocol(a) => ProtocolMove(c, a); NoDelivery(c, m);
  }

  lemma NoDelivery(c: State, m: Move)
    requires Enabled(c, m) && !m.Receive? && Simulates(c.sys, StepOf(c, m), Apply(c, m).sys)
    ensures StepOf(c, m) != [] ==> Du.Guarded(c.sys, StepOf(c, m)[0])
  {
    hide St.Apply, St.Enabled, Abs, Re.Apply, Re.Enabled, St.Accepts;
  }

  lemma OneStepMore(sys: Re.System, steps: seq<Re.Step>, a: Re.Step)
    requires Du.Run(sys, steps).Some? && Re.Enabled(Du.Run(sys, steps).value, a)
    ensures Du.Run(sys, steps + [a]) == Some(Re.Apply(Du.Run(sys, steps).value, a))
    ensures Du.AllGuarded(sys, steps) && Du.Guarded(Du.Run(sys, steps).value, a) ==>
              Du.AllGuarded(sys, steps + [a])
  {
    hide Re.Enabled, Re.Apply, Du.Guarded;
    assert (steps + [a])[..|steps|] == steps;
  }

  lemma RunNothing(c: State)
    ensures Run(c, []) == Some(c)
  {
  }

  lemma RunLast(c: State, moves: seq<Move>, m: Move)
    ensures Run(c, moves + [m]) ==
            var d := Run(c, moves);
            if d.Some? && Enabled(d.value, m) then Some(Apply(d.value, m)) else None
  {
    hide Enabled, Apply;
    assert (moves + [m])[..|moves|] == moves;
  }

  lemma RunOne(c: State, m: Move)
    requires Enabled(c, m)
    ensures Run(c, [m]) == Some(Apply(c, m))
  {
    hide Enabled, Apply;
    RunNothing(c);
    RunLast(c, [], m);
    Nothing([m]);
  }

  /** Runs can be put one after the other. */
  lemma {:induction false} RunJoin(c: State, a: seq<Move>, b: seq<Move>)
    requires Run(c, a).Some?
    ensures Run(c, a + b) == Run(Run(c, a).value, b)
  {
    hide Enabled, Apply;
    if b == [] {
      Nothing(a);
    } else {
      hide Run;
      var n := |b| - 1;
      RunJoin(c, a, b[..n]);
      Assoc(a, b[..n], [b[n]]);
      assert b == b[..n] + [b[n]];
      RunLast(c, a + b[..n], b[n]);
      RunLast(Run(c, a).value, b[..n], b[n]);
    }
  }

  // ------------------------------------------------- what one broker does alone

  function AtLeaderAll(acts: seq<St.Action>): seq<Move> {
    if acts == [] then [] else AtLeaderAll(acts[..|acts| - 1]) + [AtLeader(acts[|acts| - 1])]
  }

  function AtFollowerAll(f: BrokerId, acts: seq<St.Action>): seq<Move> {
    if acts == [] then [] else AtFollowerAll(f, acts[..|acts| - 1]) + [AtFollower(f, acts[|acts| - 1])]
  }

  /** Any run of the leader's store is a run of the cluster. */
  lemma {:induction false} LeaderActs(c: State, acts: seq<St.Action>)
    requires SR.Run(c.leader, acts).Some? && c.sys.leader == Abs(c.leader)
    ensures var s := SR.Run(c.leader, acts).value;
            Run(c, AtLeaderAll(acts)) == Some(c.(leader := s, sys := c.sys.(leader := Abs(s))))
  {
    hide Run, Abs, St.Enabled, St.Apply;
    if acts == [] {
      RunNothing(c);
    } else {
      var n := |acts| - 1;
      LeaderActs(c, acts[..n]);
      RunLast(c, AtLeaderAll(acts[..n]), AtLeader(acts[n]));
    }
  }

  /** And so is any run of a follower's store that appends nothing. */
  lemma {:induction false} FollowerActs(c: State, f: BrokerId, acts: seq<St.Action>)
    requires f in c.stores && f in c.sys.followers && c.sys.followers[f].pipe == Abs(c.stores[f])
    requires SR.Run(c.stores[f], acts).Some? && forall i :: 0 <= i < |acts| ==> !acts[i].Append?
    ensures var s := SR.Run(c.stores[f], acts).value;
            Run(c, AtFollowerAll(f, acts)) == Some(c.(stores := c.stores[f := s], sys := WithPipe(c.sys, f, Abs(s))))
  {
    hide Run, Abs, St.Enabled, St.Apply;
    if acts == [] {
      RunNothing(c);
      SamePipe(c.sys, f);
      assert c.stores[f := c.stores[f]] == c.stores;
    } else {
      var n := |acts| - 1;
      FollowerActs(c, f, acts[..n]);
      RunLast(c, AtFollowerAll(f, acts[..n]), AtFollower(f, acts[n]));
      var d := Run(c, AtFollowerAll(f, acts[..n])).value;
      var s, s' := d.stores[f], SR.Run(c.stores[f], acts).value;
      assert c.stores[f := s][f := s'] == c.stores[f := s'];
      PipeTwice(c.sys, f, Abs(s), Abs(s'));
    }
  }

  lemma PipeTwice(sys: Re.System, f: BrokerId, a: Re.Pipe, b: Re.Pipe)
    requires f in sys.followers
    ensures WithPipe(WithPipe(sys, f, a), f, b) == WithPipe(sys, f, b)
  {
  }

  /** The in-sync set is never swept, as in the broker, which has no caller for it. */
  predicate NoEvict(moves: seq<Move>) {
    forall i :: 0 <= i < |moves| ==> !(moves[i].Protocol? && moves[i].step.Evict?)
  }

  lemma StillNoEvict(d: State, moves: seq<Move>, steps: seq<Re.Step>)
    requires moves != [] && Enabled(d, moves[|moves| - 1])
    ensures NoEvict(moves) ==> NoEvict(moves[..|moves| - 1])
    ensures var more := StepOf(d, moves[|moves| - 1]);
            NoEvict(moves) && Du.NoEvict(steps) && more != [] ==> Du.NoEvict(steps + [more[0]])
  {
    hide St.Enabled, St.Accepts, Re.Enabled;
  }

  /** A run of the cluster is a run of the protocol, guarded if the cluster's is. */
  lemma {:induction false} Simulation(c: State, moves: seq<Move>) returns (steps: seq<Re.Step>)
    requires Linked(c) && Run(c, moves).Some?
    ensures Linked(Run(c, moves).value) && Du.Run(c.sys, steps) == Some(Run(c, moves).value.sys)
    ensures AllGuarded(c, moves) ==> Du.AllGuarded(c.sys, steps)
    ensures NoEvict(moves) ==> Du.NoEvict(steps)
  {
    if moves == [] {
      steps := [];
    } else {
      hide Linked, Enabled, Apply, Re.Apply, Re.Enabled, Guarded, Du.Guarded, StepOf, Du.Run, Du.AllGuarded;
      hide NoEvict, Du.NoEvict;
      var n := |moves| - 1;
      steps := Simulation(c, moves[..n]);
      var d := Run(c, moves[..n]).value;
      AnyMove(d, moves[n]);
      StillNoEvict(d, moves, steps);
      var more := StepOf(d, moves[n]);
      if more != [] {
        OneStepMore(c.sys, steps, more[0]);
        steps := steps + [more[0]];
      }
    }
  }

  function Ids(n: nat): (ids: set<BrokerId>)
    ensures forall f: BrokerId :: f in ids <==> f < n
  {
    if n == 0 then {} else Ids(n - 1) + {n - 1}
  }

  /** A cluster at start-up: empty directories, roles assigned, everybody in sync. */
  function NewCluster(options: St.Options, leader: BrokerId, brokers: nat, maxLag: nat): State {
    var none := Re.Pipe([], [], 0);
    var others := Ids(brokers) - {leader};
    State(Re.System(leader, maxLag, none, 0, [], Replicas(brokers), [],
                    map f | f in others :: Re.Node(none, {}, []), {}, {}),
          St.Empty(options), map f | f in others :: St.Empty(options))
  }

  /** From there every theorem about runs of the cluster applies. */
  lemma NewClusterLinked(options: St.Options, leader: BrokerId, brokers: nat, maxLag: nat)
    requires leader < brokers
    ensures var c := NewCluster(options, leader, brokers, maxLag);
            && Linked(c) && Re.Init(c.sys) && Sn.AllInSync(c.sys) && c.stores.Keys == Ids(brokers) - {leader}
            && Abs(St.Empty(options)) == Re.Pipe([], [], 0)
  {
    hide St.Inv, St.Written, St.InFlight;
    St.EmptyInv(options);
    var s := St.Empty(options);
    SR.Numbered(s);
    assert |St.Written(s)| == 0 && |St.Accepted(s)| == 0;
  }

  /** The broker's files decode to the leader's record at this offset, under this offset, committed. */
  predicate OnDisk(c: State, f: BrokerId, offset: nat) {
    && f in c.stores && offset < c.stores[f].committed
    && var mine, theirs := St.Written(c.stores[f]), St.Written(c.leader);
    && offset < |mine| && offset < |theirs|
    && mine[offset].offset == theirs[offset].offset == offset
    && mine[offset].payload == theirs[offset].payload
  }

  /**
   * acks=all, down to the files: in every run in which records only arrive at stores with nothing
   * queued, a released acknowledgement means that the leader's segment files, and those of at least
   * the required number of other brokers, decode to the same record at that offset, committed.
   */
  lemma DurableOnDisk(c: State, moves: seq<Move>, p: Pending) returns (holders: set<BrokerId>)
    requires Linked(c) && Re.Init(c.sys) && Run(c, moves).Some? && AllGuarded(c, moves)
    requires p in LedgerAfter(Run(c, moves).value.sys.events).released
    ensures var d := Run(c, moves).value;
            && p.offset < d.leader.committed
            && |holders| >= p.required && d.sys.leaderId !in holders
            && forall f :: f in holders ==> OnDisk(d, f, p.offset)
  {
    hide Run, AllGuarded, Re.Init, Du.Run, Du.AllGuarded, LedgerAfter, Abs, St.Inv, OnDisk, Du.Holds;
    var steps := Simulation(c, moves);
    var d := Run(c, moves).value;
    holders := Du.Durable(c.sys, steps, p);
    assert d.sys.leader.committed == d.leader.committed by { AbsCommitted(d.leader); }
    forall f | f in holders ensures OnDisk(d, f, p.offset) {
      HoldsOnDisk(d, f, p.offset);
    }
  }

  /**
   * And if nobody is evicted, the files of every broker of the cluster decode to that record: the
   * promise of acks=all, met by a cluster in which everybody starts out in sync.
   */
  lemma EveryoneOnDisk(c: State, moves: seq<Move>, p: Pending)
    requires Linked(c) && Re.Init(c.sys) && Sn.AllInSync(c.sys) && Run(c, moves).Some?
    requires AllGuarded(c, moves) && NoEvict(moves)
    requires p in LedgerAfter(Run(c, moves).value.sys.events).released
    ensures var d := Run(c, moves).value;
            p.offset < d.leader.committed && forall f :: f in d.stores ==> OnDisk(d, f, p.offset)
  {
    hide Run, AllGuarded, Re.Init, Du.Run, Du.AllGuarded, LedgerAfter, Abs, St.Inv, OnDisk, Du.Holds, NoEvict;
    hide Du.NoEvict, Sn.AllInSync, Sn.Covered;
    var steps := Simulation(c, moves);
    var d := Run(c, moves).value;
    Sn.EveryFollowerHas(c.sys, steps, p);
    AbsCommitted(d.leader);
    forall f | f in d.stores ensures OnDisk(d, f, p.offset) {
      HoldsOnDisk(d, f, p.offset);
    }
  }

  lemma AbsCommitted(s: St.State)
    ensures Abs(s).committed == s.committed
  {
  }

  lemma HoldsOnDisk(c: State, f: BrokerId, offset: nat)
    requires Linked(c) && Du.Holds(c.sys, f, offset)
    ensures OnDisk(c, f, offset)
  {
    hide St.Inv, St.Written, St.Accepted, SR.Payloads, St.Records;
    SR.WrittenNumbered(c.stores[f]);
    SR.WrittenNumbered(c.leader);
  }
}
