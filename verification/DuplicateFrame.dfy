/** A run in which a repeated frame meets a queue that is not empty, and durability is lost. */
module DuplicateFrame {
  import opened Bytes
  import opened LogFormat
  import St = Store
  import SR = StoreRuns
  import opened PartitionMeta
  import opened DeferredAcks
  import Re = Replication
  import Du = Durability
  import opened Cluster

  type Payload = Re.Payload

  // --------------------------------------------------------------- one store

  const LARGEST: nat := 20 + 0x1_0000_0000

  /** Between batches, with this log on disk and these commands queued. */
  predicate Quiet(s: St.State, log: seq<Payload>, queued: seq<Payload>) {
    && s.phase.Gathering? && s.batch == [] && !s.closed
    && Abs(s) == Re.Pipe(log, queued, |log|) && s.fileBytes <= |log| * LARGEST
  }

  lemma EmptyQuiet(options: St.Options)
    ensures St.Inv(St.Empty(options)) && Quiet(St.Empty(options), [], [])
  {
    hide Abs, St.Inv;
    St.EmptyInv(options);
    NewClusterLinked(options, 0, 1, 0);
  }

  /** The queue takes one more if it holds at most one and both are small. */
  predicate Takes(options: St.Options, size: nat) {
    options.queueCapacity >= 2 && 2 * size <= options.maxPendingBytes && size < U32
  }

  lemma QuietAppend(s: St.State, log: seq<Payload>, queued: seq<Payload>, payload: Payload, timestamp: nat, size: nat)
    requires St.Inv(s) && Quiet(s, log, queued) && |queued| <= 1 && |log| <= 3 && timestamp < U64
    requires Takes(s.options, size) && |payload| <= size && forall i :: 0 <= i < |queued| ==> |queued[i]| <= size
    ensures var a := St.Append(payload, timestamp);
            && St.Enabled(s, a) && St.Accepts(s, a) && St.Inv(St.Apply(s, a))
            && Quiet(St.Apply(s, a), log, queued + [payload]) && St.Apply(s, a).options == s.options
  {
    hide Abs, St.Inv;
    var a := St.Append(payload, timestamp);
    QueueFits(s, log, queued, payload, size);
    SR.Step(s, a);
    StoreRefinesPipe(s, a);
  }

  lemma QueueFits(s: St.State, log: seq<Payload>, queued: seq<Payload>, payload: Payload, size: nat)
    requires St.Inv(s) && Quiet(s, log, queued) && |queued| <= 1 && |log| <= 3
    requires Takes(s.options, size) && |payload| <= size && forall i :: 0 <= i < |queued| ==> |queued[i]| <= size
    ensures s.nextOffset < U64 && !St.Busy(s, |payload|)
  {
    hide St.SealedOk, St.ActiveOk, St.CacheOk, St.Cached, St.PhaseOk, St.Written, SR.Payloads;
    assert Rest(s) == s.queue;
    QueueEmptyIff(s);
    QueueBytes(s.queue, queued);
    if |s.queue| == 1 { assert |s.queue[0].payload| == |queued[0]|; }
  }

  lemma QueueBytes(queue: seq<Record>, queued: seq<Payload>)
    requires SR.Payloads(queue) == queued && |queued| <= 1
    ensures |queue| == |queued| && St.PayloadBytes(queue) == if queue == [] then 0 else |queue[0].payload|
    ensures queue != [] ==> queue[0].payload == queued[0]
  {
    if queue != [] { assert queue[1..] == []; }
  }

  /** Taking one command, and writing, indexing and committing it. */
  const OneBatch: seq<St.Action> := [St.Pop, St.CloseBatch, St.WriteIndex, St.WriteLog, St.Publish]

  /** The store after that, with callbacks and rotation still to come. */
  lemma CommitOne(s: St.State, log: seq<Payload>, queued: seq<Payload>)
    requires St.Inv(s) && Quiet(s, log, queued) && queued != [] && |log| <= 3
    ensures SR.Run(s, OneBatch).Some?
    ensures var t := SR.Run(s, OneBatch).value;
            && St.Inv(t) && t.phase.Committed? && St.Enabled(t, St.Finish) && t.options == s.options
            && Abs(t) == Re.Pipe(log + [queued[0]], queued[1..], |log| + 1)
            && Quiet(St.Apply(t, St.Finish), log + [queued[0]], queued[1..]) && St.Inv(St.Apply(t, St.Finish))
            && St.Apply(t, St.Finish).options == s.options
  {
    hide Abs, St.Inv, SR.Run, LogSize;
    CanPop(s, log, queued);
    var s1 := St.Apply(s, St.Pop);
    var s2 := St.Apply(s1, St.CloseBatch);
    Sizes(s, s1, log);
    var s3 := St.Apply(s2, St.WriteIndex);
    var s4 := St.Apply(s3, St.WriteLog);
    var s5 := St.Apply(s4, St.Publish);
    var s6 := St.Apply(s5, St.Finish);
    SixRun(s, s1, s2, s3, s4, s5);
    SixRefine(s, s1, s2, s3, s4, s5, s6, log, queued);
  }

  lemma CanPop(s: St.State, log: seq<Payload>, queued: seq<Payload>)
    requires St.Inv(s) && Quiet(s, log, queued) && queued != []
    ensures s.queue != [] && St.Enabled(s, St.Pop)
  {
    hide St.SealedOk, St.ActiveOk, St.CacheOk, St.Cached, St.PhaseOk, St.Written, LogSize;
    assert Rest(s) == s.queue;
  }

  lemma Sizes(s: St.State, s1: St.State, log: seq<Payload>)
    requires St.Inv(s) && St.Enabled(s, St.Pop) && s1 == St.PopOne(s) && s.batch == [] && |log| <= 3
    requires s.fileBytes <= |log| * LARGEST
    ensures |s1.batch| == 1 && LogSize(s1.batch) <= LARGEST && s1.fileBytes + LogSize(s1.batch) < U64
  {
    hide St.SealedOk, St.ActiveOk, St.CacheOk, St.Cached, St.PhaseOk;
    var r := s.queue[0];
    assert (St.InFlight(s) + s.queue)[0] == r;
    assert s1.batch == [r] && [r][1..] == [];
  }

  lemma SixRun(s: St.State, s1: St.State, s2: St.State, s3: St.State, s4: St.State, s5: St.State)
    requires St.Enabled(s, St.Pop) && s1 == St.Apply(s, St.Pop)
    requires St.Enabled(s1, St.CloseBatch) && s2 == St.Apply(s1, St.CloseBatch)
    requires St.Enabled(s2, St.WriteIndex) && s3 == St.Apply(s2, St.WriteIndex)
    requires St.Enabled(s3, St.WriteLog) && s4 == St.Apply(s3, St.WriteLog)
    requires St.Enabled(s4, St.Publish) && s5 == St.Apply(s4, St.Publish)
    ensures SR.Run(s, OneBatch) == Some(s5)
  {
    hide SR.Run, St.Enabled, St.Apply;
    SR.RunOne(s, St.Pop);
    SR.RunLast(s, [St.Pop], St.CloseBatch);
    SR.RunLast(s, [St.Pop] + [St.CloseBatch], St.WriteIndex);
    SR.RunLast(s, [St.Pop] + [St.CloseBatch] + [St.WriteIndex], St.WriteLog);
    SR.RunLast(s, [St.Pop] + [St.CloseBatch] + [St.WriteIndex] + [St.WriteLog], St.Publish);
    assert OneBatch == [St.Pop] + [St.CloseBatch] + [St.WriteIndex] + [St.WriteLog] + [St.Publish];
  }

  lemma SixRefine(s: St.State, s1: St.State, s2: St.State, s3: St.State, s4: St.State, s5: St.State, s6: St.State,
                  log: seq<Payload>, queued: seq<Payload>)
    requires St.Inv(s) && Quiet(s, log, queued) && queued != []
    requires St.Enabled(s, St.Pop) && s1 == St.Apply(s, St.Pop)
    requires St.Enabled(s1, St.CloseBatch) && s2 == St.Apply(s1, St.CloseBatch)
    requires St.Enabled(s2, St.WriteIndex) && s3 == St.Apply(s2, St.WriteIndex)
    requires St.Enabled(s3, St.WriteLog) && s4 == St.Apply(s3, St.WriteLog)
    requires St.Enabled(s4, St.Publish) && s5 == St.Apply(s4, St.Publish)
    requires St.Enabled(s5, St.Finish) && s6 == St.Apply(s5, St.Finish)
    requires |s1.batch| == 1 && LogSize(s1.batch) <= LARGEST
    ensures Abs(s5) == Re.Pipe(log + [queued[0]], queued[1..], |log| + 1) && St.Inv(s5) && St.Inv(s6)
    ensures Quiet(s6, log + [queued[0]], queued[1..]) && s6.options == s.options
  {
    hide Abs, St.Inv, LogSize, St.Apply, St.Enabled, Re.PipeWrite, Re.PipePublish;
    SilentStep(s, St.Pop);
    SilentStep(s1, St.CloseBatch);
    SilentStep(s2, St.WriteIndex);
    SR.Step(s3, St.WriteLog);
    StoreRefinesPipe(s3, St.WriteLog);
    SR.Step(s4, St.Publish);
    StoreRefinesPipe(s4, St.Publish);
    SilentStep(s5, St.Finish);
    SixFields(s, s1, s2, s3, s4, s5, s6);
    OneWritten(log, queued);
  }

  lemma SilentStep(s: St.State, a: St.Action)
    requires St.Enabled(s, a) && St.Inv(s) && !a.Append? && !a.WriteLog? && !a.Publish?
    ensures St.Inv(St.Apply(s, a)) && Abs(St.Apply(s, a)) == Abs(s)
  {
    hide St.Inv, Abs, St.Apply, St.Enabled, Re.PipeAppend;
    SR.Step(s, a);
    StoreRefinesPipe(s, a);
  }

  lemma OneWritten(log: seq<Payload>, queued: seq<Payload>)
    requires queued != []
    ensures var p := Re.Pipe(log, queued, |log|);
            Re.PipePublish(Re.PipeWrite(p, 1)) == Re.Pipe(log + [queued[0]], queued[1..], |log| + 1)
  {
    assert queued[..1] == [queued[0]];
  }

  lemma SixFields(s: St.State, s1: St.State, s2: St.State, s3: St.State, s4: St.State, s5: St.State, s6: St.State)
    requires St.Enabled(s, St.Pop) && s1 == St.Apply(s, St.Pop)
    requires St.Enabled(s1, St.CloseBatch) && s2 == St.Apply(s1, St.CloseBatch)
    requires St.Enabled(s2, St.WriteIndex) && s3 == St.Apply(s2, St.WriteIndex)
    requires St.Enabled(s3, St.WriteLog) && s4 == St.Apply(s3, St.WriteLog)
    requires St.Enabled(s4, St.Publish) && s5 == St.Apply(s4, St.Publish)
    requires St.Enabled(s5, St.Finish) && s6 == St.Apply(s5, St.Finish)
    ensures s3.batch == s1.batch && s6.phase.Gathering? && s6.batch == [] && s6.closed == s.closed
    ensures s6.fileBytes <= s.fileBytes + LogSize(s1.batch) && s6.options == s.options
    ensures !St.Accepts(s3, St.WriteLog) && !St.Accepts(s4, St.Publish)
  {
    hide LogSize, EncodeLog, St.DueNow;
  }

  // --------------------------------------------------------------- the leader

  /** The followers, their stores and their acknowledgements are as they were. */
  predicate LeaderOnly(c: State, d: State) {
    && d.stores == c.stores && d.sys.followers == c.sys.followers && d.sys.acks == c.sys.acks
    && d.sys.leaderId == c.sys.leaderId && d.leader.options == c.leader.options
  }

  lemma LeaderTakes(c: State, log: seq<Payload>, queued: seq<Payload>, payload: Payload, size: nat)
      returns (moves: seq<Move>)
    requires Linked(c) && Quiet(c.leader, log, queued) && |queued| <= 1 && |log| <= 3
    requires Takes(c.leader.options, size) && |payload| <= size && forall i :: 0 <= i < |queued| ==> |queued[i]| <= size
    ensures Run(c, moves).Some?
    ensures var d := Run(c, moves).value;
            && Linked(d) && LeaderOnly(c, d) && Quiet(d.leader, log, queued + [payload])
            && d.sys == c.sys.(leader := Re.Pipe(log, queued + [payload], |log|))
  {
    hide Run, Linked, Abs, St.Inv, St.Enabled, St.Apply;
    LinkedLeader(c);
    QuietAppend(c.leader, log, queued, payload, 0, size);
    var m := AtLeader(St.Append(payload, 0));
    RunOne(c, m);
    moves := [m];
    ghost var steps := Simulation(c, moves);
  }

  lemma LinkedLeader(c: State)
    requires Linked(c)
    ensures St.Inv(c.leader) && c.sys.leader == Abs(c.leader)
  {
    hide St.Inv, Abs;
  }

  /** The leader commits its next record, tells the worker, and the worker streams it. */
  lemma LeaderCommits(c: State, log: seq<Payload>, queued: seq<Payload>) returns (moves: seq<Move>)
    requires Linked(c) && Quiet(c.leader, log, queued) && queued != [] && |log| <= 3
    requires c.sys.commits == [] && c.sys.notified == |log|
    ensures Run(c, moves).Some?
    ensures var d, a := Run(c, moves).value, queued[0];
            && Linked(d) && LeaderOnly(c, d) && Quiet(d.leader, log + [a], queued[1..])
            && d.sys.commits == [] && d.sys.notified == |log| + 1
            && d.sys.events == c.sys.events + [LeaderCommit(|log|, 1)]
            && d.sys.syncs == c.sys.syncs + {Re.Sync(|log|, a)}
  {
    hide Run, Linked, Abs, St.Inv, SR.Run, St.Enabled, St.Apply, OnCommit, Re.Frames;
    LinkedLeader(c);
    CommitOne(c.leader, log, queued);
    LeaderActs(c, OneBatch);
    var t := SR.Run(c.leader, OneBatch).value;
    var c1 := c.(leader := t, sys := c.sys.(leader := Abs(t)));
    var m1 := AtLeaderAll(OneBatch);
    RunLast(c, m1, Protocol(Re.LeaderNotify));
    Nothing([Re.Batch(|log|, 1)]);
    var m2 := m1 + [Protocol(Re.LeaderNotify)];
    var c2 := c1.(sys := c1.sys.(commits := [Re.Batch(|log|, 1)], notified := |log| + 1));
    assert Run(c, m2) == Some(c2);
    RunLast(c, m2, AtLeader(St.Finish));
    var m3 := m2 + [AtLeader(St.Finish)];
    var u := St.Apply(t, St.Finish);
    var c3 := c2.(leader := u, sys := c2.sys.(leader := Abs(u)));
    assert Run(c, m3) == Some(c3);
    RunLast(c, m3, Protocol(Re.Worker));
    LastFrame(log, queued[0]);
    moves := m3 + [Protocol(Re.Worker)];
    assert [Re.Batch(|log|, 1)][1..] == [];
    ghost var steps := Simulation(c, moves);
  }

  lemma LastFrame(log: seq<Payload>, a: Payload)
    ensures Re.Frames(log + [a], |log|, 1) == {Re.Sync(|log|, a)}
  {
    var all := log + [a];
    forall m ensures m in Re.Frames(all, |log|, 1) <==> m in {Re.Sync(|log|, a)} {
      if m == Re.Sync(|log|, a) { assert m == Re.Sync(|log|, all[|log|]); }
    }
  }

  // --------------------------------------------------------------- a follower

  /** The leader, its ledger and all that was sent are as they were. */
  predicate FollowerOnly(c: State, d: State) {
    && d.leader == c.leader && d.sys.leader == c.sys.leader && d.sys.events == c.sys.events
    && d.sys.syncs == c.sys.syncs && c.sys.acks <= d.sys.acks && d.sys.leaderId == c.sys.leaderId
    && d.stores.Keys == c.stores.Keys && d.sys.followers.Keys == c.sys.followers.Keys
  }

  /** A record arrives under the offset of the follower's tail, whatever is queued there. */
  lemma FollowerTakes(c: State, f: BrokerId, log: seq<Payload>, queued: seq<Payload>, payload: Payload, size: nat)
      returns (moves: seq<Move>)
    requires Linked(c) && f in c.stores && f in c.sys.followers && Quiet(c.stores[f], log, queued)
    requires |queued| <= 1 && |log| <= 3 && Re.Sync(|log|, payload) in c.sys.syncs
    requires Takes(c.stores[f].options, size) && |payload| <= size
    requires forall i :: 0 <= i < |queued| ==> |queued[i]| <= size
    ensures Run(c, moves).Some?
    ensures var d := Run(c, moves).value;
            && Linked(d) && FollowerOnly(c, d) && Quiet(d.stores[f], log, queued + [payload])
            && d.stores[f].options == c.stores[f].options
            && d.sys.followers[f].awaiting == c.sys.followers[f].awaiting + {|log|}
  {
    hide Run, Linked, Abs, St.Inv, St.Enabled, St.Apply, St.Accepts;
    Unlink(c, f);
    QuietAppend(c.stores[f], log, queued, payload, 0, size);
    QueueEmptyIff(c.stores[f]);
    var m := Receive(f, Re.Sync(|log|, payload), 0);
    RunOne(c, m);
    moves := [m];
    ghost var steps := Simulation(c, moves);
  }

  /** It commits its next record and acknowledges what that covers. */
  lemma FollowerCommits(c: State, f: BrokerId, log: seq<Payload>, queued: seq<Payload>) returns (moves: seq<Move>)
    requires Linked(c) && f in c.stores && f in c.sys.followers && Quiet(c.stores[f], log, queued)
    requires queued != [] && |log| <= 3
    ensures Run(c, moves).Some?
    ensures var d, n := Run(c, moves).value, |log| + 1;
            && Linked(d) && FollowerOnly(c, d) && Quiet(d.stores[f], log + [queued[0]], queued[1..])
            && d.stores[f].options == c.stores[f].options
            && d.sys.followers[f].awaiting == (set o | o in c.sys.followers[f].awaiting && o >= n)
            && (forall o :: o in c.sys.followers[f].awaiting && o < n ==> Re.AckFrame(f, o + 1) in d.sys.acks)
  {
    hide Run, Linked, Abs, St.Inv, SR.Run, St.Enabled, St.Apply;
    Unlink(c, f);
    CommitOne(c.stores[f], log, queued);
    FollowerActs(c, f, OneBatch);
    var t := SR.Run(c.stores[f], OneBatch).value;
    var c1 := c.(stores := c.stores[f := t], sys := WithPipe(c.sys, f, Abs(t)));
    var m1 := AtFollowerAll(f, OneBatch);
    var end := FireAndFinish(c1, f, |log| + 1);
    RunJoin(c, m1, end);
    moves := m1 + end;
    ghost var steps := Simulation(c, moves);
  }

  /** Callbacks fire between the commit and the end of the batch. */
  lemma FireAndFinish(c: State, f: BrokerId, n: nat) returns (moves: seq<Move>)
    requires f in c.stores && f in c.sys.followers && St.Enabled(c.stores[f], St.Finish)
    requires c.sys.followers[f].pipe.committed == n
    ensures Run(c, moves).Some?
    ensures var d := Run(c, moves).value;
            && FollowerOnly(c, d) && d.stores[f] == St.Apply(c.stores[f], St.Finish)
            && d.sys.followers[f].awaiting == (set o | o in c.sys.followers[f].awaiting && o >= n)
            && (forall o :: o in c.sys.followers[f].awaiting && o < n ==> Re.AckFrame(f, o + 1) in d.sys.acks)
  {
    hide Run, Abs, St.Enabled, St.Apply, Re.DueAcks, Re.AckFrames;
    Fired(f, c.sys.followers[f]);
    RunOne(c, Protocol(Re.FollowerFire(f)));
    RunLast(c, [Protocol(Re.FollowerFire(f))], AtFollower(f, St.Finish));
    moves := [Protocol(Re.FollowerFire(f))] + [AtFollower(f, St.Finish)];
  }

  lemma Fired(f: BrokerId, node: Re.Node)
    ensures node.awaiting - Re.DueAcks(node) == (set o | o in node.awaiting && o >= node.pipe.committed)
    ensures forall o :: o in node.awaiting && o < node.pipe.committed ==> Re.AckFrame(f, o + 1) in Re.AckFrames(f, node)
  {
    forall o | o in node.awaiting && o < node.pipe.committed
      ensures Re.AckFrame(f, o + 1) in Re.AckFrames(f, node)
    {
      assert o in Re.DueAcks(node);
    }
  }

  // --------------------------------------------------------------- the run

  lemma TwoInSync()
    ensures Re.Required(Replicas(2)) == 1
  {
    var rs := Replicas(2);
    assert rs[..1][..0] == [];
    assert IsrIds(rs[..1]) == [0];
    assert IsrIds(rs) == [0, 1];
  }

  /** The leader accepts two records, holds the second's acknowledgement back, and commits both. */
  lemma LeaderPart(c: State, a: Payload, b: Payload, size: nat, token: Token) returns (moves: seq<Move>)
    requires Linked(c) && Quiet(c.leader, [], []) && Takes(c.leader.options, size) && |a| <= size && |b| <= size
    requires c.sys.commits == [] && c.sys.notified == 0 && c.sys.replicas == Replicas(2)
    requires token.offset == 1 && token.required == 1
    ensures Run(c, moves).Some?
    ensures var d := Run(c, moves).value;
            && Linked(d) && LeaderOnly(c, d) && Quiet(d.leader, [a, b], [])
            && d.sys.events == c.sys.events + [Register(token)] + [LeaderCommit(0, 1)] + [LeaderCommit(1, 1)]
            && {Re.Sync(0, a), Re.Sync(1, b)} <= d.sys.syncs
  {
    hide Run, Linked, Abs, St.Inv, Quiet, Re.Required, Replicas;
    TwoInSync();
    var m1 := LeaderTakes(c, [], [], a, size);
    var c1 := Run(c, m1).value;
    assert [] + [a] == [a] && [a] + [b] == [a, b] && [a, b][1..] == [b] && [b][1..] == [];
    var m2 := LeaderTakes(c1, [], [a], b, size);
    RunJoin(c, m1, m2);
    var c2 := Run(c, m1 + m2).value;
    var m3 := Deferring(c2, token, [a, b]);
    RunJoin(c, m1 + m2, m3);
    var c3 := Run(c, m1 + m2 + m3).value;
    var m4 := LeaderCommits(c3, [], [a, b]);
    RunJoin(c, m1 + m2 + m3, m4);
    var c4 := Run(c, m1 + m2 + m3 + m4).value;
    var m5 := LeaderCommits(c4, [a], [b]);
    RunJoin(c, m1 + m2 + m3 + m4, m5);
    moves := m1 + m2 + m3 + m4 + m5;
  }

  lemma Deferring(c: State, token: Token, queued: seq<Payload>) returns (moves: seq<Move>)
    requires Linked(c) && token.offset < |queued| && c.sys.leader == Re.Pipe([], queued, 0)
    requires token.required == Re.Required(c.sys.replicas)
    ensures Run(c, moves).Some?
    ensures var d := Run(c, moves).value;
            Linked(d) && d == c.(sys := c.sys.(events := c.sys.events + [Register(token)]))
  {
    hide Run, Linked, Abs, St.Inv, Re.Required;
    var m := Protocol(Re.Defer(token));
    assert |Re.Everything(c.sys.leader)| == |queued|;
    RunOne(c, m);
    moves := [m];
    ghost var steps := Simulation(c, moves);
  }

  /** A follower that asks for the log gets every record a second time. */
  lemma Serving(c: State, n: nat) returns (moves: seq<Move>)
    requires Linked(c) && n <= |c.sys.leader.log|
    ensures Run(c, moves).Some?
    ensures var d := Run(c, moves).value;
            Linked(d) && d == c.(sys := c.sys.(syncs := d.sys.syncs)) && c.sys.syncs <= d.sys.syncs
  {
    hide Run, Linked, Abs, St.Inv, Re.Frames;
    var m := Protocol(Re.Serve(0, n));
    RunOne(c, m);
    moves := [m];
    ghost var steps := Simulation(c, moves);
  }

  /** The follower takes the first record twice before writing any, then the second behind them. */
  lemma FollowerPart(c: State, a: Payload, b: Payload, size: nat) returns (moves: seq<Move>)
    requires Linked(c) && 1 in c.stores && 1 in c.sys.followers && Quiet(c.stores[1], [], [])
    requires Takes(c.stores[1].options, size) && |a| <= size && |b| <= size
    requires c.sys.followers[1].awaiting == {} && {Re.Sync(0, a), Re.Sync(1, b)} <= c.sys.syncs
    ensures Run(c, moves).Some?
    ensures var d := Run(c, moves).value;
            && Linked(d) && FollowerOnly(c, d) && Quiet(d.stores[1], [a, a], [b])
            && Re.AckFrame(1, 2) in d.sys.acks
  {
    hide Run, Linked, Abs, St.Inv, Quiet;
    assert [] + [a] == [a] && [a] + [a] == [a, a] && [a, a][1..] == [a];
    assert [a] + [b] == [a, b] && [a, b][1..] == [b];
    var m1 := FollowerTakes(c, 1, [], [], a, size);
    var c1 := Run(c, m1).value;
    var m2 := FollowerTakes(c1, 1, [], [a], a, size);
    RunJoin(c, m1, m2);
    var c2 := Run(c, m1 + m2).value;
    var m3 := FollowerCommits(c2, 1, [], [a, a]);
    RunJoin(c, m1 + m2, m3);
    var c3 := Run(c, m1 + m2 + m3).value;
    var m4 := FollowerTakes(c3, 1, [a], [a], b, size);
    RunJoin(c, m1 + m2 + m3, m4);
    var c4 := Run(c, m1 + m2 + m3 + m4).value;
    assert 1 in c4.sys.followers[1].awaiting;
    var m5 := FollowerCommits(c4, 1, [a], [a, b]);
    RunJoin(c, m1 + m2 + m3 + m4, m5);
    moves := m1 + m2 + m3 + m4 + m5;
  }

  lemma Acknowledging(c: State) returns (moves: seq<Move>)
    requires Linked(c) && Re.AckFrame(1, 2) in c.sys.acks
    ensures Run(c, moves).Some?
    ensures var d := Run(c, moves).value;
            && Linked(d) && d.leader == c.leader && d.stores == c.stores
            && d.sys.events == c.sys.events + [FollowerAck(1, 2)]
  {
    hide Run, Linked, Abs, St.Inv, OnAck, LeaderCommitted;
    var m := Protocol(Re.AckArrives(Re.AckFrame(1, 2)));
    RunOne(c, m);
    moves := [m];
    ghost var steps := Simulation(c, moves);
  }

  lemma Released(token: Token) returns (p: Pending)
    requires token.offset == 1 && token.required == 1
    ensures var commits := [] + [Register(token)] + [LeaderCommit(0, 1)] + [LeaderCommit(1, 1)];
            p in LedgerAfter(commits + [FollowerAck(1, 2)]).released
    ensures TokenOf(p) == token
  {
    hide LedgerAfter;
    var e0: seq<Event> := [];
    RegisteredWaits(e0, token);
    EntryStep(e0 + [Register(token)], LeaderCommit(0, 1), Fresh(token));
    EntryStep(e0 + [Register(token)] + [LeaderCommit(0, 1)], LeaderCommit(1, 1), Fresh(token));
    var q := Fresh(token).(leaderCommitted := true);
    EntryStep(e0 + [Register(token)] + [LeaderCommit(0, 1)] + [LeaderCommit(1, 1)], FollowerAck(1, 2), q);
    p := q.(acked := {} + {1}, isrAcked := 1);
  }

  /**
   * For any two different records: a run of two brokers from empty directories, every move of it
   * one that the stores and the protocol take, after which the second record's acknowledgement has
   * been released although the files of the one follower that was required do not hold it.
   */
  lemma DurabilityLost(options: St.Options, maxLag: nat, a: Payload, b: Payload, size: nat)
      returns (moves: seq<Move>, p: Pending)
    requires a != b && |a| <= size && |b| <= size && Takes(options, size)
    ensures Run(NewCluster(options, 0, 2, maxLag), moves).Some?
    ensures var d := Run(NewCluster(options, 0, 2, maxLag), moves).value;
            && p in LedgerAfter(d.sys.events).released && p.offset == 1 && p.required == 1
            && d.leader.committed == 2 && d.stores.Keys == {1}
            && forall f :: f in d.stores ==> !OnDisk(d, f, p.offset)
    ensures !AllGuarded(NewCluster(options, 0, 2, maxLag), moves)
  {
    hide Run, Linked, Abs, St.Inv, LedgerAfter, Re.Init, OnDisk, Quiet, AllGuarded;
    var token := Token(1, [0], 7, 1);
    var c := NewCluster(options, 0, 2, maxLag);
    NewClusterLinked(options, 0, 2, maxLag);
    EmptyQuiet(options);
    var m1 := LeaderPart(c, a, b, size, token);
    var c1 := Run(c, m1).value;
    WrittenBy(c1.leader, [a, b], []);
    LinkedLeader(c1);
    var m2 := Serving(c1, 2);
    RunJoin(c, m1, m2);
    var c2 := Run(c, m1 + m2).value;
    var m3 := FollowerPart(c2, a, b, size);
    RunJoin(c, m1 + m2, m3);
    var c3 := Run(c, m1 + m2 + m3).value;
    var m4 := Acknowledging(c3);
    RunJoin(c, m1 + m2 + m3, m4);
    moves := m1 + m2 + m3 + m4;
    var d := Run(c, moves).value;
    p := Released(token);
    assert d.stores.Keys == {1};
    NotOnDisk(d, a, b);
    if AllGuarded(c, moves) {
      var holders := DurableOnDisk(c, moves, p);
      NoHolder(d, holders, p.offset);
    }
  }

  lemma NoHolder(d: State, holders: set<BrokerId>, offset: nat)
    requires forall f :: f in d.stores ==> !OnDisk(d, f, offset)
    requires forall f :: f in holders ==> OnDisk(d, f, offset)
    ensures holders == {}
  {
  }

  lemma WrittenBy(s: St.State, log: seq<Payload>, queued: seq<Payload>)
    requires Quiet(s, log, queued)
    ensures SR.Payloads(St.Written(s)) == log && s.committed == |log| && |Abs(s).log| == |log|
  {
    hide St.Written;
  }

  lemma NotOnDisk(d: State, a: Payload, b: Payload)
    requires 1 in d.stores && a != b && Quiet(d.stores[1], [a, a], [b]) && Quiet(d.leader, [a, b], [])
    ensures !OnDisk(d, 1, 1) && d.leader.committed == 2
  {
    hide Quiet, St.Written, SR.Payloads;
    WrittenBy(d.stores[1], [a, a], [b]);
    WrittenBy(d.leader, [a, b], []);
    var mine, theirs := St.Written(d.stores[1]), St.Written(d.leader);
    assert SR.Payloads(mine)[1] == a && SR.Payloads(theirs)[1] == b;
  }
}
