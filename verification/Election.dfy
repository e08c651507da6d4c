/** Leadership of one partition: who is seeded as leader, and what election claims can change. */
module Election {
  import opened Bytes
  import opened PartitionMeta

  /**
   * One broker's view of the partition. `hasClient` says whether it runs a replication client, which
   * every broker but the seeded leader does; `campaigning` that it has raised its epoch but not yet
   * sent its claim; `accepted` remembers every leader it ever took, with the epoch it took it in and
   * what it had committed itself by then.
   */
  datatype Broker = Broker(role: Role, leaderId: BrokerId, epoch: nat, committed: nat, hasPartition: bool,
                           hasClient: bool, campaigning: bool, accepted: set<Claimed>)

  datatype Claimed = Claimed(epoch: nat, leader: BrokerId, had: nat)

  datatype Claim = Claim(candidate: BrokerId, epoch: nat, committed: nat)

  datatype System = System(brokers: seq<Broker>, claims: set<Claim>)

  datatype Step =
    | Campaign(b: BrokerId)                  // lock, become candidate, raise the epoch
    | Broadcast(b: BrokerId)                 // read the epoch again, without the lock, and send
    | Hear(b: BrokerId, claim: Claim)        // any claim ever sent, any number of times
    | Commit(b: BrokerId, committed: nat)

  // ------------------------------------------------------------------- seeding

  function SeededLeader(partition: nat, brokers: nat): BrokerId
    requires brokers > 0
  {
    partition % brokers
  }

  function RoleOf(broker: BrokerId, leader: BrokerId): Role {
    if leader == broker then Leader else Follower
  }

  predicate Init(s: System, partition: nat) {
    && s.brokers != [] && s.claims == {}
    && forall b :: 0 <= b < |s.brokers| ==>
         var leader := SeededLeader(partition, |s.brokers|);
         && s.brokers[b].leaderId == leader && s.brokers[b].role == RoleOf(b, leader)
         && s.brokers[b].epoch == 0 && s.brokers[b].accepted == {} && !s.brokers[b].campaigning
         && s.brokers[b].hasClient == (b != leader)
  }

  // -------------------------------------------------------------------- steps

  predicate Enabled(s: System, a: Step) {
    match a
    case Campaign(b) => b < |s.brokers| && s.brokers[b].hasClient && s.brokers[b].epoch + 1 < U32
    case Broadcast(b) => b < |s.brokers| && s.brokers[b].campaigning
    case Hear(b, claim) => b < |s.brokers| && claim in s.claims
    case Commit(b, committed) => b < |s.brokers| && committed >= s.brokers[b].committed
  }

  function Campaigned(m: Broker): Broker {
    if !m.hasPartition || m.role.Candidate? then m
    else m.(role := Candidate, epoch := m.epoch + 1, campaigning := true)
  }

  /** A claim counts if its epoch is new and its sender has committed no less. */
  predicate Accepts(m: Broker, claim: Claim) {
    claim.epoch > m.epoch && !(m.hasPartition && claim.committed < m.committed)
  }

  function Heard(b: BrokerId, m: Broker, claim: Claim): Broker {
    if !Accepts(m, claim) then m
    else m.(epoch := claim.epoch, leaderId := claim.candidate, role := RoleOf(b, claim.candidate),
            accepted := m.accepted + {Claimed(claim.epoch, claim.candidate, Has(m))})
  }

  /** What a broker has committed of the partition, which is nothing if it does not have it. */
  function Has(m: Broker): nat {
    if m.hasPartition then m.committed else 0
  }

  function Apply(s: System, a: Step): (t: System)
    requires Enabled(s, a)
    ensures |t.brokers| == |s.brokers|
  {
    match a
    case Campaign(b) => s.(brokers := s.brokers[b := Campaigned(s.brokers[b])])
    case Broadcast(b) =>
      var m := s.brokers[b];
      System(s.brokers[b := m.(campaigning := false)], s.claims + {Claim(b, m.epoch, m.committed)})
    case Hear(b, claim) => s.(brokers := s.brokers[b := Heard(b, s.brokers[b], claim)])
    case Commit(b, committed) => s.(brokers := s.brokers[b := s.brokers[b].(committed := committed)])
  }

  // ---------------------------------------------------------------- invariant

  /**
   * A broker leads only if it was seeded to, and then takes itself for the leader. Only brokers with
   * the partition and a client campaign, and they have one campaign going at a time.
   */
  predicate BrokerOk(b: BrokerId, m: Broker, seeded: BrokerId) {
    && (m.role.Leader? ==> b == seeded && m.leaderId == b)
    && (m.hasClient ==> b != seeded)
    && (m.role.Candidate? || m.campaigning ==> m.hasPartition && m.hasClient)
    && (m.role.Candidate? ==> m.epoch > 0)
    && TermOk(m, if m.role.Candidate? then m.epoch - 1 else m.epoch)
    && (forall k :: k in m.accepted ==> k.leader != b && k.had <= m.committed)
    && (forall k, l :: k in m.accepted && l in m.accepted && k.epoch == l.epoch ==> k == l)
  }

  /** The newest epoch a leader was taken in, or the first epoch if none was. */
  predicate TermOk(m: Broker, term: int) {
    && (forall k :: k in m.accepted ==> k.epoch <= term)
    && (term == 0 || exists k :: k in m.accepted && k.epoch == term)
  }

  /** Claims come from brokers that may campaign, and claim no epoch and no record they do not have. */
  predicate ClaimsOk(s: System) {
    forall c :: c in s.claims ==> c.candidate < |s.brokers| && ClaimOk(s.brokers[c.candidate], c)
  }

  predicate ClaimOk(m: Broker, c: Claim) {
    m.hasPartition && m.hasClient && c.epoch <= m.epoch && c.committed <= m.committed
  }

  /** Somebody claimed this leadership, and to have committed as much as the broker that took it. */
  predicate WasClaimed(claims: set<Claim>, k: Claimed) {
    exists c :: c in claims && c.candidate == k.leader && c.epoch == k.epoch && c.committed >= k.had
  }

  /** A broker takes a leader only from a claim. */
  predicate AcceptedOk(m: Broker, claims: set<Claim>) {
    forall k :: k in m.accepted ==> WasClaimed(claims, k)
  }

  predicate AllAcceptedOk(s: System) {
    forall b :: 0 <= b < |s.brokers| ==> AcceptedOk(s.brokers[b], s.claims)
  }

  predicate Inv(s: System, seeded: BrokerId) {
    ClaimsOk(s) && AllAcceptedOk(s) && forall b :: 0 <= b < |s.brokers| ==> BrokerOk(b, s.brokers[b], seeded)
  }

  /** Epochs and commits only rise, leaders taken are remembered, and nobody becomes a leader. */
  predicate Onward(m: Broker, n: Broker) {
    && n.epoch >= m.epoch && n.committed >= m.committed && m.accepted <= n.accepted
    && n.hasPartition == m.hasPartition && n.hasClient == m.hasClient
    && (n.role.Leader? ==> m.role.Leader?)
  }

  lemma HeardOk(b: BrokerId, m: Broker, claim: Claim, seeded: BrokerId)
    requires BrokerOk(b, m, seeded) && (claim.candidate == b ==> claim.epoch <= m.epoch)
    ensures BrokerOk(b, Heard(b, m, claim), seeded)
    ensures Onward(m, Heard(b, m, claim))
  {
    if Accepts(m, claim) {
      assert Claimed(claim.epoch, claim.candidate, Has(m)) in Heard(b, m, claim).accepted;
    }
  }

  lemma StepInv(s: System, a: Step, seeded: BrokerId)
    requires Enabled(s, a) && Inv(s, seeded)
    ensures Inv(Apply(s, a), seeded)
    ensures s.claims <= Apply(s, a).claims
    ensures forall b :: 0 <= b < |s.brokers| ==> Onward(s.brokers[b], Apply(s, a).brokers[b])
  {
    hide BrokerOk, AllAcceptedOk;
    AcceptedStep(s, a);
    match a
    case Campaign(b) => CampaignedOk(b, s.brokers[b], seeded);
    case Broadcast(b) => FlagOk(b, s.brokers[b], seeded);
    case Hear(b, claim) => HeardOk(b, s.brokers[b], claim, seeded);
    case Commit(b, committed) => CommitOk(b, s.brokers[b], committed, seeded);
  }

  lemma AcceptedStep(s: System, a: Step)
    requires Enabled(s, a) && AllAcceptedOk(s)
    ensures AllAcceptedOk(Apply(s, a))
  {
    hide WasClaimed;
    var t := Apply(s, a);
    forall b | 0 <= b < |t.brokers|
      ensures AcceptedOk(t.brokers[b], t.claims)
    {
      forall k | k in t.brokers[b].accepted
        ensures WasClaimed(t.claims, k)
      {
        if k in s.brokers[b].accepted {
          MoreClaims(s.claims, t.claims, k);
        } else {
          HeardClaim(s.brokers[b], a.claim, t.claims);
        }
      }
    }
  }

  lemma MoreClaims(claims: set<Claim>, more: set<Claim>, k: Claimed)
    requires WasClaimed(claims, k) && claims <= more
    ensures WasClaimed(more, k)
  {
  }

  lemma HeardClaim(m: Broker, claim: Claim, claims: set<Claim>)
    requires claim in claims && Accepts(m, claim)
    ensures WasClaimed(claims, Claimed(claim.epoch, claim.candidate, Has(m)))
  {
  }

  lemma CampaignedOk(b: BrokerId, m: Broker, seeded: BrokerId)
    requires BrokerOk(b, m, seeded) && m.hasClient
    ensures BrokerOk(b, Campaigned(m), seeded)
  {
  }

  lemma FlagOk(b: BrokerId, m: Broker, seeded: BrokerId)
    requires BrokerOk(b, m, seeded)
    ensures BrokerOk(b, m.(campaigning := false), seeded) && (m.campaigning ==> m.hasPartition && m.hasClient)
  {
  }

  lemma CommitOk(b: BrokerId, m: Broker, committed: nat, seeded: BrokerId)
    requires BrokerOk(b, m, seeded) && committed >= m.committed
    ensures BrokerOk(b, m.(committed := committed), seeded)
  {
  }

  // ------------------------------------------------------------------- claims

  /**
   * A claim of an epoch that is not new, or of less than the hearing broker has committed, changes
   * nothing at all. Any other makes it follow the claimant, and changes no other broker.
   */
  lemma HearExact(s: System, b: BrokerId, c: Claim)
    requires Enabled(s, Hear(b, c))
    ensures var t, m := Apply(s, Hear(b, c)), s.brokers[b];
            if c.epoch <= m.epoch || (m.hasPartition && c.committed < m.committed) then t == s
            else
              && t.claims == s.claims && (forall o :: 0 <= o < |s.brokers| && o != b ==> t.brokers[o] == s.brokers[o])
              && t.brokers[b] == Broker(if c.candidate == b then Leader else Follower, c.candidate, c.epoch,
                                        m.committed, m.hasPartition, m.hasClient, m.campaigning,
                                        m.accepted + {Claimed(c.epoch, c.candidate, Has(m))})
  {
    assert s.brokers[b := s.brokers[b]] == s.brokers;
  }

  /** A campaign wins over every broker in an older epoch that has committed no more, once it hears of it. */
  lemma CampaignWins(s: System, b: BrokerId, a: BrokerId)
    requires b < |s.brokers| && a < |s.brokers| && a != b && s.brokers[a].epoch <= s.brokers[b].epoch
    requires s.brokers[b].hasPartition && s.brokers[b].hasClient && !s.brokers[b].role.Candidate?
    requires s.brokers[b].epoch + 1 < U32
    requires s.brokers[a].hasPartition ==> s.brokers[a].committed <= s.brokers[b].committed
    ensures var claim := Claim(b, s.brokers[b].epoch + 1, s.brokers[b].committed);
            var r := Run(s, [Campaign(b), Broadcast(b), Hear(a, claim)]);
            && r.Some? && r.value.claims == s.claims + {claim}
            && r.value.brokers[a].leaderId == b && r.value.brokers[a].role == Follower
            && r.value.brokers[a].epoch == r.value.brokers[b].epoch == s.brokers[b].epoch + 1
            && r.value.brokers[b].role == Candidate && r.value.brokers[b].leaderId == s.brokers[b].leaderId
  {
    hide Run;
    var claim := Claim(b, s.brokers[b].epoch + 1, s.brokers[b].committed);
    RunNothing(s);
    RunMore(s, [], Campaign(b));
    assert [] + [Campaign(b)] == [Campaign(b)];
    RunMore(s, [Campaign(b)], Broadcast(b));
    assert [Campaign(b)] + [Broadcast(b)] == [Campaign(b), Broadcast(b)];
    RunMore(s, [Campaign(b), Broadcast(b)], Hear(a, claim));
    assert [Campaign(b), Broadcast(b)] + [Hear(a, claim)] == [Campaign(b), Broadcast(b), Hear(a, claim)];
  }

  /** A broker that has the partition and goes on to commit more than a claim says is lost to that claim. */
  lemma CommitRefuses(s: System, b: BrokerId, committed: nat, c: Claim)
    requires b < |s.brokers| && s.brokers[b].hasPartition && c in s.claims
    requires s.brokers[b].committed <= committed && c.committed < committed
    ensures Run(s, [Step.Commit(b, committed), Hear(b, c)])
         == Some(s.(brokers := s.brokers[b := s.brokers[b].(committed := committed)]))
  {
    hide Run;
    var a := Step.Commit(b, committed);
    RunNothing(s);
    RunMore(s, [], a);
    assert [] + [a] == [a];
    RunMore(s, [a], Hear(b, c));
    assert [a] + [Hear(b, c)] == [a, Hear(b, c)];
    HearExact(Apply(s, a), b, c);
  }

  // --------------------------------------------------------------------- runs

  function Run(s: System, steps: seq<Step>): (r: Option<System>)
    ensures r.Some? ==> |r.value.brokers| == |s.brokers|
  {
    if steps == [] then Some(s)
    else
      var n := |steps| - 1;
      var t := Run(s, steps[..n]);
      if t.Some? && Enabled(t.value, steps[n]) then Some(Apply(t.value, steps[n])) else None
  }

  lemma {:induction false} RunInv(s: System, steps: seq<Step>, seeded: BrokerId)
    requires Inv(s, seeded) && Run(s, steps).Some?
    ensures var t := Run(s, steps).value;
            && Inv(t, seeded) && |t.brokers| == |s.brokers| && s.claims <= t.claims
            && forall b :: 0 <= b < |s.brokers| ==> Onward(s.brokers[b], t.brokers[b])
  {
    if steps != [] {
      hide Inv, Enabled, Apply;
      var n := |steps| - 1;
      RunInv(s, steps[..n], seeded);
      StepInv(Run(s, steps[..n]).value, steps[n], seeded);
    }
  }

  lemma InitInv(s: System, partition: nat)
    requires Init(s, partition)
    ensures Inv(s, SeededLeader(partition, |s.brokers|))
  {
  }

  predicate Leads(s: System, b: BrokerId) {
    b < |s.brokers| && s.brokers[b].role.Leader?
  }

  /**
   * Whatever claims are made, and however they are delivered: at most one broker is leader, it is
   * the seeded one and takes itself for the leader; and no broker takes two leaders in one epoch.
   */
  lemma OneWriter(s: System, partition: nat, steps: seq<Step>)
    requires Init(s, partition) && Run(s, steps).Some?
    ensures var t := Run(s, steps).value;
            && (forall b: BrokerId, c: BrokerId :: Leads(t, b) && Leads(t, c) ==> b == c)
            && (forall b: BrokerId :: Leads(t, b) ==> t.brokers[b].leaderId == b)
            && (forall b, k, l :: 0 <= b < |t.brokers| && k in t.brokers[b].accepted && l in t.brokers[b].accepted
                 ==> k.epoch == l.epoch ==> k.leader == l.leader)
  {
    hide Run;
    InitInv(s, partition);
    RunInv(s, steps, SeededLeader(partition, |s.brokers|));
  }

  /**
   * Leadership is never regained: once a run has left the seeded leader without its role, no later
   * state of it has a leader at all, whatever is claimed. Epochs never go back meanwhile.
   */
  lemma NoSuccessor(s: System, partition: nat, before: seq<Step>, after: seq<Step>)
    requires Init(s, partition) && Run(s, before).Some?
    requires Run(Run(s, before).value, after).Some?
    requires !Run(s, before).value.brokers[SeededLeader(partition, |s.brokers|)].role.Leader?
    ensures var t := Run(Run(s, before).value, after).value;
            && (forall b: BrokerId :: !Leads(t, b))
            && forall b :: 0 <= b < |t.brokers| ==> t.brokers[b].epoch >= Run(s, before).value.brokers[b].epoch
  {
    hide Run;
    var seeded := SeededLeader(partition, |s.brokers|);
    InitInv(s, partition);
    RunInv(s, before, seeded);
    RunInv(Run(s, before).value, after, seeded);
  }

  /** Every claim ever made says less than this. */
  predicate Below(claims: set<Claim>, committed: nat) {
    forall c :: c in claims ==> c.committed < committed
  }

  lemma SeniorStep(s: System, a: Step, seeded: BrokerId)
    requires Enabled(s, a) && Leads(s, seeded) && s.brokers[seeded].hasPartition && !s.brokers[seeded].hasClient
    requires Below(Apply(s, a).claims, s.brokers[seeded].committed)
    ensures Leads(Apply(s, a), seeded)
  {
  }

  lemma {:induction false} SeniorRun(s: System, steps: seq<Step>, seeded: BrokerId)
    requires Inv(s, seeded) && Run(s, steps).Some? && Leads(s, seeded) && s.brokers[seeded].hasPartition
    requires Below(Run(s, steps).value.claims, s.brokers[seeded].committed)
    ensures Leads(Run(s, steps).value, seeded)
  {
    if steps != [] {
      hide Inv, Enabled, Apply;
      var n := |steps| - 1;
      var t := Run(s, steps[..n]).value;
      RunInv(s, steps[..n], seeded);
      StepInv(t, steps[n], seeded);
      SeniorRun(s, steps[..n], seeded);
      SeededHasNoClient(t, seeded);
      SeniorStep(t, steps[n], seeded);
    }
  }

  /**
   * In every run, a leader that has the partition keeps its role for as long as it has committed more
   * than any claim ever made says.
   */
  lemma SeniorKeepsRole(s: System, partition: nat, before: seq<Step>, after: seq<Step>, b: BrokerId)
    requires Init(s, partition) && Run(s, before).Some? && Run(Run(s, before).value, after).Some?
    requires Leads(Run(s, before).value, b) && Run(s, before).value.brokers[b].hasPartition
    requires forall c :: c in Run(Run(s, before).value, after).value.claims ==>
               c.committed < Run(s, before).value.brokers[b].committed
    ensures Leads(Run(Run(s, before).value, after).value, b)
  {
    hide Run;
    var seeded := SeededLeader(partition, |s.brokers|);
    InitInv(s, partition);
    RunInv(s, before, seeded);
    SeniorRun(Run(s, before).value, after, seeded);
  }

  lemma SeededHasNoClient(s: System, seeded: BrokerId)
    requires Inv(s, seeded) && Leads(s, seeded)
    ensures !s.brokers[seeded].hasClient
  {
  }

  /**
   * In every run: a broker's epoch is that of the last leader it took, one more while it is a
   * candidate itself; and every leader it ever took had claimed to have committed at least as much as
   * the broker had at that time.
   */
  lemma {:induction false} TakesNoLaggard(s: System, partition: nat, steps: seq<Step>, b: BrokerId)
    requires Init(s, partition) && Run(s, steps).Some? && b < |s.brokers|
    ensures var t := Run(s, steps).value;
            var m := t.brokers[b];
            && (m.role.Candidate? ==> m.epoch > 0 && TermOk(m, m.epoch - 1))
            && (!m.role.Candidate? ==> TermOk(m, m.epoch))
            && forall k :: k in m.accepted ==>
                 exists c :: c in t.claims && c.candidate == k.leader && c.epoch == k.epoch && c.committed >= k.had
  {
    hide Run, ClaimsOk;
    InitInv(s, partition);
    RunInv(s, steps, SeededLeader(partition, |s.brokers|));
    var t := Run(s, steps).value;
    forall k | k in t.brokers[b].accepted
      ensures exists c :: c in t.claims && c.candidate == k.leader && c.epoch == k.epoch && c.committed >= k.had
    {
      assert WasClaimed(t.claims, k);
    }
  }

  /** Only one candidate has claimed this epoch. */
  predicate Uncontested(s: System, epoch: nat) {
    forall c, d :: c in s.claims && d in s.claims && c.epoch == d.epoch == epoch ==> c.candidate == d.candidate
  }

  /** No two brokers have accepted different leaders in this epoch. */
  predicate Agreed(s: System, epoch: nat) {
    forall a, b, k, l :: 0 <= a < |s.brokers| && 0 <= b < |s.brokers|
      && k in s.brokers[a].accepted && l in s.brokers[b].accepted && k.epoch == l.epoch == epoch
      ==> k.leader == l.leader
  }

  /** In every run, brokers agree on the leader of an epoch as long as only one candidate claimed it. */
  lemma AgreeIfUncontested(s: System, partition: nat, steps: seq<Step>, epoch: nat)
    requires Init(s, partition) && Run(s, steps).Some? && Uncontested(Run(s, steps).value, epoch)
    ensures Agreed(Run(s, steps).value, epoch)
  {
    hide Run, BrokerOk, ClaimsOk;
    InitInv(s, partition);
    RunInv(s, steps, SeededLeader(partition, |s.brokers|));
    var t := Run(s, steps).value;
    forall a, b, k, l | 0 <= a < |t.brokers| && 0 <= b < |t.brokers|
        && k in t.brokers[a].accepted && l in t.brokers[b].accepted && k.epoch == l.epoch == epoch
      ensures k.leader == l.leader
    {
      assert WasClaimed(t.claims, k) && WasClaimed(t.claims, l);
    }
  }

  /** What a broker has accepted it never forgets. */
  lemma {:induction false} AcceptedGrows(s: System, steps: seq<Step>)
    requires Run(s, steps).Some?
    ensures forall b :: 0 <= b < |s.brokers| ==> s.brokers[b].accepted <= Run(s, steps).value.brokers[b].accepted
  {
    if steps != [] { AcceptedGrows(s, steps[..|steps| - 1]); }
  }

  /** And they fall out for good as soon as two brokers hear new claims of two candidates not behind them. */
  lemma ContestedSplits(s: System, c: Claim, d: Claim, a: BrokerId, b: BrokerId, steps: seq<Step>)
    requires {c, d} <= s.claims && c.epoch == d.epoch && c.candidate != d.candidate
    requires a < |s.brokers| && b < |s.brokers| && a != b
    requires c.epoch > s.brokers[a].epoch && (s.brokers[a].hasPartition ==> c.committed >= s.brokers[a].committed)
    requires d.epoch > s.brokers[b].epoch && (s.brokers[b].hasPartition ==> d.committed >= s.brokers[b].committed)
    ensures Enabled(s, Hear(a, c)) && Enabled(Apply(s, Hear(a, c)), Hear(b, d))
    ensures var t := Apply(Apply(s, Hear(a, c)), Hear(b, d));
            Run(t, steps).Some? ==> !Agreed(Run(t, steps).value, c.epoch)
  {
    hide Run;
    var t := Apply(Apply(s, Hear(a, c)), Hear(b, d));
    var k, l := Claimed(c.epoch, c.candidate, Has(s.brokers[a])), Claimed(d.epoch, d.candidate, Has(s.brokers[b]));
    assert k in t.brokers[a].accepted && l in t.brokers[b].accepted;
    if Run(t, steps).Some? {
      AcceptedGrows(t, steps);
      var u := Run(t, steps).value;
      assert k in u.brokers[a].accepted && l in u.brokers[b].accepted;
    }
  }

  /** Two brokers may follow different leaders in the same epoch: a claim needs no majority. */
  lemma SplitEpoch() returns (s: System, steps: seq<Step>)
    ensures Init(s, 0) && Run(s, steps).Some?
    ensures var t := Run(s, steps).value;
            |t.brokers| == 4 && t.brokers[0].epoch == t.brokers[3].epoch
            && t.brokers[0].leaderId == 1 && t.brokers[3].leaderId == 2 && !Agreed(t, 1)
  {
    hide Run;
    var lead := Broker(Leader, 0, 0, 0, true, false, false, {});
    var rest := Broker(Follower, 0, 0, 0, true, true, false, {});
    var up := rest.(role := Candidate, epoch := 1);
    var c1, c2 := Claim(1, 1, 0), Claim(2, 1, 0);
    s := System([lead, rest, rest, rest], {});
    RunNothing(s);
    RunMore(s, [], Campaign(1));
    var s1 := [] + [Campaign(1)];
    assert Run(s, s1).value.brokers == [lead, up.(campaigning := true), rest, rest];
    RunMore(s, s1, Broadcast(1));
    var s2 := s1 + [Broadcast(1)];
    assert Run(s, s2).value.brokers == [lead, up, rest, rest];
    assert Run(s, s2).value.claims == {c1};
    RunMore(s, s2, Campaign(2));
    var s3 := s2 + [Campaign(2)];
    assert Run(s, s3).value.brokers == [lead, up, up.(campaigning := true), rest];
    RunMore(s, s3, Broadcast(2));
    var s4 := s3 + [Broadcast(2)];
    assert Run(s, s4).value.brokers == [lead, up, up, rest];
    assert Run(s, s4).value.claims == {c1, c2};
    var split := Apply(Apply(Run(s, s4).value, Hear(0, c1)), Hear(3, c2));
    RunNothing(split);
    ContestedSplits(Run(s, s4).value, c1, c2, 0, 3, []);
    RunMore(s, s4, Hear(0, c1));
    RunMore(s, s4 + [Hear(0, c1)], Hear(3, c2));
    steps := s4 + [Hear(0, c1)] + [Hear(3, c2)];
  }

  lemma RunMore(s: System, steps: seq<Step>, a: Step)
    requires Run(s, steps).Some? && Enabled(Run(s, steps).value, a)
    ensures Run(s, steps + [a]) == Some(Apply(Run(s, steps).value, a))
  {
    hide Enabled, Apply;
    assert (steps + [a])[..|steps|] == steps;
  }

  lemma RunNothing(s: System)
    ensures Run(s, []) == Some(s)
  {
  }
}
