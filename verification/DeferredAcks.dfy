/** Producer acknowledgements that wait for the leader's commit and for a quorum of followers. */
module DeferredAcks {
  import opened Bytes
  import opened PartitionMeta

  datatype Pending = Pending(offset: nat, response: seq<byte>, fd: int,
                             leaderCommitted: bool, isrAcked: nat, required: nat, acked: set<BrokerId>)

  /** What identifies a deferred acknowledgement, whatever its progress. */
  datatype Token = Token(offset: nat, response: seq<byte>, fd: int, required: nat)

  datatype Response = Response(fd: int, bytes: seq<byte>)

  function Fresh(t: Token): Pending {
    Pending(t.offset, t.response, t.fd, false, 0, t.required, {})
  }

  function TokenOf(p: Pending): Token {
    Token(p.offset, p.response, p.fd, p.required)
  }

  /** Quorum: committed on the leader and acknowledged by as many followers as required. */
  predicate Ready(p: Pending) {
    p.leaderCommitted && p.isrAcked >= p.required
  }

  /** A follower counts once, and only if it acknowledged past the record. */
  function Counted(p: Pending, follower: BrokerId, acked: nat): Pending {
    if acked > p.offset && follower !in p.acked
    then p.(acked := p.acked + {follower}, isrAcked := p.isrAcked + 1) else p
  }

  function Marked(p: Pending, base: nat, count: nat): Pending {
    if base <= p.offset < base + count then p.(leaderCommitted := true) else p
  }

  function CountAll(ps: seq<Pending>, follower: BrokerId, acked: nat): (r: seq<Pending>)
    ensures |r| == |ps| && forall i :: 0 <= i < |ps| ==> r[i] == Counted(ps[i], follower, acked)
  {
    seq(|ps|, i requires 0 <= i < |ps| => Counted(ps[i], follower, acked))
  }

  function MarkAll(ps: seq<Pending>, base: nat, count: nat): (r: seq<Pending>)
    ensures |r| == |ps| && forall i :: 0 <= i < |ps| ==> r[i] == Marked(ps[i], base, count)
  {
    seq(|ps|, i requires 0 <= i < |ps| => Marked(ps[i], base, count))
  }

  function ReadyOf(ps: seq<Pending>): (r: seq<Pending>)
    ensures forall p :: p in r <==> p in ps && Ready(p)
  {
    if ps == [] then [] else ReadyOf(ps[..|ps| - 1]) + if Ready(ps[|ps| - 1]) then [ps[|ps| - 1]] else []
  }

  function WaitingOf(ps: seq<Pending>): (r: seq<Pending>)
    ensures forall p :: p in r <==> p in ps && !Ready(p)
  {
    if ps == [] then [] else WaitingOf(ps[..|ps| - 1]) + if Ready(ps[|ps| - 1]) then [] else [ps[|ps| - 1]]
  }

  function Tokens(ps: seq<Pending>): seq<Token> {
    if ps == [] then [] else Tokens(ps[..|ps| - 1]) + [TokenOf(ps[|ps| - 1])]
  }

  function Responses(ps: seq<Pending>): seq<Response> {
    if ps == [] then []
    else
      var p := ps[|ps| - 1];
      Responses(ps[..|ps| - 1]) + if p.response == [] then [] else [Response(p.fd, p.response)]
  }

  // ------------------------------------------------------------------- runs

  /** The acknowledgements still held back, and all that have been let go. */
  datatype Ledger = Ledger(pending: seq<Pending>, released: seq<Pending>)

  datatype Event =
    | Register(token: Token)
    | FollowerAck(follower: BrokerId, acked: nat)
    | LeaderCommit(base: nat, count: nat)

  /** Release whatever has reached its quorum, and keep the rest. */
  function Settle(l: Ledger, ps: seq<Pending>): Ledger {
    Ledger(WaitingOf(ps), l.released + ReadyOf(ps))
  }

  function Apply(l: Ledger, a: Event): Ledger {
    match a
    case Register(token) => l.(pending := l.pending + [Fresh(token)])
    case FollowerAck(follower, acked) => Settle(l, CountAll(l.pending, follower, acked))
    case LeaderCommit(base, count) => Settle(l, MarkAll(l.pending, base, count))
  }

  const Start := Ledger([], [])

  function LedgerAfter(acts: seq<Event>): Ledger {
    if acts == [] then Start else Apply(LedgerAfter(acts[..|acts| - 1]), acts[|acts| - 1])
  }

  function Registered(acts: seq<Event>): seq<Token> {
    if acts == [] then []
    else
      var a := acts[|acts| - 1];
      Registered(acts[..|acts| - 1]) + if a.Register? then [a.token] else []
  }

  // ----------------------------------------------------------- conservation

  lemma {:induction false} Sorted(ps: seq<Pending>)
    ensures multiset(Tokens(WaitingOf(ps))) + multiset(Tokens(ReadyOf(ps))) == multiset(Tokens(ps))
  {
    if ps != [] {
      hide Ready;
      var n := |ps| - 1;
      Sorted(ps[..n]);
      if Ready(ps[n]) {
        TokensLast(ReadyOf(ps[..n]), ps[n]);
        assert WaitingOf(ps) == WaitingOf(ps[..n]);
      } else {
        TokensLast(WaitingOf(ps[..n]), ps[n]);
        assert ReadyOf(ps) == ReadyOf(ps[..n]);
      }
    }
  }

  lemma TokensLast(ps: seq<Pending>, p: Pending)
    ensures Tokens(ps + [p]) == Tokens(ps) + [TokenOf(p)]
  {
    assert (ps + [p])[..|ps|] == ps;
  }

  lemma OneToken(ps: seq<Pending>, t: Token)
    ensures Tokens(ps + [Fresh(t)]) == Tokens(ps) + [t]
  {
    hide Tokens;
    TokensLast(ps, Fresh(t));
  }

  lemma {:induction false} TokensAppend(a: seq<Pending>, b: seq<Pending>)
    ensures Tokens(a + b) == Tokens(a) + Tokens(b)
  {
    if b == [] {
      assert a + b == a;
    } else {
      var n := |b| - 1;
      TokensAppend(a, b[..n]);
      assert (a + b)[..|a| + n] == a + b[..n];
      Assoc(Tokens(a), Tokens(b[..n]), [TokenOf(b[n])]);
    }
  }

  lemma {:induction false} SameTokens(ps: seq<Pending>, qs: seq<Pending>)
    requires |ps| == |qs| && forall i :: 0 <= i < |ps| ==> TokenOf(ps[i]) == TokenOf(qs[i])
    ensures Tokens(ps) == Tokens(qs)
  {
    if ps != [] {
      hide TokenOf;
      SameTokens(ps[..|ps| - 1], qs[..|qs| - 1]);
    }
  }

  lemma SettleConserves(l: Ledger, ps: seq<Pending>)
    requires Tokens(ps) == Tokens(l.pending)
    ensures multiset(Tokens(Settle(l, ps).pending)) + multiset(Tokens(Settle(l, ps).released))
         == multiset(Tokens(l.pending)) + multiset(Tokens(l.released))
  {
    hide Tokens, WaitingOf, ReadyOf;
    Sorted(ps);
    TokensAppend(l.released, ReadyOf(ps));
    assert multiset(Tokens(l.released) + Tokens(ReadyOf(ps)))
        == multiset(Tokens(l.released)) + multiset(Tokens(ReadyOf(ps)));
  }

  /** Everything the ledger accounts for, held back or let go. */
  function Held(l: Ledger): multiset<Token> {
    multiset(Tokens(l.pending)) + multiset(Tokens(l.released))
  }

  lemma StepConserves(l: Ledger, a: Event)
    ensures Held(Apply(l, a)) == Held(l) + multiset(if a.Register? then [a.token] else [])
  {
    hide Tokens, Settle, CountAll, MarkAll, Fresh, TokenOf;
    match a
    case Register(token) => OneToken(l.pending, token);
    case FollowerAck(follower, acked) =>
      CountKeepsTokens(l.pending, follower, acked);
      SettleConserves(l, CountAll(l.pending, follower, acked));
    case LeaderCommit(base, count) =>
      MarkKeepsTokens(l.pending, base, count);
      SettleConserves(l, MarkAll(l.pending, base, count));
  }

  /**
   * In every run, what has been registered is exactly what is still pending plus what has been
   * released: each acknowledgement is released at most once and leaves the list when it is.
   */
  lemma {:induction false} Conservation(acts: seq<Event>)
    ensures multiset(Registered(acts)) == Held(LedgerAfter(acts))
  {
    if acts != [] {
      hide Held, Apply;
      var n := |acts| - 1;
      Conservation(acts[..n]);
      StepConserves(LedgerAfter(acts[..n]), acts[n]);
    }
  }

  lemma CountKeepsTokens(ps: seq<Pending>, follower: BrokerId, acked: nat)
    ensures Tokens(CountAll(ps, follower, acked)) == Tokens(ps)
  {
    SameTokens(CountAll(ps, follower, acked), ps);
  }

  lemma MarkKeepsTokens(ps: seq<Pending>, base: nat, count: nat)
    ensures Tokens(MarkAll(ps, base, count)) == Tokens(ps)
  {
    SameTokens(MarkAll(ps, base, count), ps);
  }

  // ------------------------------------------------------ what producers hear

  /**
   * Wherever an entry stands in the list, it is answered if it has its quorum and a response: once, at
   * its place among the others, on its own fd and with its own response.
   */
  lemma {:induction false} AnsweredInPlace(a: seq<Pending>, p: Pending, b: seq<Pending>)
    ensures Responses(ReadyOf(a + [p] + b))
         == Responses(ReadyOf(a))
            + (if Ready(p) && p.response != [] then [Response(p.fd, p.response)] else [])
            + Responses(ReadyOf(b))
  {
    hide Ready, ReadyOf, WaitingOf, Responses;
    AnsweredLast(a, p);
    if b == [] {
      Nothing(a + [p]);
      NoResponses();
      Nothing(Responses(ReadyOf(a + [p])));
    } else {
      var n := |b| - 1;
      AnsweredInPlace(a, p, b[..n]);
      Assoc(a + [p], b[..n], [b[n]]);
      assert b[..n] + [b[n]] == b;
      AnsweredLast(a + [p] + b[..n], b[n]);
      AnsweredLast(b[..n], b[n]);
      Assoc(Responses(ReadyOf(a + [p])), Responses(ReadyOf(b[..n])),
            if Ready(b[n]) && b[n].response != [] then [Response(b[n].fd, b[n].response)] else []);
    }
  }

  lemma AnsweredLast(ps: seq<Pending>, p: Pending)
    ensures Responses(ReadyOf(ps + [p]))
         == Responses(ReadyOf(ps)) + if Ready(p) && p.response != [] then [Response(p.fd, p.response)] else []
  {
    hide Ready, ReadyOf, WaitingOf, Responses;
    KeptLast(ps, p);
    Nothing(Responses(ReadyOf(ps)));
    if Ready(p) { ResponsesLast(ReadyOf(ps), p); }
  }

  lemma KeptLast(ps: seq<Pending>, p: Pending)
    ensures WaitingOf(ps + [p]) == if Ready(p) then WaitingOf(ps) else WaitingOf(ps) + [p]
    ensures ReadyOf(ps + [p]) == if Ready(p) then ReadyOf(ps) + [p] else ReadyOf(ps)
  {
    hide Ready;
    assert (ps + [p])[..|ps|] == ps;
  }

  /** Wherever an entry stands in the list, it is kept back at its place unless it has its quorum. */
  lemma {:induction false} KeptInPlace(a: seq<Pending>, p: Pending, b: seq<Pending>)
    ensures WaitingOf(a + [p] + b) == WaitingOf(a) + (if Ready(p) then [] else [p]) + WaitingOf(b)
  {
    hide Ready, ReadyOf, WaitingOf;
    KeptLast(a, p);
    if b == [] {
      Nothing(a + [p]);
      NoneKept();
    } else {
      var n := |b| - 1;
      KeptInPlace(a, p, b[..n]);
      Assoc(a + [p], b[..n], [b[n]]);
      assert b[..n] + [b[n]] == b;
      KeptLast(a + [p] + b[..n], b[n]);
      KeptLast(b[..n], b[n]);
      Assoc(WaitingOf(a) + (if Ready(p) then [] else [p]), WaitingOf(b[..n]), [b[n]]);
    }
  }

  lemma NoneKept()
    ensures WaitingOf([]) == []
  {
  }

  /** What an event makes the broker send to producers. */
  function Sends(l: Ledger, a: Event): seq<Response> {
    match a
    case Register(_) => []
    case FollowerAck(follower, acked) => Responses(ReadyOf(CountAll(l.pending, follower, acked)))
    case LeaderCommit(base, count) => Responses(ReadyOf(MarkAll(l.pending, base, count)))
  }

  function SentBy(acts: seq<Event>): seq<Response> {
    if acts == [] then []
    else
      var n := |acts| - 1;
      SentBy(acts[..n]) + Sends(LedgerAfter(acts[..n]), acts[n])
  }

  /** How many of these were registered with this response for this producer. */
  function Matching(ts: seq<Token>, fd: int, bytes: seq<byte>): nat {
    if ts == [] then 0
    else
      var t := ts[|ts| - 1];
      Matching(ts[..|ts| - 1], fd, bytes) + if t.fd == fd && t.response == bytes then 1 else 0
  }

  /** How many times this response went to this producer. */
  function Times(sent: seq<Response>, fd: int, bytes: seq<byte>): nat {
    multiset(sent)[Response(fd, bytes)]
  }

  lemma {:induction false} MatchingAppend(a: seq<Token>, b: seq<Token>, fd: int, bytes: seq<byte>)
    ensures Matching(a + b, fd, bytes) == Matching(a, fd, bytes) + Matching(b, fd, bytes)
  {
    if b == [] {
      Nothing(a);
    } else {
      var n := |b| - 1;
      MatchingAppend(a, b[..n], fd, bytes);
      assert (a + b)[..|a| + n] == a + b[..n];
    }
  }

  lemma MatchingOne(t: Token, fd: int, bytes: seq<byte>)
    ensures Matching([t], fd, bytes) == if t.fd == fd && t.response == bytes then 1 else 0
  {
    assert [t][..0] == [];
  }

  lemma MatchingMore(ps: seq<Pending>, p: Pending, fd: int, bytes: seq<byte>)
    ensures Matching(Tokens(ps + [p]), fd, bytes) == Matching(Tokens(ps), fd, bytes) + Hit(p, fd, bytes)
  {
    TokensLast(ps, p);
    MatchingAppend(Tokens(ps), [TokenOf(p)], fd, bytes);
    MatchingOne(TokenOf(p), fd, bytes);
  }

  function Hit(p: Pending, fd: int, bytes: seq<byte>): nat {
    if p.fd == fd && p.response == bytes then 1 else 0
  }

  lemma ResponseMore(ps: seq<Pending>, p: Pending, fd: int, bytes: seq<byte>)
    requires bytes != []
    ensures Times(Responses(ps + [p]), fd, bytes) == Times(Responses(ps), fd, bytes) + Hit(p, fd, bytes)
  {
    assert (ps + [p])[..|ps|] == ps;
  }

  /** Settling sends exactly the responses of the entries it removes. */
  lemma {:induction false} SettleSends(ps: seq<Pending>, fd: int, bytes: seq<byte>)
    requires bytes != []
    ensures Matching(Tokens(ps), fd, bytes) ==
            Matching(Tokens(WaitingOf(ps)), fd, bytes) + Times(Responses(ReadyOf(ps)), fd, bytes)
  {
    hide Ready, ReadyOf, WaitingOf, Matching, Tokens, Responses, Hit, Times;
    if ps == [] {
      NothingSent(fd, bytes);
      NoneKept();
    } else {
      var n := |ps| - 1;
      SettleSends(ps[..n], fd, bytes);
      assert ps == ps[..n] + [ps[n]];
      MatchingMore(ps[..n], ps[n], fd, bytes);
      KeptLast(ps[..n], ps[n]);
      if Ready(ps[n]) {
        ResponseMore(ReadyOf(ps[..n]), ps[n], fd, bytes);
      } else {
        MatchingMore(WaitingOf(ps[..n]), ps[n], fd, bytes);
      }
    }
  }

  lemma NothingSent(fd: int, bytes: seq<byte>)
    ensures Matching(Tokens([]), fd, bytes) == 0 == Times(Responses(ReadyOf([])), fd, bytes)
  {
  }

  /**
   * Over every run: of the acknowledgements registered with some response for some producer, each
   * is still held back or has been sent to that producer, exactly once.
   */
  lemma {:induction false} SentOnce(acts: seq<Event>, fd: int, bytes: seq<byte>)
    requires bytes != []
    ensures Matching(Registered(acts), fd, bytes) ==
            Matching(Tokens(LedgerAfter(acts).pending), fd, bytes) + Times(SentBy(acts), fd, bytes)
  {
    if acts != [] {
      hide Tokens, WaitingOf, ReadyOf, CountAll, MarkAll, Fresh, Responses, Matching, Times;
      var n := |acts| - 1;
      var l, a := LedgerAfter(acts[..n]), acts[n];
      SentOnce(acts[..n], fd, bytes);
      SentMore(SentBy(acts[..n]), Sends(l, a), fd, bytes);
      Nothing(Registered(acts[..n]));
      match a
      case Register(token) =>
        OneToken(l.pending, token);
        MatchingAppend(Registered(acts[..n]), [token], fd, bytes);
        MatchingAppend(Tokens(l.pending), [token], fd, bytes);
      case FollowerAck(follower, acked) =>
        CountKeepsTokens(l.pending, follower, acked);
        SettleSends(CountAll(l.pending, follower, acked), fd, bytes);
      case LeaderCommit(base, count) =>
        MarkKeepsTokens(l.pending, base, count);
        SettleSends(MarkAll(l.pending, base, count), fd, bytes);
    }
  }

  lemma SentMore(a: seq<Response>, b: seq<Response>, fd: int, bytes: seq<byte>)
    ensures Times(a + b, fd, bytes) == Times(a, fd, bytes) + Times(b, fd, bytes)
  {
  }

  // --------------------------------------------------------------- evidence

  /** This follower reported to the leader that it has committed past `offset`. */
  ghost predicate Acknowledged(acts: seq<Event>, follower: BrokerId, offset: nat) {
    exists k: nat :: k > offset && FollowerAck(follower, k) in acts
  }

  ghost predicate CommitSeen(acts: seq<Event>, offset: nat) {
    exists b: nat, c: nat :: b <= offset < b + c && LeaderCommit(b, c) in acts
  }

  /** Every mark on an entry is backed by something that happened. */
  ghost predicate Backed(p: Pending, acts: seq<Event>) {
    && Register(TokenOf(p)) in acts
    && p.isrAcked == |p.acked|
    && (forall f :: f in p.acked ==> Acknowledged(acts, f, p.offset))
    && (p.leaderCommitted ==> CommitSeen(acts, p.offset))
  }

  lemma Longer(p: Pending, acts: seq<Event>, a: Event)
    requires Backed(p, acts)
    ensures Backed(p, acts + [a])
  {
    forall f | f in p.acked ensures Acknowledged(acts + [a], f, p.offset) {
      var k: nat :| k > p.offset && FollowerAck(f, k) in acts;
      assert FollowerAck(f, k) in acts + [a];
    }
    if p.leaderCommitted {
      var b: nat, c: nat :| b <= p.offset < b + c && LeaderCommit(b, c) in acts;
      assert LeaderCommit(b, c) in acts + [a];
    }
  }

  lemma Grows(p: Pending, acts: seq<Event>, a: Event)
    requires Backed(p, acts)
    ensures Backed(p, acts + [a])
    ensures a.FollowerAck? ==> Backed(Counted(p, a.follower, a.acked), acts + [a])
    ensures a.LeaderCommit? ==> Backed(Marked(p, a.base, a.count), acts + [a])
  {
    Longer(p, acts, a);
    assert a in acts + [a];
    match a
    case Register(_) =>
    case FollowerAck(f, k) => assert k > p.offset ==> Acknowledged(acts + [a], f, p.offset);
    case LeaderCommit(b, c) => assert b <= p.offset < b + c ==> CommitSeen(acts + [a], p.offset);
  }

  ghost predicate AllBacked(ps: seq<Pending>, acts: seq<Event>) {
    forall p :: p in ps ==> Backed(p, acts)
  }

  lemma SettleBacked(l: Ledger, ps: seq<Pending>, acts: seq<Event>)
    requires AllBacked(ps, acts) && AllBacked(l.released, acts) && forall p :: p in l.released ==> Ready(p)
    ensures var m := Settle(l, ps);
            && AllBacked(m.pending, acts) && AllBacked(m.released, acts)
            && (forall p :: p in m.pending ==> !Ready(p)) && (forall p :: p in m.released ==> Ready(p))
  {
    hide Backed, Ready;
  }

  lemma StepBacked(l: Ledger, acts: seq<Event>, a: Event)
    requires AllBacked(l.pending, acts) && AllBacked(l.released, acts)
    ensures AllBacked(l.released, acts + [a])
    ensures a.Register? ==> AllBacked(l.pending + [Fresh(a.token)], acts + [a])
    ensures a.FollowerAck? ==> AllBacked(CountAll(l.pending, a.follower, a.acked), acts + [a])
    ensures a.LeaderCommit? ==> AllBacked(MarkAll(l.pending, a.base, a.count), acts + [a])
  {
    hide Backed;
    forall p | p in l.pending + l.released
      ensures Backed(p, acts + [a])
      ensures a.FollowerAck? ==> Backed(Counted(p, a.follower, a.acked), acts + [a])
      ensures a.LeaderCommit? ==> Backed(Marked(p, a.base, a.count), acts + [a])
    {
      Grows(p, acts, a);
    }
    if a.Register? { FreshBacked(a.token, acts); }
    if a.FollowerAck? { MapMembers(l.pending, CountAll(l.pending, a.follower, a.acked)); }
    if a.LeaderCommit? { MapMembers(l.pending, MarkAll(l.pending, a.base, a.count)); }
  }

  lemma MapMembers(ps: seq<Pending>, qs: seq<Pending>)
    requires |ps| == |qs|
    ensures forall q :: q in qs ==> exists i :: 0 <= i < |ps| && q == qs[i] && ps[i] in ps
  {
  }

  lemma FreshBacked(token: Token, acts: seq<Event>)
    ensures Backed(Fresh(token), acts + [Register(token)])
  {
    assert Register(token) in acts + [Register(token)];
  }

  /**
   * In every run, nothing that has its quorum is still pending, and everything released has: the
   * leader committed it, and as many distinct followers as required acknowledged past it.
   */
  lemma {:induction false} Evidence(acts: seq<Event>)
    ensures var l := LedgerAfter(acts);
            && AllBacked(l.pending, acts) && AllBacked(l.released, acts)
            && (forall p :: p in l.pending ==> !Ready(p)) && (forall p :: p in l.released ==> Ready(p))
  {
    if acts != [] {
      hide Backed, Ready, AllBacked, WaitingOf, ReadyOf;
      var n := |acts| - 1;
      Evidence(acts[..n]);
      var l, a := LedgerAfter(acts[..n]), acts[n];
      assert acts == acts[..n] + [a];
      StepBacked(l, acts[..n], a);
      match a
      case Register(token) => FreshWaits(token);
      case FollowerAck(follower, acked) => SettleBacked(l, CountAll(l.pending, follower, acked), acts);
      case LeaderCommit(base, count) => SettleBacked(l, MarkAll(l.pending, base, count), acts);
    }
  }

  lemma FreshWaits(token: Token)
    ensures !Ready(Fresh(token))
  {
  }

  // ------------------------------------------------------------ one entry

  /** What an event makes of one entry. */
  function Progressed(p: Pending, a: Event): Pending {
    match a
    case Register(_) => p
    case FollowerAck(follower, acked) => Counted(p, follower, acked)
    case LeaderCommit(base, count) => Marked(p, base, count)
  }

  /** An entry that waits goes on waiting, with its progress noted, or is released by that event. */
  lemma EntryStep(acts: seq<Event>, a: Event, p: Pending)
    requires p in LedgerAfter(acts).pending && !Ready(p)
    ensures var q, l := Progressed(p, a), LedgerAfter(acts + [a]);
            if Ready(q) then q in l.released else q in l.pending
  {
    hide LedgerAfter, Ready, Counted, Marked;
    LedgerMore(acts, a);
    var l := LedgerAfter(acts);
    var i :| 0 <= i < |l.pending| && l.pending[i] == p;
    match a
    case Register(token) => assert (l.pending + [Fresh(token)])[i] == p;
    case FollowerAck(follower, acked) => Settled1(l, CountAll(l.pending, follower, acked), i);
    case LeaderCommit(base, count) => Settled1(l, MarkAll(l.pending, base, count), i);
  }

  lemma Settled1(l: Ledger, ps: seq<Pending>, i: nat)
    requires i < |ps|
    ensures if Ready(ps[i]) then ps[i] in Settle(l, ps).released else ps[i] in Settle(l, ps).pending
  {
    hide Ready;
    assert ps[i] in ps;
  }

  lemma RegisteredWaits(acts: seq<Event>, token: Token)
    ensures Fresh(token) in LedgerAfter(acts + [Register(token)]).pending && !Ready(Fresh(token))
  {
    hide LedgerAfter;
    LedgerMore(acts, Register(token));
  }

  /** What has been released stays released. */
  lemma {:induction false} StaysReleased(acts: seq<Event>, more: seq<Event>, p: Pending)
    requires p in LedgerAfter(acts).released
    ensures p in LedgerAfter(acts + more).released
  {
    hide LedgerAfter;
    if more == [] {
      Nothing(acts);
    } else {
      var n := |more| - 1;
      StaysReleased(acts, more[..n], p);
      Assoc(acts, more[..n], [more[n]]);
      assert more == more[..n] + [more[n]];
      LedgerMore(acts + more[..n], more[n]);
    }
  }

  predicate Covers(a: Event, offset: nat) {
    a.LeaderCommit? && a.base <= offset < a.base + a.count
  }

  /** Commits alone mark an entry that needs followers, and do not release it. */
  lemma {:induction false} MarkedBy(acts: seq<Event>, commits: seq<Event>, p: Pending)
    requires p in LedgerAfter(acts).pending && !Ready(p) && p.isrAcked < p.required
    requires forall i :: 0 <= i < |commits| ==> commits[i].LeaderCommit?
    ensures var now := exists i :: 0 <= i < |commits| && Covers(commits[i], p.offset);
            var q := p.(leaderCommitted := p.leaderCommitted || now);
            q in LedgerAfter(acts + commits).pending && !Ready(q)
  {
    hide LedgerAfter;
    if commits == [] {
      Nothing(acts);
    } else {
      var n := |commits| - 1;
      MarkedBy(acts, commits[..n], p);
      var q := p.(leaderCommitted := p.leaderCommitted || exists i :: 0 <= i < n && Covers(commits[..n][i], p.offset));
      Assoc(acts, commits[..n], [commits[n]]);
      assert commits == commits[..n] + [commits[n]];
      EntryStep(acts + commits[..n], commits[n], q);
    }
  }

  /** An entry that needs no follower is released by the first commit that covers it. */
  lemma {:induction false} ReleasedAtOnce(acts: seq<Event>, commits: seq<Event>, p: Pending)
    requires p in LedgerAfter(acts).pending && p.required == 0 && !p.leaderCommitted
    requires forall i :: 0 <= i < |commits| ==> commits[i].LeaderCommit?
    ensures var l := LedgerAfter(acts + commits);
            if exists i :: 0 <= i < |commits| && Covers(commits[i], p.offset)
            then p.(leaderCommitted := true) in l.released else p in l.pending
  {
    hide LedgerAfter;
    if commits == [] {
      Nothing(acts);
    } else {
      var n := |commits| - 1;
      ReleasedAtOnce(acts, commits[..n], p);
      Assoc(acts, commits[..n], [commits[n]]);
      assert commits == commits[..n] + [commits[n]];
      if exists i :: 0 <= i < n && Covers(commits[..n][i], p.offset) {
        StaysReleased(acts + commits[..n], [commits[n]], p.(leaderCommitted := true));
      } else {
        EntryStep(acts + commits[..n], commits[n], p);
      }
    }
  }

  function Acks(brokers: seq<BrokerId>, acked: nat): seq<Event> {
    if brokers == [] then [] else Acks(brokers[..|brokers| - 1], acked) + [FollowerAck(brokers[|brokers| - 1], acked)]
  }

  predicate NoRepeats(s: seq<BrokerId>) {
    forall i, j :: 0 <= i < j < |s| ==> s[i] != s[j]
  }

  function Members(s: seq<BrokerId>): set<BrokerId> {
    set b | b in s
  }

  /** Acknowledgements of as many brokers as it needs release a committed entry, whoever they are. */
  lemma {:induction false} CountedBy(acts: seq<Event>, brokers: seq<BrokerId>, acked: nat, p: Pending)
    requires p in LedgerAfter(acts).pending && p.leaderCommitted && p.acked == {} && p.isrAcked == 0
    requires acked > p.offset && NoRepeats(brokers) && 0 < |brokers| <= p.required
    ensures var q := p.(acked := Members(brokers), isrAcked := |brokers|);
            var l := LedgerAfter(acts + Acks(brokers, acked));
            if |brokers| == p.required then q in l.released else q in l.pending
  {
    hide LedgerAfter;
    var n := |brokers| - 1;
    var q := p.(acked := Members(brokers[..n]), isrAcked := n);
    if n == 0 {
      assert Acks(brokers[..0], acked) == [];
      Nothing(acts);
      assert Members(brokers[..0]) == {};
    } else {
      CountedBy(acts, brokers[..n], acked, p);
    }
    Assoc(acts, Acks(brokers[..n], acked), [FollowerAck(brokers[n], acked)]);
    EntryStep(acts + Acks(brokers[..n], acked), FollowerAck(brokers[n], acked), q);
    assert Members(brokers) == Members(brokers[..n]) + {brokers[n]};
    assert brokers[n] !in Members(brokers[..n]);
  }

  lemma LedgerMore(acts: seq<Event>, a: Event)
    ensures LedgerAfter(acts + [a]) == Apply(LedgerAfter(acts), a) && LedgerAfter([]) == Start
  {
    hide Settle;
    assert (acts + [a])[..|acts|] == acts;
  }

  // ----------------------------------------------------------- the object

  class ReplicaManager {
    const meta: Meta
    const maxLag: nat
    var pending: seq<Pending>

    /** Nothing that has its quorum is left on the list. */
    ghost predicate Valid()
      reads this
    {
      forall p :: p in pending ==> !Ready(p)
    }

    constructor (meta: Meta, maxLag: nat)
      ensures Valid() && pending == [] && this.meta == meta && this.maxLag == maxLag
    {
      this.meta, this.maxLag := meta, maxLag;
      pending := [];
    }

    /** Requires as many followers as are in sync now, the leader not counted. */
    method RegisterPending(offset: nat, response: seq<byte>, fd: int) returns (required: nat)
      requires Valid()
      modifies this`pending
      ensures Valid() && pending == old(pending) + [Fresh(Token(offset, response, fd, required))]
      ensures required == if |IsrIds(meta.replicas)| > 0 then |IsrIds(meta.replicas)| - 1 else 0
    {
      var ids := meta.GetIsrIds();
      required := if |ids| > 0 then |ids| - 1 else 0;
      pending := pending + [Fresh(Token(offset, response, fd, required))];
    }

    /** Hands out the response of an entry that has its quorum, and leaves the entry without one. */
    method TryRelease(p: Pending) returns (p': Pending, ready: seq<Response>)
      ensures ready == if Ready(p) && p.response != [] then [Response(p.fd, p.response)] else []
      ensures p' == if Ready(p) then p.(response := []) else p
    {
      var quorumMet := if p.required == 0 then p.leaderCommitted
                       else p.leaderCommitted && p.isrAcked >= p.required;
      if !quorumMet { return p, []; }
      ready := if p.response == [] then [] else [Response(p.fd, p.response)];
      p' := p.(response := []);
    }

    /** Drops every entry that has its quorum. */
    method EraseReady()
      modifies this`pending
      ensures pending == WaitingOf(old(pending)) && Valid()
    {
      var kept := [];
      var i := 0;
      while i < |pending|
        invariant 0 <= i <= |pending| && kept == WaitingOf(pending[..i])
      {
        assert pending[..i + 1][..i] == pending[..i];
        if !Ready(pending[i]) { kept := kept + [pending[i]]; }
        i := i + 1;
      }
      assert pending[..i] == pending;
      pending := kept;
    }

    /** A follower acknowledged: count it, release what reaches its quorum by that. */
    method OnReplicaAck(follower: BrokerId, acked: nat) returns (toSend: seq<Response>)
      requires Valid()
      modifies this`pending, meta`replicas
      ensures Valid() && pending == WaitingOf(CountAll(old(pending), follower, acked))
      ensures toSend == Responses(ReadyOf(CountAll(old(pending), follower, acked)))
      ensures meta.replicas == OnAck(old(meta.replicas), follower, acked, maxLag,
                                     LeaderCommitted(old(meta.replicas), meta.leaderId))
    {
      hide Responses, Ready, ReadyOf, WaitingOf, IndexOf;
      var committed := meta.LeaderCommittedOffset();
      meta.OnReplicaAck(follower, acked, maxLag, committed);
      toSend := [];
      ghost var was, all := pending, CountAll(pending, follower, acked);
      NoResponses();
      assert all[..0] == [];
      var i := 0;
      while i < |pending|
        modifies this`pending
        invariant 0 <= i <= |pending| == |was|
        invariant forall j :: 0 <= j < i ==> Settled(all[j], pending[j])
        invariant forall j :: i <= j < |was| ==> pending[j] == was[j]
        invariant toSend == Responses(ReadyOf(all[..i]))
      {
        Prefixes(all, i);
        assert was[i] in was;
        var p := pending[i];
        if acked > p.offset && follower !in p.acked {
          p := p.(acked := p.acked + {follower}, isrAcked := p.isrAcked + 1);
          var ready: seq<Response>;
          p, ready := TryRelease(p);
          toSend := toSend + ready;
          pending := pending[i := p];
        }
        i := i + 1;
      }
      assert all[..i] == all;
      SettledWaiting(all, pending);
      EraseReady();
    }

    /** The leader committed a batch: mark what it covers, release what reaches its quorum by that. */
    method OnCommitted(base: nat, count: nat) returns (toSend: seq<Response>)
      requires Valid()
      modifies this`pending
      ensures Valid() && pending == WaitingOf(MarkAll(old(pending), base, count))
      ensures toSend == Responses(ReadyOf(MarkAll(old(pending), base, count)))
    {
      hide Responses, Ready, ReadyOf, WaitingOf;
      toSend := [];
      ghost var was, all := pending, MarkAll(pending, base, count);
      NoResponses();
      assert all[..0] == [];
      var i := 0;
      while i < |pending|
        invariant 0 <= i <= |pending| == |was|
        invariant forall j :: 0 <= j < i ==> Settled(all[j], pending[j])
        invariant forall j :: i <= j < |was| ==> pending[j] == was[j]
        invariant toSend == Responses(ReadyOf(all[..i]))
      {
        Prefixes(all, i);
        assert was[i] in was;
        var p := pending[i];
        if p.offset >= base && p.offset < base + count {
          p := p.(leaderCommitted := true);
          var ready: seq<Response>;
          p, ready := TryRelease(p);
          toSend := toSend + ready;
          pending := pending[i := p];
        }
        i := i + 1;
      }
      assert all[..i] == all;
      SettledWaiting(all, pending);
      EraseReady();
    }
  }

  /** An entry the loop is done with: as computed, or released and without its response. */
  predicate Settled(computed: Pending, stored: Pending) {
    stored == if Ready(computed) then computed.(response := []) else computed
  }

  lemma {:induction false} SettledWaiting(computed: seq<Pending>, stored: seq<Pending>)
    requires |computed| == |stored| && forall i :: 0 <= i < |computed| ==> Settled(computed[i], stored[i])
    ensures WaitingOf(stored) == WaitingOf(computed)
  {
    if computed != [] {
      SettledWaiting(computed[..|computed| - 1], stored[..|stored| - 1]);
    }
  }

  lemma NoResponses()
    ensures Responses(ReadyOf([])) == []
  {
  }

  lemma ResponsesLast(ps: seq<Pending>, p: Pending)
    ensures Responses(ps + [p]) == Responses(ps) + if p.response == [] then [] else [Response(p.fd, p.response)]
  {
    assert (ps + [p])[..|ps|] == ps;
  }

  lemma Prefixes(ps: seq<Pending>, i: nat)
    requires i < |ps|
    ensures Responses(ReadyOf(ps[..i + 1]))
         == Responses(ReadyOf(ps[..i])) + if Ready(ps[i]) && ps[i].response != []
                                          then [Response(ps[i].fd, ps[i].response)] else []
  {
    hide Ready, ReadyOf, Responses;
    assert ps[..i] + [ps[i]] == ps[..i + 1];
    AnsweredLast(ps[..i], ps[i]);
  }
}
