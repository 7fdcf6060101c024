/** What every vote keeps, whatever the weights are: the shape of ballots and of the proxy graph. */
module VotingRules {
  import opened Basics
  import opened Names
  import opened Voting
  import opened ProxyGraph
  import opened VoteLedger

  /** An account that uses a proxy lists no producers and is no proxy itself. */
  ghost predicate ProxyUsersPlain(b: Book) {
    forall v :: v in b.voters && b.voters[v].proxy != NO_NAME ==> b.voters[v].producers == [] && !b.voters[v].isProxy
  }

  ghost predicate WellFormed(b: Book) {
    && Acyclic(b.voters)
    && DistinctBallots(b)
    && ProxyUsersPlain(b)
    && b.shares.Keys == b.producers.Keys
  }

  lemma WeightsKeepShape(b: Book, b': Book)
    requires OnlyWeights(b, b')
    ensures WellFormed(b) ==> WellFormed(b')
    ensures BallotsKnown(b) ==> BallotsKnown(b')
  {
    assert forall v :: v in b.voters ==> SameButWeights(b.voters[v], b'.voters[v]);
    if Acyclic(b.voters) {
      SameProxies(b.voters, b'.voters);
    }
    if BallotsKnown(b) {
      forall v | v in b'.voters ensures Registered(b'.voters[v].producers, b') {
        assert Registered(b.voters[v].producers, b);
      }
    }
  }

  /** The books after a voter's choice is written down, before any weight has moved. */
  function Chosen(b: Book, voter: Name, proxy: Name, producers: seq<Name>, now: int): Book
    requires voter in b.voters
  {
    var a := Activate(b, voter, now);
    a.(voters := a.voters[voter := a.voters[voter].(proxy := proxy, producers := producers)])
  }

  /** `update_votes` is called with a fresh choice, or to re-weigh the choice already recorded. */
  predicate Repeats(row: Voter, proxy: Name, producers: seq<Name>, voting: bool) {
    voting || (proxy == row.proxy && producers == row.producers)
  }

  /** Lending weight to a proxy leaves a voter that ranks no lower than the proxy alone. */
  lemma LendFrame(b: Book, x: Name, delta: real, voter: Name, rank: Ranks, k: Clock) returns (b': Book)
    requires Ranked(b.voters, rank)
    requires x in b.voters && voter in b.voters && voter != x && At(rank, x) <= At(rank, voter)
    ensures Propagate(AddProxied(b, x, delta), x, {}, k) == Success(b')
      || (Propagate(AddProxied(b, x, delta), x, {}, k) == Failure(ProducerNotFound) && !BallotsKnown(b))
    ensures OnlyWeights(b, b') && b'.voters[voter] == b.voters[voter]
  {
    hide Propagate, OnlyWeights, BallotsKnown, Ranked;
    AddProxiedFrame(b, x, delta, rank);
    b' := PropagateFrame(AddProxied(b, x, delta), x, {}, k, rank);
    OnlyWeightsTransitive(b, AddProxied(b, x, delta), b');
  }

  /** The voter never lies on the chain of the proxy it leaves. */
  lemma LeaveProxyFrame(b: Book, voter: Name, k: Clock) returns (left: Book)
    requires Acyclic(b.voters) && voter in b.voters
    ensures LeaveProxy(b, b.voters[voter], k) == Success(left)
      || (LeaveProxy(b, b.voters[voter], k) == Failure(ProducerNotFound) && !BallotsKnown(b))
    ensures OnlyWeights(b, left) && left.voters[voter] == b.voters[voter]
  {
    hide Propagate, OnlyWeights, AddProxied, BallotsKnown;
    var row := b.voters[voter];
    left := b;
    OnlyWeightsReflexive(b);
    if row.lastWeight > 0.0 && row.proxy != NO_NAME {
      var rank: Ranks :| Ranked(b.voters, rank);
      assert row.proxy in b.voters && At(rank, b.voters[voter].proxy) < At(rank, voter);
      left := LendFrame(b, row.proxy, -row.lastWeight, voter, rank, k);
    }
  }

  /** Nor on the chain of the proxy it joins: that is a root, or the proxy it already had. */
  lemma JoinProxyFrame(b: Book, voter: Name, proxy: Name, producers: seq<Name>, w: real, voting: bool, k: Clock)
    returns (joined: Book)
    requires Acyclic(b.voters) && ProxyUsersPlain(b) && voter in b.voters && (proxy != NO_NAME ==> voter != proxy)
    requires Repeats(b.voters[voter], proxy, producers, voting)
    ensures JoinProxy(b, proxy, w, voting, k) == Success(joined)
      || JoinProxy(b, proxy, w, voting, k) in {Failure(NotAProxy), Failure(ProxyNotFound)}
      || (JoinProxy(b, proxy, w, voting, k) == Failure(ProducerNotFound) && !BallotsKnown(b))
    ensures OnlyWeights(b, joined) && joined.voters[voter] == b.voters[voter]
  {
    hide Propagate, OnlyWeights, AddProxied, BallotsKnown;
    joined := b;
    OnlyWeightsReflexive(b);
    if proxy != NO_NAME && proxy in b.voters && (!voting || b.voters[proxy].isProxy) && w >= 0.0 {
      var rank: Ranks :| Ranked(b.voters, rank);
      if voting {
        assert b.voters[proxy].proxy == NO_NAME;
        var lower := map n | n in b.voters :: if n == proxy then 0 else At(rank, n) + 1;
        assert Ranked(b.voters, lower);
        rank := lower;
      } else {
        assert At(rank, b.voters[voter].proxy) < At(rank, voter);
      }
      joined := LendFrame(b, proxy, w, voter, rank, k);
    }
  }

  lemma AscendingIsDistinct(ps: seq<Name>)
    requires UniqueAndSorted(ps)
    ensures Distinct(ps)
  {
    forall i, j | 0 <= i < j < |ps| ensures ps[i] < ps[j] {
      AscendingBetween(ps, i, j);
    }
  }

  lemma AscendingBetween(ps: seq<Name>, i: nat, j: nat)
    requires UniqueAndSorted(ps) && i < j < |ps|
    ensures ps[i] < ps[j]
  {
    if j > i + 1 {
      AscendingBetween(ps, i, j - 1);
    }
    assert ps[j - 1] < ps[j];
  }

  /** The ballots `update_votes` casts after both proxies have been dealt with. */
  function BallotsOf(row: Voter, proxy: Name, producers: seq<Name>, k: Clock): seq<Ballot> {
    InOrder(BallotDeltas(row, proxy, producers, NewWeight(row, k.growth)))
  }

  /** A successful vote, stage by stage. */
  lemma VoteStages(b: Book, voter: Name, proxy: Name, producers: seq<Name>, voting: bool, k: Clock)
    returns (left: Book, joined: Book)
    requires UpdateVotes(b, voter, proxy, producers, voting, k).Success?
    ensures CheckChoice(b, voter, proxy, producers).Met?
    ensures LeaveProxy(Activate(b, voter, k.now), b.voters[voter], k) == Success(left)
    ensures JoinProxy(left, proxy, NewWeight(b.voters[voter], k.growth), voting, k) == Success(joined)
    ensures CheckBallots(joined, voter, BallotsOf(b.voters[voter], proxy, producers, k), voting).Met?
    ensures AllKnown(BallotsOf(b.voters[voter], proxy, producers, k), joined)
    ensures joined.voters.Keys == b.voters.Keys
    ensures voting && proxy != NO_NAME ==> proxy in left.voters && left.voters[proxy].isProxy
    ensures UpdateVotes(b, voter, proxy, producers, voting, k)
      == Success(Record(CastAll(joined, BallotsOf(b.voters[voter], proxy, producers, k), true, k.now),
                        voter, proxy, producers, NewWeight(b.voters[voter], k.growth)))
  {
    left := LeaveProxy(Activate(b, voter, k.now), b.voters[voter], k).value;
    joined := JoinProxy(left, proxy, NewWeight(b.voters[voter], k.growth), voting, k).value;
  }

  lemma RecordFrame(b: Book, b': Book, voter: Name, proxy: Name, producers: seq<Name>, w: real, now: int)
    requires voter in b.voters && OnlyWeights(Activate(b, voter, now), b')
    ensures OnlyWeights(Chosen(b, voter, proxy, producers, now), Record(b', voter, proxy, producers, w))
  {
  }

  /** A vote writes down the choice and otherwise moves nothing but weights, votes and shares. */
  lemma VoteFrame(b: Book, voter: Name, proxy: Name, producers: seq<Name>, voting: bool, k: Clock) returns (b': Book)
    requires WellFormed(b) && (voter in b.voters ==> Repeats(b.voters[voter], proxy, producers, voting))
    requires UpdateVotes(b, voter, proxy, producers, voting, k).Success?
    ensures UpdateVotes(b, voter, proxy, producers, voting, k) == Success(b') && voter in b.voters
    ensures OnlyWeights(Chosen(b, voter, proxy, producers, k.now), b')
    ensures WellFormed(b')
  {
    hide OnlyWeights, LeaveProxy, JoinProxy, CastAll, InOrder, BallotDeltas, CheckBallots, WellFormed, UpdateVotes, Record, Chosen;
    var left, joined := VoteStages(b, voter, proxy, producers, voting, k);
    var a := Activate(b, voter, k.now);
    var ballots := BallotsOf(b.voters[voter], proxy, producers, k);
    assert WellFormed(a) && a.voters == b.voters by { ActivateKeepsShape(b, voter, k.now); }
    ShapeParts(a);
    var left' := LeaveProxyFrame(a, voter, k);
    WeightsKeepShape(a, left);
    ShapeParts(left);
    var joined' := JoinProxyFrame(left, voter, proxy, producers, NewWeight(b.voters[voter], k.growth), voting, k);
    CastAllFrame(joined, ballots, true, k.now);
    OnlyWeightsTransitive(a, left, joined);
    if voting && proxy != NO_NAME {
      SameProxyFlag(a, left, proxy);
    }
    var cast := CastAll(joined, ballots, true, k.now);
    OnlyWeightsTransitive(a, joined, cast);
    RecordFrame(b, cast, voter, proxy, producers, NewWeight(b.voters[voter], k.growth), k.now);
    b' := Record(cast, voter, proxy, producers, NewWeight(b.voters[voter], k.growth));
    ChoiceKeepsShape(b, voter, proxy, producers, voting, k.now);
    WeightsKeepShape(Chosen(b, voter, proxy, producers, k.now), b');
  }

  lemma ActivateKeepsShape(b: Book, voter: Name, now: int)
    requires voter in b.voters && WellFormed(b)
    ensures WellFormed(Activate(b, voter, now)) && Activate(b, voter, now).voters == b.voters
  {
  }

  lemma SameProxyFlag(b: Book, b': Book, x: Name)
    requires OnlyWeights(b, b') && x in b'.voters
    ensures x in b.voters && b'.voters[x].isProxy == b.voters[x].isProxy
  {
    assert SameButWeights(b.voters[x], b'.voters[x]);
  }

  lemma ShapeParts(b: Book)
    requires WellFormed(b)
    ensures Acyclic(b.voters) && ProxyUsersPlain(b)
  {
  }

  lemma ChoiceKeepsShape(b: Book, voter: Name, proxy: Name, producers: seq<Name>, voting: bool, now: int)
    requires WellFormed(b) && CheckChoice(b, voter, proxy, producers).Met?
    requires Repeats(b.voters[voter], proxy, producers, voting)
    requires voting && proxy != NO_NAME ==> proxy in b.voters && b.voters[proxy].isProxy
    ensures WellFormed(Chosen(b, voter, proxy, producers, now))
  {
    var row := b.voters[voter].(proxy := proxy, producers := producers);
    if voting {
      PointAtRoot(b.voters, voter, row);
    } else {
      KeepProxy(b.voters, voter, row);
    }
    if proxy == NO_NAME {
      AscendingIsDistinct(producers);
    }
  }

  /** The ways a vote can be turned down. Running for ever is not among them, nor is a proxy that
      has disappeared. */
  const VOTE_FAILURES: set<Error> := {ProducersAndProxy, ProxyToSelf, TooManyProducers, UnsortedProducers, NoVoter,
    ProxyUsingProxy, NotAProxy, ProxyNotFound, NotOwnProducer, ProducerInactive, ProducerNotFound}

  lemma VoteEnds(b: Book, voter: Name, proxy: Name, producers: seq<Name>, voting: bool, k: Clock)
    requires WellFormed(b) && (voter in b.voters ==> Repeats(b.voters[voter], proxy, producers, voting))
    ensures UpdateVotes(b, voter, proxy, producers, voting, k).Failure? ==>
      UpdateVotes(b, voter, proxy, producers, voting, k).error in VOTE_FAILURES
  {
    hide OnlyWeights, LeaveProxy, JoinProxy, CastAll, InOrder, BallotDeltas, WellFormed, BallotsKnown, Record;
    if CheckChoice(b, voter, proxy, producers).Met? {
      var a := Activate(b, voter, k.now);
      ActivateKeepsShape(b, voter, k.now);
      ShapeParts(a);
      var left := LeaveProxyFrame(a, voter, k);
      if LeaveProxy(a, b.voters[voter], k).Success? {
        WeightsKeepShape(a, left);
        ShapeParts(left);
        var joined := JoinProxyFrame(left, voter, proxy, producers, NewWeight(b.voters[voter], k.growth), voting, k);
        CheckBallotsFailures(joined, voter, BallotsOf(b.voters[voter], proxy, producers, k), voting);
      }
    }
  }

  lemma {:induction false} CheckBallotsFailures(b: Book, voter: Name, ballots: seq<Ballot>, voting: bool)
    ensures CheckBallots(b, voter, ballots, voting) in {Met, Unmet(NotOwnProducer), Unmet(ProducerInactive)}
  {
    if ballots != [] {
      CheckBallotsFailures(b, voter, ballots[..|ballots| - 1], voting);
    }
  }
}
