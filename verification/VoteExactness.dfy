/** The exact condition under which a vote keeps the ledger: it does if and only if neither of the two
    propagations it starts drops a non-zero change of size at most 1. */
module VoteExactness {
  import opened Basics
  import opened Names
  import opened Sums
  import opened Voting
  import opened ProxyGraph
  import opened VoteLedger
  import opened ProxyLedger
  import opened VotingRules
  import opened VotingInvariant
  import opened VoteStep
  import opened BookSteps
  import opened VotingSteps
  import opened Staking

  /** Everybody votes for itself only, which voting.cpp:341 enforces. */
  ghost predicate OwnBallots(b: Book) {
    forall v :: v in b.voters ==> Only(b.voters[v].producers, v)
  }

  ghost predicate Only(ps: seq<Name>, v: Name) {
    forall p :: p in ps ==> p == v
  }

  /** Whoever's own votes get out of step had its weight written, to what its stake is worth. */
  ghost predicate Reweighed(b: Book, b': Book, p: Name, growth: Growth) {
    && p in b.voters && p in b'.voters
    && b'.voters[p].lastWeight == StakeToVote(b.voters[p].staked, growth)
    && b'.voters[p].lastWeight != b.voters[p].lastWeight
  }

  ghost predicate OnlyReweighed(b: Book, b': Book, growth: Growth)
    requires b'.producers.Keys == b.producers.Keys
  {
    TotalGap(b') == TotalGap(b)
    && forall p :: p in b.producers && VoteGap(b', p) != VoteGap(b, p) ==> Reweighed(b, b', p, growth)
  }

  lemma OwnAt(b: Book, x: Name)
    requires OwnBallots(b) && x in b.voters
    ensures Only(b.voters[x].producers, x)
  {
  }

  lemma AddProxiedOwn(b: Book, x: Name, delta: real)
    requires OwnBallots(b) && x in b.voters
    ensures OwnBallots(AddProxied(b, x, delta))
  {
  }

  lemma WeightsKeepOwn(b: Book, b': Book)
    requires OnlyWeights(b, b') && OwnBallots(b)
    ensures OwnBallots(b')
  {
    assert forall v :: v in b.voters ==> SameButWeights(b.voters[v], b'.voters[v]);
  }

  lemma ChainReweighs(b: Book, x: Name, w: real, b1: Book, b2: Book, growth: Growth)
    requires x in b.voters && b.voters[x].proxy != NO_NAME && b.voters[x].proxy in b.voters
    requires b1 == AddProxied(b, b.voters[x].proxy, w - b.voters[x].lastWeight)
    requires OnlyWeights(b1, b2) && b2.voters[x] == b.voters[x] && OnlyReweighed(b1, b2, growth)
    ensures SetWeight(b2, x, w).producers.Keys == b.producers.Keys
    ensures OnlyReweighed(b, SetWeight(b2, x, w), growth)
  {
    hide VoteGap, ProxyGap, TotalGap;
    var row := b.voters[x];
    var b1' := AddProxiedGaps(b, row.proxy, w - row.lastWeight);
    var b' := SetWeightGaps(b2, x, w);
    forall p | p in b.producers && VoteGap(b', p) != VoteGap(b, p) ensures Reweighed(b, b', p, growth) {
      assert VoteGap(b2, p) != VoteGap(b1, p);
      assert Reweighed(b1, b2, p, growth);
      assert p != x;
    }
  }

  /** Propagation puts only the votes of voters it re-weighs out of step. */
  lemma {:induction false} PropagateReweighs(b: Book, x: Name, seen: set<Name>, k: Clock, rank: Ranks) returns (b': Book)
    requires x in b.voters && Ranked(b.voters, rank) && BallotsKnown(b) && DistinctBallots(b) && OwnBallots(b)
    requires forall y :: y in seen ==> At(rank, y) > At(rank, x)
    ensures Propagate(b, x, seen, k) == Success(b') && OnlyWeights(b, b') && b'.producers.Keys == b.producers.Keys
    ensures OnlyReweighed(b, b', k.growth)
    decreases At(rank, x)
  {
    hide VoteGap, ProxyGap, TotalGap, CastAll, Propagate, OnlyWeights, DistinctBallots, BallotsKnown, OnlyReweighed, OwnBallots;
    var row := b.voters[x];
    var w := StakeToVote(row.staked, k.growth);
    var c := Shift(row, k.growth);
    ListedAt(b, x);
    b' := PropagateFrame(b, x, seen, k, rank);
    SameKeys(b, b');
    PropagateUnfolds(b, x, seen, k);
    if Magnitude(c) <= 1.0 {
      OwnAt(b, x);
      SkipReweighs(b, x, w, k.growth);
    } else if row.proxy == NO_NAME {
      RootKeepsGaps(b, x, w, k.now);
      SameGapsMeans(b, b', k.growth);
    } else {
      var b1 := AddProxied(b, row.proxy, c);
      AddProxiedFrame(b, row.proxy, c, rank);
      AddProxiedKeepsBallots(b, row.proxy, c);
      AddProxiedOwn(b, row.proxy, c);
      var _ := PropagateFrame(b1, row.proxy, seen + {x}, k, rank);
      var b2 := PropagateReweighs(b1, row.proxy, seen + {x}, k, rank);
      ChainReweighs(b, x, w, b1, b2, k.growth);
    }
  }

  lemma SkipReweighs(b: Book, x: Name, w: real, growth: Growth)
    requires x in b.voters && Only(b.voters[x].producers, x) && w == StakeToVote(b.voters[x].staked, growth)
    ensures SetWeight(b, x, w).producers.Keys == b.producers.Keys && OnlyReweighed(b, SetWeight(b, x, w), growth)
  {
    hide VoteGap, ProxyGap, TotalGap, StakeToVote;
    var b' := SetWeightGaps(b, x, w);
    forall p | p in b.producers && VoteGap(b', p) != VoteGap(b, p) ensures Reweighed(b, b', p, growth) {
      assert p in b.voters[x].producers;
    }
  }

  lemma SameGapsMeans(b: Book, b': Book, growth: Growth)
    requires b'.producers.Keys == b.producers.Keys && b'.voters.Keys == b.voters.Keys && SameGaps(b, b')
    ensures OnlyReweighed(b, b', growth)
  {
    hide VoteGap, ProxyGap, TotalGap;
  }

  // ---------- the end of a vote ----------

  lemma OwnBallotsIdle(b: Book, voter: Name, proxy: Name, producers: seq<Name>, w: real)
    requires voter in b.voters && Weighty(b) && w >= 0.0
    requires Distinct(b.voters[voter].producers) && Distinct(producers) && (proxy != NO_NAME ==> producers == [])
    requires var ballots := InOrder(BallotDeltas(b.voters[voter], proxy, producers, w));
      AllKnown(ballots, b) && forall i :: 0 <= i < |ballots| ==> ballots[i].producer == voter
    requires voter in b.producers ==> VoteGap(b, voter) == 0.0
    ensures ClampIdle(b, InOrder(BallotDeltas(b.voters[voter], proxy, producers, w)))
  {
    hide Total, InOrder, BallotDeltas;
    var row := b.voters[voter];
    var d := BallotDeltas(row, proxy, producers, w);
    BallotsMean(row, proxy, producers, w, voter);
    InOrderMeans(d, voter);
    if voter in b.producers {
      TotalNonNegative(VoteColumn(b.voters, voter));
      assert VoteColumn(b.voters, voter)[voter] == VoteOf(row, voter);
    }
  }

  /** Casting the ballots and recording the choice leaves every gap where the propagations left it, but
      for what the voter has lent. */
  lemma CastEnds(b: Book, voter: Name, proxy: Name, producers: seq<Name>, w: real, now: int) returns (b': Book)
    requires voter in b.voters && Weighty(b) && w >= 0.0
    requires Distinct(b.voters[voter].producers) && Distinct(producers) && (proxy != NO_NAME ==> producers == [])
    requires var ballots := InOrder(BallotDeltas(b.voters[voter], proxy, producers, w));
      AllKnown(ballots, b) && forall i :: 0 <= i < |ballots| ==> ballots[i].producer == voter
    requires voter in b.producers ==> VoteGap(b, voter) == 0.0
    ensures b' == Record(CastAll(b, InOrder(BallotDeltas(b.voters[voter], proxy, producers, w)), true, now), voter, proxy, producers, w)
    ensures b'.voters.Keys == b.voters.Keys && b'.producers.Keys == b.producers.Keys
    ensures TotalGap(b') == TotalGap(b) && forall p :: p in b.producers ==> VoteGap(b', p) == VoteGap(b, p)
    ensures forall z :: z in b.voters ==>
      ProxyGap(b', z) == ProxyGap(b, z) - When(proxy != NO_NAME && z == proxy, w) + LentTo(b.voters[voter], z)
  {
    hide VoteGap, ProxyGap, TotalGap, CastAll, Weighty;
    var row := b.voters[voter];
    var row' := row.(lastWeight := w, producers := producers, proxy := proxy);
    var d := BallotDeltas(row, proxy, producers, w);
    OwnBallotsIdle(b, voter, proxy, producers, w);
    assert row.lastWeight >= 0.0 by { WeightyAt(b, voter); }
    CastAllGaps(b, InOrder(d), true, now);
    var cast := CastAll(b, InOrder(d), true, now);
    b' := Record(cast, voter, proxy, producers, w);
    forall p | p in b.producers ensures DeltaFor(InOrder(d), p) == VoteOf(row', p) - VoteOf(row, p) {
      BallotsMean(row, proxy, producers, w, p);
      InOrderMeans(d, p);
    }
    hide DeltaFor, InOrder, BallotDeltas;
    WriteRowGaps(cast, voter, row');
    assert b' == WithRow(cast, voter, row');
  }

  lemma WeightyAt(b: Book, v: Name)
    requires Weighty(b) && v in b.voters
    ensures b.voters[v].lastWeight >= 0.0 && b.voters[v].staked >= 0
  {
  }

  // ---------- the two propagations ----------

  /** The shape of the books between the two propagations. */
  ghost predicate Between(b: Book) {
    WellFormed(b) && BallotsKnown(b) && Weighty(b) && OwnBallots(b)
  }

  predicate Weighed(b: Book, x: Name, growth: Growth)
    requires x in b.voters
  {
    b.voters[x].lastWeight == StakeToVote(b.voters[x].staked, growth)
  }

  ghost predicate LendsQuietly(b: Book, x: Name, delta: real, k: Clock)
    requires x in b.voters
  {
    NothingSkipped(AddProxied(b, x, delta), x, {}, k)
  }

  /** Every gap is as if `delta` had been lent to `x` and nothing else had happened. */
  ghost predicate GapsLent(b: Book, b': Book, x: Name, delta: real)
    requires b'.voters.Keys == b.voters.Keys && b'.producers.Keys == b.producers.Keys
  {
    && (forall p :: p in b.producers ==> VoteGap(b', p) == VoteGap(b, p))
    && (forall z :: z in b.voters ==> ProxyGap(b', z) == ProxyGap(b, z) + When(z == x, delta))
  }

  /** Lending to a proxy and propagating: what it leaves alone, and when it keeps the ledger. */
  lemma LendStage(b: Book, x: Name, delta: real, k: Clock) returns (b': Book)
    requires x in b.voters && Between(b)
    ensures Propagate(AddProxied(b, x, delta), x, {}, k) == Success(b')
    ensures Between(b') && b'.voters.Keys == b.voters.Keys && b'.producers.Keys == b.producers.Keys
    ensures Weighed(b', x, k.growth) && TotalGap(b') == TotalGap(b)
    ensures forall p :: p in b.producers && VoteGap(b', p) != VoteGap(b, p) ==> Reweighed(b, b', p, k.growth)
    ensures GapsLent(b, b', x, delta) <==> LendsQuietly(b, x, delta, k)
  {
    hide Propagate, NothingSkipped, Weighty, BallotsKnown, OwnBallots, OnlyWeights, VoteGap, ProxyGap, TotalGap, DistinctBallots, Ranked;
    var b1 := AddProxiedGaps(b, x, delta);
    var rank := LendRanks(b, x, delta);
    b' := PropagateReweighs(b1, x, {}, k, rank);
    var b'' := PropagateFrame(b1, x, {}, k, rank);
    var b3 := PropagateKeepsLedger(b1, x, {}, k, rank);
    PropagateWeighty(b1, x, {}, k, rank);
    WeightsKeepShape(b1, b');
    WeightsKeepOwn(b1, b');
    SameKeys(b1, b');
    ReweighedSince(b, b1, b', x, delta, k.growth);
    LentGaps(b, b1, b', x, delta);
  }

  lemma LendRanks(b: Book, x: Name, delta: real) returns (rank: Ranks)
    requires x in b.voters && Between(b)
    ensures var b1 := AddProxied(b, x, delta);
      Ranked(b1.voters, rank) && WellFormed(b1) && BallotsKnown(b1) && DistinctBallots(b1) && OwnBallots(b1) && Weighty(b1)
  {
    hide BallotsKnown, OnlyWeights;
    rank :| Ranked(b.voters, rank);
    AddProxiedFrame(b, x, delta, rank);
    AddProxiedOwn(b, x, delta);
    WritesWeighty(b, x, 0.0, delta);
    WeightsKeepShape(b, AddProxied(b, x, delta));
  }

  lemma ReweighedSince(b: Book, b1: Book, b': Book, x: Name, delta: real, growth: Growth)
    requires x in b.voters && b1 == AddProxied(b, x, delta) && SameVoteGaps(b, b1)
    requires b'.producers.Keys == b1.producers.Keys && OnlyReweighed(b1, b', growth)
    ensures forall p :: p in b.producers && VoteGap(b', p) != VoteGap(b, p) ==> Reweighed(b, b', p, growth)
  {
    hide VoteGap, TotalGap;
    forall p | p in b.producers && VoteGap(b', p) != VoteGap(b, p) ensures Reweighed(b, b', p, growth) {
      assert Reweighed(b1, b', p, growth);
    }
  }

  lemma LentGaps(b: Book, b1: Book, b': Book, x: Name, delta: real)
    requires x in b.voters && b1.voters.Keys == b.voters.Keys && b1.producers == b.producers
    requires b'.voters.Keys == b.voters.Keys && b'.producers.Keys == b.producers.Keys && TotalGap(b') == TotalGap(b1)
    requires SameVoteGaps(b, b1) && forall z :: z in b.voters ==> ProxyGap(b1, z) == ProxyGap(b, z) + When(z == x, delta)
    ensures GapsLent(b, b', x, delta) <==> SameGaps(b1, b')
  {
    hide VoteGap, ProxyGap, TotalGap;
  }

  /** A voter that has just been re-weighed has nothing to pass on. */
  lemma WeighedIsQuiet(b: Book, x: Name, delta: real, k: Clock)
    requires x in b.voters && Weighed(b, x, k.growth)
    ensures LendsQuietly(b, x, delta, k)
  {
  }

  /** Where the change of a root is skipped, its own votes are the ones that get out of step. */
  lemma RootSkips(b: Book, x: Name, delta: real, k: Clock, b': Book)
    requires x in b.voters && Between(b) && b.voters[x].proxy == NO_NAME && !LendsQuietly(b, x, delta, k)
    requires Propagate(AddProxied(b, x, delta), x, {}, k) == Success(b')
    ensures x in b.producers && x in b'.producers && VoteGap(b', x) != VoteGap(b, x) && !Weighed(b, x, k.growth)
  {
    hide VoteGap, ProxyGap, TotalGap, CastAll, WellFormed, Weighty;
    var row := b.voters[x];
    assert Only(row.producers, x) && Registered(row.producers, b);
    var b1 := AddProxiedGaps(b, x, delta);
    PropagateUnfolds(b1, x, {}, k);
    NothingSkippedUnfolds(b1, x, {}, k);
    assert row.producers[0] in row.producers;
    var b2 := SetWeightGaps(b1, x, StakeToVote(row.staked, k.growth));
  }

  // ---------- the whole vote ----------

  /** The first propagation of a vote, which takes the last weight back from the old proxy. */
  lemma LeaveStage(b: Book, voter: Name, k: Clock) returns (left: Book)
    requires Between(b) && voter in b.voters
    ensures LeaveProxy(b, b.voters[voter], k) == Success(left)
    ensures Between(left) && left.voters.Keys == b.voters.Keys && left.producers.Keys == b.producers.Keys
    ensures left.voters[voter] == b.voters[voter] && TotalGap(left) == TotalGap(b)
    ensures forall p :: p in b.producers && VoteGap(left, p) != VoteGap(b, p) ==> Reweighed(b, left, p, k.growth)
    ensures var row := b.voters[voter];
      if row.lastWeight > 0.0 && row.proxy != NO_NAME then
        && row.proxy in b.voters && Weighed(left, row.proxy, k.growth)
        && (GapsLent(b, left, row.proxy, -row.lastWeight) <==> LendsQuietly(b, row.proxy, -row.lastWeight, k))
      else left == b
    ensures forall x :: x in b.voters ==> left.voters[x].isProxy == b.voters[x].isProxy && left.voters[x].staked == b.voters[x].staked
  {
    hide Propagate, NothingSkipped, Between, OnlyWeights, VoteGap, ProxyGap, TotalGap, Acyclic, GapsLent;
    var row := b.voters[voter];
    BetweenParts(b);
    var left' := LeaveProxyFrame(b, voter, k);
    left := b;
    if row.lastWeight > 0.0 && row.proxy != NO_NAME {
      assert row.proxy in b.voters by { ProxyListed(b, voter); }
      left := LendStage(b, row.proxy, -row.lastWeight, k);
      SameFlags(b, left');
    }
  }

  lemma BetweenParts(b: Book)
    requires Between(b)
    ensures WellFormed(b) && Acyclic(b.voters) && BallotsKnown(b) && Weighty(b) && DistinctBallots(b)
  {
  }

  lemma ProxyListed(b: Book, v: Name)
    requires Between(b) && v in b.voters && b.voters[v].proxy != NO_NAME
    ensures b.voters[v].proxy in b.voters
  {
    var rank: Ranks :| Ranked(b.voters, rank);
  }

  lemma SameFlags(b: Book, b': Book)
    requires OnlyWeights(b, b')
    ensures forall x :: x in b.voters ==> b'.voters[x].isProxy == b.voters[x].isProxy && b'.voters[x].staked == b.voters[x].staked
  {
    forall x | x in b.voters
      ensures b'.voters[x].isProxy == b.voters[x].isProxy && b'.voters[x].staked == b.voters[x].staked
    {
      assert SameButWeights(b.voters[x], b'.voters[x]);
    }
  }

  /** The second propagation, which lends the new weight to the new proxy. */
  lemma JoinStage(b: Book, voter: Name, proxy: Name, producers: seq<Name>, w: real, voting: bool, k: Clock) returns (joined: Book)
    requires Between(b) && voter in b.voters && w >= 0.0 && (proxy != NO_NAME ==> proxy != voter)
    requires Repeats(b.voters[voter], proxy, producers, voting) && JoinProxy(b, proxy, w, voting, k).Success?
    ensures JoinProxy(b, proxy, w, voting, k) == Success(joined)
    ensures Between(joined) && joined.voters.Keys == b.voters.Keys && joined.producers.Keys == b.producers.Keys
    ensures joined.voters[voter] == b.voters[voter] && TotalGap(joined) == TotalGap(b)
    ensures forall p :: p in b.producers && VoteGap(joined, p) != VoteGap(b, p) ==> Reweighed(b, joined, p, k.growth)
    ensures if proxy != NO_NAME then
        && proxy in b.voters && (voting ==> b.voters[proxy].isProxy)
        && Propagate(AddProxied(b, proxy, w), proxy, {}, k) == Success(joined)
        && Weighed(joined, proxy, k.growth)
        && (GapsLent(b, joined, proxy, w) <==> LendsQuietly(b, proxy, w, k))
      else joined == b
  {
    hide Propagate, NothingSkipped, Between, OnlyWeights, VoteGap, ProxyGap, TotalGap, Acyclic, GapsLent, WellFormed;
    BetweenParts(b);
    ShapeParts(b);
    var joined' := JoinProxyFrame(b, voter, proxy, producers, w, voting, k);
    joined := b;
    if proxy != NO_NAME {
      joined := LendStage(b, proxy, w, k);
    }
  }

  /** After the first propagation: nothing is out of step but for what is no longer lent. */
  ghost predicate LeftExact(b: Book, row: Voter) {
    && (forall p :: p in b.producers ==> VoteGap(b, p) == 0.0)
    && (forall z :: z in b.voters ==> ProxyGap(b, z) == -LentTo(row, z))
  }

  ghost predicate JoinedExact(b: Book, b': Book, proxy: Name, w: real)
    requires b'.voters.Keys == b.voters.Keys && b'.producers.Keys == b.producers.Keys
  {
    && (forall p :: p in b.producers ==> VoteGap(b', p) == VoteGap(b, p))
    && (forall z :: z in b.voters ==> ProxyGap(b', z) == ProxyGap(b, z) + When(proxy != NO_NAME && z == proxy, w))
  }

  lemma LeftExactIff(b: Book, left: Book, voter: Name)
    requires Exact(b) && voter in b.voters && b.voters[voter].lastWeight >= 0.0
    requires left.voters.Keys == b.voters.Keys && left.producers.Keys == b.producers.Keys
    ensures var row := b.voters[voter];
      if row.lastWeight > 0.0 && row.proxy != NO_NAME then LeftExact(left, row) <==> GapsLent(b, left, row.proxy, -row.lastWeight)
      else left == b ==> LeftExact(left, row)
  {
    hide VoteGap, ProxyGap, TotalGap;
  }

  lemma EndsExactIff(left: Book, joined: Book, b': Book, row: Voter, proxy: Name, w: real)
    requires joined.voters.Keys == left.voters.Keys == b'.voters.Keys
    requires joined.producers.Keys == left.producers.Keys == b'.producers.Keys && TotalGap(b') == 0.0
    requires forall p :: p in joined.producers ==> VoteGap(b', p) == VoteGap(joined, p)
    requires forall z :: z in joined.voters ==>
      ProxyGap(b', z) == ProxyGap(joined, z) - When(proxy != NO_NAME && z == proxy, w) + LentTo(row, z)
    ensures LeftExact(left, row) && JoinedExact(left, joined, proxy, w) ==> Exact(b')
    ensures Exact(b') && LeftExact(left, row) ==> JoinedExact(left, joined, proxy, w)
    ensures Exact(b') && JoinedExact(left, joined, proxy, w) ==> LeftExact(left, row)
    ensures Exact(b') ==> forall p :: p in joined.producers ==> VoteGap(joined, p) == 0.0
  {
    hide VoteGap, ProxyGap, TotalGap;
    if Exact(b') && LeftExact(left, row) {
      forall p | p in left.producers ensures VoteGap(joined, p) == VoteGap(left, p) {
        assert VoteGap(b', p) == 0.0;
      }
      forall z | z in left.voters ensures ProxyGap(joined, z) == ProxyGap(left, z) + When(proxy != NO_NAME && z == proxy, w) {
        assert ProxyGap(b', z) == 0.0;
      }
    }
    if Exact(b') && JoinedExact(left, joined, proxy, w) {
      forall p | p in left.producers ensures VoteGap(left, p) == 0.0 {
        assert VoteGap(b', p) == 0.0 && VoteGap(joined, p) == VoteGap(left, p);
      }
      forall z | z in left.voters ensures ProxyGap(left, z) == -LentTo(row, z) {
        assert ProxyGap(b', z) == 0.0;
      }
    }
  }

  lemma JoinedExactIff(left: Book, joined: Book, proxy: Name, w: real)
    requires joined.voters.Keys == left.voters.Keys && joined.producers.Keys == left.producers.Keys
    ensures proxy != NO_NAME ==> (JoinedExact(left, joined, proxy, w) <==> GapsLent(left, joined, proxy, w))
    ensures proxy == NO_NAME && joined == left ==> JoinedExact(left, joined, proxy, w)
  {
    hide VoteGap, ProxyGap, TotalGap;
  }

  /** If the books end up exact the second propagation was quiet: a fresh proxy is a root, whose skipped
      change nothing else could make up for, and the proxy a vote is renewed with has just been weighed. */
  lemma JoinMustBeQuiet(a: Book, left: Book, joined: Book, voter: Name, proxy: Name, w: real, voting: bool, k: Clock)
    requires Between(left) && voter in a.voters && left.voters.Keys == a.voters.Keys && left.producers.Keys == a.producers.Keys
    requires forall p :: p in a.producers ==> VoteGap(a, p) == 0.0
    requires forall p :: p in a.producers && VoteGap(left, p) != 0.0 ==> Reweighed(a, left, p, k.growth)
    requires forall x :: x in a.voters ==> left.voters[x].staked == a.voters[x].staked
    requires joined.producers.Keys == left.producers.Keys && forall p :: p in joined.producers ==> VoteGap(joined, p) == 0.0
    requires proxy != NO_NAME && proxy in left.voters && Propagate(AddProxied(left, proxy, w), proxy, {}, k) == Success(joined)
    requires voting ==> left.voters[proxy].isProxy
    requires !voting ==> Weighed(left, proxy, k.growth)
    ensures LendsQuietly(left, proxy, w, k)
  {
    hide Propagate, NothingSkipped, VoteGap, LendsQuietly;
    if !voting {
      WeighedIsQuiet(left, proxy, w, k);
    } else if !LendsQuietly(left, proxy, w, k) {
      assert left.voters[proxy].proxy == NO_NAME by { ProxiesAreRoots(left, proxy); }
      RootSkips(left, proxy, w, k, joined);
      assert false;
    }
  }

  lemma ProxiesAreRoots(b: Book, x: Name)
    requires Between(b) && x in b.voters && b.voters[x].isProxy
    ensures b.voters[x].proxy == NO_NAME
  {
  }

  lemma SoundIsBetween(b: Book)
    requires Core(b) && OwnBallots(b)
    ensures Between(b)
  {
  }

  lemma ActivateOwn(b: Book, voter: Name, now: int)
    requires voter in b.voters && OwnBallots(b)
    ensures OwnBallots(Activate(b, voter, now))
  {
  }

  lemma ActivateExact(b: Book, voter: Name, now: int) returns (a: Book)
    requires Sound(b) && OwnBallots(b) && voter in b.voters
    ensures a == Activate(b, voter, now) && a.voters == b.voters && a.producers == b.producers
    ensures Between(a) && Exact(a)
  {
    hide WellFormed, BallotsKnown, OwnBallots, Weighty, VoteGap, ProxyGap, TotalGap;
    a := Activate(b, voter, now);
    ActivateCore(b, voter, now);
    ActivateOwn(b, voter, now);
    SoundIsBetween(a);
  }

  lemma SkipsNothingMeans(b: Book, voter: Name, proxy: Name, k: Clock, left: Book)
    requires voter in b.voters
    requires LeaveProxy(Activate(b, voter, k.now), b.voters[voter], k) == Success(left)
    requires proxy != NO_NAME ==> proxy in left.voters
    requires NewWeight(b.voters[voter], k.growth) >= 0.0
    requires b.voters[voter].lastWeight > 0.0 && b.voters[voter].proxy != NO_NAME ==> b.voters[voter].proxy in b.voters
    ensures var row, a := b.voters[voter], Activate(b, voter, k.now);
      VoteSkipsNothing(b, voter, proxy, k) <==>
        && (row.lastWeight > 0.0 && row.proxy != NO_NAME ==> LendsQuietly(a, row.proxy, -row.lastWeight, k))
        && (proxy != NO_NAME ==> LendsQuietly(left, proxy, NewWeight(row, k.growth), k))
  {
    hide NothingSkipped, LeaveProxy, NewWeight;
  }

  lemma WeightsAt(b: Book, voter: Name, k: Clock)
    requires Sound(b) && voter in b.voters
    ensures NewWeight(b.voters[voter], k.growth) >= 0.0 && b.voters[voter].lastWeight >= 0.0
    ensures Distinct(b.voters[voter].producers)
  {
    hide VotesExact, NewWeight;
    NewWeightNonNegative(b, voter, k.growth);
    CoreParts(b);
  }

  lemma OwnGapStays(b: Book, b': Book, voter: Name, growth: Growth)
    requires voter in b.voters && voter in b'.voters && b'.voters[voter] == b.voters[voter]
    requires b'.producers.Keys == b.producers.Keys
    requires forall p :: p in b.producers && VoteGap(b', p) != VoteGap(b, p) ==> Reweighed(b, b', p, growth)
    ensures voter in b.producers ==> VoteGap(b', voter) == VoteGap(b, voter)
  {
    hide VoteGap;
  }

  lemma ExactMeans(b: Book)
    requires Exact(b)
    ensures TotalGap(b) == 0.0 && forall p :: p in b.producers ==> VoteGap(b, p) == 0.0
  {
    hide VoteGap, ProxyGap, TotalGap;
  }

  /** The exact condition for a vote: it leaves the ledger exact if and only if it skips nothing. */
  lemma VoteExactIff(b: Book, voter: Name, proxy: Name, producers: seq<Name>, voting: bool, k: Clock) returns (b': Book)
    requires Sound(b) && OwnBallots(b) && voter in b.voters && Repeats(b.voters[voter], proxy, producers, voting)
    requires UpdateVotes(b, voter, proxy, producers, voting, k).Success?
    ensures UpdateVotes(b, voter, proxy, producers, voting, k) == Success(b')
    ensures Exact(b') <==> VoteSkipsNothing(b, voter, proxy, k)
  {
    hide Core, ProxiesExact, LeaveProxy, JoinProxy, CastAll, InOrder, BallotDeltas, CheckBallots, UpdateVotes, Record, VoteGap, ProxyGap,
         TotalGap, NothingSkipped, AddProxied, Activate, Between, NewWeight, LeftExact, JoinedExact, GapsLent, LendsQuietly,
         VoteSkipsNothing, OwnBallots, Propagate, Reweighed, Weighed, Exact, LentTo, When;
    var row := b.voters[voter];
    var w := NewWeight(row, k.growth);
    var left, joined := VoteStages(b, voter, proxy, producers, voting, k);
    var a := ActivateExact(b, voter, k.now);
    WeightsAt(b, voter, k);
    ChoicePlain(b, voter, proxy, producers);
    ExactMeans(a);
    var left' := LeaveStage(a, voter, k);
    var joined' := JoinStage(left, voter, proxy, producers, w, voting, k);
    OwnGapStays(a, left, voter, k.growth);
    OwnGapStays(left, joined, voter, k.growth);
    BetweenParts(joined);
    b' := CastEnds(joined, voter, proxy, producers, w, k.now);
    EndsExactIff(left, joined, b', row, proxy, w);
    LeftExactIff(a, left, voter);
    JoinedExactIff(left, joined, proxy, w);
    SkipsNothingMeans(b, voter, proxy, k, left);
    if Exact(b') && proxy != NO_NAME {
      if voting || (row.lastWeight > 0.0 && row.proxy != NO_NAME) {
        JoinMustBeQuiet(a, left, joined, voter, proxy, w, voting, k);
      }
    }
  }

  // ---------- stake changes ----------

  lemma AddStakeKeepsOwn(b: Book, voter: Name, delta: int)
    requires OwnBallots(b)
    ensures OwnBallots(AddStake(b, voter, delta))
  {
  }

  lemma StakeKeepsOwn(b: Book, voter: Name, delta: int, k: Clock)
    requires WellFormed(b) && OwnBallots(b) && UpdateVotingPower(b, voter, delta, k).Success?
    ensures OwnBallots(UpdateVotingPower(b, voter, delta, k).value)
  {
    hide UpdateVotes, WellFormed, OwnBallots;
    var b1 := AddStake(b, voter, delta);
    AddStakeIsRow(b, voter, delta);
    PlainRow(b, voter);
    RewriteVoterShape(b, voter, b1.voters[voter]);
    AddStakeKeepsOwn(b, voter, delta);
    if b1.voters[voter].producers != [] || b1.voters[voter].proxy != NO_NAME {
      VoteKeepsOwn(b1, voter, b1.voters[voter].proxy, b1.voters[voter].producers, false, k);
    }
  }

  /** The exact condition for a stake change. */
  lemma StakeExactIff(b: Book, voter: Name, delta: int, k: Clock)
    requires Sound(b) && OwnBallots(b) && UpdateVotingPower(b, voter, delta, k).Success?
    ensures Exact(UpdateVotingPower(b, voter, delta, k).value) <==> StakeSkipsNothing(b, voter, delta, k)
  {
    hide UpdateVotes, WellFormed, Core, VoteSkipsNothing, ProxiesExact, OwnBallots, Exact;
    var b1 := AddStake(b, voter, delta);
    AddStakeIsRow(b, voter, delta);
    assert WellFormed(b) by { CoreParts(b); }
    PlainRow(b, voter);
    RewriteVoterSound(b, voter, b1.voters[voter]);
    AddStakeKeepsOwn(b, voter, delta);
    if b1.voters[voter].producers != [] || b1.voters[voter].proxy != NO_NAME {
      var b' := VoteExactIff(b1, voter, b1.voters[voter].proxy, b1.voters[voter].producers, false, k);
    } else {
      SoundMeansExact(b1);
    }
  }

  // ---------- a second stake change ----------

  /** The books after a vote that went through a proxy: in shape, with that proxy just weighed. */
  ghost predicate Renewed(b: Book, voter: Name, k: Clock) {
    && Between(b) && voter in b.voters && b.voters[voter].proxy != NO_NAME && b.voters[voter].proxy in b.voters
    && Weighed(b, b.voters[voter].proxy, k.growth)
    && (voter in b.producers ==> VoteGap(b, voter) == 0.0)
  }

  ghost predicate EqualGaps(b: Book, b': Book) {
    && b'.voters.Keys == b.voters.Keys && b'.producers.Keys == b.producers.Keys && SameGaps(b, b')
  }

  /** Re-weighing once more changes no gap: the proxy has nothing left to pass on. */
  lemma RevoteKeepsGaps(b: Book, voter: Name, k: Clock) returns (b': Book)
    requires Renewed(b, voter, k)
    requires UpdateVotes(b, voter, b.voters[voter].proxy, b.voters[voter].producers, false, k).Success?
    requires NewWeight(b.voters[voter], k.growth) >= 0.0
    ensures UpdateVotes(b, voter, b.voters[voter].proxy, b.voters[voter].producers, false, k) == Success(b')
    ensures EqualGaps(b, b')
  {
    hide LeaveProxy, JoinProxy, CastAll, InOrder, BallotDeltas, CheckBallots, UpdateVotes, Record, VoteGap, ProxyGap,
         TotalGap, NothingSkipped, AddProxied, Between, NewWeight, GapsLent, LendsQuietly, OwnBallots, Propagate, Reweighed,
         Activate, Weighed, LentTo, When, SameGaps;
    var row := b.voters[voter];
    var w := NewWeight(row, k.growth);
    var left, joined := VoteStages(b, voter, row.proxy, row.producers, false, k);
    var a := ActivateBetween(b, voter, k.now);
    assert row.lastWeight >= 0.0 && Distinct(row.producers) by { BetweenAt(b, voter); }
    ChoicePlain(b, voter, row.proxy, row.producers);
    SameWeighed(b, a, row.proxy, k.growth);
    WeighedIsQuiet(a, row.proxy, -row.lastWeight, k);
    var left' := LeaveStage(a, voter, k);
    StillWeighed(a, left, row.proxy, k.growth);
    WeighedIsQuiet(left, row.proxy, w, k);
    var joined' := JoinStage(left, voter, row.proxy, row.producers, w, false, k);
    OwnGapStays(a, left, voter, k.growth);
    OwnGapStays(left, joined, voter, k.growth);
    BetweenParts(joined);
    b' := CastEnds(joined, voter, row.proxy, row.producers, w, k.now);
    AllLent(a, left, joined, b', row, w);
    SameGapsAcross(b, a, b');
  }

  lemma SameGapsAcross(b: Book, a: Book, b': Book)
    requires a.voters == b.voters && a.producers == b.producers
    requires b'.voters.Keys == b.voters.Keys && b'.producers.Keys == b.producers.Keys && SameGaps(a, b')
    requires TotalGap(a) == TotalGap(b)
    requires forall p :: p in b.producers ==> VoteGap(a, p) == VoteGap(b, p)
    requires forall z :: z in b.voters ==> ProxyGap(a, z) == ProxyGap(b, z)
    ensures SameGaps(b, b')
  {
    hide VoteGap, ProxyGap, TotalGap;
  }

  lemma ActivateBetween(b: Book, voter: Name, now: int) returns (a: Book)
    requires Between(b) && voter in b.voters
    ensures a == Activate(b, voter, now) && a.voters == b.voters && a.producers == b.producers && Between(a)
    ensures TotalGap(a) == TotalGap(b)
    ensures forall p :: p in b.producers ==> VoteGap(a, p) == VoteGap(b, p)
    ensures forall z :: z in b.voters ==> ProxyGap(a, z) == ProxyGap(b, z)
  {
    hide Total;
    a := Activate(b, voter, now);
    assert forall v :: v in b.voters ==> Registered(b.voters[v].producers, a) == Registered(b.voters[v].producers, b);
  }

  lemma BetweenAt(b: Book, v: Name)
    requires Between(b) && v in b.voters
    ensures b.voters[v].lastWeight >= 0.0 && Distinct(b.voters[v].producers)
  {
  }

  lemma SameWeighed(b: Book, b': Book, x: Name, growth: Growth)
    requires x in b.voters && b'.voters == b.voters && Weighed(b, x, growth)
    ensures Weighed(b', x, growth)
  {
  }

  lemma StillWeighed(a: Book, left: Book, x: Name, growth: Growth)
    requires x in a.voters && x in left.voters && Weighed(a, x, growth) && (left == a || Weighed(left, x, growth))
    ensures Weighed(left, x, growth)
  {
  }

  lemma AllLent(a: Book, left: Book, joined: Book, b': Book, row: Voter, w: real)
    requires left.voters.Keys == a.voters.Keys == joined.voters.Keys == b'.voters.Keys
    requires left.producers.Keys == a.producers.Keys == joined.producers.Keys == b'.producers.Keys
    requires row.proxy != NO_NAME && row.lastWeight >= 0.0
    requires if row.lastWeight > 0.0 then GapsLent(a, left, row.proxy, -row.lastWeight) else left == a
    requires GapsLent(left, joined, row.proxy, w)
    requires TotalGap(b') == TotalGap(joined) == TotalGap(left) == TotalGap(a)
    requires forall p :: p in joined.producers ==> VoteGap(b', p) == VoteGap(joined, p)
    requires forall z :: z in joined.voters ==>
      ProxyGap(b', z) == ProxyGap(joined, z) - When(row.proxy != NO_NAME && z == row.proxy, w) + LentTo(row, z)
    ensures SameGaps(a, b')
  {
    hide VoteGap, ProxyGap, TotalGap;
  }

  /** A vote through a proxy leaves the books as `Renewed` says, exact or not. */
  lemma VoteRenews(b: Book, voter: Name, k: Clock) returns (b': Book)
    requires Sound(b) && OwnBallots(b) && voter in b.voters && b.voters[voter].proxy != NO_NAME
    requires UpdateVotes(b, voter, b.voters[voter].proxy, b.voters[voter].producers, false, k).Success?
    ensures UpdateVotes(b, voter, b.voters[voter].proxy, b.voters[voter].producers, false, k) == Success(b')
    ensures Renewed(b', voter, k)
  {
    hide Core, ProxiesExact, LeaveProxy, JoinProxy, CastAll, InOrder, BallotDeltas, CheckBallots, UpdateVotes, Record, VoteGap, ProxyGap,
         TotalGap, NothingSkipped, AddProxied, Activate, Between, NewWeight, GapsLent, LendsQuietly, OwnBallots, Propagate, Reweighed,
         Weighed, Exact, LentTo, When;
    var row := b.voters[voter];
    var w := NewWeight(row, k.growth);
    var left, joined := VoteStages(b, voter, row.proxy, row.producers, false, k);
    var a := ActivateExact(b, voter, k.now);
    WeightsAt(b, voter, k);
    ExactMeans(a);
    ChoicePlain(b, voter, row.proxy, row.producers);
    var left' := LeaveStage(a, voter, k);
    var joined' := JoinStage(left, voter, row.proxy, row.producers, w, false, k);
    OwnGapStays(a, left, voter, k.growth);
    OwnGapStays(left, joined, voter, k.growth);
    BetweenParts(joined);
    b' := CastEnds(joined, voter, row.proxy, row.producers, w, k.now);
    RecordRenews(joined, voter, row.proxy, w, k, b');
  }

  lemma RecordRenews(b: Book, voter: Name, proxy: Name, w: real, k: Clock, b': Book)
    requires Between(b) && voter in b.voters && proxy in b.voters && proxy != voter && w >= 0.0 && proxy != NO_NAME
    requires b.voters[voter].proxy == proxy && b.voters[voter].producers == []
    requires Weighed(b, proxy, k.growth)
    requires AllKnown(InOrder(BallotDeltas(b.voters[voter], proxy, [], w)), b)
    requires b' == Record(CastAll(b, InOrder(BallotDeltas(b.voters[voter], proxy, [], w)), true, k.now), voter, proxy, [], w)
    requires b'.producers.Keys == b.producers.Keys
    requires voter in b.producers ==> VoteGap(b', voter) == 0.0
    ensures Renewed(b', voter, k)
  {
    hide CastAll, InOrder, BallotDeltas, VoteGap, OnlyWeights, WellFormed, BallotsKnown;
    var cast := CastAll(b, InOrder(BallotDeltas(b.voters[voter], proxy, [], w)), true, k.now);
    CastAllFrame(b, InOrder(BallotDeltas(b.voters[voter], proxy, [], w)), true, k.now);
    assert cast.voters == b.voters;
    WeightsKeepShape(b, cast);
    WeightsKeepOwn(b, cast);
    assert b' == SetWeight(cast, voter, w);
    SetWeightShape(cast, voter, w);
    WeightsKeepShape(cast, b');
    WeightsKeepOwn(cast, b');
  }

  lemma SetWeightShape(b: Book, x: Name, w: real)
    requires x in b.voters
    ensures OnlyWeights(b, SetWeight(b, x, w))
  {
  }

  /** Stake changes and votes between them keep what makes the second one quiet. */
  lemma StakeAgain(b: Book, voter: Name, delta: int, k: Clock) returns (b1: Book)
    requires Renewed(b, voter, k) && b.voters[voter].staked + delta >= 0
    ensures b1 == AddStake(b, voter, delta) && Renewed(b1, voter, k) && EqualGaps(b, b1)
  {
    hide VoteGap, ProxyGap, TotalGap, WellFormed, BallotsKnown;
    b1 := AddStake(b, voter, delta);
    AddStakeIsRow(b, voter, delta);
    PlainRow(b, voter);
    RewriteVoterShape(b, voter, b1.voters[voter]);
    BetweenParts(b);
    RewriteVoterGaps(b, voter, b1.voters[voter]);
    AddStakeKeepsOwn(b, voter, delta);
    assert b.voters[voter].proxy != voter by { NotOwnProxy(b, voter); }
  }

  lemma NotOwnProxy(b: Book, v: Name)
    requires Between(b) && v in b.voters && b.voters[v].proxy != NO_NAME
    ensures b.voters[v].proxy != v
  {
    var rank: Ranks :| Ranked(b.voters, rank);
  }

  lemma PlainVoterSkipsNothing(b: Book, voter: Name, k: Clock)
    requires voter in b.voters && b.voters[voter].proxy == NO_NAME
    ensures VoteSkipsNothing(b, voter, NO_NAME, k)
  {
    hide NothingSkipped, LeaveProxy;
  }

  lemma EqualGapsExact(b: Book, b': Book)
    requires EqualGaps(b, b')
    ensures Exact(b') == Exact(b)
  {
    hide VoteGap, ProxyGap, TotalGap;
  }

  lemma ProxyUserWeight(b: Book, voter: Name, k: Clock)
    requires Between(b) && voter in b.voters && b.voters[voter].proxy != NO_NAME
    ensures NewWeight(b.voters[voter], k.growth) >= 0.0
  {
    WeightNonNegative(b.voters[voter].staked, k.growth);
  }

  lemma StakedEnough(b: Book, voter: Name, delta: int, k: Clock)
    requires UpdateVotingPower(b, voter, delta, k).Success? && voter in b.voters
    ensures b.voters[voter].staked + delta >= 0
  {
    hide UpdateVotes;
  }

  lemma RenewedParts(b: Book, voter: Name, k: Clock)
    requires Renewed(b, voter, k)
    ensures Between(b) && voter in b.voters && b.voters[voter].proxy != NO_NAME
  {
  }

  /** What the second stake change leaves of books that the first one left wrong: wrong books. */
  lemma StakeAgainKeepsGaps(b: Book, voter: Name, delta: int, k: Clock) returns (b': Book)
    requires Renewed(b, voter, k) && UpdateVotingPower(b, voter, delta, k).Success?
    ensures UpdateVotingPower(b, voter, delta, k) == Success(b') && Exact(b') == Exact(b)
  {
    hide UpdateVotes, Renewed, Exact, NewWeight, EqualGaps, Between;
    RenewedParts(b, voter, k);
    StakedEnough(b, voter, delta, k);
    var b1 := StakeAgain(b, voter, delta, k);
    RenewedParts(b1, voter, k);
    ProxyUserWeight(b1, voter, k);
    b' := RevoteKeepsGaps(b1, voter, k);
    EqualGapsExact(b, b1);
    EqualGapsExact(b1, b');
  }

  /** Two stake changes of one account in a row, as when memory is bought by the byte. */
  lemma StakeTwiceExactIff(b: Book, voter: Name, delta: int, delta2: int, k: Clock, b1: Book, b2: Book)
    requires Sound(b) && OwnBallots(b)
    requires UpdateVotingPower(b, voter, delta, k) == Success(b1) && UpdateVotingPower(b1, voter, delta2, k) == Success(b2)
    ensures Exact(b2) <==> StakeSkipsNothing(b, voter, delta, k) && StakeSkipsNothing(b1, voter, delta2, k)
  {
    hide UpdateVotes, WellFormed, Core, VoteSkipsNothing, ProxiesExact, OwnBallots, Exact, UpdateVotingPower, Renewed;
    assert WellFormed(b) by { CoreParts(b); }
    StakeExactIff(b, voter, delta, k);
    if StakeSkipsNothing(b, voter, delta, k) {
      StakeKeepsSound(b, voter, delta, k);
      StakeKeepsOwn(b, voter, delta, k);
      StakeExactIff(b1, voter, delta2, k);
    } else {
      FirstRenews(b, voter, delta, k, b1);
      var b' := StakeAgainKeepsGaps(b1, voter, delta2, k);
    }
  }

  lemma FirstRenews(b: Book, voter: Name, delta: int, k: Clock, b1: Book)
    requires Sound(b) && OwnBallots(b) && UpdateVotingPower(b, voter, delta, k) == Success(b1)
    requires !StakeSkipsNothing(b, voter, delta, k)
    ensures Renewed(b1, voter, k)
  {
    hide UpdateVotes, WellFormed, Core, VoteSkipsNothing, ProxiesExact, OwnBallots, Renewed;
    var b' := AddStake(b, voter, delta);
    AddStakeIsRow(b, voter, delta);
    assert WellFormed(b) by { CoreParts(b); }
    PlainRow(b, voter);
    RewriteVoterSound(b, voter, b'.voters[voter]);
    AddStakeKeepsOwn(b, voter, delta);
    if b'.voters[voter].proxy == NO_NAME {
      PlainVoterSkipsNothing(b', voter, k);
    }
    var b'' := VoteRenews(b', voter, k);
  }

  // ---------- ballots stay one's own ----------

  lemma ChoiceOwn(b: Book, voter: Name, proxy: Name, producers: seq<Name>, voting: bool, w: real)
    requires w >= 0.0 && voter in b.voters && Distinct(producers) && Distinct(b.voters[voter].producers)
    requires proxy != NO_NAME ==> producers == []
    requires CheckBallots(b, voter, InOrder(BallotDeltas(b.voters[voter], proxy, producers, w)), voting).Met?
    ensures Only(producers, voter)
  {
    var d := BallotDeltas(b.voters[voter], proxy, producers, w);
    AddBallotsLabelled(b.voters[voter], proxy, producers, w);
    forall p | p in producers ensures p == voter {
      InOrderMeans(d, p);
      assert p in d;
      var i :| 0 <= i < |InOrder(d)| && InOrder(d)[i].producer == p;
    }
  }

  lemma ChosenOwn(b: Book, voter: Name, proxy: Name, producers: seq<Name>, now: int, b': Book)
    requires OwnBallots(b) && voter in b.voters && Only(producers, voter)
    requires OnlyWeights(Chosen(b, voter, proxy, producers, now), b')
    ensures OwnBallots(b')
  {
    hide OnlyWeights;
    var c := Chosen(b, voter, proxy, producers, now);
    forall v | v in c.voters ensures Only(c.voters[v].producers, v) {
      assert Only(b.voters[v].producers, v);
    }
    WeightsKeepOwn(c, b');
  }

  /** A vote with non-negative weight records a ballot for the voter alone, or none; one with negative
      weight is not checked, so it might record anything. */
  lemma VoteKeepsOwn(b: Book, voter: Name, proxy: Name, producers: seq<Name>, voting: bool, k: Clock)
    requires WellFormed(b) && OwnBallots(b) && voter in b.voters && Repeats(b.voters[voter], proxy, producers, voting)
    requires UpdateVotes(b, voter, proxy, producers, voting, k).Success? && (voting ==> NewWeight(b.voters[voter], k.growth) >= 0.0)
    ensures OwnBallots(UpdateVotes(b, voter, proxy, producers, voting, k).value)
  {
    hide LeaveProxy, JoinProxy, CastAll, InOrder, BallotDeltas, CheckBallots, UpdateVotes, Record, OnlyWeights,
         OwnBallots, NewWeight, WellFormed, Chosen;
    var b' := VoteFrame(b, voter, proxy, producers, voting, k);
    if voting {
      var left, joined := VoteStages(b, voter, proxy, producers, voting, k);
      ChoicePlain(b, voter, proxy, producers);
      VoterRowStays(b, voter, proxy, producers, voting, k, left, joined);
      assert Distinct(b.voters[voter].producers) by { ShapeBallot(b, voter); }
      ChoiceOwn(joined, voter, proxy, producers, voting, NewWeight(b.voters[voter], k.growth));
    } else {
      OwnAt(b, voter);
    }
    ChosenOwn(b, voter, proxy, producers, k.now, b');
  }

  lemma ShapeBallot(b: Book, v: Name)
    requires WellFormed(b) && v in b.voters
    ensures Distinct(b.voters[v].producers)
  {
  }

  lemma RegProxyKeepsOwn(b: Book, who: Name, on: bool, k: Clock)
    requires WellFormed(b) && OwnBallots(b) && RegProxy(b, who, on, k).Success?
    ensures OwnBallots(RegProxy(b, who, on, k).value)
  {
    hide Propagate, OnlyWeights, DistinctBallots;
    if who in b.voters {
      var b1 := b.(voters := b.voters[who := b.voters[who].(isProxy := on)]);
      KeepProxy(b.voters, who, b1.voters[who]);
      var rank: Ranks :| Ranked(b1.voters, rank);
      var b' := PropagateFrame(b1, who, {}, k, rank);
      WeightsKeepOwn(b1, b');
    }
  }
}
