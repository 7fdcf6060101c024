/** The exact condition under which a vote keeps vote pay in order (pair, non-negative votes, grand total): it does
    if and only if none of the three casts it makes drives a producer below zero votes. */
module VotePayExactness {
  import opened Basics
  import opened Names
  import opened Sums
  import opened Voting
  import opened ProxyGraph
  import opened VoteLedger
  import opened ProxyLedger
  import opened VotingRules
  import opened VotePayIndex
  import opened VoteStep
  import opened VotingSteps
  import opened VoteExactness
  import opened VotePayRows
  import opened VotePaySteps
  import opened Staking

  /** What passing weights on may do where everybody votes for itself only: a weight is kept or set to what
      its stake is worth, and only a producer whose weight is set anew gets other votes. */
  ghost predicate Passed(b: Book, b': Book, growth: Growth) {
    && b'.voters.Keys == b.voters.Keys && b'.producers.Keys == b.producers.Keys && TotalGap(b') == TotalGap(b)
    && (forall v :: v in b.voters ==> SameOrWeighed(b, b', v, growth))
    && (forall p :: p in b.producers && b'.producers[p].votes != b.producers[p].votes ==> Reweighed(b, b', p, growth))
  }

  predicate SameOrWeighed(b: Book, b': Book, v: Name, growth: Growth)
    requires v in b.voters && v in b'.voters
  {
    b'.voters[v].staked == b.voters[v].staked && (b'.voters[v].lastWeight == b.voters[v].lastWeight || Weighed(b', v, growth))
  }

  lemma OwnCastVotes(b: Book, x: Name, delta: real, now: int)
    requires x in b.voters && Only(b.voters[x].producers, x) && Registered(b.voters[x].producers, b)
    ensures var b' := CastAll(b, SameDelta(b.voters[x].producers, delta), false, now);
      && b'.voters == b.voters && b'.producers.Keys == b.producers.Keys && TotalGap(b') == TotalGap(b)
      && forall p :: p in b.producers && p != x ==> b'.producers[p].votes == b.producers[p].votes
  {
    hide TotalGap, Count, OnlyWeights, VoteGap, ProxyGap;
    var ballots := SameDelta(b.voters[x].producers, delta);
    CastAllGaps(b, ballots, false, now);
    CastKeys(b, ballots, false, now);
    assert forall i :: 0 <= i < |ballots| ==> ballots[i].producer in b.voters[x].producers;
    forall p | p in b.producers && p != x
      ensures CastAll(b, ballots, false, now).producers[p].votes == b.producers[p].votes
    {
      CountAllVotes(Tally(b, 0.0, 0.0), ballots, false, now, p);
      DeltaForAbsent(ballots, p);
    }
  }

  lemma SameTotalGap(b: Book, b': Book)
    requires b'.producers == b.producers && b'.totalVotes == b.totalVotes
    ensures TotalGap(b') == TotalGap(b)
  {
  }

  lemma SetWeightPasses(b: Book, b1: Book, x: Name, growth: Growth)
    requires x in b.voters && b1.voters == b.voters && b1.producers.Keys == b.producers.Keys && TotalGap(b1) == TotalGap(b)
    requires forall p :: p in b.producers && b1.producers[p].votes != b.producers[p].votes ==>
      p == x && b.voters[x].lastWeight != StakeToVote(b.voters[x].staked, growth)
    ensures Passed(b, SetWeight(b1, x, StakeToVote(b.voters[x].staked, growth)), growth)
  {
    hide TotalGap, StakeToVote;
    var b', w := SetWeight(b1, x, StakeToVote(b.voters[x].staked, growth)), StakeToVote(b.voters[x].staked, growth);
    var b'' := SetWeightGaps(b1, x, w);
  }

  /** Lending changes neither weights nor votes. */
  lemma LendingPasses(b: Book, x: Name, delta: real, b': Book, growth: Growth)
    requires x in b.voters && Passed(AddProxied(b, x, delta), b', growth)
    ensures Passed(b, b', growth)
  {
    hide TotalGap, StakeToVote;
    var b1 := AddProxiedGaps(b, x, delta);
    forall v | v in b.voters ensures SameOrWeighed(b, b', v, growth) {
      assert SameOrWeighed(b1, b', v, growth);
    }
    forall p | p in b.producers && b'.producers[p].votes != b.producers[p].votes ensures Reweighed(b, b', p, growth) {
      assert Reweighed(b1, b', p, growth);
    }
  }

  /** Nor does it matter for others that the voter it comes from is weighed at last. */
  lemma WeighingPasses(b: Book, x: Name, b2: Book, growth: Growth)
    requires x in b.voters && b2.voters.Keys == b.voters.Keys && b2.voters[x] == b.voters[x] && Passed(b, b2, growth)
    ensures Passed(b, SetWeight(b2, x, StakeToVote(b.voters[x].staked, growth)), growth)
  {
    hide TotalGap, StakeToVote, Total;
    var w := StakeToVote(b.voters[x].staked, growth);
    var b' := SetWeight(b2, x, w);
    assert TotalGap(b') == TotalGap(b2) by { SameTotalGap(b2, b'); }
    forall v | v in b.voters ensures SameOrWeighed(b, b', v, growth) {
      assert SameOrWeighed(b, b2, v, growth);
    }
    forall p | p in b.producers && b'.producers[p].votes != b.producers[p].votes ensures Reweighed(b, b', p, growth) {
      assert Reweighed(b, b2, p, growth);
    }
  }

  lemma {:induction false} PropagatePasses(b: Book, x: Name, seen: set<Name>, k: Clock, rank: Ranks)
    requires x in b.voters && Ranked(b.voters, rank) && OwnBallots(b)
    requires forall y :: y in seen ==> At(rank, y) > At(rank, x)
    requires Propagate(b, x, seen, k).Success?
    ensures Passed(b, Propagate(b, x, seen, k).value, k.growth)
    decreases At(rank, x)
  {
    hide CastAll, Propagate, Passed, OwnBallots, TotalGap, OnlyWeights, BallotsKnown, StakeToVote;
    var row := b.voters[x];
    var c := Shift(row, k.growth);
    assert row.proxy != NO_NAME ==> row.proxy in b.voters && At(rank, row.proxy) < At(rank, x);
    OwnAt(b, x);
    PropagateUnfolds(b, x, seen, k);
    if Magnitude(c) <= 1.0 {
      SetWeightPasses(b, b, x, k.growth);
    } else if row.proxy == NO_NAME {
      OwnCastVotes(b, x, c, k.now);
      SetWeightPasses(b, CastAll(b, SameDelta(row.producers, c), false, k.now), x, k.growth);
    } else {
      var b1 := AddProxied(b, row.proxy, c);
      AddProxiedFrame(b, row.proxy, c, rank);
      AddProxiedOwn(b, row.proxy, c);
      PropagatePasses(b1, row.proxy, seen + {x}, k, rank);
      var b2 := PropagateFrame(b1, row.proxy, seen + {x}, k, rank);
      SameKeys(b1, b2);
      LendingPasses(b, row.proxy, c, b2, k.growth);
      assert b2.voters[x] == b.voters[x];
      WeighingPasses(b, x, b2, k.growth);
    }
  }

  lemma LendPasses(b: Book, x: Name, delta: real, k: Clock)
    requires x in b.voters && Acyclic(b.voters) && OwnBallots(b) && Propagate(AddProxied(b, x, delta), x, {}, k).Success?
    ensures Passed(b, Propagate(AddProxied(b, x, delta), x, {}, k).value, k.growth)
  {
    hide Propagate, OwnBallots, Passed;
    var rank: Ranks :| Ranked(b.voters, rank);
    AddProxiedFrame(b, x, delta, rank);
    AddProxiedOwn(b, x, delta);
    PropagatePasses(AddProxied(b, x, delta), x, {}, k, rank);
    LendingPasses(b, x, delta, Propagate(AddProxied(b, x, delta), x, {}, k).value, k.growth);
  }

  lemma NothingPassed(b: Book, growth: Growth)
    ensures Passed(b, b, growth)
  {
  }

  lemma LeavePasses(b: Book, voter: Name, k: Clock)
    requires WellFormed(b) && OwnBallots(b) && voter in b.voters && LeaveProxy(b, b.voters[voter], k).Success?
    ensures Passed(b, LeaveProxy(b, b.voters[voter], k).value, k.growth)
    ensures OwnBallots(LeaveProxy(b, b.voters[voter], k).value)
  {
    hide Propagate, OwnBallots, Passed, AddProxied, OnlyWeights;
    var row := b.voters[voter];
    ShapeParts(b);
    NothingPassed(b, k.growth);
    var left := LeaveProxyFrame(b, voter, k);
    WeightsKeepOwn(b, left);
    if row.lastWeight > 0.0 && row.proxy != NO_NAME {
      LendPasses(b, row.proxy, -row.lastWeight, k);
    }
  }

  lemma JoinPasses(b: Book, voter: Name, proxy: Name, producers: seq<Name>, w: real, voting: bool, k: Clock)
    requires WellFormed(b) && OwnBallots(b) && voter in b.voters && (proxy != NO_NAME ==> voter != proxy)
    requires Repeats(b.voters[voter], proxy, producers, voting) && JoinProxy(b, proxy, w, voting, k).Success?
    ensures Passed(b, JoinProxy(b, proxy, w, voting, k).value, k.growth)
  {
    hide Propagate, OwnBallots, Passed, AddProxied, OnlyWeights;
    ShapeParts(b);
    NothingPassed(b, k.growth);
    if proxy != NO_NAME && w >= 0.0 {
      LendPasses(b, proxy, w, k);
    }
  }

  // ---------- what is broken stays broken ----------

  /** The rest of a vote by `voter` does not mend this: votes are missing from the grand total, or a
      producer that has just been weighed is left with negative votes. */
  ghost predicate Broken(b: Book, voter: Name, growth: Growth) {
    TotalGap(b) < 0.0 || exists p :: InDebt(b, p, growth) && p != voter
  }

  predicate InDebt(b: Book, p: Name, growth: Growth) {
    p in b.producers && p in b.voters && Weighed(b, p, growth) && b.producers[p].votes < 0.0
  }

  lemma BrokenMeans(b: Book, voter: Name, growth: Growth, now: int)
    requires Broken(b, voter, growth)
    ensures !Accrues(b, now)
  {
    hide Indexed, Timely, TotalGap, Weighed;
  }

  lemma PassedStaysBroken(b: Book, b': Book, voter: Name, growth: Growth)
    requires Passed(b, b', growth) && Broken(b, voter, growth)
    ensures Broken(b', voter, growth)
  {
    hide TotalGap, StakeToVote;
    if p :| InDebt(b, p, growth) && p != voter {
      assert SameOrWeighed(b, b', p, growth);
      assert InDebt(b', p, growth);
    }
  }

  /** Whoever passing on drives below zero had its weight set anew. */
  lemma PassedBreaks(b: Book, b': Book, voter: Name, growth: Growth)
    requires Passed(b, b', growth) && VotesNonNegative(b) && !VotesNonNegative(b')
    requires voter in b.voters && b'.voters[voter] == b.voters[voter]
    ensures Broken(b', voter, growth)
  {
    hide TotalGap, StakeToVote;
    var p :| p in b'.producers && b'.producers[p].votes < 0.0;
    assert Reweighed(b, b', p, growth) && SameOrWeighed(b, b', p, growth);
    assert InDebt(b', p, growth);
  }

  lemma OwnBallotsElsewhere(b: Book, voter: Name, ballots: seq<Ballot>, now: int, p: Name)
    requires AllKnown(ballots, b) && (forall i :: 0 <= i < |ballots| ==> ballots[i].producer == voter)
    requires p in b.producers && p in b.shares && p != voter
    ensures CastAll(b, ballots, true, now).producers[p] == b.producers[p]
  {
    CountElsewhere(Tally(b, 0.0, 0.0), ballots, true, now, p);
  }

  lemma CastStaysBroken(b: Book, voter: Name, proxy: Name, producers: seq<Name>, w: real, ballots: seq<Ballot>, k: Clock)
    requires voter in b.voters && b.shares.Keys == b.producers.Keys && Broken(b, voter, k.growth)
    requires AllKnown(ballots, b) && OneEach(ballots) && forall i :: 0 <= i < |ballots| ==> ballots[i].producer == voter
    ensures Broken(Record(CastAll(b, ballots, true, k.now), voter, proxy, producers, w), voter, k.growth)
  {
    hide TotalGap, StakeToVote, CastAll, OneEach, NoDebt;
    CastAllShortfall(b, ballots, k.now);
    CastKeys(b, ballots, true, k.now);
    var cast := CastAll(b, ballots, true, k.now);
    var b' := Record(cast, voter, proxy, producers, w);
    SameTotalGap(cast, b');
    if p :| InDebt(b, p, k.growth) && p != voter {
      OwnBallotsElsewhere(b, voter, ballots, k.now, p);
      assert InDebt(b', p, k.growth);
    }
  }

  lemma ActivateStaysBroken(b: Book, voter: Name, k: Clock)
    requires voter in b.voters && Broken(b, voter, k.growth)
    ensures Broken(Activate(b, voter, k.now), voter, k.growth)
  {
    hide TotalGap, StakeToVote;
    SameTotalGap(b, Activate(b, voter, k.now));
    if p :| InDebt(b, p, k.growth) && p != voter {
      assert InDebt(Activate(b, voter, k.now), p, k.growth);
    }
  }

  lemma AddStakeStaysBroken(b: Book, voter: Name, delta: int, growth: Growth)
    requires Broken(b, voter, growth)
    ensures Broken(AddStake(b, voter, delta), voter, growth)
  {
    hide TotalGap, StakeToVote;
    SameTotalGap(b, AddStake(b, voter, delta));
    if p :| InDebt(b, p, growth) && p != voter {
      assert InDebt(AddStake(b, voter, delta), p, growth);
    }
  }

  // ---------- the vote ----------

  lemma VoteNoDebtMeans(b: Book, voter: Name, proxy: Name, producers: seq<Name>, voting: bool, k: Clock, left: Book, joined: Book)
    requires voter in b.voters && LeaveProxy(Activate(b, voter, k.now), b.voters[voter], k) == Success(left)
    requires JoinProxy(left, proxy, NewWeight(b.voters[voter], k.growth), voting, k) == Success(joined)
    requires AllKnown(BallotsOf(b.voters[voter], proxy, producers, k), joined)
    ensures var row, a, w := b.voters[voter], Activate(b, voter, k.now), NewWeight(b.voters[voter], k.growth);
      VoteNoDebt(b, voter, proxy, producers, voting, k) <==>
        && (row.lastWeight > 0.0 && row.proxy != NO_NAME && row.proxy in a.voters ==>
              PassesNoDebt(AddProxied(a, row.proxy, -row.lastWeight), row.proxy, {}, k))
        && (proxy != NO_NAME && proxy in left.voters && w >= 0.0 ==> PassesNoDebt(AddProxied(left, proxy, w), proxy, {}, k))
        && NoDebt(joined, BallotsOf(row, proxy, producers, k))
  {
    hide LeaveProxy, JoinProxy, BallotsOf, PassesNoDebt, NoDebt, NewWeight, Activate, AddProxied;
  }

  /** The last stage: a producer in debt stays in debt, and one the ballots drive below zero is cut off. */
  lemma EndsAccrueIff(joined: Book, voter: Name, proxy: Name, producers: seq<Name>, w: real, ballots: seq<Ballot>, k: Clock)
    requires voter in joined.voters && WellFormed(joined) && AllKnown(ballots, joined) && OneEach(ballots)
    requires forall i :: 0 <= i < |ballots| ==> ballots[i].producer == voter
    ensures var b' := Record(CastAll(joined, ballots, true, k.now), voter, proxy, producers, w);
      && (Broken(joined, voter, k.growth) ==> Broken(b', voter, k.growth))
      && (Accrues(joined, k.now) ==> (Accrues(b', k.now) <==> NoDebt(joined, ballots)))
      && (Accrues(joined, k.now) && !NoDebt(joined, ballots) ==> Broken(b', voter, k.growth))
  {
    hide CastAll, Accrues, TotalGap, NoDebt, OneEach, Acyclic, DistinctBallots, ProxyUsersPlain, Record;
    var cast := CastAll(joined, ballots, true, k.now);
    RecordAccrues(cast, voter, proxy, producers, w, k.now);
    RecordTotalGap(cast, voter, proxy, producers, w);
    if Broken(joined, voter, k.growth) {
      CastStaysBroken(joined, voter, proxy, producers, w, ballots, k);
    }
    if Accrues(joined, k.now) {
      CastAccruesIff(joined, ballots, true, k.now);
    }
  }

  lemma RecordTotalGap(b: Book, voter: Name, proxy: Name, producers: seq<Name>, w: real)
    requires voter in b.voters
    ensures TotalGap(Record(b, voter, proxy, producers, w)) == TotalGap(b)
  {
    SameTotalGap(b, Record(b, voter, proxy, producers, w));
  }

  lemma AccruesVotes(b: Book, now: int)
    requires Accrues(b, now)
    ensures VotesNonNegative(b)
  {
  }

  /** A vote either keeps vote pay or breaks it for good. */
  lemma VoteKeepsOrBreaks(b: Book, voter: Name, proxy: Name, producers: seq<Name>, voting: bool, k: Clock) returns (b': Book)
    requires WellFormed(b) && OwnBallots(b) && voter in b.voters && Repeats(b.voters[voter], proxy, producers, voting)
    requires UpdateVotes(b, voter, proxy, producers, voting, k).Success?
    ensures UpdateVotes(b, voter, proxy, producers, voting, k) == Success(b')
    ensures Broken(b, voter, k.growth) ==> Broken(b', voter, k.growth)
    ensures Accrues(b, k.now) && VoteNoDebt(b, voter, proxy, producers, voting, k) ==> Accrues(b', k.now)
    ensures Accrues(b, k.now) && !VoteNoDebt(b, voter, proxy, producers, voting, k) ==> Broken(b', voter, k.growth)
  {
    hide LeaveProxy, JoinProxy, CastAll, BallotsOf, CheckBallots, UpdateVotes, Record, AddProxied, Activate, WellFormed, NewWeight,
         PassesNoDebt, Accrues, VotesNonNegative, NoDebt, Broken, Passed, OwnBallots, VoteNoDebt, OneEach;
    var row := b.voters[voter];
    var w := NewWeight(row, k.growth);
    var left, joined := VoteStages(b, voter, proxy, producers, voting, k);
    var a := Activate(b, voter, k.now);
    ActivateKeepsShape(b, voter, k.now);
    ActivateOwn(b, voter, k.now);
    ChoicePlain(b, voter, proxy, producers);
    LeavePasses(a, voter, k);
    assert WellFormed(left) && left.voters[voter] == row by { LeaveShape(a, voter, k, left); }
    JoinPasses(left, voter, proxy, producers, w, voting, k);
    assert WellFormed(joined) && voter in joined.voters && joined.voters[voter] == row by {
      JoinShape(left, voter, proxy, producers, w, voting, k, joined);
    }
    assert Distinct(row.producers) by { ShapeBallots(b); BallotAt(b, voter); }
    BallotsOneEach(row, proxy, producers, k);
    VoteNoDebtMeans(b, voter, proxy, producers, voting, k, left, joined);
    EndsAccrueIff(joined, voter, proxy, producers, w, BallotsOf(row, proxy, producers, k), k);
    b' := Record(CastAll(joined, BallotsOf(row, proxy, producers, k), true, k.now), voter, proxy, producers, w);
    if Broken(b, voter, k.growth) {
      BrokenMeans(b, voter, k.growth, k.now);
      ActivateStaysBroken(b, voter, k);
      PassedStaysBroken(a, left, voter, k.growth);
      PassedStaysBroken(left, joined, voter, k.growth);
    } else if Accrues(b, k.now) {
      ActivateAccrues(b, voter, k.now);
      AccruesVotes(a, k.now);
      var left' := LeaveAccrues(a, voter, k);
      if Accrues(left, k.now) {
        AccruesVotes(left, k.now);
        var joined' := JoinAccrues(left, voter, proxy, producers, w, voting, k);
        if Accrues(joined, k.now) {
          AccruesVotes(joined, k.now);
        } else {
          PassedBreaks(left, joined, voter, k.growth);
        }
      } else {
        PassedBreaks(a, left, voter, k.growth);
        PassedStaysBroken(left, joined, voter, k.growth);
      }
    }
  }

  lemma LeaveShape(b: Book, voter: Name, k: Clock, left: Book)
    requires WellFormed(b) && voter in b.voters && LeaveProxy(b, b.voters[voter], k) == Success(left)
    ensures WellFormed(left) && left.voters[voter] == b.voters[voter]
  {
    hide LeaveProxy, OnlyWeights, WellFormed;
    ShapeParts(b);
    var left' := LeaveProxyFrame(b, voter, k);
    WeightsKeepShape(b, left);
  }

  lemma JoinShape(b: Book, voter: Name, proxy: Name, producers: seq<Name>, w: real, voting: bool, k: Clock, joined: Book)
    requires WellFormed(b) && voter in b.voters && (proxy != NO_NAME ==> voter != proxy)
    requires Repeats(b.voters[voter], proxy, producers, voting) && JoinProxy(b, proxy, w, voting, k) == Success(joined)
    ensures WellFormed(joined) && voter in joined.voters && joined.voters[voter] == b.voters[voter]
  {
    hide JoinProxy, OnlyWeights, WellFormed;
    ShapeParts(b);
    var joined' := JoinProxyFrame(b, voter, proxy, producers, w, voting, k);
    WeightsKeepShape(b, joined);
    SameKeys(b, joined);
  }

  /** The exact condition for a vote, whether or not the ledger of votes is exact. */
  lemma VoteAccruesIff(b: Book, voter: Name, proxy: Name, producers: seq<Name>, voting: bool, k: Clock)
    requires WellFormed(b) && OwnBallots(b) && voter in b.voters && Repeats(b.voters[voter], proxy, producers, voting)
    requires Accrues(b, k.now) && UpdateVotes(b, voter, proxy, producers, voting, k).Success?
    ensures Accrues(UpdateVotes(b, voter, proxy, producers, voting, k).value, k.now)
      <==> VoteNoDebt(b, voter, proxy, producers, voting, k)
  {
    hide UpdateVotes, WellFormed, OwnBallots, Accrues, VoteNoDebt, Broken;
    var b' := VoteKeepsOrBreaks(b, voter, proxy, producers, voting, k);
    if !VoteNoDebt(b, voter, proxy, producers, voting, k) {
      BrokenMeans(b', voter, k.growth, k.now);
    }
  }

  // ---------- stake changes ----------

  lemma StakeKeepsOrBreaks(b: Book, voter: Name, delta: int, k: Clock) returns (b': Book)
    requires WellFormed(b) && OwnBallots(b) && UpdateVotingPower(b, voter, delta, k).Success?
    ensures UpdateVotingPower(b, voter, delta, k) == Success(b')
    ensures Broken(b, voter, k.growth) ==> Broken(b', voter, k.growth)
    ensures Accrues(b, k.now) && StakeNoDebt(b, voter, delta, k) ==> Accrues(b', k.now)
    ensures Accrues(b, k.now) && !StakeNoDebt(b, voter, delta, k) ==> Broken(b', voter, k.growth)
  {
    hide UpdateVotes, WellFormed, OwnBallots, Accrues, VoteNoDebt, Broken;
    var b1 := AddStake(b, voter, delta);
    AddStakeShape(b, voter, delta);
    AddStakeAccrues(b, voter, delta, k.now);
    AddStakeKeepsOwn(b, voter, delta);
    if Broken(b, voter, k.growth) {
      BrokenMeans(b, voter, k.growth, k.now);
      AddStakeStaysBroken(b, voter, delta, k.growth);
    }
    b' := b1;
    if b1.voters[voter].producers != [] || b1.voters[voter].proxy != NO_NAME {
      b' := VoteKeepsOrBreaks(b1, voter, b1.voters[voter].proxy, b1.voters[voter].producers, false, k);
    }
  }

  /** The exact condition for a stake change. */
  lemma StakeAccruesIff(b: Book, voter: Name, delta: int, k: Clock)
    requires WellFormed(b) && OwnBallots(b) && Accrues(b, k.now) && UpdateVotingPower(b, voter, delta, k).Success?
    ensures Accrues(UpdateVotingPower(b, voter, delta, k).value, k.now) <==> StakeNoDebt(b, voter, delta, k)
  {
    hide UpdateVotingPower, WellFormed, OwnBallots, Accrues, StakeNoDebt, Broken;
    var b' := StakeKeepsOrBreaks(b, voter, delta, k);
    if !StakeNoDebt(b, voter, delta, k) {
      BrokenMeans(b', voter, k.growth, k.now);
    }
  }

  /** Two stake changes in a row: the second does not mend what the first has broken. */
  lemma StakeTwiceAccruesIff(b: Book, voter: Name, delta: int, delta2: int, k: Clock, b1: Book, b2: Book)
    requires WellFormed(b) && OwnBallots(b) && Accrues(b, k.now)
    requires UpdateVotingPower(b, voter, delta, k) == Success(b1) && UpdateVotingPower(b1, voter, delta2, k) == Success(b2)
    ensures Accrues(b2, k.now) <==> StakeNoDebt(b, voter, delta, k) && StakeNoDebt(b1, voter, delta2, k)
  {
    hide UpdateVotingPower, WellFormed, OwnBallots, Accrues, StakeNoDebt, Broken, SameStanding;
    var b1' := StakeKeepsOrBreaks(b, voter, delta, k);
    StakeKeepsOwn(b, voter, delta, k);
    var b1'' := StakeKeepsShape(b, voter, delta, k);
    if StakeNoDebt(b, voter, delta, k) {
      StakeAccruesIff(b1, voter, delta2, k);
    } else {
      var b2' := StakeKeepsOrBreaks(b1, voter, delta2, k);
      BrokenMeans(b2, voter, k.growth, k.now);
    }
  }
}
