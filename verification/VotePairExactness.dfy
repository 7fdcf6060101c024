/** The global pair over a whole vote: exactly when share and rate stay the sums over producers. */
module VotePairExactness {
  import opened Basics
  import opened Names
  import opened Voting
  import opened ProxyGraph
  import opened VoteLedger
  import opened ProxyLedger
  import opened VotingRules
  import opened VotePayIndex
  import opened VoteStep
  import opened VoteExactness
  import opened VotePayRows
  import opened VotePaySteps
  import opened VotePayExactness
  import opened VotePayPair
  import opened Staking

  // ---------- the condition ----------

  ghost predicate JoinRate(left: Book, row: Voter, proxy: Name, producers: seq<Name>, voting: bool, k: Clock) {
    var w := NewWeight(row, k.growth);
    && (proxy != NO_NAME && proxy in left.voters && w >= 0.0 ==> PassesRate(AddProxied(left, proxy, w), proxy, {}, k))
    && (JoinProxy(left, proxy, w, voting, k).Success? ==>
          var joined := JoinProxy(left, proxy, w, voting, k).value;
          AllKnown(BallotsOf(row, proxy, producers, k), joined) ==> RateFits(joined, BallotsOf(row, proxy, producers, k), true, k.now))
  }

  /** After each of the three casts of a vote the rate still is the sum of the votes that earn. It can be read off
      the state before the vote. */
  ghost predicate VoteRate(b: Book, voter: Name, proxy: Name, producers: seq<Name>, voting: bool, k: Clock)
    requires voter in b.voters
  {
    var row := b.voters[voter];
    var a := Activate(b, voter, k.now);
    && (row.lastWeight > 0.0 && row.proxy != NO_NAME && row.proxy in a.voters ==>
          PassesRate(AddProxied(a, row.proxy, -row.lastWeight), row.proxy, {}, k))
    && (LeaveProxy(a, row, k).Success? ==> JoinRate(LeaveProxy(a, row, k).value, row, proxy, producers, voting, k))
  }

  lemma VoteRateMeans(b: Book, voter: Name, proxy: Name, producers: seq<Name>, voting: bool, k: Clock, left: Book, joined: Book)
    requires voter in b.voters && LeaveProxy(Activate(b, voter, k.now), b.voters[voter], k) == Success(left)
    requires JoinProxy(left, proxy, NewWeight(b.voters[voter], k.growth), voting, k) == Success(joined)
    requires AllKnown(BallotsOf(b.voters[voter], proxy, producers, k), joined)
    ensures var row, a, w := b.voters[voter], Activate(b, voter, k.now), NewWeight(b.voters[voter], k.growth);
      VoteRate(b, voter, proxy, producers, voting, k) <==>
        && (row.lastWeight > 0.0 && row.proxy != NO_NAME && row.proxy in a.voters ==>
              PassesRate(AddProxied(a, row.proxy, -row.lastWeight), row.proxy, {}, k))
        && (proxy != NO_NAME && proxy in left.voters && w >= 0.0 ==> PassesRate(AddProxied(left, proxy, w), proxy, {}, k))
        && RateFits(joined, BallotsOf(row, proxy, producers, k), true, k.now)
  {
    hide LeaveProxy, JoinProxy, BallotsOf, PassesRate, RateFits, NewWeight, Activate, AddProxied;
  }

  // ---------- a rate that is too high stays too high ----------

  /** The rate exceeds the votes that earn. */
  ghost predicate Overstated(b: Book, now: int) {
    && b.shares.Keys == b.producers.Keys && (forall p :: p in b.shares ==> b.shares[p].updated <= now)
    && 0.0 <= b.shareRate && TotalRate(b) < b.shareRate
  }

  lemma OverstatedMeans(b: Book, now: int)
    requires Overstated(b, now)
    ensures !Indexed(b)
  {
    hide TotalRate, TotalOwed;
  }

  lemma RowsOverstated(b: Book, b': Book, now: int)
    requires b'.shareRate == b.shareRate && b'.producers == b.producers && b'.shares == b.shares
    ensures Overstated(b', now) == Overstated(b, now)
  {
    hide TotalRate, TotalOwed, ShareSound;
    SameTablesSameSums(b, b');
  }

  lemma CastOverstated(b: Book, ballots: seq<Ballot>, clamp: bool, now: int)
    requires AllKnown(ballots, b) && OneEach(ballots) && Overstated(b, now) && ShortAll(b, ballots, clamp, now) == 0.0
    ensures Overstated(CastAll(b, ballots, clamp, now), now)
  {
    hide TotalRate, TotalOwed, ShareSound, Count, OneEach, UpdateTotalShare, ShortAll;
    var t := CountAll(Tally(b, 0.0, 0.0), ballots, clamp, now);
    RateMoves(b, ballots, clamp, now);
    CastDated(b, ballots, clamp, now);
    CastRate(b, ballots, clamp, now);
    UpdateKeepsTables(t.book, now, -t.inactive, t.rate);
    SameTablesSameSums(t.book, CastAll(b, ballots, clamp, now));
  }

  lemma {:induction false} PropagateOverstated(b: Book, x: Name, seen: set<Name>, k: Clock, rank: Ranks)
    requires x in b.voters && Ranked(b.voters, rank) && DistinctBallots(b) && Overstated(b, k.now)
    requires forall y :: y in seen ==> At(rank, y) > At(rank, x)
    requires Propagate(b, x, seen, k).Success?
    ensures Overstated(Propagate(b, x, seen, k).value, k.now)
    decreases At(rank, x)
  {
    hide CastAll, Propagate, DistinctBallots, Overstated;
    var row := b.voters[x];
    var w := StakeToVote(row.staked, k.growth);
    var c := Shift(row, k.growth);
    assert row.proxy != NO_NAME ==> row.proxy in b.voters && At(rank, row.proxy) < At(rank, x);
    PropagateUnfolds(b, x, seen, k);
    var b' := Propagate(b, x, seen, k).value;
    if Magnitude(c) <= 1.0 {
      RowsOverstated(b, b', k.now);
    } else if row.proxy == NO_NAME {
      assert Distinct(row.producers) by { BallotAt(b, x); }
      NoDebtNoShort(b, SameDelta(row.producers, c), false, k.now);
      CastOverstated(b, SameDelta(row.producers, c), false, k.now);
      RowsOverstated(CastAll(b, SameDelta(row.producers, c), false, k.now), b', k.now);
    } else {
      var b1 := AddProxied(b, row.proxy, c);
      AddProxiedFrame(b, row.proxy, c, rank);
      AddProxiedKeepsBallots(b, row.proxy, c);
      RowsOverstated(b, b1, k.now);
      PropagateOverstated(b1, row.proxy, seen + {x}, k, rank);
      RowsOverstated(Propagate(b1, row.proxy, seen + {x}, k).value, b', k.now);
    }
  }

  lemma StuckOverstated(b: Book, now: int)
    requires Stuck(b, now)
    ensures Overstated(b, now)
  {
    hide TotalRate;
  }

  // ---------- the two propagations ----------

  lemma LendPair(b: Book, x: Name, delta: real, k: Clock) returns (b': Book)
    requires x in b.voters && Acyclic(b.voters) && DistinctBallots(b) && Propagate(AddProxied(b, x, delta), x, {}, k).Success?
    ensures Propagate(AddProxied(b, x, delta), x, {}, k) == Success(b')
    ensures Overstated(b, k.now) ==> Overstated(b', k.now)
    ensures Paired(b, k.now) ==> (Indexed(b') <==> PassesRate(AddProxied(b, x, delta), x, {}, k))
    ensures Paired(b, k.now) ==> if Indexed(b') then Paired(b', k.now) else Stuck(b', k.now)
  {
    hide Propagate, PassesRate, Paired, Indexed, Stuck, Overstated, DistinctBallots;
    var rank: Ranks :| Ranked(b.voters, rank);
    AddProxiedFrame(b, x, delta, rank);
    AddProxiedKeepsBallots(b, x, delta);
    var b1 := AddProxied(b, x, delta);
    VoterRowsPaired(b, b1, k.now);
    RowsOverstated(b, b1, k.now);
    b' := Propagate(b1, x, {}, k).value;
    if Paired(b, k.now) {
      var b'' := PropagateIndexedIff(b1, x, {}, k, rank);
    }
    if Overstated(b, k.now) {
      PropagateOverstated(b1, x, {}, k, rank);
    }
  }

  lemma LeavePair(b: Book, voter: Name, k: Clock) returns (left: Book)
    requires WellFormed(b) && voter in b.voters && Paired(b, k.now) && LeaveProxy(b, b.voters[voter], k).Success?
    ensures LeaveProxy(b, b.voters[voter], k) == Success(left)
    ensures var row := b.voters[voter];
      if row.lastWeight > 0.0 && row.proxy != NO_NAME then
        && row.proxy in b.voters
        && (Indexed(left) <==> PassesRate(AddProxied(b, row.proxy, -row.lastWeight), row.proxy, {}, k))
        && (if Indexed(left) then Paired(left, k.now) else Overstated(left, k.now))
      else left == b
  {
    hide Propagate, PassesRate, Paired, Indexed, Stuck, Overstated, WellFormed, AddProxied;
    ShapeBallots(b);
    left := LeaveProxy(b, b.voters[voter], k).value;
    var row := b.voters[voter];
    if row.lastWeight > 0.0 && row.proxy != NO_NAME {
      var left' := LendPair(b, row.proxy, -row.lastWeight, k);
      if !Indexed(left) {
        StuckOverstated(left, k.now);
      }
    }
  }

  lemma JoinPair(b: Book, proxy: Name, w: real, voting: bool, k: Clock) returns (joined: Book)
    requires WellFormed(b) && JoinProxy(b, proxy, w, voting, k).Success?
    ensures JoinProxy(b, proxy, w, voting, k) == Success(joined)
    ensures Overstated(b, k.now) ==> Overstated(joined, k.now)
    ensures if proxy != NO_NAME && w >= 0.0 then
        && proxy in b.voters
        && (Paired(b, k.now) ==> (Indexed(joined) <==> PassesRate(AddProxied(b, proxy, w), proxy, {}, k)))
        && (Paired(b, k.now) ==> if Indexed(joined) then Paired(joined, k.now) else Stuck(joined, k.now))
      else joined == b
  {
    hide Propagate, PassesRate, Paired, Indexed, Stuck, Overstated, WellFormed, AddProxied;
    ShapeBallots(b);
    joined := JoinProxy(b, proxy, w, voting, k).value;
    if proxy != NO_NAME && w >= 0.0 {
      var joined' := LendPair(b, proxy, w, k);
    }
  }

  // ---------- the ballots ----------

  lemma TwoDiffer(ballots: seq<Ballot>, voter: Name)
    requires OneEach(ballots) && |ballots| >= 2
    ensures exists i :: 0 <= i < |ballots| && ballots[i].producer != voter
  {
    assert ballots[0].producer != ballots[1].producer;
  }

  /** The ballots of somebody who has only itself to vote for: at most one. */
  lemma AtMostOne(ballots: seq<Ballot>, voter: Name)
    requires OneEach(ballots) && forall i :: 0 <= i < |ballots| ==> ballots[i].producer == voter
    ensures |ballots| <= 1
  {
    hide OneEach;
    if |ballots| >= 2 {
      TwoDiffer(ballots, voter);
    }
  }

  lemma {:induction false} AddBallotsSigns(d: Deltas, ps: seq<Name>, w: real, isNew: bool)
    ensures w >= 0.0 && (forall p :: p in d ==> d[p].delta >= 0.0) ==>
      forall p :: p in AddBallots(d, ps, w, isNew) ==> AddBallots(d, ps, w, isNew)[p].delta >= 0.0
    ensures w <= 0.0 && (forall p :: p in d ==> d[p].delta <= 0.0) ==>
      forall p :: p in AddBallots(d, ps, w, isNew) ==> AddBallots(d, ps, w, isNew)[p].delta <= 0.0
  {
    if ps != [] {
      AddBallotsSigns(d, ps[..|ps| - 1], w, isNew);
    }
  }

  lemma InOrderListed(d: Deltas)
    ensures forall i :: 0 <= i < |InOrder(d)| ==> InOrder(d)[i] in d.Values
  {
    var ks := Sorted(d.Keys);
    forall i | 0 <= i < |InOrder(d)| ensures InOrder(d)[i] in d.Values {
      assert ks[i] in d.Keys && InOrder(d)[i] == d[ks[i]];
    }
  }

  /** Whoever had a proxy only adds votes, whoever takes one only withdraws them. */
  lemma BallotSigns(row: Voter, proxy: Name, producers: seq<Name>, w: real)
    ensures var ballots := InOrder(BallotDeltas(row, proxy, producers, w));
      && (row.proxy != NO_NAME ==> forall i :: 0 <= i < |ballots| ==> ballots[i].delta >= 0.0)
      && (proxy != NO_NAME ==> forall i :: 0 <= i < |ballots| ==> ballots[i].delta <= 0.0)
  {
    hide InOrder, AddBallots;
    var d := BallotDeltas(row, proxy, producers, w);
    AddBallotsSigns(map[], row.producers, -row.lastWeight, false);
    AddBallotsSigns(map[], producers, w, true);
    InOrderListed(d);
  }

  /** A ballot that adds votes takes nothing off a rate that is too high. */
  lemma AddingOverstated(b: Book, ballots: seq<Ballot>, voter: Name, now: int)
    requires AllKnown(ballots, b) && OneEach(ballots) && Overstated(b, now) && forall i :: 0 <= i < |ballots| ==> ballots[i].delta >= 0.0
    requires (forall i :: 0 <= i < |ballots| ==> ballots[i].producer == voter) && (voter in b.producers ==> b.producers[voter].votes >= 0.0)
    ensures Overstated(CastAll(b, ballots, true, now), now)
  {
    hide Overstated, OneEach, ShortAll;
    NoDebtNoShort(b, ballots, true, now);
    CastOverstated(b, ballots, true, now);
  }

  /** A ballot that withdraws votes leaves a rate of zero at zero, and those who earn further below it. */
  lemma WithdrawingSticks(b: Book, ballots: seq<Ballot>, voter: Name, now: int)
    requires AllKnown(ballots, b) && OneEach(ballots) && Stuck(b, now) && forall i :: 0 <= i < |ballots| ==> ballots[i].delta <= 0.0
    requires (forall i :: 0 <= i < |ballots| ==> ballots[i].producer == voter) && (voter in b.producers ==> b.producers[voter].votes >= 0.0)
    ensures Stuck(CastAll(b, ballots, true, now), now)
  {
    hide TotalRate, TotalOwed, ShareSound, OneEach, UpdateTotalShare, AdvancedShare;
    var t := CountAll(Tally(b, 0.0, 0.0), ballots, true, now);
    AtMostOne(ballots, voter);
    assert ballots != [] ==> ballots[..|ballots| - 1] == [] && ballots[0].producer == voter;
    RateMoves(b, ballots, true, now);
    CastDated(b, ballots, true, now);
    CastRate(b, ballots, true, now);
    UpdateKeepsTables(t.book, now, -t.inactive, t.rate);
    SameTablesSameSums(t.book, CastAll(b, ballots, true, now));
  }

  // ---------- the whole vote ----------

  /** What passing on leaves to a voter it does not weigh: its votes as a producer. */
  lemma PassedVotes(b: Book, b': Book, voter: Name, growth: Growth)
    requires Passed(b, b', growth) && voter in b.voters && voter in b'.voters && b'.voters[voter] == b.voters[voter]
    ensures voter in b.producers ==> voter in b'.producers && b'.producers[voter].votes == b.producers[voter].votes
  {
    hide TotalGap;
  }

  /** The ballots at the end: from a pair that is right the loop decides, and one that is wrong stays wrong. */
  lemma EndsPair(joined: Book, row: Voter, voter: Name, proxy: Name, producers: seq<Name>, w: real, now: int)
    requires Distinct(row.producers) && Distinct(producers) && (proxy != NO_NAME ==> producers == [])
    requires voter in joined.producers ==> joined.producers[voter].votes >= 0.0
    requires var ballots := InOrder(BallotDeltas(row, proxy, producers, w));
      AllKnown(ballots, joined) && OneEach(ballots) && forall i :: 0 <= i < |ballots| ==> ballots[i].producer == voter
    ensures var ballots := InOrder(BallotDeltas(row, proxy, producers, w));
      var cast := CastAll(joined, ballots, true, now);
      && (Paired(joined, now) ==> (Indexed(cast) <==> RateFits(joined, ballots, true, now)))
      && (row.proxy != NO_NAME && Overstated(joined, now) ==> !Indexed(cast))
      && (proxy != NO_NAME && Stuck(joined, now) ==> !Indexed(cast))
  {
    hide CastAll, InOrder, BallotDeltas, OneEach, Paired, Indexed, Overstated, Stuck, RateFits;
    var ballots := InOrder(BallotDeltas(row, proxy, producers, w));
    BallotSigns(row, proxy, producers, w);
    if Paired(joined, now) {
      CastIndexedIff(joined, ballots, true, now);
    }
    if row.proxy != NO_NAME && Overstated(joined, now) {
      AddingOverstated(joined, ballots, voter, now);
      OverstatedMeans(CastAll(joined, ballots, true, now), now);
    }
    if proxy != NO_NAME && Stuck(joined, now) {
      WithdrawingSticks(joined, ballots, voter, now);
      StuckOverstated(CastAll(joined, ballots, true, now), now);
      OverstatedMeans(CastAll(joined, ballots, true, now), now);
    }
  }

  lemma RecordIndexed(b: Book, voter: Name, proxy: Name, producers: seq<Name>, w: real, now: int)
    requires voter in b.voters
    ensures Indexed(Record(b, voter, proxy, producers, w)) == Indexed(b)
  {
    hide Paired, Indexed;
    VoterRowsPaired(b, Record(b, voter, proxy, producers, w), now);
  }

  /** The exact condition for a vote that starts from books in which vote pay is in order: afterwards the pair is
      right if and only if the rate followed the votes that earn at each of the three casts. */
  lemma VoteIndexedIff(b: Book, voter: Name, proxy: Name, producers: seq<Name>, voting: bool, k: Clock) returns (b': Book)
    requires WellFormed(b) && OwnBallots(b) && voter in b.voters && Repeats(b.voters[voter], proxy, producers, voting)
    requires Accrues(b, k.now) && UpdateVotes(b, voter, proxy, producers, voting, k).Success?
    ensures UpdateVotes(b, voter, proxy, producers, voting, k) == Success(b')
    ensures Indexed(b') <==> VoteRate(b, voter, proxy, producers, voting, k)
  {
    hide LeaveProxy, JoinProxy, CastAll, InOrder, BallotDeltas, CheckBallots, UpdateVotes, Record, AddProxied, Activate, WellFormed,
         NewWeight, PassesRate, RateFits, Accrues, VotesNonNegative, Indexed, Paired, Overstated, Stuck, Passed, OwnBallots, OneEach;
    var row := b.voters[voter];
    var w := NewWeight(row, k.growth);
    var ballots := BallotsOf(row, proxy, producers, k);
    var left, joined := VoteStages(b, voter, proxy, producers, voting, k);
    var a := Activate(b, voter, k.now);
    ActivateKeepsShape(b, voter, k.now);
    ActivateOwn(b, voter, k.now);
    ActivateAccrues(b, voter, k.now);
    AccruesPaired(a, k.now);
    AccruesVotes(a, k.now);
    ChoicePlain(b, voter, proxy, producers);
    var left' := LeavePair(a, voter, k);
    LeavePasses(a, voter, k);
    assert WellFormed(left) && left.voters[voter] == row by { LeaveShape(a, voter, k, left); }
    assert voter in left.voters by { StaysListed(a, left, voter, k.growth); }
    var joined' := JoinPair(left, proxy, w, voting, k);
    JoinPasses(left, voter, proxy, producers, w, voting, k);
    assert voter in joined.voters && joined.voters[voter] == row by {
      JoinShape(left, voter, proxy, producers, w, voting, k, joined);
    }
    PassedVotes(a, left, voter, k.growth);
    PassedVotes(left, joined, voter, k.growth);
    assert voter in joined.producers ==> joined.producers[voter].votes >= 0.0 by { OwnVotesKept(a, left, joined, voter, k.growth); }
    assert Distinct(row.producers) by { ShapeBallots(b); BallotAt(b, voter); }
    BallotsOneEach(row, proxy, producers, k);
    EndsPair(joined, row, voter, proxy, producers, w, k.now);
    VoteRateMeans(b, voter, proxy, producers, voting, k, left, joined);
    b' := Record(CastAll(joined, ballots, true, k.now), voter, proxy, producers, w);
    RecordIndexed(CastAll(joined, ballots, true, k.now), voter, proxy, producers, w, k.now);
    NotBoth(left, k.now);
  }

  lemma StaysListed(b: Book, b': Book, voter: Name, growth: Growth)
    requires Passed(b, b', growth) && voter in b.voters
    ensures voter in b'.voters && b'.producers.Keys == b.producers.Keys
  {
    hide TotalGap;
  }

  lemma OwnVotesKept(a: Book, left: Book, joined: Book, voter: Name, growth: Growth)
    requires VotesNonNegative(a) && Passed(a, left, growth) && Passed(left, joined, growth)
    requires voter in a.producers && voter in left.producers && voter in joined.producers ==>
      joined.producers[voter].votes == left.producers[voter].votes == a.producers[voter].votes
    ensures voter in joined.producers ==> joined.producers[voter].votes >= 0.0
  {
    hide TotalGap;
  }

  lemma NotBoth(b: Book, now: int)
    ensures Paired(b, now) ==> Indexed(b)
    ensures Overstated(b, now) ==> !Indexed(b)
  {
    hide Indexed, Overstated, Timely, NothingPending;
    if Overstated(b, now) {
      OverstatedMeans(b, now);
    }
  }

  // ---------- a stake change ----------

  ghost predicate StakeRate(b: Book, voter: Name, delta: int, k: Clock) {
    var b' := AddStake(b, voter, delta);
    b'.voters[voter].producers != [] || b'.voters[voter].proxy != NO_NAME ==>
      VoteRate(b', voter, b'.voters[voter].proxy, b'.voters[voter].producers, false, k)
  }

  /** The same for a stake change. */
  lemma StakeIndexedIff(b: Book, voter: Name, delta: int, k: Clock)
    requires WellFormed(b) && OwnBallots(b) && Accrues(b, k.now) && UpdateVotingPower(b, voter, delta, k).Success?
    ensures Indexed(UpdateVotingPower(b, voter, delta, k).value) <==> StakeRate(b, voter, delta, k)
  {
    hide UpdateVotes, WellFormed, OwnBallots, Accrues, VoteRate, Indexed;
    var b1 := AddStake(b, voter, delta);
    AddStakeShape(b, voter, delta);
    AddStakeAccrues(b, voter, delta, k.now);
    AddStakeKeepsOwn(b, voter, delta);
    if b1.voters[voter].producers != [] || b1.voters[voter].proxy != NO_NAME {
      var b' := VoteIndexedIff(b1, voter, b1.voters[voter].proxy, b1.voters[voter].producers, false, k);
    } else {
      AccruesIndexed(b1, k.now);
    }
  }

  lemma AccruesIndexed(b: Book, now: int)
    requires Accrues(b, now)
    ensures Indexed(b)
  {
    hide Indexed, Timely, TotalGap;
  }
}
