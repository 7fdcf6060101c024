/** Vote pay and the steps that move votes: pair, votes and grand total stay in order together if and only if no
    producer is driven below zero votes on the way. What becomes of the pair alone is said in `VotePayPair`. */
module VotePaySteps {
  import opened Basics
  import opened Names
  import opened Sums
  import opened Voting
  import opened ProxyGraph
  import opened VoteLedger
  import opened ProxyLedger
  import opened VotingRules
  import opened VotePayIndex
  import opened VotingInvariant
  import opened VoteStep
  import opened VotePayRows
  import opened BookSteps
  import opened VotingSteps
  import opened Staking

  // ---------- the loops over producers ----------

  lemma CountShortfall(t: Tally, v: Ballot, now: int)
    requires v.producer in t.book.producers
    ensures var gap := TotalGap(Count(t, v, true, now).book);
      gap <= TotalGap(t.book) && (t.book.producers[v.producer].votes + v.delta < 0.0 ==> gap < TotalGap(t.book))
  {
    hide Total, AdvancedShare;
    WriteVotes(t.book.producers, v.producer, Count(t, v, true, now).book.producers[v.producer]);
  }

  /** What the clamp at voting.cpp:351 swallows is missing from the grand total for good. */
  lemma {:induction false} CountAllShortfall(t: Tally, ballots: seq<Ballot>, now: int)
    requires AllKnown(ballots, t.book) && OneEach(ballots) && t.book.shares.Keys == t.book.producers.Keys
    ensures var gap := TotalGap(CountAll(t, ballots, true, now).book);
      gap <= TotalGap(t.book) && (!NoDebt(t.book, ballots) ==> gap < TotalGap(t.book))
  {
    hide TotalGap, Count;
    if ballots != [] {
      var n := |ballots| - 1;
      var v := ballots[n];
      CountAllShortfall(t, ballots[..n], now);
      CountElsewhere(t, ballots[..n], true, now, v.producer);
      CountShortfall(CountAll(t, ballots[..n], true, now), v, now);
      assert NoDebt(t.book, ballots[..n]) && t.book.producers[v.producer].votes + v.delta >= 0.0 ==> NoDebt(t.book, ballots);
    }
  }

  lemma CastAllShortfall(b: Book, ballots: seq<Ballot>, now: int)
    requires AllKnown(ballots, b) && OneEach(ballots) && b.shares.Keys == b.producers.Keys
    ensures var gap := TotalGap(CastAll(b, ballots, true, now));
      gap <= TotalGap(b) && (!NoDebt(b, ballots) ==> gap < TotalGap(b))
  {
    hide Total, Count, OneEach, NoDebt;
    CountAllShortfall(Tally(b, 0.0, 0.0), ballots, now);
  }

  /** Without the clamp a producer in debt is left with negative votes. */
  lemma DebtStays(b: Book, ballots: seq<Ballot>, now: int)
    requires AllKnown(ballots, b) && OneEach(ballots) && !NoDebt(b, ballots)
    ensures !VotesNonNegative(CastAll(b, ballots, false, now))
  {
    hide Count;
    var i :| 0 <= i < |ballots| && b.producers[ballots[i].producer].votes + ballots[i].delta < 0.0;
    var p := ballots[i].producer;
    CountAllVotes(Tally(b, 0.0, 0.0), ballots, false, now, p);
    DeltaForListed(ballots, i);
    assert CastAll(b, ballots, false, now).producers[p].votes < 0.0;
  }

  lemma CastKeys(b: Book, ballots: seq<Ballot>, clamp: bool, now: int)
    requires AllKnown(ballots, b)
    ensures CastAll(b, ballots, clamp, now).shares.Keys == b.shares.Keys
    ensures CastAll(b, ballots, clamp, now).producers.Keys == b.producers.Keys
  {
    hide CastAll;
    CastAllFrame(b, ballots, clamp, now);
  }

  /** The exact condition for one loop, whatever the ballots: vote pay goes on if and only if nobody is
      driven below zero. Either way it is clear what goes wrong. */
  lemma CastAccruesIff(b: Book, ballots: seq<Ballot>, clamp: bool, now: int)
    requires AllKnown(ballots, b) && OneEach(ballots) && Accrues(b, now)
    ensures Accrues(CastAll(b, ballots, clamp, now), now) <==> NoDebt(b, ballots)
    ensures !NoDebt(b, ballots) ==>
      if clamp then TotalGap(CastAll(b, ballots, clamp, now)) < 0.0 else !VotesNonNegative(CastAll(b, ballots, clamp, now))
  {
    hide CastAll, Indexed, Timely, TotalGap, NoDebt, OneEach, VotesNonNegative;
    if NoDebt(b, ballots) {
      assert ClampIdle(b, ballots);
      CastAllIndexed(b, ballots, clamp, now);
      CastAllGaps(b, ballots, clamp, now);
      CastKeys(b, ballots, clamp, now);
    } else if clamp {
      CastAllShortfall(b, ballots, now);
    } else {
      DebtStays(b, ballots, now);
    }
  }

  // ---------- propagation ----------

  /** Where a weight change is passed on to, it drives no producer below zero. */
  ghost predicate PassesNoDebt(b: Book, x: Name, seen: set<Name>, k: Clock)
    requires x in b.voters
    decreases b.voters.Keys - seen
  {
    var row := b.voters[x];
    var c := Shift(row, k.growth);
    x in seen || Magnitude(c) <= 1.0
    || if row.proxy != NO_NAME then
         row.proxy in b.voters ==> PassesNoDebt(AddProxied(b, row.proxy, c), row.proxy, seen + {x}, k)
       else Registered(row.producers, b) ==> NoDebt(b, SameDelta(row.producers, c))
  }

  lemma PassesUnfolds(b: Book, x: Name, seen: set<Name>, k: Clock)
    requires x in b.voters && x !in seen
    requires b.voters[x].proxy != NO_NAME ==> b.voters[x].proxy in b.voters
    ensures var row := b.voters[x];
      var c := Shift(row, k.growth);
      PassesNoDebt(b, x, seen, k) <==>
        Magnitude(c) <= 1.0
        || if row.proxy != NO_NAME then PassesNoDebt(AddProxied(b, row.proxy, c), row.proxy, seen + {x}, k)
           else Registered(row.producers, b) ==> NoDebt(b, SameDelta(row.producers, c))
  {
  }

  lemma SameVotersRow(b: Book, b': Book, now: int)
    requires b' == b.(voters := b'.voters)
    ensures Accrues(b', now) == Accrues(b, now) && VotesNonNegative(b') == VotesNonNegative(b)
  {
    hide Accrues;
    VoterRowsAccrue(b, b', now);
  }

  /** The exact condition for propagation. */
  lemma {:induction false} PropagateAccrues(b: Book, x: Name, seen: set<Name>, k: Clock, rank: Ranks) returns (b': Book)
    requires x in b.voters && Ranked(b.voters, rank) && DistinctBallots(b) && Accrues(b, k.now)
    requires forall y :: y in seen ==> At(rank, y) > At(rank, x)
    requires Propagate(b, x, seen, k).Success?
    ensures Propagate(b, x, seen, k) == Success(b')
    ensures PassesNoDebt(b, x, seen, k) ==> Accrues(b', k.now)
    ensures !PassesNoDebt(b, x, seen, k) ==> !VotesNonNegative(b')
    decreases At(rank, x)
  {
    hide CastAll, Propagate, PassesNoDebt, Accrues, DistinctBallots, NoDebt, VotesNonNegative;
    var row := b.voters[x];
    var w := StakeToVote(row.staked, k.growth);
    var c := Shift(row, k.growth);
    assert row.proxy != NO_NAME ==> row.proxy in b.voters && At(rank, row.proxy) < At(rank, x);
    PropagateUnfolds(b, x, seen, k);
    PassesUnfolds(b, x, seen, k);
    b' := Propagate(b, x, seen, k).value;
    if Magnitude(c) <= 1.0 {
      SameVotersRow(b, b', k.now);
    } else if row.proxy == NO_NAME {
      assert Distinct(row.producers) by { BallotAt(b, x); }
      var b1 := CastAll(b, SameDelta(row.producers, c), false, k.now);
      CastAccruesIff(b, SameDelta(row.producers, c), false, k.now);
      SameVotersRow(b1, b', k.now);
    } else {
      var b1 := AddProxied(b, row.proxy, c);
      AddProxiedFrame(b, row.proxy, c, rank);
      AddProxiedKeepsBallots(b, row.proxy, c);
      SameVotersRow(b, b1, k.now);
      var b2 := PropagateAccrues(b1, row.proxy, seen + {x}, k, rank);
      SameVotersRow(b2, b', k.now);
    }
  }

  // ---------- a vote ----------

  /** The second half of a vote drives no producer below zero: neither the weight handed to the new proxy
      nor the ballots cast at the end. */
  ghost predicate JoinNoDebt(left: Book, row: Voter, proxy: Name, producers: seq<Name>, voting: bool, k: Clock) {
    var w := NewWeight(row, k.growth);
    && (proxy != NO_NAME && proxy in left.voters && w >= 0.0 ==> PassesNoDebt(AddProxied(left, proxy, w), proxy, {}, k))
    && (JoinProxy(left, proxy, w, voting, k).Success? ==>
          var joined := JoinProxy(left, proxy, w, voting, k).value;
          AllKnown(BallotsOf(row, proxy, producers, k), joined) ==> NoDebt(joined, BallotsOf(row, proxy, producers, k)))
  }

  /** No cast of a vote drives a producer below zero: not what the old proxy passes on, not what the new
      one does, and not the voter's own ballots. It can be read off the state before the vote. */
  ghost predicate VoteNoDebt(b: Book, voter: Name, proxy: Name, producers: seq<Name>, voting: bool, k: Clock)
    requires voter in b.voters
  {
    var row := b.voters[voter];
    var a := Activate(b, voter, k.now);
    && (row.lastWeight > 0.0 && row.proxy != NO_NAME && row.proxy in a.voters ==>
          PassesNoDebt(AddProxied(a, row.proxy, -row.lastWeight), row.proxy, {}, k))
    && (LeaveProxy(a, row, k).Success? ==> JoinNoDebt(LeaveProxy(a, row, k).value, row, proxy, producers, voting, k))
  }

  /** Lending to a proxy, when the books pass it on. */
  lemma LendAccrues(b: Book, x: Name, delta: real, k: Clock) returns (b': Book)
    requires x in b.voters && Acyclic(b.voters) && DistinctBallots(b) && Accrues(b, k.now)
    requires Propagate(AddProxied(b, x, delta), x, {}, k).Success?
    ensures Propagate(AddProxied(b, x, delta), x, {}, k) == Success(b')
    ensures PassesNoDebt(AddProxied(b, x, delta), x, {}, k) ==> Accrues(b', k.now)
    ensures !PassesNoDebt(AddProxied(b, x, delta), x, {}, k) ==> !VotesNonNegative(b')
  {
    hide Propagate, PassesNoDebt, Accrues, DistinctBallots, VotesNonNegative;
    var rank: Ranks :| Ranked(b.voters, rank);
    AddProxiedFrame(b, x, delta, rank);
    AddProxiedKeepsBallots(b, x, delta);
    SameVotersRow(b, AddProxied(b, x, delta), k.now);
    b' := PropagateAccrues(AddProxied(b, x, delta), x, {}, k, rank);
  }

  lemma BallotsOneEach(row: Voter, proxy: Name, producers: seq<Name>, k: Clock)
    requires Distinct(row.producers) && Distinct(producers)
    ensures OneEach(BallotsOf(row, proxy, producers, k))
  {
    hide InOrder, BallotDeltas, OneEach;
    AddBallotsLabelled(row, proxy, producers, NewWeight(row, k.growth));
    InOrderMeans(BallotDeltas(row, proxy, producers, NewWeight(row, k.growth)), 0);
  }

  lemma ActivateAccrues(b: Book, voter: Name, now: int)
    requires voter in b.voters && Accrues(b, now)
    ensures Accrues(Activate(b, voter, now), now)
  {
    hide Accrues;
    VoterRowsAccrue(b, Activate(b, voter, now), now);
  }

  lemma ShapeBallots(b: Book)
    requires WellFormed(b)
    ensures DistinctBallots(b) && Acyclic(b.voters)
  {
  }

  lemma RecordAccrues(b: Book, voter: Name, proxy: Name, producers: seq<Name>, w: real, now: int)
    requires voter in b.voters
    ensures Accrues(Record(b, voter, proxy, producers, w), now) == Accrues(b, now)
  {
    hide Accrues;
    VoterRowsAccrue(b, Record(b, voter, proxy, producers, w), now);
  }

  /** The first half of a vote. */
  lemma LeaveAccrues(b: Book, voter: Name, k: Clock) returns (left: Book)
    requires WellFormed(b) && voter in b.voters && Accrues(b, k.now) && LeaveProxy(b, b.voters[voter], k).Success?
    ensures LeaveProxy(b, b.voters[voter], k) == Success(left) && WellFormed(left)
    ensures left.voters.Keys == b.voters.Keys && left.voters[voter] == b.voters[voter]
    ensures var row := b.voters[voter];
      if row.lastWeight > 0.0 && row.proxy != NO_NAME then
        && row.proxy in b.voters
        && (PassesNoDebt(AddProxied(b, row.proxy, -row.lastWeight), row.proxy, {}, k) ==> Accrues(left, k.now))
        && (!PassesNoDebt(AddProxied(b, row.proxy, -row.lastWeight), row.proxy, {}, k) ==> !VotesNonNegative(left))
      else left == b
  {
    hide Propagate, PassesNoDebt, Accrues, VotesNonNegative, WellFormed, OnlyWeights, AddProxied;
    ShapeBallots(b);
    left := LeaveProxyFrame(b, voter, k);
    WeightsKeepShape(b, left);
    SameKeys(b, left);
    var row := b.voters[voter];
    if row.lastWeight > 0.0 && row.proxy != NO_NAME {
      var left' := LendAccrues(b, row.proxy, -row.lastWeight, k);
    }
  }

  lemma JoinAccrues(b: Book, voter: Name, proxy: Name, producers: seq<Name>, w: real, voting: bool, k: Clock)
    returns (joined: Book)
    requires WellFormed(b) && voter in b.voters && (proxy != NO_NAME ==> voter != proxy)
    requires Repeats(b.voters[voter], proxy, producers, voting)
    requires Accrues(b, k.now) && JoinProxy(b, proxy, w, voting, k).Success?
    ensures JoinProxy(b, proxy, w, voting, k) == Success(joined) && WellFormed(joined)
    ensures joined.voters.Keys == b.voters.Keys && joined.voters[voter] == b.voters[voter]
    ensures if proxy != NO_NAME && w >= 0.0 then
        && proxy in b.voters
        && (PassesNoDebt(AddProxied(b, proxy, w), proxy, {}, k) ==> Accrues(joined, k.now))
        && (!PassesNoDebt(AddProxied(b, proxy, w), proxy, {}, k) ==> !VotesNonNegative(joined))
      else joined == b
  {
    hide Propagate, PassesNoDebt, Accrues, VotesNonNegative, WellFormed, OnlyWeights, AddProxied, Acyclic, DistinctBallots;
    ShapeBallots(b);
    ShapeParts(b);
    joined := JoinProxyFrame(b, voter, proxy, producers, w, voting, k);
    WeightsKeepShape(b, joined);
    SameKeys(b, joined);
    if proxy != NO_NAME && w >= 0.0 {
      var joined' := LendAccrues(b, proxy, w, k);
    }
  }

  /** A vote keeps vote pay, whether or not the ledger is exact, as long as it drives no producer below
      zero. */
  lemma VoteAccrues(b: Book, voter: Name, proxy: Name, producers: seq<Name>, voting: bool, k: Clock) returns (b': Book)
    requires WellFormed(b) && Accrues(b, k.now) && voter in b.voters && Repeats(b.voters[voter], proxy, producers, voting)
    requires UpdateVotes(b, voter, proxy, producers, voting, k).Success? && VoteNoDebt(b, voter, proxy, producers, voting, k)
    ensures UpdateVotes(b, voter, proxy, producers, voting, k) == Success(b')
    ensures Accrues(b', k.now)
  {
    hide LeaveProxy, JoinProxy, CastAll, BallotsOf, CheckBallots, UpdateVotes, Record, AddProxied, Activate, WellFormed, NewWeight,
         PassesNoDebt, Accrues, VotesNonNegative, NoDebt;
    var row := b.voters[voter];
    var w := NewWeight(row, k.growth);
    var left, joined := VoteStages(b, voter, proxy, producers, voting, k);
    var a := Activate(b, voter, k.now);
    ActivateKeepsShape(b, voter, k.now);
    ActivateAccrues(b, voter, k.now);
    var left' := LeaveAccrues(a, voter, k);
    ChoicePlain(b, voter, proxy, producers);
    var joined' := JoinAccrues(left, voter, proxy, producers, w, voting, k);
    assert Distinct(row.producers) by { ShapeBallots(b); BallotAt(b, voter); }
    BallotsOneEach(row, proxy, producers, k);
    CastAccruesIff(joined, BallotsOf(row, proxy, producers, k), true, k.now);
    var cast := CastAll(joined, BallotsOf(row, proxy, producers, k), true, k.now);
    b' := Record(cast, voter, proxy, producers, w);
    RecordAccrues(cast, voter, proxy, producers, w, k.now);
  }

  // ---------- stake changes and proxies ----------

  /** A stake change re-weighs the votes of a voter who has any; here that drives no producer below zero. */
  ghost predicate StakeNoDebt(b: Book, voter: Name, delta: int, k: Clock) {
    var b' := AddStake(b, voter, delta);
    b'.voters[voter].producers != [] || b'.voters[voter].proxy != NO_NAME ==>
      VoteNoDebt(b', voter, b'.voters[voter].proxy, b'.voters[voter].producers, false, k)
  }

  lemma AddStakeAccrues(b: Book, voter: Name, delta: int, now: int)
    ensures Accrues(AddStake(b, voter, delta), now) == Accrues(b, now)
  {
    hide Accrues;
    VoterRowsAccrue(b, AddStake(b, voter, delta), now);
  }

  lemma AddStakeShape(b: Book, voter: Name, delta: int)
    requires WellFormed(b)
    ensures WellFormed(AddStake(b, voter, delta))
  {
    hide WellFormed;
    AddStakeIsRow(b, voter, delta);
    PlainRow(b, voter);
    RewriteVoterShape(b, voter, AddStake(b, voter, delta).voters[voter]);
  }

  lemma StakeAccrues(b: Book, voter: Name, delta: int, k: Clock)
    requires WellFormed(b) && Accrues(b, k.now) && UpdateVotingPower(b, voter, delta, k).Success? && StakeNoDebt(b, voter, delta, k)
    ensures Accrues(UpdateVotingPower(b, voter, delta, k).value, k.now)
  {
    hide UpdateVotes, WellFormed, VoteNoDebt, Accrues;
    var b1 := AddStake(b, voter, delta);
    AddStakeShape(b, voter, delta);
    AddStakeAccrues(b, voter, delta, k.now);
    if b1.voters[voter].producers != [] || b1.voters[voter].proxy != NO_NAME {
      var b' := VoteAccrues(b1, voter, b1.voters[voter].proxy, b1.voters[voter].producers, false, k);
    }
  }

  ghost predicate ProxyNoDebt(b: Book, who: Name, on: bool, k: Clock) {
    who in b.voters ==> PassesNoDebt(b.(voters := b.voters[who := b.voters[who].(isProxy := on)]), who, {}, k)
  }

  /** The exact condition for `regproxy`. */
  lemma RegProxyAccruesIff(b: Book, who: Name, on: bool, k: Clock)
    requires WellFormed(b) && Accrues(b, k.now) && RegProxy(b, who, on, k).Success?
    ensures Accrues(RegProxy(b, who, on, k).value, k.now) <==> ProxyNoDebt(b, who, on, k)
  {
    hide Propagate, WellFormed, PassesNoDebt, Indexed, Timely, VotesNonNegative, TotalGap;
    var row := RowOf(b, who).(isProxy := on);
    ProxyRowShape(b, who, on);
    RewriteVoterShape(b, who, row);
    var b1 := WithRow(b, who, row);
    SameVotersRow(b, b1, k.now);
    if who in b.voters {
      ShapeBallots(b1);
      var rank: Ranks :| Ranked(b1.voters, rank);
      var b' := PropagateAccrues(b1, who, {}, k, rank);
    }
  }

  // ---------- where the ledger is exact ----------

  /** With an exact ledger no propagation drives anybody below zero. */
  lemma {:induction false} CoreNoDebt(b: Book, x: Name, seen: set<Name>, k: Clock, rank: Ranks)
    requires x in b.voters && Ranked(b.voters, rank) && Core(b)
    requires forall y :: y in seen ==> At(rank, y) > At(rank, x)
    ensures PassesNoDebt(b, x, seen, k)
    decreases At(rank, x)
  {
    hide PassesNoDebt, Weighty, VotesExact, AddProxied, BallotsKnown, WellFormed;
    var row := b.voters[x];
    assert row.proxy != NO_NAME ==> row.proxy in b.voters && At(rank, row.proxy) < At(rank, x);
    PassesUnfolds(b, x, seen, k);
    if row.proxy == NO_NAME {
      CoreListed(b, x);
      SameDeltaIdle(b, x, k);
    } else {
      var c := Shift(row, k.growth);
      AddProxiedFrame(b, row.proxy, c, rank);
      AddProxiedCore(b, row.proxy, c);
      CoreNoDebt(AddProxied(b, row.proxy, c), row.proxy, seen + {x}, k, rank);
    }
  }

  lemma CoreListed(b: Book, x: Name)
    requires Core(b) && x in b.voters
    ensures Registered(b.voters[x].producers, b) && Distinct(b.voters[x].producers) && Weighty(b) && VotesExact(b)
  {
  }

  lemma LendsNoDebt(b: Book, x: Name, delta: real, k: Clock)
    requires x in b.voters && Core(b)
    ensures PassesNoDebt(AddProxied(b, x, delta), x, {}, k)
  {
    hide PassesNoDebt, Weighty, VotesExact, AddProxied, BallotsKnown;
    AddProxiedCore(b, x, delta);
    var rank: Ranks :| Ranked(AddProxied(b, x, delta).voters, rank);
    CoreNoDebt(AddProxied(b, x, delta), x, {}, k, rank);
  }

  /** A vote that keeps the ledger exact drives nobody below zero either. */
  lemma QuietVoteNoDebt(b: Book, voter: Name, proxy: Name, producers: seq<Name>, voting: bool, k: Clock)
    requires Sound(b) && voter in b.voters && Repeats(b.voters[voter], proxy, producers, voting)
    requires UpdateVotes(b, voter, proxy, producers, voting, k).Success? && VoteSkipsNothing(b, voter, proxy, k)
    ensures VoteNoDebt(b, voter, proxy, producers, voting, k)
  {
    hide Core, LeaveProxy, JoinProxy, CastAll, InOrder, BallotDeltas, CheckBallots, UpdateVotes, Record, ProxyGap, NothingSkipped,
         PassesNoDebt, AddProxied, Activate, WellFormed, NewWeight, Weighty, VotesExact, BallotsKnown, NoDebt;
    CoreParts(b);
    var row := b.voters[voter];
    var w := NewWeight(row, k.growth);
    var left, joined := VoteStages(b, voter, proxy, producers, voting, k);
    var a := Activate(b, voter, k.now);
    NewWeightNonNegative(b, voter, k.growth);
    ActivateCore(b, voter, k.now);
    var left' := LeaveCore(a, voter, k);
    var joined' := JoinCore(left, proxy, w, voting, k);
    if row.lastWeight > 0.0 && row.proxy != NO_NAME && row.proxy in a.voters {
      LendsNoDebt(a, row.proxy, -row.lastWeight, k);
    }
    if proxy != NO_NAME && proxy in left.voters {
      LendsNoDebt(left, proxy, w, k);
    }
    ChoicePlain(b, voter, proxy, producers);
    VoterRowStays(b, voter, proxy, producers, voting, k, left, joined);
    CoreParts(joined);
    CoreListed(joined, voter);
    VoteIdle(joined, voter, proxy, producers, w);
  }

  lemma QuietStakeNoDebt(b: Book, voter: Name, delta: int, k: Clock)
    requires Sound(b) && UpdateVotingPower(b, voter, delta, k).Success? && StakeSkipsNothing(b, voter, delta, k)
    ensures StakeNoDebt(b, voter, delta, k)
  {
    hide UpdateVotes, WellFormed, Core, VoteSkipsNothing, ProxiesExact, VoteNoDebt;
    var b1 := AddStake(b, voter, delta);
    AddStakeIsRow(b, voter, delta);
    assert WellFormed(b) by { CoreParts(b); }
    PlainRow(b, voter);
    RewriteVoterSound(b, voter, b1.voters[voter]);
    if b1.voters[voter].producers != [] || b1.voters[voter].proxy != NO_NAME {
      QuietVoteNoDebt(b1, voter, b1.voters[voter].proxy, b1.voters[voter].producers, false, k);
    }
  }

  lemma SoundProxyNoDebt(b: Book, who: Name, on: bool, k: Clock)
    requires Sound(b) && RegProxy(b, who, on, k).Success?
    ensures ProxyNoDebt(b, who, on, k)
  {
    hide Propagate, WellFormed, PassesNoDebt, VotesExact, Weighty, BallotsKnown, ProxyGap;
    if who in b.voters {
      var row := b.voters[who].(isProxy := on);
      ProxyRowShape(b, who, on);
      StakedNow(b, who);
      RewriteVoterSound(b, who, row);
      var b1 := WithRow(b, who, row);
      SoundBallots(b1);
      var rank: Ranks :| Ranked(b1.voters, rank);
      CoreNoDebt(b1, who, {}, k, rank);
    }
  }
}
