/** Who is harmed by skipped changes: an account's totals stay exact as long as nobody who backs it is the one
    whose change is dropped, and nobody names it in a choice of negative weight, whatever happens to others. */
module Locality {
  import opened Basics
  import opened Names
  import opened Sums
  import opened Voting
  import opened ProxyGraph
  import opened VoteLedger
  import opened ProxyLedger
  import opened VotingRules
  import opened VotePayIndex
  import opened VotingInvariant
  import opened VoteStep
  import opened BookSteps
  import opened VotingSteps
  import opened VoteExactness
  import opened VotePaySteps
  import opened VotePayExactness
  import opened Staking

  /** The change passed on from `x` is dropped at a voter who backs `a`. */
  ghost predicate Hurts(b: Book, x: Name, k: Clock, a: Name)
    requires x in b.voters
  {
    var r := b.voters[EndOf(b, x, {}, k)];
    Dropped(r, k) != 0.0 && (VoteFrom(r, a) || LoanTo(r, a))
  }

  /** The totals kept for `a` are the sums they stand for. */
  ghost predicate RightFor(b: Book, a: Name) {
    && (a in b.producers ==> VoteGap(b, a) == 0.0)
    && (a in b.voters ==> ProxyGap(b, a) == 0.0 && b.voters[a].lastWeight >= 0.0)
  }

  /** What holds of the books, and of who may list `a`, whatever has been skipped elsewhere. */
  ghost predicate Kept(b: Book, a: Name) { WellFormed(b) && LendersWeigh(b) && ListedByItself(b, a) }

  ghost predicate LendersWeigh(b: Book) {
    forall v :: v in b.voters ==> b.voters[v].staked >= 0 && (b.voters[v].proxy != NO_NAME ==> b.voters[v].lastWeight >= 0.0)
  }

  /** Nobody but `a` votes for `a`, and only once it is registered. */
  ghost predicate ListedByItself(b: Book, a: Name) {
    forall v :: v in b.voters && a in b.voters[v].producers ==> v == a && a in b.producers
  }

  lemma KeptParts(b: Book, a: Name)
    requires Kept(b, a)
    ensures WellFormed(b) && Acyclic(b.voters) && DistinctBallots(b) && LendersWeigh(b) && ListedByItself(b, a)
    ensures b.shares.Keys == b.producers.Keys
  {
  }

  // ---------- propagation ----------

  /** Whoever passing on re-weighs gets the weight of its own stake. */
  lemma {:induction false} PropagateWeighs(b: Book, x: Name, seen: set<Name>, k: Clock, rank: Ranks)
    requires x in b.voters && Ranked(b.voters, rank) && Propagate(b, x, seen, k).Success?
    requires forall y :: y in seen ==> At(rank, y) > At(rank, x)
    ensures var b' := Propagate(b, x, seen, k).value;
      b'.voters.Keys == b.voters.Keys && forall v :: v in b.voters ==> SameOrWeighed(b, b', v, k.growth)
    decreases At(rank, x)
  {
    hide CastAll, Propagate, StakeToVote;
    var row := b.voters[x];
    var c := Shift(row, k.growth);
    assert row.proxy != NO_NAME ==> row.proxy in b.voters && At(rank, row.proxy) < At(rank, x);
    PropagateUnfolds(b, x, seen, k);
    if Magnitude(c) > 1.0 && row.proxy != NO_NAME {
      var b1 := AddProxied(b, row.proxy, c);
      AddProxiedFrame(b, row.proxy, c, rank);
      PropagateWeighs(b1, row.proxy, seen + {x}, k, rank);
      var b2 := Propagate(b1, row.proxy, seen + {x}, k).value;
      forall v | v in b.voters ensures SameOrWeighed(b, b2, v, k.growth) {
        assert SameOrWeighed(b1, b2, v, k.growth);
      }
    }
  }

  lemma WeighedKeepsLenders(b: Book, b': Book, growth: Growth)
    requires LendersWeigh(b) && OnlyWeights(b, b') && forall v :: v in b.voters ==> SameOrWeighed(b, b', v, growth)
    ensures LendersWeigh(b')
    ensures forall v :: v in b.voters && b.voters[v].lastWeight >= 0.0 ==> b'.voters[v].lastWeight >= 0.0
  {
    forall v | v in b.voters
      ensures b'.voters[v].staked >= 0 && (b.voters[v].lastWeight >= 0.0 ==> b'.voters[v].lastWeight >= 0.0)
        && b'.voters[v].proxy == b.voters[v].proxy
    {
      assert SameOrWeighed(b, b', v, growth) && SameButWeights(b.voters[v], b'.voters[v]);
      WeightNonNegative(b.voters[v].staked, growth);
    }
  }

  lemma WeightsKeepListed(b: Book, b': Book, a: Name)
    requires OnlyWeights(b, b') && ListedByItself(b, a)
    ensures ListedByItself(b', a)
  {
    forall v | v in b'.voters && a in b'.voters[v].producers ensures v == a && a in b'.producers {
      assert SameButWeights(b.voters[v], b'.voters[v]);
    }
  }

  /** What a propagation from a state that is kept leaves behind. */
  ghost predicate Spared(b: Book, b': Book, a: Name, x: Name, delta: real) {
    && Kept(b', a) && b'.voters.Keys == b.voters.Keys && b'.producers.Keys == b.producers.Keys
    && (a in b.producers ==> VoteGap(b', a) == VoteGap(b, a))
    && (a in b.voters ==> ProxyGap(b', a) == ProxyGap(b, a) + When(a == x, delta))
    && (a in b.voters && b.voters[a].lastWeight >= 0.0 ==> b'.voters[a].lastWeight >= 0.0)
  }

  lemma HarmedNot(b: Book, b': Book, r: Voter, d: real, a: Name)
    requires b'.voters.Keys == b.voters.Keys && b'.producers.Keys == b.producers.Keys && Harmed(b, b', r, d)
    requires d == 0.0 || !(VoteFrom(r, a) || LoanTo(r, a))
    ensures a in b.producers ==> VoteGap(b', a) == VoteGap(b, a)
    ensures a in b.voters ==> ProxyGap(b', a) == ProxyGap(b, a)
  {
    hide VoteGap, ProxyGap, TotalGap;
  }

  /** A propagation that does not hurt `a` leaves its totals right. */
  lemma PropagateSpares(b: Book, x: Name, k: Clock, a: Name) returns (b': Book)
    requires x in b.voters && Kept(b, a) && Propagate(b, x, {}, k).Success? && !Hurts(b, x, k, a)
    ensures Propagate(b, x, {}, k) == Success(b') && OnlyWeights(b, b')
    ensures Spared(b, b', a, x, 0.0)
  {
    hide VoteGap, ProxyGap, TotalGap, Propagate, OnlyWeights, Harmed, Dropped, LendersWeigh, EndOf, ListedByItself, SameOrWeighed,
         DistinctBallots, ProxyUsersPlain;
    KeptParts(b, a);
    var rank: Ranks :| Ranked(b.voters, rank);
    b' := PropagateHarms(b, x, {}, k, rank);
    var b'' := PropagateFrame(b, x, {}, k, rank);
    PropagateWeighs(b, x, {}, k, rank);
    WeighedKeepsLenders(b, b', k.growth);
    WeightsKeepShape(b, b');
    WeightsKeepListed(b, b', a);
    var r := b.voters[EndOf(b, x, {}, k)];
    HarmedNot(b, b', r, Dropped(r, k), a);
  }

  lemma AddProxiedKept(b: Book, x: Name, delta: real, a: Name) returns (b': Book)
    requires x in b.voters && Kept(b, a)
    ensures b' == AddProxied(b, x, delta) && Kept(b', a) && OnlyWeights(b, b')
  {
    hide OnlyWeights, ListedByItself;
    b' := AddProxied(b, x, delta);
    KeptParts(b, a);
    var rank: Ranks :| Ranked(b.voters, rank);
    AddProxiedFrame(b, x, delta, rank);
    WeightsKeepShape(b, b');
    WeightsKeepListed(b, b', a);
  }

  lemma LendSpares(b: Book, x: Name, delta: real, k: Clock, a: Name) returns (b': Book)
    requires x in b.voters && Kept(b, a) && !Hurts(AddProxied(b, x, delta), x, k, a)
    requires Propagate(AddProxied(b, x, delta), x, {}, k).Success?
    ensures Propagate(AddProxied(b, x, delta), x, {}, k) == Success(b') && Spared(b, b', a, x, delta)
  {
    hide VoteGap, ProxyGap, TotalGap, Propagate, OnlyWeights, Hurts, Kept;
    var b1 := AddProxiedKept(b, x, delta, a);
    var b1' := AddProxiedGaps(b, x, delta);
    b' := PropagateSpares(b1, x, k, a);
  }

  // ---------- a vote ----------

  /** Neither of the two propagations of a vote hurts `a`, and it is no new choice that names `a` with a negative
      weight: that would be recorded without being cast, and without being checked (voting.cpp:327 and 341). */
  ghost predicate VoteSpares(b: Book, voter: Name, proxy: Name, producers: seq<Name>, voting: bool, k: Clock, a: Name)
    requires voter in b.voters
  {
    var row := b.voters[voter];
    var w := NewWeight(row, k.growth);
    var b0 := Activate(b, voter, k.now);
    && (voting && w < 0.0 ==> a !in producers)
    && (row.lastWeight > 0.0 && row.proxy != NO_NAME && row.proxy in b0.voters ==>
          !Hurts(AddProxied(b0, row.proxy, -row.lastWeight), row.proxy, k, a))
    && (LeaveProxy(b0, row, k).Success? ==>
          var left := LeaveProxy(b0, row, k).value;
          proxy != NO_NAME && proxy in left.voters && w >= 0.0 ==> !Hurts(AddProxied(left, proxy, w), proxy, k, a))
  }

  lemma NothingSpared(b: Book, a: Name, x: Name)
    requires Kept(b, a)
    ensures Spared(b, b, a, x, 0.0)
  {
    hide Kept;
  }

  lemma LenderAt(b: Book, v: Name, growth: Growth, a: Name)
    requires Kept(b, a) && v in b.voters
    ensures b.voters[v].proxy != NO_NAME ==>
      b.voters[v].proxy in b.voters && b.voters[v].proxy != v && b.voters[v].lastWeight >= 0.0 && NewWeight(b.voters[v], growth) >= 0.0
    ensures Distinct(b.voters[v].producers) && b.voters[v].staked >= 0
    ensures a in b.voters[v].producers ==> v == a && a in b.producers
  {
    var rank: Ranks :| Ranked(b.voters, rank);
    WeightNonNegative(b.voters[v].staked, growth);
  }

  lemma LeaveSpares(b: Book, voter: Name, k: Clock, a: Name) returns (left: Book)
    requires Kept(b, a) && voter in b.voters && LeaveProxy(b, b.voters[voter], k).Success?
    requires var row := b.voters[voter];
      row.lastWeight > 0.0 && row.proxy != NO_NAME && row.proxy in b.voters ==>
        !Hurts(AddProxied(b, row.proxy, -row.lastWeight), row.proxy, k, a)
    ensures LeaveProxy(b, b.voters[voter], k) == Success(left)
    ensures var row := b.voters[voter]; left.voters.Keys == b.voters.Keys && left.voters[voter] == row
    ensures var row := b.voters[voter]; Spared(b, left, a, row.proxy, if row.proxy != NO_NAME then -row.lastWeight else 0.0)
  {
    hide VoteGap, ProxyGap, TotalGap, Propagate, OnlyWeights, Hurts, Kept, Spared, AddProxied, NewWeight;
    KeptParts(b, a);
    LenderAt(b, voter, k.growth, a);
    var row := b.voters[voter];
    left := LeaveProxyFrame(b, voter, k);
    SameKeys(b, left);
    if row.lastWeight > 0.0 && row.proxy != NO_NAME {
      var left' := LendSpares(b, row.proxy, -row.lastWeight, k, a);
    } else {
      NothingSpared(b, a, row.proxy);
    }
  }

  lemma JoinSpares(b: Book, voter: Name, proxy: Name, producers: seq<Name>, w: real, voting: bool, k: Clock, a: Name)
    returns (joined: Book)
    requires Kept(b, a) && voter in b.voters && (proxy != NO_NAME ==> voter != proxy && w >= 0.0)
    requires Repeats(b.voters[voter], proxy, producers, voting) && JoinProxy(b, proxy, w, voting, k).Success?
    requires proxy != NO_NAME && proxy in b.voters ==> !Hurts(AddProxied(b, proxy, w), proxy, k, a)
    ensures JoinProxy(b, proxy, w, voting, k) == Success(joined)
    ensures joined.voters.Keys == b.voters.Keys && joined.voters[voter] == b.voters[voter]
    ensures Spared(b, joined, a, proxy, if proxy != NO_NAME then w else 0.0)
  {
    hide VoteGap, ProxyGap, TotalGap, Propagate, OnlyWeights, Hurts, Kept, Spared, AddProxied, WellFormed;
    KeptParts(b, a);
    ShapeParts(b);
    joined := JoinProxyFrame(b, voter, proxy, producers, w, voting, k);
    SameKeys(b, joined);
    if proxy != NO_NAME {
      var joined' := LendSpares(b, proxy, w, k, a);
    } else {
      NothingSpared(b, a, proxy);
    }
  }

  // ---------- the end of a vote ----------

  /** The votes for an account that only it lists are its own. */
  lemma OwnColumn(b: Book, a: Name)
    requires ListedByItself(b, a) && a in b.voters
    ensures Total(VoteColumn(b.voters, a)) == VoteOf(b.voters[a], a)
  {
    TotalTake(VoteColumn(b.voters, a), a);
    hide Total;
    TotalOfZeros(VoteColumn(b.voters, a) - {a});
  }

  /** The books after the ballots are cast and the choice is recorded. */
  function Ended(b: Book, voter: Name, proxy: Name, producers: seq<Name>, w: real, now: int): Book
    requires voter in b.voters && AllKnown(InOrder(BallotDeltas(b.voters[voter], proxy, producers, w)), b)
  {
    Record(CastAll(b, InOrder(BallotDeltas(b.voters[voter], proxy, producers, w)), true, now), voter, proxy, producers, w)
  }

  lemma EndedRows(b: Book, voter: Name, proxy: Name, producers: seq<Name>, w: real, now: int) returns (cast: Book, row': Voter)
    requires voter in b.voters && AllKnown(InOrder(BallotDeltas(b.voters[voter], proxy, producers, w)), b)
    ensures cast == CastAll(b, InOrder(BallotDeltas(b.voters[voter], proxy, producers, w)), true, now)
    ensures cast.voters == b.voters && cast.producers.Keys == b.producers.Keys
    ensures row' == b.voters[voter].(lastWeight := w, producers := producers, proxy := proxy)
    ensures Ended(b, voter, proxy, producers, w, now) == WithRow(cast, voter, row')
  {
    hide CastAll, InOrder, BallotDeltas;
    cast := CastAll(b, InOrder(BallotDeltas(b.voters[voter], proxy, producers, w)), true, now);
    row' := b.voters[voter].(lastWeight := w, producers := producers, proxy := proxy);
    CastKeys(b, InOrder(BallotDeltas(b.voters[voter], proxy, producers, w)), true, now);
  }

  lemma EndsProxied(b: Book, voter: Name, proxy: Name, producers: seq<Name>, w: real, now: int, a: Name)
    requires voter in b.voters && a in b.voters && AllKnown(InOrder(BallotDeltas(b.voters[voter], proxy, producers, w)), b)
    ensures var b' := Ended(b, voter, proxy, producers, w, now);
      && b'.voters.Keys == b.voters.Keys && b'.producers.Keys == b.producers.Keys
      && ProxyGap(b', a) == ProxyGap(b, a) - When(proxy != NO_NAME && a == proxy, w) + LentTo(b.voters[voter], a)
  {
    hide Total, VoteGap, TotalGap, Ended, CastAll, InOrder, BallotDeltas;
    var cast, row' := EndedRows(b, voter, proxy, producers, w, now);
    WriteRowGaps(cast, voter, row');
    assert ProxyGap(cast, a) == ProxyGap(b, a);
  }

  /** Ballots and choice of `voter` are none of the others' business. */
  lemma EndsElsewhere(b: Book, voter: Name, proxy: Name, producers: seq<Name>, w: real, now: int, a: Name)
    requires voter in b.voters && a in b.producers && a in b.shares && a != voter
    requires a !in b.voters[voter].producers && a !in producers
    requires var ballots := InOrder(BallotDeltas(b.voters[voter], proxy, producers, w));
      AllKnown(ballots, b) && forall i :: 0 <= i < |ballots| ==> ballots[i].producer == voter
    ensures var b' := Ended(b, voter, proxy, producers, w, now); a in b'.producers && VoteGap(b', a) == VoteGap(b, a)
  {
    hide Total, ProxyGap, TotalGap, Ended, CastAll, InOrder, BallotDeltas;
    var cast, row' := EndedRows(b, voter, proxy, producers, w, now);
    WriteRowGaps(cast, voter, row');
    OwnBallotsElsewhere(b, voter, InOrder(BallotDeltas(b.voters[voter], proxy, producers, w)), now, a);
    assert VoteGap(cast, a) == VoteGap(b, a);
  }

  /** The voter's own total moves with its ballot. */
  lemma EndsOwn(b: Book, voter: Name, proxy: Name, producers: seq<Name>, w: real, now: int)
    requires voter in b.voters && voter in b.producers && ListedByItself(b, voter) && w >= 0.0 && b.voters[voter].lastWeight >= 0.0
    requires Distinct(b.voters[voter].producers) && Distinct(producers) && (proxy != NO_NAME ==> producers == [])
    requires var ballots := InOrder(BallotDeltas(b.voters[voter], proxy, producers, w));
      AllKnown(ballots, b) && forall i :: 0 <= i < |ballots| ==> ballots[i].producer == voter
    requires VoteGap(b, voter) == 0.0
    ensures var b' := Ended(b, voter, proxy, producers, w, now); voter in b'.producers && VoteGap(b', voter) == 0.0
  {
    hide Total, ProxyGap, TotalGap, Ended, CastAll, InOrder, BallotDeltas, ListedByItself;
    var row := b.voters[voter];
    var d := BallotDeltas(row, proxy, producers, w);
    var cast, row' := EndedRows(b, voter, proxy, producers, w, now);
    OwnColumn(b, voter);
    BallotsMean(row, proxy, producers, w, voter);
    InOrderMeans(d, voter);
    assert ClampIdle(b, InOrder(d));
    hide VoteGap;
    CastAllGaps(b, InOrder(d), true, now);
    WriteRowGaps(cast, voter, row');
  }

  lemma RightWeighs(b: Book, a: Name, growth: Growth)
    requires Kept(b, a) && a in b.voters && ProxyGap(b, a) == 0.0
    ensures NewWeight(b.voters[a], growth) >= 0.0
  {
    hide WellFormed, ListedByItself;
    TotalNonNegative(LentColumn(b.voters, a));
    WeightNonNegative(b.voters[a].staked, growth);
  }

  // ---------- the whole vote ----------

  lemma ActivateKept(b: Book, voter: Name, now: int, a: Name) returns (b0: Book)
    requires Kept(b, a) && voter in b.voters
    ensures b0 == Activate(b, voter, now) && Kept(b0, a) && b0.voters == b.voters && b0.producers == b.producers
    ensures a in b.producers ==> VoteGap(b0, a) == VoteGap(b, a)
    ensures a in b.voters ==> ProxyGap(b0, a) == ProxyGap(b, a)
  {
    hide Total;
    b0 := Activate(b, voter, now);
  }

  /** The choice that ends up recorded names `a` only if `a` made it, and is registered. */
  lemma ChoiceFits(b: Book, joined: Book, voter: Name, proxy: Name, producers: seq<Name>, voting: bool, k: Clock, a: Name)
    requires Kept(b, a) && voter in b.voters && Repeats(b.voters[voter], proxy, producers, voting)
    requires voting && NewWeight(b.voters[voter], k.growth) < 0.0 ==> a !in producers
    requires CheckChoice(b, voter, proxy, producers).Met?
    requires voter in joined.voters && joined.voters[voter] == b.voters[voter] && joined.producers.Keys == b.producers.Keys
    requires CheckBallots(joined, voter, BallotsOf(b.voters[voter], proxy, producers, k), voting).Met?
    ensures Distinct(producers) && (proxy != NO_NAME ==> producers == [])
    ensures a in producers ==> voter == a && a in b.producers
  {
    hide Kept, CheckBallots, InOrder, BallotDeltas, NewWeight, CheckChoice;
    ChoicePlain(b, voter, proxy, producers);
    LenderAt(b, voter, k.growth, a);
    if voting && a in producers {
      ChoiceOwn(joined, voter, proxy, producers, voting, NewWeight(b.voters[voter], k.growth));
      ChoiceKnown(joined, voter, proxy, producers, voting, NewWeight(b.voters[voter], k.growth));
    }
  }

  /** What a vote keeps whatever it skips. */
  lemma VoteKeepsKept(b: Book, voter: Name, proxy: Name, producers: seq<Name>, voting: bool, k: Clock, a: Name, joined: Book, b': Book)
    requires Kept(b, a) && voter in b.voters && Repeats(b.voters[voter], proxy, producers, voting)
    requires UpdateVotes(b, voter, proxy, producers, voting, k) == Success(b')
    requires a in producers ==> voter == a && a in b.producers
    requires Kept(joined, a) && joined.voters.Keys == b.voters.Keys && b'.producers.Keys == joined.producers.Keys == b.producers.Keys
    requires b'.voters == joined.voters[voter := joined.voters[voter].(lastWeight := NewWeight(b.voters[voter], k.growth),
                                                                       producers := producers, proxy := proxy)]
    requires proxy != NO_NAME ==> NewWeight(b.voters[voter], k.growth) >= 0.0
    ensures Kept(b', a)
  {
    hide UpdateVotes, OnlyWeights, WellFormed, NewWeight, Chosen;
    var b'' := VoteFrame(b, voter, proxy, producers, voting, k);
  }

  lemma RightAt(b: Book, a: Name)
    requires RightFor(b, a)
    ensures a in b.producers ==> VoteGap(b, a) == 0.0
    ensures a in b.voters ==> ProxyGap(b, a) == 0.0 && b.voters[a].lastWeight >= 0.0
  {
    hide VoteGap, ProxyGap;
  }

  /** The two totals of `a` at the end of a vote. */
  lemma EndsRight(b: Book, voter: Name, proxy: Name, producers: seq<Name>, w: real, now: int, a: Name)
    requires Kept(b, a) && voter in b.voters && (a == voter ==> w >= 0.0 && b.voters[voter].lastWeight >= 0.0)
    requires (a in producers ==> voter == a) && Distinct(producers) && (proxy != NO_NAME ==> producers == [])
    requires var ballots := InOrder(BallotDeltas(b.voters[voter], proxy, producers, w));
      AllKnown(ballots, b) && forall i :: 0 <= i < |ballots| ==> ballots[i].producer == voter
    requires a in b.producers ==> VoteGap(b, a) == 0.0
    requires a in b.voters ==>
      b.voters[a].lastWeight >= 0.0 && ProxyGap(b, a) == When(proxy != NO_NAME && a == proxy, w) - LentTo(b.voters[voter], a)
    ensures RightFor(Ended(b, voter, proxy, producers, w, now), a)
    ensures Ended(b, voter, proxy, producers, w, now).producers.Keys == b.producers.Keys
    ensures Ended(b, voter, proxy, producers, w, now).voters
      == b.voters[voter := b.voters[voter].(lastWeight := w, producers := producers, proxy := proxy)]
  {
    hide VoteGap, ProxyGap, CastAll, InOrder, BallotDeltas, Kept, ListedByItself, LentTo, When;
    var cast, row' := EndedRows(b, voter, proxy, producers, w, now);
    LenderAt(b, voter, 0.0, a);
    KeptParts(b, a);
    var b' := Ended(b, voter, proxy, producers, w, now);
    if a in b.producers {
      if a == voter {
        EndsOwn(b, voter, proxy, producers, w, now);
      } else {
        EndsElsewhere(b, voter, proxy, producers, w, now, a);
      }
    }
    if a in b.voters {
      EndsProxied(b, voter, proxy, producers, w, now, a);
    }
  }

  lemma BallotsForVoter(b: Book, voter: Name, ballots: seq<Ballot>, voting: bool)
    requires CheckBallots(b, voter, ballots, voting).Met?
    ensures AllKnown(ballots, b) && forall i :: 0 <= i < |ballots| ==> ballots[i].producer == voter
  {
  }

  lemma LentIs(row: Voter, proxy: Name, w: real, a: Name)
    ensures -LentTo(row, a) == When(a == row.proxy, if row.proxy != NO_NAME then -row.lastWeight else 0.0)
    ensures When(proxy != NO_NAME && a == proxy, w) == When(a == proxy, if proxy != NO_NAME then w else 0.0)
  {
  }

  /** A vote leaves right the totals of everybody it does not hurt, whatever it does to others. */
  lemma VoteKeepsRight(b: Book, voter: Name, proxy: Name, producers: seq<Name>, voting: bool, k: Clock, a: Name) returns (b': Book)
    requires Kept(b, a) && RightFor(b, a) && voter in b.voters && Repeats(b.voters[voter], proxy, producers, voting)
    requires UpdateVotes(b, voter, proxy, producers, voting, k).Success? && VoteSpares(b, voter, proxy, producers, voting, k, a)
    ensures UpdateVotes(b, voter, proxy, producers, voting, k) == Success(b')
    ensures Kept(b', a) && RightFor(b', a)
  {
    hide LeaveProxy, JoinProxy, CastAll, InOrder, BallotDeltas, CheckBallots, UpdateVotes, VoteGap, ProxyGap, Kept, Hurts, AddProxied,
         Activate, NewWeight, LentTo, When, RightFor;
    var row := b.voters[voter];
    var w := NewWeight(row, k.growth);
    RightAt(b, a);
    LenderAt(b, voter, k.growth, a);
    var left, joined := VoteStages(b, voter, proxy, producers, voting, k);
    var b0 := ActivateKept(b, voter, k.now, a);
    ChoicePlain(b, voter, proxy, producers);
    if proxy != NO_NAME {
      ProxyChosen(b, voter, proxy, producers, k, a);
    }
    var left' := LeaveSpares(b0, voter, k, a);
    var joined' := JoinSpares(left, voter, proxy, producers, w, voting, k, a);
    ChoiceFits(b, joined, voter, proxy, producers, voting, k, a);
    BallotsForVoter(joined, voter, BallotsOf(row, proxy, producers, k), voting);
    if a == voter {
      RightWeighs(b, a, k.growth);
    }
    LentIs(row, proxy, w, a);
    EndsRight(joined, voter, proxy, producers, w, k.now, a);
    b' := Ended(joined, voter, proxy, producers, w, k.now);
    VoteKeepsKept(b, voter, proxy, producers, voting, k, a, joined, b');
  }

  /** Who chooses a proxy is none itself, so its weight is that of its stake. */
  lemma ProxyChosen(b: Book, voter: Name, proxy: Name, producers: seq<Name>, k: Clock, a: Name)
    requires Kept(b, a) && voter in b.voters && CheckChoice(b, voter, proxy, producers).Met? && proxy != NO_NAME
    ensures NewWeight(b.voters[voter], k.growth) >= 0.0
  {
    hide WellFormed, ListedByItself;
    WeightNonNegative(b.voters[voter].staked, k.growth);
  }

  // ---------- the other steps ----------

  /** Rows that still back what they backed leave all totals right. */
  lemma RowKeepsRight(b: Book, v: Name, row: Voter, a: Name)
    requires Kept(b, a) && RightFor(b, a) && SameBacking(RowOf(b, v), row) && row.staked >= 0
    ensures Kept(WithRow(b, v, row), a) && RightFor(WithRow(b, v, row), a)
  {
    hide VoteGap, ProxyGap, WellFormed;
    KeptParts(b, a);
    RewriteVoterShape(b, v, row);
    RewriteVoterGaps(b, v, row);
  }

  ghost predicate StakeSpares(b: Book, voter: Name, delta: int, k: Clock, a: Name) {
    var b' := AddStake(b, voter, delta);
    b'.voters[voter].producers != [] || b'.voters[voter].proxy != NO_NAME ==>
      VoteSpares(b', voter, b'.voters[voter].proxy, b'.voters[voter].producers, false, k, a)
  }

  lemma StakeKeepsRight(b: Book, voter: Name, delta: int, k: Clock, a: Name)
    requires Kept(b, a) && RightFor(b, a) && UpdateVotingPower(b, voter, delta, k).Success? && StakeSpares(b, voter, delta, k, a)
    ensures var b' := UpdateVotingPower(b, voter, delta, k).value; Kept(b', a) && RightFor(b', a)
  {
    hide UpdateVotes, VoteSpares, Kept, RightFor, WellFormed;
    var b1 := AddStake(b, voter, delta);
    AddStakeIsRow(b, voter, delta);
    KeptParts(b, a);
    PlainRow(b, voter);
    RowKeepsRight(b, voter, b1.voters[voter], a);
    if b1.voters[voter].producers != [] || b1.voters[voter].proxy != NO_NAME {
      var b' := VoteKeepsRight(b1, voter, b1.voters[voter].proxy, b1.voters[voter].producers, false, k, a);
    }
  }

  ghost predicate ProxySpares(b: Book, who: Name, on: bool, k: Clock, a: Name) {
    who in b.voters ==> !Hurts(b.(voters := b.voters[who := b.voters[who].(isProxy := on)]), who, k, a)
  }

  lemma RegProxyKeepsRight(b: Book, who: Name, on: bool, k: Clock, a: Name)
    requires Kept(b, a) && RightFor(b, a) && RegProxy(b, who, on, k).Success? && ProxySpares(b, who, on, k, a)
    ensures var b' := RegProxy(b, who, on, k).value; Kept(b', a) && RightFor(b', a)
  {
    hide Propagate, Hurts, Kept, VoteGap, ProxyGap, OnlyWeights, WellFormed;
    var row := RowOf(b, who).(isProxy := on);
    KeptParts(b, a);
    ProxyRowShape(b, who, on);
    StakedKept(b, who, a);
    RowKeepsRight(b, who, row, a);
    if who in b.voters {
      var b' := PropagateSpares(WithRow(b, who, row), who, k, a);
    }
  }

  lemma StakedKept(b: Book, v: Name, a: Name)
    requires Kept(b, a)
    ensures RowOf(b, v).staked >= 0
  {
    hide WellFormed, ListedByItself;
  }

  /** The status of producers is no matter of votes. */
  lemma SameVotesRight(b: Book, b': Book, a: Name)
    requires Kept(b, a) && RightFor(b, a) && b'.voters == b.voters
    requires b'.producers.Keys == b.producers.Keys && b'.shares.Keys == b.shares.Keys
    requires forall p :: p in b.producers ==> b'.producers[p].votes == b.producers[p].votes
    ensures Kept(b', a) && RightFor(b', a)
  {
    hide Total, Acyclic;
  }

  lemma NewcomerRight(b: Book, b': Book, p: Name, a: Name)
    requires ListedByItself(b, a) && RightFor(b, a) && p !in b.producers && b'.voters == b.voters
    requires b'.producers.Keys == b.producers.Keys + {p} && b'.producers[p].votes == 0.0
    requires forall q :: q in b.producers ==> b'.producers[q] == b.producers[q]
    ensures RightFor(b', a)
  {
    hide Total;
    if a == p {
      TotalOfZeros(VoteColumn(b.voters, a));
    }
  }

  lemma RegisterRight(b: Book, p: Name, now: int, a: Name)
    requires Kept(b, a) && RightFor(b, a)
    ensures Kept(Register(b, p, now), a) && RightFor(Register(b, p, now), a)
  {
    hide VoteGap, ProxyGap, TotalGap, WellFormed, RightFor;
    KeptParts(b, a);
    var b' := Register(b, p, now);
    if p in b.producers {
      SameVotesRight(b, b', a);
    } else {
      RegisterShape(b, p, now);
      NewcomerRight(b, b', p, a);
    }
  }

  // ---------- skips and harm ----------

  ghost predicate BacksNobody(r: Voter) { r.proxy == NO_NAME && r.producers == [] }

  lemma {:induction false} SkippedAtEnd(b: Book, x: Name, seen: set<Name>, k: Clock, rank: Ranks)
    requires x in b.voters && Ranked(b.voters, rank)
    requires forall y :: y in seen ==> At(rank, y) > At(rank, x)
    ensures var r := b.voters[EndOf(b, x, seen, k)];
      NothingSkipped(b, x, seen, k) <==> Dropped(r, k) == 0.0 || BacksNobody(r)
    decreases At(rank, x)
  {
    hide NothingSkipped, EndOf;
    var row := b.voters[x];
    var c := Shift(row, k.growth);
    assert row.proxy != NO_NAME ==> row.proxy in b.voters && At(rank, row.proxy) < At(rank, x);
    NothingSkippedUnfolds(b, x, seen, k);
    EndUnfolds(b, x, seen, k);
    if Magnitude(c) > 1.0 && row.proxy != NO_NAME {
      var b1 := AddProxied(b, row.proxy, c);
      AddProxiedFrame(b, row.proxy, c, rank);
      EndIgnoresLoans(b, row.proxy, c, row.proxy, seen + {x}, k);
      LoansDropNothing(b, row.proxy, c, EndOf(b, row.proxy, seen + {x}, k), k);
      SkippedAtEnd(b1, row.proxy, seen + {x}, k, rank);
    }
  }

  /** Nothing is skipped exactly when nobody is hurt. */
  lemma SkippedIffHurts(b: Book, x: Name, k: Clock)
    requires x in b.voters && Acyclic(b.voters)
    ensures NothingSkipped(b, x, {}, k) <==> forall a :: !Hurts(b, x, k, a)
  {
    hide NothingSkipped, EndOf, Dropped;
    var rank: Ranks :| Ranked(b.voters, rank);
    SkippedAtEnd(b, x, {}, k, rank);
    var r := b.voters[EndOf(b, x, {}, k)];
    if Dropped(r, k) != 0.0 && !BacksNobody(r) {
      if r.proxy != NO_NAME {
        assert Hurts(b, x, k, r.proxy);
      } else {
        assert r.producers[0] in r.producers;
        assert Hurts(b, x, k, r.producers[0]);
      }
    }
  }
}
