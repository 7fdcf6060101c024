/** The global pair alone: exactly when share and rate stay the sums over producers. A producer below zero votes
    does not spoil them at once; it does when the rate no longer follows the votes that earn, or when its row is
    next brought up to date. */
module VotePayPair {
  import opened Basics
  import opened Names
  import opened Voting
  import opened ProxyGraph
  import opened VoteLedger
  import opened ProxyLedger
  import opened VotingRules
  import opened VotePayIndex
  import opened VotePayRows
  import opened VotePaySteps
  import opened BookSteps
  import opened VotingSteps

  lemma AccruesPaired(b: Book, now: int)
    requires Accrues(b, now)
    ensures Paired(b, now)
  {
    hide TotalGap, TotalRate, TotalOwed, ShareSound, GlobalShare;
    OwnRate(b, now);
  }

  // ---------- the two loops ----------

  /** No ballot drives a producer below zero who is still within three days of its last claim. */
  ghost predicate NoLiveDebt(b: Book, ballots: seq<Ballot>, now: int)
    requires AllKnown(ballots, b)
  {
    forall i :: 0 <= i < |ballots| && now < b.producers[ballots[i].producer].lastClaim + THREE_DAYS ==>
      b.producers[ballots[i].producer].votes + ballots[i].delta >= 0.0
  }

  lemma {:induction false} ShortIff(b: Book, ballots: seq<Ballot>, now: int)
    requires AllKnown(ballots, b)
    ensures ShortAll(b, ballots, true, now) == 0.0 <==> NoLiveDebt(b, ballots, now)
  {
    if ballots != [] {
      var n := |ballots| - 1;
      ShortIff(b, ballots[..n], now);
      assert NoLiveDebt(b, ballots, now) <==> NoLiveDebt(b, ballots[..n], now) && NoLiveDebt(b, [ballots[n]], now) by {
        SplitLiveDebt(b, ballots, now);
      }
      assert [ballots[n]][0] == ballots[n];
      assert NoLiveDebt(b, [ballots[n]], now) <==> LiveShort(b.producers[ballots[n].producer], ballots[n].delta, true, now) == 0.0;
    }
  }

  lemma SplitLiveDebt(b: Book, ballots: seq<Ballot>, now: int)
    requires AllKnown(ballots, b) && ballots != []
    ensures var n := |ballots| - 1;
      NoLiveDebt(b, ballots, now) <==> NoLiveDebt(b, ballots[..n], now) && NoLiveDebt(b, [ballots[n]], now)
  {
    var n := |ballots| - 1;
    assert ballots == ballots[..n] + [ballots[n]];
    if NoLiveDebt(b, ballots, now) {
      forall i | 0 <= i < n && now < b.producers[ballots[..n][i].producer].lastClaim + THREE_DAYS
        ensures b.producers[ballots[..n][i].producer].votes + ballots[..n][i].delta >= 0.0
      {
        assert ballots[i] == ballots[..n][i];
      }
    }
    if NoLiveDebt(b, ballots[..n], now) && NoLiveDebt(b, [ballots[n]], now) {
      forall i | 0 <= i <= n && now < b.producers[ballots[i].producer].lastClaim + THREE_DAYS
        ensures b.producers[ballots[i].producer].votes + ballots[i].delta >= 0.0
      {
        assert i < n ==> ballots[i] == ballots[..n][i];
        assert i == n ==> ballots[i] == [ballots[n]][0];
      }
    }
  }

  lemma {:induction false} ClampedVotes(t: Tally, ballots: seq<Ballot>, now: int)
    requires AllKnown(ballots, t.book) && VotesNonNegative(t.book)
    ensures VotesNonNegative(CountAll(t, ballots, true, now).book)
  {
    hide AdvancedShare;
    if ballots != [] {
      ClampedVotes(t, ballots[..|ballots| - 1], now);
    }
  }

  /** The loop that clamps (voting.cpp:339): where vote pay was in order, the pair stays right if and only if no
      producer who is earning is driven below zero, or nobody earns afterwards. */
  lemma ClampedIndexedIff(b: Book, ballots: seq<Ballot>, now: int)
    requires AllKnown(ballots, b) && OneEach(ballots) && Accrues(b, now)
    ensures Indexed(CastAll(b, ballots, true, now)) <==> NoLiveDebt(b, ballots, now) || RateDue(b, ballots, true, now) == 0.0
    ensures RateDue(b, ballots, true, now) == TotalRate(CastAll(b, ballots, true, now)) >= 0.0
  {
    hide Indexed, Timely, TotalGap, TotalRate, RateDue, ShortAll, NoLiveDebt, Count, OneEach, VotesNonNegative, NothingPending;
    AccruesPaired(b, now);
    CastIndexedIff(b, ballots, true, now);
    ShortIff(b, ballots, now);
    ClampedRate(b, ballots, now);
  }

  lemma ClampedRate(b: Book, ballots: seq<Ballot>, now: int)
    requires AllKnown(ballots, b) && OneEach(ballots) && Paired(b, now) && VotesNonNegative(b)
    ensures TotalRate(CastAll(b, ballots, true, now)) >= 0.0
  {
    hide TotalOwed, TotalRate, ShareSound, Count, OneEach, UpdateTotalShare, GlobalShare, VotesNonNegative, NothingPending;
    var t := CountAll(Tally(b, 0.0, 0.0), ballots, true, now);
    ClampedVotes(Tally(b, 0.0, 0.0), ballots, now);
    CountedAt(Tally(b, 0.0, 0.0), ballots, true, now);
    BalancedAll(b, ballots, true, now);
    OwnRate(t.book, now);
    UpdateKeepsTables(t.book, now, -t.inactive, t.rate);
    SameTablesSameSums(t.book, CastAll(b, ballots, true, now));
  }

  /** The loop of propagation (voting.cpp:429), which does not clamp: the pair stays right exactly while the votes
      that earn sum up to no less than zero. */
  lemma UnclampedIndexedIff(b: Book, ballots: seq<Ballot>, now: int)
    requires AllKnown(ballots, b) && OneEach(ballots) && Paired(b, now)
    ensures var b' := CastAll(b, ballots, false, now);
      && (Indexed(b') <==> RateDue(b, ballots, false, now) >= 0.0)
      && RateDue(b, ballots, false, now) == TotalRate(b')
      && (Indexed(b') ==> Paired(b', now))
  {
    hide Indexed, Timely, TotalRate, RateDue, ShortAll, Count, OneEach, NothingPending;
    CastIndexedIff(b, ballots, false, now);
    NoDebtNoShort(b, ballots, false, now);
  }

  // ---------- why negative votes matter ----------

  /** A single ballot for a producer who is earning, with negative votes that have gone on for a while: the share
      it is brought up to date with does not shrink (voting.cpp:214), though its rate was counted. */
  lemma LateCount(b: Book, v: Ballot, clamp: bool, now: int)
    requires v.producer in b.producers && v.producer in b.shares && b.producers[v.producer].votes < 0.0
    requires b.shares[v.producer].updated < now < b.producers[v.producer].lastClaim + THREE_DAYS
    ensures var t := Count(Tally(b, 0.0, 0.0), v, clamp, now);
      && RowsElsewhere(b, t.book, v.producer) && t.inactive == 0.0
      && t.book.totalShare == b.totalShare && t.book.shareRate == b.shareRate && t.book.shareUpdated == b.shareUpdated
      && Owed(t.book, v.producer, now) > Owed(b, v.producer, now)
  {
    var p := v.producer;
    var t := Count(Tally(b, 0.0, 0.0), v, clamp, now);
    NoTime(t.book.producers[p].votes, now);
    Shrinks(b.producers[p].votes, now - b.shares[p].updated);
    hide Secs;
  }

  lemma Shrinks(votes: real, us: int)
    requires votes < 0.0 && us > 0
    ensures votes * Secs(us) < 0.0
  {
  }

  lemma PlainUpdate(b: Book, now: int, rateDelta: real)
    requires b.shareUpdated <= now && b.totalShare >= 0.0 && b.shareRate >= 0.0
    ensures var b' := UpdateTotalShare(b, now, -0.0, rateDelta);
      b'.totalShare == GlobalShare(b, now) && b'.shareUpdated == now && b'.producers == b.producers && b'.shares == b.shares
  {
    EarnsNonNegative(b.shareRate, now - b.shareUpdated);
    if now == b.shareUpdated {
      NoTime(b.shareRate, now);
    }
    hide Secs;
  }

  /** So the next touch of such a producer breaks the pair, whatever the ballot and of whichever loop. */
  lemma LateTouchBreaks(b: Book, v: Ballot, clamp: bool, now: int)
    requires v.producer in b.producers && v.producer in b.shares && b.producers[v.producer].votes < 0.0
    requires b.shares[v.producer].updated < now < b.producers[v.producer].lastClaim + THREE_DAYS
    requires Indexed(b) && b.shareUpdated <= now && b.totalShare >= 0.0 && b.shareRate >= 0.0
    ensures !Indexed(CastAll(b, [v], clamp, now))
  {
    hide TotalOwed, TotalRate, Secs, ShareSound, Owed, Count;
    var t := Count(Tally(b, 0.0, 0.0), v, clamp, now);
    assert [v][..0] == [];
    assert CountAll(Tally(b, 0.0, 0.0), [v], clamp, now) == t;
    LateCount(b, v, clamp, now);
    WriteProducer(b, t.book, v.producer, now);
    assert TotalOwed(t.book, now) > TotalOwed(b, now) == GlobalShare(b, now);
    var b' := UpdateTotalShare(t.book, now, -t.inactive, t.rate);
    PlainUpdate(t.book, now, t.rate);
    SameTablesSameSums(t.book, b');
    NoTime(b'.shareRate, now);
    assert GlobalShare(b', now) < TotalOwed(b', now);
  }

  // ---------- propagation ----------

  /** Where a weight change is passed on to, the votes that earn still sum up to no less than zero. */
  ghost predicate PassesRate(b: Book, x: Name, seen: set<Name>, k: Clock)
    requires x in b.voters
    decreases b.voters.Keys - seen
  {
    var row := b.voters[x];
    var c := Shift(row, k.growth);
    x in seen || Magnitude(c) <= 1.0
    || if row.proxy != NO_NAME then
         row.proxy in b.voters ==> PassesRate(AddProxied(b, row.proxy, c), row.proxy, seen + {x}, k)
       else Registered(row.producers, b) ==> RateDue(b, SameDelta(row.producers, c), false, k.now) >= 0.0
  }

  lemma PassesRateUnfolds(b: Book, x: Name, seen: set<Name>, k: Clock)
    requires x in b.voters && x !in seen
    requires b.voters[x].proxy != NO_NAME ==> b.voters[x].proxy in b.voters
    ensures var row := b.voters[x];
      var c := Shift(row, k.growth);
      PassesRate(b, x, seen, k) <==>
        Magnitude(c) <= 1.0
        || if row.proxy != NO_NAME then PassesRate(AddProxied(b, row.proxy, c), row.proxy, seen + {x}, k)
           else Registered(row.producers, b) ==> RateDue(b, SameDelta(row.producers, c), false, k.now) >= 0.0
  {
    hide RateDue;
  }

  lemma VoterRowsPaired(b: Book, b': Book, now: int)
    requires b' == b.(voters := b'.voters, activatedStake := b'.activatedStake, activatedAt := b'.activatedAt)
    ensures Indexed(b') == Indexed(b) && Paired(b', now) == Paired(b, now) && TotalRate(b') == TotalRate(b)
  {
    hide Indexed, Timely, TotalOwed, TotalRate;
    SameProducers(b, b', now);
    SameProducers(b', b, now);
    SameTablesSameSums(b, b');
  }

  /** The rate is no longer that of anybody who earns. */
  ghost predicate Stuck(b: Book, now: int) {
    && b.shares.Keys == b.producers.Keys && (forall p :: p in b.shares ==> b.shares[p].updated <= now)
    && b.shareRate == 0.0 && TotalRate(b) < 0.0
  }

  /** The exact condition for propagation, and what is wrong when it fails. */
  lemma {:induction false} PropagateIndexedIff(b: Book, x: Name, seen: set<Name>, k: Clock, rank: Ranks) returns (b': Book)
    requires x in b.voters && Ranked(b.voters, rank) && DistinctBallots(b) && Paired(b, k.now)
    requires forall y :: y in seen ==> At(rank, y) > At(rank, x)
    requires Propagate(b, x, seen, k).Success?
    ensures Propagate(b, x, seen, k) == Success(b')
    ensures Indexed(b') <==> PassesRate(b, x, seen, k)
    ensures if Indexed(b') then Paired(b', k.now) else Stuck(b', k.now)
    decreases At(rank, x)
  {
    hide CastAll, Propagate, PassesRate, Paired, Indexed, DistinctBallots, Stuck, RateDue;
    var row := b.voters[x];
    var w := StakeToVote(row.staked, k.growth);
    var c := Shift(row, k.growth);
    assert row.proxy != NO_NAME ==> row.proxy in b.voters && At(rank, row.proxy) < At(rank, x);
    PropagateUnfolds(b, x, seen, k);
    PassesRateUnfolds(b, x, seen, k);
    PairedMeans(b, k.now);
    b' := Propagate(b, x, seen, k).value;
    if Magnitude(c) <= 1.0 {
      VoterRowsPaired(b, b', k.now);
    } else if row.proxy == NO_NAME {
      assert Distinct(row.producers) by { BallotAt(b, x); }
      var b1 := CastAll(b, SameDelta(row.producers, c), false, k.now);
      UnclampedIndexedIff(b, SameDelta(row.producers, c), k.now);
      if RateDue(b, SameDelta(row.producers, c), false, k.now) < 0.0 {
        UnclampedSticks(b, SameDelta(row.producers, c), k.now);
      }
      VoterRowsPaired(b1, b', k.now);
      SameStuck(b1, b', k.now);
    } else {
      var b1 := AddProxied(b, row.proxy, c);
      AddProxiedFrame(b, row.proxy, c, rank);
      AddProxiedKeepsBallots(b, row.proxy, c);
      VoterRowsPaired(b, b1, k.now);
      var b2 := PropagateIndexedIff(b1, row.proxy, seen + {x}, k, rank);
      VoterRowsPaired(b2, b', k.now);
      SameStuck(b2, b', k.now);
    }
  }

  lemma PairedMeans(b: Book, now: int)
    requires Paired(b, now)
    ensures Indexed(b)
  {
    hide Indexed, Timely, NothingPending;
  }

  lemma SameStuck(b: Book, b': Book, now: int)
    requires b'.shareRate == b.shareRate && b'.producers == b.producers && b'.shares == b.shares
    ensures Stuck(b', now) == Stuck(b, now)
  {
    hide TotalRate, TotalOwed, ShareSound;
    SameTablesSameSums(b, b');
  }

  lemma UnclampedSticks(b: Book, ballots: seq<Ballot>, now: int)
    requires AllKnown(ballots, b) && OneEach(ballots) && Paired(b, now) && RateDue(b, ballots, false, now) < 0.0
    ensures Stuck(CastAll(b, ballots, false, now), now)
  {
    hide TotalRate, ShortAll, Count, OneEach, Indexed, NothingPending;
    CastIndexedIff(b, ballots, false, now);
    NoDebtNoShort(b, ballots, false, now);
    CastRate(b, ballots, false, now);
    CastDated(b, ballots, false, now);
  }

  lemma CastDated(b: Book, ballots: seq<Ballot>, clamp: bool, now: int)
    requires AllKnown(ballots, b) && b.shares.Keys == b.producers.Keys && forall p :: p in b.shares ==> b.shares[p].updated <= now
    ensures var b' := CastAll(b, ballots, clamp, now);
      b'.shares.Keys == b'.producers.Keys && forall p :: p in b'.shares ==> b'.shares[p].updated <= now
  {
    hide Count, UpdateTotalShare;
    var t := CountAll(Tally(b, 0.0, 0.0), ballots, clamp, now);
    CountedAt(Tally(b, 0.0, 0.0), ballots, clamp, now);
    CastKeys(b, ballots, clamp, now);
    UpdateKeepsTables(t.book, now, -t.inactive, t.rate);
  }

  /** The rate after a loop: what the loop collected, clamped at zero. */
  lemma CastRate(b: Book, ballots: seq<Ballot>, clamp: bool, now: int)
    requires AllKnown(ballots, b)
    ensures var rate := CountAll(Tally(b, 0.0, 0.0), ballots, clamp, now).rate;
      CastAll(b, ballots, clamp, now).shareRate == if rate < 0.0 && b.shareRate < -rate then 0.0 else b.shareRate + rate
  {
    hide Count, Secs;
    RateUntouched(Tally(b, 0.0, 0.0), ballots, clamp, now);
  }

  lemma {:induction false} RateUntouched(t: Tally, ballots: seq<Ballot>, clamp: bool, now: int)
    requires AllKnown(ballots, t.book)
    ensures CountAll(t, ballots, clamp, now).book.shareRate == t.book.shareRate
  {
    hide AdvancedShare;
    if ballots != [] {
      RateUntouched(t, ballots[..|ballots| - 1], clamp, now);
    }
  }

  ghost predicate ProxyRate(b: Book, who: Name, on: bool, k: Clock) {
    who in b.voters ==> PassesRate(b.(voters := b.voters[who := b.voters[who].(isProxy := on)]), who, {}, k)
  }

  /** The exact condition for `regproxy`. */
  lemma RegProxyIndexedIff(b: Book, who: Name, on: bool, k: Clock)
    requires WellFormed(b) && Paired(b, k.now) && RegProxy(b, who, on, k).Success?
    ensures Indexed(RegProxy(b, who, on, k).value) <==> ProxyRate(b, who, on, k)
  {
    hide Propagate, WellFormed, PassesRate, Paired, Indexed, Stuck;
    var row := RowOf(b, who).(isProxy := on);
    ProxyRowShape(b, who, on);
    RewriteVoterShape(b, who, row);
    var b1 := WithRow(b, who, row);
    PairedMeans(b, k.now);
    VoterRowsPaired(b, b1, k.now);
    if who in b.voters {
      ShapeBallots(b1);
      var rank: Ranks :| Ranked(b1.voters, rank);
      var b' := PropagateIndexedIff(b1, who, {}, k, rank);
    }
  }
}
