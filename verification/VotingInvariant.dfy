/** The ledger of votes as an invariant, kept by every proxy and voting step that skips nothing. */
module VotingInvariant {
  import opened Basics
  import opened Names
  import opened Sums
  import opened Voting
  import opened ProxyGraph
  import opened VoteLedger
  import opened ProxyLedger
  import opened VotingRules

  ghost predicate Weighty(b: Book) {
    forall v :: v in b.voters ==> b.voters[v].staked >= 0 && b.voters[v].lastWeight >= 0.0
  }

  ghost predicate VotesExact(b: Book) {
    (forall p :: p in b.producers ==> VoteGap(b, p) == 0.0) && TotalGap(b) == 0.0
  }

  ghost predicate ProxiesExact(b: Book) {
    forall x :: x in b.voters ==> ProxyGap(b, x) == 0.0
  }

  /** Everything but the proxies' ledger, which is out of balance while a vote is under way. */
  ghost predicate Core(b: Book) {
    WellFormed(b) && BallotsKnown(b) && Weighty(b) && VotesExact(b)
  }

  ghost predicate Sound(b: Book) {
    Core(b) && ProxiesExact(b)
  }

  lemma SoundMeansExact(b: Book)
    requires Sound(b)
    ensures Exact(b)
  {
    hide VoteGap, ProxyGap, TotalGap;
  }

  /** With an exact ledger every running total is non-negative and bounded by what it sums up. */
  lemma TotalsBounded(b: Book)
    requires Weighty(b) && VotesExact(b)
    ensures VotesNonNegative(b) && b.totalVotes >= 0.0
    ensures forall p :: p in b.producers ==> b.producers[p].votes <= b.totalVotes
    ensures forall v, p :: v in b.voters && p in b.producers ==> VoteOf(b.voters[v], p) <= b.producers[p].votes
  {
    hide Total;
    forall p | p in b.producers
      ensures b.producers[p].votes >= 0.0
      ensures forall v :: v in b.voters ==> VoteOf(b.voters[v], p) <= b.producers[p].votes
    {
      assert VoteGap(b, p) == 0.0;
      TotalNonNegative(VoteColumn(b.voters, p));
      forall v | v in b.voters ensures VoteOf(b.voters[v], p) <= b.producers[p].votes {
        assert VoteColumn(b.voters, p)[v] == VoteOf(b.voters[v], p);
      }
    }
    TotalNonNegative(TotalsColumn(b.producers));
    forall p | p in b.producers ensures b.producers[p].votes <= b.totalVotes {
      assert TotalsColumn(b.producers)[p] == b.producers[p].votes;
    }
  }

  lemma ProxiedNonNegative(b: Book, x: Name)
    requires Weighty(b) && ProxiesExact(b) && x in b.voters
    ensures b.voters[x].proxied >= 0.0
  {
    assert ProxyGap(b, x) == 0.0;
    TotalNonNegative(LentColumn(b.voters, x));
  }

  lemma WeightNonNegative(staked: int, growth: Growth)
    requires staked >= 0
    ensures StakeToVote(staked, growth) >= 0.0
  {
  }

  // ---------- propagation ----------

  lemma WritesWeighty(b: Book, x: Name, w: real, delta: real)
    requires x in b.voters && Weighty(b)
    ensures w >= 0.0 ==> Weighty(SetWeight(b, x, w))
    ensures Weighty(AddProxied(b, x, delta))
  {
  }

  /** A change passed along the proxies re-weighs voters only with what their own stake is worth. */
  lemma {:induction false} PropagateWeighty(b: Book, x: Name, seen: set<Name>, k: Clock, rank: Ranks)
    requires x in b.voters && Ranked(b.voters, rank) && Weighty(b)
    requires forall y :: y in seen ==> At(rank, y) > At(rank, x)
    requires Propagate(b, x, seen, k).Success?
    ensures Weighty(Propagate(b, x, seen, k).value)
    decreases At(rank, x)
  {
    hide CastAll, Propagate, OnlyWeights, StakeToVote, SetWeight, AddProxied;
    var row := b.voters[x];
    var w := StakeToVote(row.staked, k.growth);
    var c := Shift(row, k.growth);
    assert row.proxy != NO_NAME ==> row.proxy in b.voters && At(rank, row.proxy) < At(rank, x);
    PropagateUnfolds(b, x, seen, k);
    WeightNonNegative(row.staked, k.growth);
    if Magnitude(c) <= 1.0 {
      WritesWeighty(b, x, w, c);
    } else if row.proxy == NO_NAME {
      var b1 := CastAll(b, SameDelta(row.producers, c), false, k.now);
      assert Weighty(b1);
      WritesWeighty(b1, x, w, c);
    } else {
      var b1 := AddProxied(b, row.proxy, c);
      AddProxiedFrame(b, row.proxy, c, rank);
      WritesWeighty(b, row.proxy, w, c);
      PropagateWeighty(b1, row.proxy, seen + {x}, k, rank);
      WritesWeighty(Propagate(b1, row.proxy, seen + {x}, k).value, x, w, c);
    }
  }

  lemma SameDeltaIdle(b: Book, x: Name, k: Clock)
    requires x in b.voters && Registered(b.voters[x].producers, b) && Distinct(b.voters[x].producers)
    requires b.voters[x].proxy == NO_NAME && Weighty(b) && VotesExact(b)
    ensures ClampIdle(b, SameDelta(b.voters[x].producers, Shift(b.voters[x], k.growth)))
  {
    var row := b.voters[x];
    TotalsBounded(b);
    WeightNonNegative(row.staked, k.growth);
    forall i | 0 <= i < |row.producers|
      ensures b.producers[row.producers[i]].votes + Shift(row, k.growth) >= 0.0
    {
      assert VoteOf(row, row.producers[i]) <= b.producers[row.producers[i]].votes;
    }
  }

  lemma AddProxiedCore(b: Book, x: Name, delta: real)
    requires x in b.voters && Core(b)
    ensures Core(AddProxied(b, x, delta)) && AddProxied(b, x, delta).voters.Keys == b.voters.Keys
    ensures forall z :: z in b.voters ==> ProxyGap(AddProxied(b, x, delta), z) == ProxyGap(b, z) + When(z == x, delta)
  {
    hide VoteGap, ProxyGap, TotalGap, WellFormed, BallotsKnown;
    var b' := AddProxiedGaps(b, x, delta);
    assert OnlyWeights(b, b');
    WeightsKeepShape(b, b');
  }

  /** Propagation keeps the ledger of votes, if it skips nothing. */
  lemma PropagateCore(b: Book, x: Name, k: Clock, rank: Ranks) returns (b': Book)
    requires x in b.voters && Ranked(b.voters, rank) && Core(b) && NothingSkipped(b, x, {}, k)
    ensures Propagate(b, x, {}, k) == Success(b')
    ensures OnlyWeights(b, b') && Core(b') && SameProxyGaps(b, b')
  {
    hide Weighty, VoteGap, ProxyGap, TotalGap, Propagate, NothingSkipped, Ranked, BallotsKnown, OnlyWeights;
    b' := PropagateKeepsLedger(b, x, {}, k, rank);
    PropagateWeighty(b, x, {}, k, rank);
    WeightsKeepShape(b, b');
    SameKeys(b, b');
  }
}
