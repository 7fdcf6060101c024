/** Passing a weight change along the proxies keeps the vote ledger exactly when no non-zero
    change of size at most 1 is skipped on the way. */
module ProxyLedger {
  import opened Basics
  import opened Names
  import opened Sums
  import opened Voting
  import opened ProxyGraph
  import opened VoteLedger

  /** No voter on the chain from `x` has a non-zero change that propagation drops at
      voting.cpp:416 and then records at 461, unless that voter backs nobody. */
  ghost predicate NothingSkipped(b: Book, x: Name, seen: set<Name>, k: Clock)
    requires x in b.voters
    decreases b.voters.Keys - seen
  {
    var row := b.voters[x];
    var c := Shift(row, k.growth);
    x in seen
    || if Magnitude(c) <= 1.0 then c == 0.0 || (row.proxy == NO_NAME && row.producers == [])
       else row.proxy != NO_NAME && row.proxy in b.voters ==>
         NothingSkipped(AddProxied(b, row.proxy, c), row.proxy, seen + {x}, k)
  }

  ghost predicate SameGaps(b: Book, b': Book)
    requires b'.producers.Keys == b.producers.Keys && b'.voters.Keys == b.voters.Keys
  {
    SameVoteGaps(b, b') && SameProxyGaps(b, b') && TotalGap(b') == TotalGap(b)
  }

  function WithRow(b: Book, x: Name, row: Voter): Book {
    b.(voters := b.voters[x := row])
  }

  /** How one row write moves every gap. */
  lemma WriteRowGaps(b: Book, x: Name, row': Voter)
    requires x in b.voters
    ensures TotalGap(WithRow(b, x, row')) == TotalGap(b)
    ensures forall p :: p in b.producers ==>
      VoteGap(WithRow(b, x, row'), p) == VoteGap(b, p) - VoteOf(row', p) + VoteOf(b.voters[x], p)
    ensures forall z :: z in b.voters ==>
      ProxyGap(WithRow(b, x, row'), z) == ProxyGap(b, z) - LentTo(row', z) + LentTo(b.voters[x], z)
        + When(z == x, row'.proxied - b.voters[x].proxied)
  {
    hide Total;
    var b' := WithRow(b, x, row');
    forall p | p in b.producers
      ensures VoteGap(b', p) == VoteGap(b, p) - VoteOf(row', p) + VoteOf(b.voters[x], p)
    {
      WriteVoter(b.voters, x, row', p);
    }
    forall z | z in b.voters
      ensures ProxyGap(b', z) == ProxyGap(b, z) - LentTo(row', z) + LentTo(b.voters[x], z)
        + When(z == x, row'.proxied - b.voters[x].proxied)
    {
      WriteVoter(b.voters, x, row', z);
    }
  }

  lemma SetWeightGaps(b: Book, x: Name, w: real) returns (b': Book)
    requires x in b.voters
    ensures b' == SetWeight(b, x, w) && b'.voters.Keys == b.voters.Keys && b'.producers == b.producers
    ensures TotalGap(b') == TotalGap(b)
    ensures forall p :: p in b.producers ==>
      VoteGap(b', p) == VoteGap(b, p) - When(VoteFrom(b.voters[x], p), w - b.voters[x].lastWeight)
    ensures forall z :: z in b.voters ==>
      ProxyGap(b', z) == ProxyGap(b, z) - When(LoanTo(b.voters[x], z), w - b.voters[x].lastWeight)
  {
    hide VoteGap, ProxyGap, TotalGap;
    b' := SetWeight(b, x, w);
    var row' := b.voters[x].(lastWeight := w);
    assert b' == WithRow(b, x, row');
    WriteRowGaps(b, x, row');
  }

  lemma AddProxiedGaps(b: Book, x: Name, delta: real) returns (b': Book)
    requires x in b.voters
    ensures b' == AddProxied(b, x, delta) && b'.voters.Keys == b.voters.Keys && b'.producers == b.producers
    ensures TotalGap(b') == TotalGap(b) && SameVoteGaps(b, b')
    ensures forall z :: z in b.voters ==> ProxyGap(b', z) == ProxyGap(b, z) + When(z == x, delta)
  {
    hide VoteGap, ProxyGap, TotalGap;
    b' := AddProxied(b, x, delta);
    var row' := b.voters[x].(proxied := b.voters[x].proxied + delta);
    assert b' == WithRow(b, x, row');
    WriteRowGaps(b, x, row');
  }

  lemma {:induction false} SameDeltaFor(ps: seq<Name>, delta: real, p: Name)
    requires Distinct(ps)
    ensures DeltaFor(SameDelta(ps, delta), p) == When(p in ps, delta)
  {
    if i: nat :| i < |ps| && ps[i] == p {
      DeltaForListed(SameDelta(ps, delta), i);
    } else {
      DeltaForAbsent(SameDelta(ps, delta), p);
    }
  }

  lemma CastSameDeltaGaps(b: Book, ps: seq<Name>, delta: real, now: int) returns (b': Book)
    requires Registered(ps, b) && Distinct(ps)
    ensures b' == CastAll(b, SameDelta(ps, delta), false, now)
    ensures OnlyWeights(b, b') && b'.voters == b.voters && TotalGap(b') == TotalGap(b) && SameProxyGaps(b, b')
    ensures forall p :: p in b.producers ==> VoteGap(b', p) == VoteGap(b, p) + When(p in ps, delta)
  {
    hide VoteGap, ProxyGap, TotalGap, CastAll;
    b' := CastAll(b, SameDelta(ps, delta), false, now);
    CastAllGaps(b, SameDelta(ps, delta), false, now);
    forall p | p in b.producers
      ensures DeltaFor(SameDelta(ps, delta), p) == When(p in ps, delta)
    {
      SameDeltaFor(ps, delta, p);
    }
  }

  /** Writing only the weight of a voter moves the gap of whatever that voter backs. */
  lemma SkipBreaks(b: Book, x: Name, w: real)
    requires x in b.voters && Registered(b.voters[x].producers, b)
    requires b.voters[x].proxy != NO_NAME ==> b.voters[x].proxy in b.voters
    ensures var row := b.voters[x];
      SameGaps(b, SetWeight(b, x, w)) <==> (w == row.lastWeight || (row.proxy == NO_NAME && row.producers == []))
  {
    hide VoteGap, ProxyGap, TotalGap;
    var row := b.voters[x];
    var b' := SetWeightGaps(b, x, w);
    if w != row.lastWeight && row.proxy == NO_NAME && row.producers != [] {
      assert VoteGap(b', row.producers[0]) != VoteGap(b, row.producers[0]);
    } else if w != row.lastWeight && row.proxy != NO_NAME {
      assert ProxyGap(b', row.proxy) != ProxyGap(b, row.proxy);
    }
  }

  lemma RootKeepsGaps(b: Book, x: Name, w: real, now: int)
    requires x in b.voters && Registered(b.voters[x].producers, b) && Distinct(b.voters[x].producers)
    requires b.voters[x].proxy == NO_NAME
    ensures var row := b.voters[x];
      SameGaps(b, SetWeight(CastAll(b, SameDelta(row.producers, w - row.lastWeight), false, now), x, w))
  {
    hide VoteGap, ProxyGap, TotalGap, CastAll;
    var row := b.voters[x];
    var b1 := CastSameDeltaGaps(b, row.producers, w - row.lastWeight, now);
    var b' := SetWeightGaps(b1, x, w);
    assert b1.voters.Keys == b.voters.Keys && b1.producers.Keys == b.producers.Keys;
    assert SameVoteGaps(b, b');
    assert SameProxyGaps(b, b');
  }

  lemma ChainPassesGaps(b: Book, x: Name, w: real, b1: Book, b2: Book)
    requires x in b.voters
    requires b.voters[x].proxy != NO_NAME && b.voters[x].proxy in b.voters
    requires b1 == AddProxied(b, b.voters[x].proxy, w - b.voters[x].lastWeight)
    requires OnlyWeights(b1, b2) && b2.voters[x] == b.voters[x]
    ensures SameGaps(b, SetWeight(b2, x, w)) <==> SameGaps(b1, b2)
  {
    hide VoteGap, ProxyGap, TotalGap;
    var row := b.voters[x];
    var b1' := AddProxiedGaps(b, row.proxy, w - row.lastWeight);
    var b' := SetWeightGaps(b2, x, w);
    assert b2.voters.Keys == b.voters.Keys && b2.producers.Keys == b.producers.Keys;
    forall z | z in b.voters ensures ProxyGap(b', z) - ProxyGap(b, z) == ProxyGap(b2, z) - ProxyGap(b1, z) {
    }
    forall p | p in b.producers ensures VoteGap(b', p) - VoteGap(b, p) == VoteGap(b2, p) - VoteGap(b1, p) {
    }
  }

  lemma ListedAt(b: Book, x: Name)
    requires x in b.voters && BallotsKnown(b) && DistinctBallots(b)
    ensures Registered(b.voters[x].producers, b) && Distinct(b.voters[x].producers)
  {
  }

  lemma BallotAt(b: Book, x: Name)
    requires x in b.voters && DistinctBallots(b)
    ensures Distinct(b.voters[x].producers)
  {
  }

  lemma NothingSkippedUnfolds(b: Book, x: Name, seen: set<Name>, k: Clock)
    requires x in b.voters && x !in seen
    requires b.voters[x].proxy != NO_NAME ==> b.voters[x].proxy in b.voters
    ensures var row := b.voters[x];
      var c := Shift(row, k.growth);
      NothingSkipped(b, x, seen, k) <==>
        if Magnitude(c) <= 1.0 then c == 0.0 || (row.proxy == NO_NAME && row.producers == [])
        else row.proxy == NO_NAME || NothingSkipped(AddProxied(b, row.proxy, c), row.proxy, seen + {x}, k)
  {
  }

  lemma AddProxiedKeepsBallots(b: Book, x: Name, delta: real)
    requires x in b.voters && DistinctBallots(b)
    ensures DistinctBallots(AddProxied(b, x, delta))
  {
  }

  /** The exact condition: every gap is kept if and only if nothing is skipped. */
  lemma {:induction false} PropagateKeepsLedger(b: Book, x: Name, seen: set<Name>, k: Clock, rank: Ranks)
    returns (b': Book)
    requires x in b.voters && Ranked(b.voters, rank) && BallotsKnown(b) && DistinctBallots(b)
    requires forall y :: y in seen ==> At(rank, y) > At(rank, x)
    ensures Propagate(b, x, seen, k) == Success(b') && OnlyWeights(b, b')
    ensures SameGaps(b, b') <==> NothingSkipped(b, x, seen, k)
    decreases At(rank, x)
  {
    hide VoteGap, ProxyGap, TotalGap, CastAll, Propagate, NothingSkipped, OnlyWeights, SameGaps, DistinctBallots, BallotsKnown;
    var row := b.voters[x];
    var w := StakeToVote(row.staked, k.growth);
    var c := Shift(row, k.growth);
    ListedAt(b, x);
    b' := PropagateFrame(b, x, seen, k, rank);
    PropagateUnfolds(b, x, seen, k);
    NothingSkippedUnfolds(b, x, seen, k);
    if Magnitude(c) <= 1.0 {
      SkipBreaks(b, x, w);
    } else if row.proxy == NO_NAME {
      RootKeepsGaps(b, x, w, k.now);
    } else {
      var b1 := AddProxied(b, row.proxy, c);
      AddProxiedFrame(b, row.proxy, c, rank);
      AddProxiedKeepsBallots(b, row.proxy, c);
      var _ := PropagateFrame(b1, row.proxy, seen + {x}, k, rank);
      var b2 := PropagateKeepsLedger(b1, row.proxy, seen + {x}, k, rank);
      ChainPassesGaps(b, x, w, b1, b2);
    }
  }

  // ---------- who is harmed by a skip ----------

  /** The voter at which a change passed on from `x` ends: one whose own change is too small, or the root. */
  function EndOf(b: Book, x: Name, seen: set<Name>, k: Clock): (s: Name)
    requires x in b.voters
    ensures s in b.voters
    decreases b.voters.Keys - seen
  {
    var row := b.voters[x];
    if x in seen || Magnitude(Shift(row, k.growth)) <= 1.0 || row.proxy == NO_NAME || row.proxy !in b.voters then x
    else EndOf(b, row.proxy, seen + {x}, k)
  }

  /** What is dropped there. */
  function Dropped(row: Voter, k: Clock): real {
    When(Magnitude(Shift(row, k.growth)) <= 1.0, Shift(row, k.growth))
  }

  /** Each total is out by `d` where the row `r` backs it, and by nothing elsewhere. */
  ghost predicate Harmed(b: Book, b': Book, r: Voter, d: real)
    requires b'.voters.Keys == b.voters.Keys && b'.producers.Keys == b.producers.Keys
  {
    && (forall p :: p in b.producers ==> VoteGap(b', p) == VoteGap(b, p) - When(VoteFrom(r, p), d))
    && (forall z :: z in b.voters ==> ProxyGap(b', z) == ProxyGap(b, z) - When(LoanTo(r, z), d))
    && TotalGap(b') == TotalGap(b)
  }

  lemma EndUnfolds(b: Book, x: Name, seen: set<Name>, k: Clock)
    requires x in b.voters && x !in seen && (b.voters[x].proxy != NO_NAME ==> b.voters[x].proxy in b.voters)
    ensures var row := b.voters[x];
      EndOf(b, x, seen, k) == if Magnitude(Shift(row, k.growth)) <= 1.0 || row.proxy == NO_NAME then x
                              else EndOf(b, row.proxy, seen + {x}, k)
  {
  }

  lemma {:induction false} EndIgnoresLoans(b: Book, x: Name, delta: real, y: Name, seen: set<Name>, k: Clock)
    requires x in b.voters && y in b.voters
    ensures EndOf(AddProxied(b, x, delta), y, seen, k) == EndOf(b, y, seen, k)
    decreases b.voters.Keys - seen
  {
    var row := b.voters[y];
    if !(y in seen || Magnitude(Shift(row, k.growth)) <= 1.0 || row.proxy == NO_NAME || row.proxy !in b.voters) {
      EndIgnoresLoans(b, x, delta, row.proxy, seen + {y}, k);
    }
  }

  lemma ChainHarms(b: Book, x: Name, w: real, b1: Book, b2: Book, r: Voter, d: real)
    requires x in b.voters && b.voters[x].proxy != NO_NAME && b.voters[x].proxy in b.voters
    requires b1 == AddProxied(b, b.voters[x].proxy, w - b.voters[x].lastWeight)
    requires b2.voters.Keys == b.voters.Keys && b2.producers.Keys == b.producers.Keys
    requires b2.voters[x] == b.voters[x] && Harmed(b1, b2, r, d)
    ensures Harmed(b, SetWeight(b2, x, w), r, d)
  {
    hide VoteGap, ProxyGap, TotalGap;
    var row := b.voters[x];
    var b1' := AddProxiedGaps(b, row.proxy, w - row.lastWeight);
    var b' := SetWeightGaps(b2, x, w);
    hide AddProxied, SetWeight;
    forall p | p in b.producers ensures VoteGap(b', p) == VoteGap(b, p) - When(VoteFrom(r, p), d) {
      assert VoteGap(b2, p) == VoteGap(b1, p) - When(VoteFrom(r, p), d);
    }
    forall z | z in b.voters ensures ProxyGap(b', z) == ProxyGap(b, z) - When(LoanTo(r, z), d) {
      assert ProxyGap(b2, z) == ProxyGap(b1, z) - When(LoanTo(r, z), d);
    }
  }

  /** What a voter would drop does not depend on what has been lent to anybody. */
  lemma LoansDropNothing(b: Book, x: Name, delta: real, s: Name, k: Clock)
    requires x in b.voters && s in b.voters
    ensures var r, r' := b.voters[s], AddProxied(b, x, delta).voters[s];
      Dropped(r', k) == Dropped(r, k) && r'.proxy == r.proxy && r'.producers == r.producers
  {
  }

  lemma SameHarm(b: Book, b': Book, r: Voter, r': Voter, d: real)
    requires b'.voters.Keys == b.voters.Keys && b'.producers.Keys == b.producers.Keys
    requires Harmed(b, b', r', d) && r'.proxy == r.proxy && r'.producers == r.producers
    ensures Harmed(b, b', r, d)
  {
    hide VoteGap, ProxyGap, TotalGap;
  }

  lemma SkipHarmsOnly(b: Book, x: Name, k: Clock)
    requires x in b.voters && Magnitude(Shift(b.voters[x], k.growth)) <= 1.0
    ensures SetWeight(b, x, StakeToVote(b.voters[x].staked, k.growth)).producers.Keys == b.producers.Keys
    ensures Harmed(b, SetWeight(b, x, StakeToVote(b.voters[x].staked, k.growth)), b.voters[x], Dropped(b.voters[x], k))
  {
    hide VoteGap, ProxyGap, TotalGap, StakeToVote;
    var b' := SetWeightGaps(b, x, StakeToVote(b.voters[x].staked, k.growth));
  }

  lemma NothingDropped(b: Book, b': Book, r: Voter, k: Clock)
    requires Magnitude(Shift(r, k.growth)) > 1.0
    requires b'.voters.Keys == b.voters.Keys && b'.producers.Keys == b.producers.Keys && SameGaps(b, b')
    ensures Harmed(b, b', r, Dropped(r, k))
  {
    hide VoteGap, ProxyGap, TotalGap;
  }

  /** A skip harms nobody but those the skipping voter backs, and them by exactly what it drops: the producers on
      its own ballot, or the proxy it has lent to. All other totals move with their sums. */
  lemma {:induction false} PropagateHarms(b: Book, x: Name, seen: set<Name>, k: Clock, rank: Ranks)
    returns (b': Book)
    requires x in b.voters && Ranked(b.voters, rank) && DistinctBallots(b) && Propagate(b, x, seen, k).Success?
    requires forall y :: y in seen ==> At(rank, y) > At(rank, x)
    ensures Propagate(b, x, seen, k) == Success(b')
    ensures b'.voters.Keys == b.voters.Keys && b'.producers.Keys == b.producers.Keys
    ensures var r := b.voters[EndOf(b, x, seen, k)]; Harmed(b, b', r, Dropped(r, k))
    decreases At(rank, x)
  {
    hide VoteGap, ProxyGap, TotalGap, CastAll, Propagate, OnlyWeights, DistinctBallots, EndOf, Harmed, Dropped, SameGaps;
    var row := b.voters[x];
    var w := StakeToVote(row.staked, k.growth);
    var c := Shift(row, k.growth);
    assert Distinct(row.producers) by { BallotAt(b, x); }
    assert row.proxy != NO_NAME ==> row.proxy in b.voters;
    b' := PropagateFrame(b, x, seen, k, rank);
    SameKeys(b, b');
    PropagateUnfolds(b, x, seen, k);
    EndUnfolds(b, x, seen, k);
    if Magnitude(c) <= 1.0 {
      SkipHarmsOnly(b, x, k);
    } else if row.proxy == NO_NAME {
      RootKeepsGaps(b, x, w, k.now);
      NothingDropped(b, b', row, k);
    } else {
      var b1 := AddProxied(b, row.proxy, c);
      var s := EndOf(b, row.proxy, seen + {x}, k);
      AddProxiedFrame(b, row.proxy, c, rank);
      AddProxiedKeepsBallots(b, row.proxy, c);
      EndIgnoresLoans(b, row.proxy, c, row.proxy, seen + {x}, k);
      var _ := PropagateFrame(b1, row.proxy, seen + {x}, k, rank);
      var b2 := PropagateHarms(b1, row.proxy, seen + {x}, k, rank);
      LoansDropNothing(b, row.proxy, c, s, k);
      SameHarm(b1, b2, b.voters[s], b1.voters[s], Dropped(b.voters[s], k));
      ChainHarms(b, x, w, b1, b2, b.voters[s], Dropped(b.voters[s], k));
    }
  }
}
