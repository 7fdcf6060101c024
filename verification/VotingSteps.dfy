/** The actions that move votes: staking, making a producer, and registering as a proxy. */
module VotingSteps {
  import opened Basics
  import opened Voting
  import opened ProxyGraph
  import opened VoteLedger
  import opened ProxyLedger
  import opened VotingRules
  import opened VotingInvariant
  import opened VoteStep
  import opened BookSteps
  import opened Chain
  import opened Staking

  // ---------- what these steps leave alone ----------

  /** Stake, flags, the producers' status and the clock of the books: everything that is not about votes. */
  ghost predicate SameStanding(b: Book, b': Book) {
    && b'.producers.Keys == b.producers.Keys
    && (forall p :: p in b.producers ==> SameButVotes(b.producers[p], b'.producers[p]))
    && (forall v :: FlagsOf(b', v) == FlagsOf(b, v))
    && b.voters.Keys <= b'.voters.Keys
  }

  ghost predicate SameStake(b: Book, b': Book) {
    forall v :: RowOf(b', v).staked == RowOf(b, v).staked
  }

  lemma WeightsKeepStanding(b: Book, b': Book)
    requires OnlyWeights(b, b')
    ensures SameStanding(b, b') && SameStake(b, b')
  {
    forall v | v in b.voters ensures SameButWeights(b.voters[v], b'.voters[v]) {
    }
  }

  lemma ChoiceKeepsStanding(b: Book, voter: Name, proxy: Name, producers: seq<Name>, now: int)
    requires voter in b.voters
    ensures SameStanding(b, Chosen(b, voter, proxy, producers, now)) && SameStake(b, Chosen(b, voter, proxy, producers, now))
  {
  }

  lemma VoteKeepsStanding(b: Book, voter: Name, proxy: Name, producers: seq<Name>, voting: bool, k: Clock) returns (b': Book)
    requires WellFormed(b) && (voter in b.voters ==> Repeats(b.voters[voter], proxy, producers, voting))
    requires UpdateVotes(b, voter, proxy, producers, voting, k).Success?
    ensures UpdateVotes(b, voter, proxy, producers, voting, k) == Success(b')
    ensures WellFormed(b') && SameStanding(b, b') && SameStake(b, b')
  {
    hide UpdateVotes, WellFormed, OnlyWeights, Chosen;
    b' := VoteFrame(b, voter, proxy, producers, voting, k);
    WeightsKeepStanding(Chosen(b, voter, proxy, producers, k.now), b');
    ChoiceKeepsStanding(b, voter, proxy, producers, k.now);
    StandingTransitive(b, Chosen(b, voter, proxy, producers, k.now), b');
  }

  lemma StandingTransitive(b: Book, b': Book, b'': Book)
    requires SameStanding(b, b') && SameStanding(b', b'')
    ensures SameStanding(b, b'')
    ensures SameStake(b, b') && SameStake(b', b'') ==> SameStake(b, b'')
  {
    forall p | p in b.producers ensures SameButVotes(b.producers[p], b''.producers[p]) {
      assert SameButVotes(b'.producers[p], b''.producers[p]);
    }
  }

  // ---------- staking ----------

  /** A stake change re-weighs the votes of a voter who has any; here nothing of that is skipped. */
  ghost predicate StakeSkipsNothing(b: Book, voter: Name, delta: int, k: Clock) {
    var b' := AddStake(b, voter, delta);
    b'.voters[voter].producers != [] || b'.voters[voter].proxy != NO_NAME ==>
      VoteSkipsNothing(b', voter, b'.voters[voter].proxy, k)
  }

  lemma AddStakeIsRow(b: Book, voter: Name, delta: int)
    ensures AddStake(b, voter, delta) == WithRow(b, voter, RowOf(b, voter).(staked := RowOf(b, voter).staked + delta))
  {
  }

  lemma PlainRow(b: Book, v: Name)
    requires WellFormed(b)
    ensures RowOf(b, v).isProxy ==> RowOf(b, v).proxy == NO_NAME
  {
  }

  lemma StakeKeepsShape(b: Book, voter: Name, delta: int, k: Clock) returns (b': Book)
    requires WellFormed(b) && UpdateVotingPower(b, voter, delta, k).Success?
    ensures UpdateVotingPower(b, voter, delta, k) == Success(b')
    ensures WellFormed(b') && SameStanding(b, b')
    ensures RowOf(b', voter).staked == RowOf(b, voter).staked + delta && RowOf(b', voter).staked >= 0
    ensures forall v :: v != voter ==> RowOf(b', v).staked == RowOf(b, v).staked
  {
    hide UpdateVotes, WellFormed;
    var b1 := AddStake(b, voter, delta);
    AddStakeIsRow(b, voter, delta);
    PlainRow(b, voter);
    RewriteVoterShape(b, voter, b1.voters[voter]);
    assert SameStanding(b, b1);
    b' := b1;
    if b1.voters[voter].producers != [] || b1.voters[voter].proxy != NO_NAME {
      b' := VoteKeepsStanding(b1, voter, b1.voters[voter].proxy, b1.voters[voter].producers, false, k);
      StandingTransitive(b, b1, b');
    }
  }

  lemma StakeKeepsSound(b: Book, voter: Name, delta: int, k: Clock)
    requires Sound(b) && UpdateVotingPower(b, voter, delta, k).Success? && StakeSkipsNothing(b, voter, delta, k)
    ensures Sound(UpdateVotingPower(b, voter, delta, k).value)
  {
    hide UpdateVotes, WellFormed, Core, VoteSkipsNothing, ProxiesExact;
    var b1 := AddStake(b, voter, delta);
    AddStakeIsRow(b, voter, delta);
    assert WellFormed(b) by { CoreParts(b); }
    PlainRow(b, voter);
    RewriteVoterSound(b, voter, b1.voters[voter]);
    if b1.voters[voter].producers != [] || b1.voters[voter].proxy != NO_NAME {
      var _ := VoteKeepsSound(b1, voter, b1.voters[voter].proxy, b1.voters[voter].producers, false, k);
    }
  }

  // ---------- proxies ----------

  ghost predicate ProxySkipsNothing(b: Book, who: Name, on: bool, k: Clock) {
    who in b.voters ==> NothingSkipped(b.(voters := b.voters[who := b.voters[who].(isProxy := on)]), who, {}, k)
  }

  lemma ProxyRowShape(b: Book, who: Name, on: bool)
    requires WellFormed(b) && (on ==> RowOf(b, who).proxy == NO_NAME)
    ensures SameBacking(RowOf(b, who), RowOf(b, who).(isProxy := on))
  {
  }

  lemma RegProxyKeepsShape(b: Book, who: Name, on: bool, k: Clock) returns (b': Book)
    requires WellFormed(b) && RegProxy(b, who, on, k).Success?
    ensures RegProxy(b, who, on, k) == Success(b')
    ensures WellFormed(b') && SameStanding(b, b') && SameStake(b, b')
  {
    hide Propagate, WellFormed, OnlyWeights;
    var row := RowOf(b, who).(isProxy := on);
    ProxyRowShape(b, who, on);
    RewriteVoterShape(b, who, row);
    var b1 := WithRow(b, who, row);
    assert SameStanding(b, b1) && SameStake(b, b1);
    b' := b1;
    if who in b.voters {
      assert Acyclic(b1.voters) by { ShapeParts(b1); }
      var rank: Ranks :| Ranked(b1.voters, rank);
      b' := PropagateFrame(b1, who, {}, k, rank);
      WeightsKeepShape(b1, b');
      WeightsKeepStanding(b1, b');
      StandingTransitive(b, b1, b');
    }
  }

  lemma RegProxyKeepsSound(b: Book, who: Name, on: bool, k: Clock)
    requires Sound(b) && RegProxy(b, who, on, k).Success? && ProxySkipsNothing(b, who, on, k)
    ensures Sound(RegProxy(b, who, on, k).value)
  {
    hide Propagate, WellFormed, OnlyWeights, NothingSkipped, VotesExact, Weighty, BallotsKnown, ProxyGap;
    var row := RowOf(b, who).(isProxy := on);
    ProxyRowShape(b, who, on);
    StakedNow(b, who);
    RewriteVoterSound(b, who, row);
    var b1 := WithRow(b, who, row);
    if who in b.voters {
      assert Acyclic(b1.voters) by { ShapeParts(b1); }
      var rank: Ranks :| Ranked(b1.voters, rank);
      var b' := PropagateCore(b1, who, k, rank);
      SameKeys(b1, b');
    }
  }

  lemma StakedNow(b: Book, v: Name)
    requires Weighty(b)
    ensures RowOf(b, v).staked >= 0
  {
  }

  /** The exact condition for `regproxy`: from a sound state the ledger stays exact if and only if the
      change is not skipped. */
  lemma RegProxyExactIff(b: Book, who: Name, on: bool, k: Clock)
    requires Sound(b) && who in b.voters && RegProxy(b, who, on, k).Success?
    ensures Exact(RegProxy(b, who, on, k).value) <==> ProxySkipsNothing(b, who, on, k)
  {
    hide Propagate, WellFormed, NothingSkipped, Weighty, BallotsKnown, ProxyGap, VoteGap, TotalGap;
    var row := b.voters[who].(isProxy := on);
    ProxyRowShape(b, who, on);
    StakedNow(b, who);
    RewriteVoterSound(b, who, row);
    var b1 := WithRow(b, who, row);
    assert Acyclic(b1.voters) && DistinctBallots(b1) by { SoundBallots(b1); }
    var rank: Ranks :| Ranked(b1.voters, rank);
    var b' := PropagateKeepsLedger(b1, who, {}, k, rank);
    if SameGaps(b1, b') {
      assert Exact(b');
    }
    if Exact(b') {
      assert SameGaps(b1, b');
    }
  }

  lemma SoundBallots(b: Book)
    requires Core(b)
    ensures Acyclic(b.voters) && DistinctBallots(b)
  {
  }
}
