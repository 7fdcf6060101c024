/** The exact condition over whole runs: the ledger of votes is right after every event if and only if
    no event that went through dropped a non-zero change of size at most 1. */
module ExactRuns {
  import opened Basics
  import opened Voting
  import opened VoteLedger
  import opened VotingRules
  import opened VotingInvariant
  import opened VoteStep
  import opened BookSteps
  import opened VotingSteps
  import opened VoteExactness
  import opened Token
  import opened Chain
  import opened Staking
  import opened StakeLedger
  import opened Memory
  import opened Rewards
  import opened Accounts
  import opened Runs
  import opened Invariants
  import opened StakeMoves
  import opened VotingRuns
  import opened PlainRuns
  import opened OwnVotes

  ghost predicate Lawful(c: Chain) { Sane(c) && OwnBallots(c.book) }

  lemma LawfulParts(c: Chain)
    requires Lawful(c)
    ensures Orderly(c) && Sound(c.book) && Sane(c) && OwnBallots(c.book)
    ensures StakesSound(c.stakes, c.book) && WellFormed(c.book)
  {
    OrderlyParts(c);
  }

  // ---------- the actions that move votes ----------

  lemma MakeVotes(c: Chain, auth: set<Name>, voter: Name, proxy: Name, producers: seq<Name>, growth: Growth)
    requires Lawful(c) && MakeProd(c, auth, voter, proxy, producers, growth).Success?
    ensures var b' := MakeProd(c, auth, voter, proxy, producers, growth).value.book;
      Exact(b') <==> SkipsNothing(c, MakeProducer(voter, proxy, producers), growth)
  {
    hide Orderly, Sound, UpdateVotes, VoteSkipsNothing, MakeProd, OwnBallots, Exact;
    LawfulParts(c);
    var c' := MakeKeeps(c, auth, voter, proxy, producers, growth);
    var b := MadeProducer(c.book, voter);
    RewriteProducerSound(c.book, voter, c.book.producers[voter].(isProducer := true));
    SameVotersOwn(c.book, b);
    VoterExists(b, voter, proxy, producers, Clock(c.now, growth));
    var b' := VoteExactIff(b, voter, proxy, producers, true, Clock(c.now, growth));
  }

  lemma ProxyVotes(c: Chain, auth: set<Name>, who: Name, on: bool, growth: Growth)
    requires Lawful(c) && RegProxyAction(c, auth, who, on, growth).Success?
    ensures var b' := RegProxyAction(c, auth, who, on, growth).value.book;
      Exact(b') <==> SkipsNothing(c, RegisterProxy(who, on), growth)
  {
    hide Orderly, Sound, RegProxy, ProxySkipsNothing, OwnBallots, Exact, RegProxyAction;
    LawfulParts(c);
    var c' := ProxyKeeps(c, auth, who, on, growth);
    if who in c.book.voters {
      RegProxyExactIff(c.book, who, on, Clock(c.now, growth));
    } else {
      NewProxySkipsNothing(c.book, who, on, Clock(c.now, growth));
      RegProxyKeepsSound(c.book, who, on, Clock(c.now, growth));
      SoundMeansExact(c'.book);
    }
  }

  lemma NewProxySkipsNothing(b: Book, who: Name, on: bool, k: Clock)
    requires who !in b.voters
    ensures ProxySkipsNothing(b, who, on, k)
  {
  }

  // ---------- every action ----------

  lemma MovesExactIff(b: Book, voter: Name, deltas: seq<int>, k: Clock, b': Book)
    requires Sound(b) && OwnBallots(b) && |deltas| <= 2 && MoveAll(b, voter, deltas, k) == Success(b')
    ensures Exact(b') <==> MovesSkipNothing(b, voter, deltas, k)
  {
    hide Sound, OwnBallots, Exact, UpdateVotingPower, StakeSkipsNothing;
    if deltas == [] {
      assert Exact(b) by { SoundIsExact(b); }
    } else {
      var b1 := UpdateVotingPower(b, voter, deltas[0], k).value;
      if |deltas| == 1 {
        StakeExactIff(b, voter, deltas[0], k);
      } else {
        assert deltas == [deltas[0], deltas[1]] && deltas[1..] == [deltas[1]];
        assert [deltas[1]][1..] == [];
        assert MovesSkipNothing(b1, voter, [deltas[1]], k) == StakeSkipsNothing(b1, voter, deltas[1], k);
        MoveTwo(b, voter, deltas[0], deltas[1], k, b1);
        StakeTwiceExactIff(b, voter, deltas[0], deltas[1], k, b1, b');
      }
    }
  }

  lemma SoundIsExact(b: Book)
    requires Sound(b)
    ensures Exact(b)
  {
    hide Core, ProxiesExact, Exact;
    SoundMeansExact(b);
  }

  lemma TradeExactIff(c: Chain, a: Action, auth: set<Name>, growth: Growth)
    requires Lawful(c) && Perform(c, a, auth, growth).Success? && IsTrade(a)
    ensures var b' := Perform(c, a, auth, growth).value.book;
      Exact(b') <==> SkipsNothing(c, a, growth)
  {
    hide Lawful, Orderly, Sound, Sane, Perform, MovesOf, MoveAll, MovesSkipNothing, OwnBallots, Exact;
    LawfulParts(c);
    TradeMoves(c, a, auth, growth);
    MovesExactIff(c.book, MovesOf(a).voter, MovesOf(a).deltas, Clock(c.now, growth), Perform(c, a, auth, growth).value.book);
  }

  lemma OthersSkipNothing(c: Chain, a: Action, growth: Growth)
    requires !IsTrade(a) && !a.MakeProducer? && !a.RegisterProxy?
    ensures SkipsNothing(c, a, growth)
  {
    hide VoteSkipsNothing, ProxySkipsNothing, PriceOf, StakeWithMemory;
  }

  /** With exact books every weight is non-negative. */
  lemma LawfulWeighs(c: Chain, a: Action, growth: Growth)
    requires Lawful(c)
    ensures WeighsVotes(c, a, growth)
  {
    hide Orderly, Core, NewWeight;
    if a.MakeProducer? && a.voter in c.book.voters {
      WeightsAt(c.book, a.voter, Clock(c.now, growth));
    }
  }

  /** The exact condition for every action: afterwards the ledger of votes is exact if and only if the
      action skipped nothing. */
  lemma PerformExactIff(c: Chain, a: Action, auth: set<Name>, growth: Growth)
    requires Lawful(c) && Perform(c, a, auth, growth).Success?
    ensures OwnBallots(Perform(c, a, auth, growth).value.book)
    ensures Exact(Perform(c, a, auth, growth).value.book) <==> SkipsNothing(c, a, growth)
  {
    hide Orderly, Sound, OwnBallots, Exact, SkipsNothing, MakeProd, RegProxyAction, WithToken, DelegateBw, UndelegateBw, ClaimRefund,
         BuyResources, BuyMemBytes, SellRes, SetMem, SetMemRate, SetAcct, SetALimits, NewAccount, SetInflation, OnBlock, ClaimRewards,
         RegProducer, UnregProd, RmvProducer;
    LawfulWeighs(c, a, growth);
    PerformKeepsOwn(c, a, auth, growth);
    if IsTrade(a) {
      TradeExactIff(c, a, auth, growth);
    } else if a.MakeProducer? {
      MakeVotes(c, auth, a.voter, a.proxy, a.producers, growth);
    } else if a.RegisterProxy? {
      ProxyVotes(c, auth, a.who, a.on, growth);
    } else {
      OthersSkipNothing(c, a, growth);
      PerformKeepsSane(c, a, auth, growth);
      SaneMeansExact(Perform(c, a, auth, growth).value);
    }
  }

  lemma SaneMeansExact(c: Chain)
    requires Sane(c)
    ensures Exact(c.book)
  {
    hide Orderly;
    SoundMeansExact(c.book);
  }

  lemma LawfulMeans(c: Chain)
    requires Lawful(c)
    ensures Orderly(c) && Sane(c) && Exact(c.book)
  {
    hide Orderly;
    SaneMeansExact(c);
  }

  // ---------- runs ----------

  lemma LaterLawful(c: Chain, elapsed: nat)
    requires Lawful(c)
    ensures Lawful(Later(c, elapsed))
  {
    hide Sane;
    LaterSane(c, elapsed);
  }

  /** One event from a state with exact books. */
  lemma StepExactIff(c: Chain, e: Event)
    requires Lawful(c)
    ensures Exact(Step(c, e).book) <==> EventSkipsNothing(c, e)
    ensures EventSkipsNothing(c, e) ==> Lawful(Step(c, e))
  {
    hide Lawful, Exact, Perform, SkipsNothing;
    LaterLawful(c, e.elapsed);
    var l := Later(c, e.elapsed);
    LawfulMeans(l);
    if Try(c, e).Success? {
      PerformExactIff(l, e.action, e.auth, e.growth);
      StepLawful(c, e);
    }
  }

  lemma StepLawful(c: Chain, e: Event)
    requires Lawful(c) && OwnBallots(Step(c, e).book)
    ensures EventSkipsNothing(c, e) ==> Lawful(Step(c, e))
  {
    hide Sane, OwnBallots, Step;
    if EventSkipsNothing(c, e) {
      StepKeepsSane(c, e);
    }
  }

  /** The ledger is exact in every state of the run. */
  ghost predicate ExactThroughout(c: Chain, es: seq<Event>) {
    forall i :: 0 <= i <= |es| ==> Exact(Run(c, es[..i]).book)
  }

  lemma {:induction false} QuietRunStaysLawful(c: Chain, es: seq<Event>)
    requires Lawful(c) && RunSkipsNothing(c, es)
    ensures Lawful(Run(c, es))
  {
    if es != [] {
      hide Lawful, Step, EventSkipsNothing, RunSkipsNothing;
      var n := |es| - 1;
      PrefixSkipsNothing(c, es, n);
      QuietRunStaysLawful(c, es[..n]);
      StepExactIff(Run(c, es[..n]), es[n]);
    }
  }

  lemma PrefixExact(c: Chain, es: seq<Event>, n: nat)
    requires ExactThroughout(c, es) && n <= |es|
    ensures ExactThroughout(c, es[..n])
    ensures Exact(Run(c, es[..n]).book)
  {
    hide Run, Exact;
    forall i | 0 <= i <= n ensures Exact(Run(c, es[..n][..i]).book) {
      assert es[..n][..i] == es[..i];
    }
  }

  lemma OneMoreSkipsNothing(c: Chain, es: seq<Event>)
    requires es != [] && RunSkipsNothing(c, es[..|es| - 1]) && EventSkipsNothing(Run(c, es[..|es| - 1]), es[|es| - 1])
    ensures RunSkipsNothing(c, es)
  {
    hide EventSkipsNothing, Run;
    var n := |es| - 1;
    forall i | 0 <= i < |es| ensures EventSkipsNothing(Run(c, es[..i]), es[i]) {
      if i < n {
        assert es[..n][..i] == es[..i];
        assert EventSkipsNothing(Run(c, es[..n][..i]), es[..n][i]);
      }
    }
  }

  lemma {:induction false} ExactRunSkipsNothing(c: Chain, es: seq<Event>)
    requires Lawful(c) && ExactThroughout(c, es)
    ensures RunSkipsNothing(c, es)
  {
    if es != [] {
      hide Lawful, Step, EventSkipsNothing, RunSkipsNothing, ExactThroughout, Exact;
      var n := |es| - 1;
      PrefixExact(c, es, n);
      PrefixExact(c, es, |es|);
      assert es[..|es|] == es;
      ExactRunSkipsNothing(c, es[..n]);
      QuietRunStaysLawful(c, es[..n]);
      StepExactIff(Run(c, es[..n]), es[n]);
      OneMoreSkipsNothing(c, es);
    }
  }

  /** Over whole runs: the running totals equal their sums in every state of the run if and only if no
      event of it skips a change. */
  lemma ExactIffNothingSkipped(c: Chain, es: seq<Event>)
    requires Lawful(c)
    ensures ExactThroughout(c, es) <==> RunSkipsNothing(c, es)
  {
    hide Lawful, Run, Exact, RunSkipsNothing;
    if ExactThroughout(c, es) {
      ExactRunSkipsNothing(c, es);
    }
    if RunSkipsNothing(c, es) {
      forall i | 0 <= i <= |es| ensures Exact(Run(c, es[..i]).book) {
        PrefixSkipsNothing(c, es, i);
        QuietRunStaysLawful(c, es[..i]);
        LawfulMeans(Run(c, es[..i]));
      }
    }
  }

  lemma GenesisLawful(now: nat, issuer: Name, supply: int, maxSupply: int, accounts: set<Name>, revision: nat)
    requires now > 0 && 0 < supply <= maxSupply <= MAX_AMOUNT
    ensures Lawful(Genesis(now, issuer, supply, maxSupply, accounts, revision))
  {
    hide Sane;
    GenesisSane(now, issuer, supply, maxSupply, accounts, revision);
  }
}
