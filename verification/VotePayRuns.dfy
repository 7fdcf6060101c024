/** Vote pay over whole runs. It is in order when the global pair stands for the sum over producers, nobody has
    negative votes, and the grand total is the sum of all votes; all three hold in every state of a run if and
    only if no event of it drives a producer below zero votes. */
module VotePayRuns {
  import opened Basics
  import opened Voting
  import opened VoteLedger
  import opened VotingRules
  import opened VotingInvariant
  import opened VoteStep
  import opened BookSteps
  import opened VotingSteps
  import opened VoteExactness
  import opened VotePayIndex
  import opened VotePayRows
  import opened VotePaySteps
  import opened VotePayExactness
  import opened Token
  import opened Chain
  import opened Staking
  import opened StakeLedger
  import opened StakeSteps
  import opened Memory
  import opened Rewards
  import opened Accounts
  import opened Runs
  import opened Invariants
  import opened AccountSteps
  import opened StakeMoves
  import opened VotingRuns
  import opened OwnVotes

  /** None of a voter's stake changes drives a producer below zero votes. */
  ghost predicate MovesLeaveNoDebt(b: Book, voter: Name, deltas: seq<int>, k: Clock)
    decreases |deltas|
  {
    deltas == []
    || (StakeNoDebt(b, voter, deltas[0], k)
        && (UpdateVotingPower(b, voter, deltas[0], k).Success? ==>
              MovesLeaveNoDebt(UpdateVotingPower(b, voter, deltas[0], k).value, voter, deltas[1..], k)))
  }

  /** The action drives no producer below zero votes, with any cast it makes. Like `SkipsNothing` it can be
      read off the state before the action. */
  ghost predicate LeavesNoDebt(c: Chain, a: Action, growth: Growth) {
    var k := Clock(c.now, growth);
    match a
    case MakeProducer(voter, proxy, producers) =>
      voter in c.book.producers && voter in c.book.voters ==>
        VoteNoDebt(MadeProducer(c.book, voter), voter, proxy, producers, true, k)
    case RegisterProxy(who, on) => ProxyNoDebt(c.book, who, on, k)
    case _ => MovesLeaveNoDebt(c.book, MovesOf(a).voter, MovesOf(a).deltas, k)
  }

  /** The chain with vote pay in order. It says nothing about the ledger of votes. */
  ghost predicate Earning(c: Chain) { Orderly(c) && Accrues(c.book, c.now) }

  lemma EarningParts(c: Chain)
    requires Earning(c)
    ensures Orderly(c) && Accrues(c.book, c.now) && WellFormed(c.book) && StakesSound(c.stakes, c.book) && c.now > 0
  {
    hide Accrues;
    OrderlyParts(c);
  }

  // ---------- what actions do to vote pay ----------

  lemma StakeAccruesBoth(b: Book, voter: Name, delta: int, k: Clock, b': Book)
    requires WellFormed(b) && Accrues(b, k.now) && UpdateVotingPower(b, voter, delta, k) == Success(b')
    ensures StakeNoDebt(b, voter, delta, k) ==> Accrues(b', k.now)
    ensures OwnBallots(b) && Accrues(b', k.now) ==> StakeNoDebt(b, voter, delta, k)
  {
    hide WellFormed, Accrues, UpdateVotingPower, StakeNoDebt, OwnBallots;
    if StakeNoDebt(b, voter, delta, k) {
      StakeAccrues(b, voter, delta, k);
    }
    if OwnBallots(b) {
      StakeAccruesIff(b, voter, delta, k);
    }
  }

  lemma StakeTwiceAccrues(b: Book, voter: Name, delta: int, delta2: int, k: Clock, b1: Book, b2: Book)
    requires WellFormed(b) && Accrues(b, k.now)
    requires UpdateVotingPower(b, voter, delta, k) == Success(b1) && UpdateVotingPower(b1, voter, delta2, k) == Success(b2)
    ensures StakeNoDebt(b, voter, delta, k) && StakeNoDebt(b1, voter, delta2, k) ==> Accrues(b2, k.now)
    ensures OwnBallots(b) && Accrues(b2, k.now) ==> StakeNoDebt(b, voter, delta, k) && StakeNoDebt(b1, voter, delta2, k)
  {
    hide WellFormed, Accrues, UpdateVotingPower, StakeNoDebt, OwnBallots;
    StakeStaysWellFormed(b, voter, delta, k);
    if StakeNoDebt(b, voter, delta, k) && StakeNoDebt(b1, voter, delta2, k) {
      StakeAccrues(b, voter, delta, k);
      StakeAccrues(b1, voter, delta2, k);
    }
    if OwnBallots(b) {
      StakeTwiceAccruesIff(b, voter, delta, delta2, k, b1, b2);
    }
  }

  /** After an action that drives nobody below zero vote pay goes on; and where everybody votes for itself
      only, after no other. */
  ghost predicate Verdict(c: Chain, a: Action, growth: Growth, c': Chain) {
    && (LeavesNoDebt(c, a, growth) ==> Accrues(c'.book, c.now))
    && (OwnBallots(c.book) && Accrues(c'.book, c.now) ==> LeavesNoDebt(c, a, growth))
  }

  lemma MovesVerdict(b: Book, voter: Name, deltas: seq<int>, k: Clock, b': Book)
    requires WellFormed(b) && Accrues(b, k.now) && |deltas| <= 2 && MoveAll(b, voter, deltas, k) == Success(b')
    ensures MovesLeaveNoDebt(b, voter, deltas, k) ==> Accrues(b', k.now)
    ensures OwnBallots(b) && Accrues(b', k.now) ==> MovesLeaveNoDebt(b, voter, deltas, k)
  {
    hide WellFormed, Accrues, OwnBallots, UpdateVotingPower, StakeNoDebt;
    if deltas != [] {
      var b1 := UpdateVotingPower(b, voter, deltas[0], k).value;
      if |deltas| == 1 {
        StakeAccruesBoth(b, voter, deltas[0], k, b');
      } else {
        assert deltas == [deltas[0], deltas[1]] && deltas[1..] == [deltas[1]];
        assert [deltas[1]][1..] == [];
        assert MovesLeaveNoDebt(b1, voter, [deltas[1]], k) == StakeNoDebt(b1, voter, deltas[1], k);
        MoveTwo(b, voter, deltas[0], deltas[1], k, b1);
        StakeTwiceAccrues(b, voter, deltas[0], deltas[1], k, b1, b');
      }
    }
  }

  lemma TradeVerdict(c: Chain, a: Action, auth: set<Name>, growth: Growth)
    requires Earning(c) && Perform(c, a, auth, growth).Success? && IsTrade(a)
    ensures Verdict(c, a, growth, Perform(c, a, auth, growth).value)
  {
    hide Earning, Orderly, Accrues, WellFormed, Perform, MovesOf, MoveAll, MovesLeaveNoDebt, OwnBallots;
    EarningParts(c);
    TradeMoves(c, a, auth, growth);
    MovesVerdict(c.book, MovesOf(a).voter, MovesOf(a).deltas, Clock(c.now, growth), Perform(c, a, auth, growth).value.book);
  }

  lemma MakeVerdict(c: Chain, auth: set<Name>, voter: Name, proxy: Name, producers: seq<Name>, growth: Growth)
    requires Earning(c) && MakeProd(c, auth, voter, proxy, producers, growth).Success?
    ensures Verdict(c, MakeProducer(voter, proxy, producers), growth, MakeProd(c, auth, voter, proxy, producers, growth).value)
  {
    hide Earning, Orderly, Accrues, WellFormed, UpdateVotes, VoteNoDebt, MakeProd, OwnBallots;
    EarningParts(c);
    var k := Clock(c.now, growth);
    var c' := MakeKeeps(c, auth, voter, proxy, producers, growth);
    var b := MadeProducer(c.book, voter);
    var row := c.book.producers[voter].(isProducer := true);
    RewriteProducerShape(c.book, voter, row);
    ProducerRowAccrues(c.book, voter, row, c.now);
    SameVotersOwn(c.book, b);
    VoterExists(b, voter, proxy, producers, k);
    if VoteNoDebt(b, voter, proxy, producers, true, k) {
      var b' := VoteAccrues(b, voter, proxy, producers, true, k);
    }
    if OwnBallots(c.book) {
      VoteAccruesIff(b, voter, proxy, producers, true, k);
    }
  }

  lemma RowAccrues(b: Book, account: Name, r: Resource, on: bool, now: int)
    requires Accrues(b, now)
    ensures Accrues(SetFlag(b, account, r, on), now)
  {
    hide Accrues;
    VoterRowsAccrue(b, SetFlag(b, account, r, on), now);
  }

  lemma RetiredAccrues(b: Book, p: Name, now: int)
    requires Accrues(b, now) && p in b.producers
    ensures Accrues(Retired(b, p), now)
  {
    hide Accrues;
    ProducerRowAccrues(b, p, Deactivate(b.producers[p]), now);
    assert Retired(b, p) == WithProducer(b, p, Deactivate(b.producers[p]));
  }

  lemma BlockAccrues(c: Chain, auth: set<Name>, slot: nat, producer: Name)
    requires Earning(c) && OnBlock(c, auth, slot, producer).Success?
    ensures Accrues(OnBlock(c, auth, slot, producer).value.book, c.now)
  {
    hide Orderly, Accrues, OnBlock;
    var c' := BlockKeeps(c, auth, slot, producer);
    if producer in c.book.producers {
      ProducerRowAccrues(c.book, producer, c.book.producers[producer].(unpaid := c.book.producers[producer].unpaid + 1), c.now);
    }
  }

  lemma ClaimedAccrues(c: Chain, auth: set<Name>, owner: Name, minted: nat)
    requires Earning(c) && ClaimRewards(c, auth, owner, minted).Success?
    ensures Accrues(ClaimRewards(c, auth, owner, minted).value.book, c.now)
  {
    hide Orderly, Accrues, ClaimRewards, ClaimBook, WellFormed;
    EarningParts(c);
    var c', revised := ClaimKeeps(c, auth, owner, minted);
    ClaimAccrues(c.book, owner, revised, c.now);
  }

  lemma OthersVerdict(c: Chain, a: Action, auth: set<Name>, growth: Growth)
    requires Earning(c) && Perform(c, a, auth, growth).Success? && !IsTrade(a) && !a.MakeProducer? && !a.RegisterProxy?
    ensures LeavesNoDebt(c, a, growth) && Accrues(Perform(c, a, auth, growth).value.book, c.now)
  {
    hide Earning, Orderly, Accrues, TokensKept, PinsKept, SetMem, SetMemRate, SetAcct, SetALimits, NewAccount, SetInflation, OnBlock,
         ClaimRewards, ClaimBook, Create, Issue, Retire, Transfer, Open, Close, Register, Retired, SetFlag;
    EarningParts(c);
    match a
    case ResizeMemory(size, reserved) => var c' := SetMemKeeps(c, auth, size, reserved);
    case RateMemory(perBlock) => var c' := SetMemRateKeeps(c, auth, perBlock);
    case PinLimit(account, resource, pin) =>
      var c' := SetAcctKeeps(c, auth, account, resource, pin);
      RowAccrues(c.book, account, resource, pin.PinAt?, c.now);
    case LimitAccount(account, limits) => var c' := SetALimitsKeeps(c, auth, account, limits);
    case OpenAccount(account) => var c' := NewAccountKeeps(c, auth, account);
    case Inflate(rate, payFactor, voteFactor) => var c' := InflateKeeps(c, auth, rate, payFactor, voteFactor);
    case RemoveProducer(producer) => RetiredAccrues(c.book, producer, c.now);
    case RegisterProducer(producer) => RegisterAccrues(c.book, producer, c.now);
    case UnregisterProducer(producer) => RetiredAccrues(c.book, producer, c.now);
    case Block(slot, producer) => BlockAccrues(c, auth, slot, producer);
    case Claim(owner, minted) => ClaimedAccrues(c, auth, owner, minted);
    case _ => TokenBookSame(c, a, auth, growth);
  }

  /** Every action: whether vote pay goes on is decided by whether it drives a producer below zero. */
  lemma PerformVerdict(c: Chain, a: Action, auth: set<Name>, growth: Growth)
    requires Earning(c) && Perform(c, a, auth, growth).Success?
    ensures Verdict(c, a, growth, Perform(c, a, auth, growth).value)
  {
    hide Earning, Accrues, OwnBallots, LeavesNoDebt, MakeProd, WithToken, DelegateBw, UndelegateBw, ClaimRefund, RegProxy,
         BuyResources, BuyMemBytes, SellRes, SetMem, SetMemRate, SetAcct, SetALimits, NewAccount, SetInflation, OnBlock, ClaimRewards,
         RegProducer, UnregProd, RmvProducer;
    if IsTrade(a) {
      TradeVerdict(c, a, auth, growth);
    } else if a.MakeProducer? {
      MakeVerdict(c, auth, a.voter, a.proxy, a.producers, growth);
    } else if a.RegisterProxy? {
      ProxyVerdict(c, a, growth);
    } else {
      OthersVerdict(c, a, auth, growth);
    }
  }

  lemma ProxyVerdict(c: Chain, a: Action, growth: Growth)
    requires Earning(c) && a.RegisterProxy? && RegProxy(c.book, a.who, a.on, Clock(c.now, growth)).Success?
    ensures Accrues(RegProxy(c.book, a.who, a.on, Clock(c.now, growth)).value, c.now) <==> LeavesNoDebt(c, a, growth)
  {
    hide Earning, Accrues, RegProxy, ProxyNoDebt, WellFormed;
    EarningParts(c);
    RegProxyAccruesIff(c.book, a.who, a.on, Clock(c.now, growth));
  }

  // ---------- runs ----------

  ghost predicate EventLeavesNoDebt(c: Chain, e: Event) {
    Try(c, e).Success? ==> LeavesNoDebt(Later(c, e.elapsed), e.action, e.growth)
  }

  /** No event of a run that goes through drives a producer below zero. */
  ghost predicate RunLeavesNoDebt(c: Chain, es: seq<Event>) {
    forall i :: 0 <= i < |es| ==> EventLeavesNoDebt(Run(c, es[..i]), es[i])
  }

  predicate EventWeighs(c: Chain, e: Event) {
    Try(c, e).Success? ==> WeighsVotes(Later(c, e.elapsed), e.action, e.growth)
  }

  /** Nobody makes a new choice with a negative weight. */
  predicate RunWeighs(c: Chain, es: seq<Event>) {
    forall i :: 0 <= i < |es| ==> EventWeighs(Run(c, es[..i]), es[i])
  }

  /** Vote pay is in order in every state of the run. */
  ghost predicate EarnsThroughout(c: Chain, es: seq<Event>) {
    forall i :: 0 <= i <= |es| ==> Accrues(Run(c, es[..i]).book, Run(c, es[..i]).now)
  }

  lemma LaterAccrues(c: Chain, elapsed: nat)
    requires Earning(c)
    ensures Earning(Later(c, elapsed))
  {
    hide Orderly, Indexed, TotalGap, VotesNonNegative;
    LaterKeepsOrderly(c, elapsed);
  }

  lemma StepVerdict(c: Chain, e: Event)
    requires Earning(c)
    ensures EventLeavesNoDebt(c, e) ==> Earning(Step(c, e))
    ensures OwnBallots(c.book) && Accrues(Step(c, e).book, Step(c, e).now) ==> EventLeavesNoDebt(c, e)
  {
    hide Orderly, Accrues, Perform, LeavesNoDebt, OwnBallots;
    LaterAccrues(c, e.elapsed);
    var l := Later(c, e.elapsed);
    if Try(c, e).Success? {
      PerformKeepsOrderly(l, e.action, e.auth, e.growth);
      PerformVerdict(l, e.action, e.auth, e.growth);
    }
  }

  lemma PrefixLeavesNoDebt(c: Chain, es: seq<Event>, n: nat)
    requires RunLeavesNoDebt(c, es) && n <= |es|
    ensures RunLeavesNoDebt(c, es[..n])
    ensures n < |es| ==> EventLeavesNoDebt(Run(c, es[..n]), es[n])
  {
    hide EventLeavesNoDebt, Run;
    forall i | 0 <= i < n ensures EventLeavesNoDebt(Run(c, es[..n][..i]), es[..n][i]) {
      assert es[..n][..i] == es[..i];
    }
  }

  /** Over every run that drives no producer below zero, whether or not the ledger of votes is exact, vote
      pay stays in order. */
  lemma {:induction false} RunKeepsEarning(c: Chain, es: seq<Event>)
    requires Earning(c) && RunLeavesNoDebt(c, es)
    ensures Earning(Run(c, es))
  {
    if es != [] {
      hide Earning, Step, EventLeavesNoDebt, RunLeavesNoDebt;
      var n := |es| - 1;
      PrefixLeavesNoDebt(c, es, n);
      RunKeepsEarning(c, es[..n]);
      StepVerdict(Run(c, es[..n]), es[n]);
    }
  }

  lemma PrefixWeighs(c: Chain, es: seq<Event>, n: nat)
    requires RunWeighs(c, es) && n <= |es|
    ensures RunWeighs(c, es[..n])
    ensures n < |es| ==> EventWeighs(Run(c, es[..n]), es[n])
  {
    hide EventWeighs, Run;
    forall i | 0 <= i < n ensures EventWeighs(Run(c, es[..n][..i]), es[..n][i]) {
      assert es[..n][..i] == es[..i];
    }
  }

  lemma {:induction false} OwnThroughout(c: Chain, es: seq<Event>)
    requires Orderly(c) && OwnBallots(c.book) && RunWeighs(c, es)
    ensures OwnBallots(Run(c, es).book)
  {
    if es != [] {
      hide Orderly, OwnBallots, EventWeighs, RunWeighs, Perform;
      var n := |es| - 1;
      PrefixWeighs(c, es, n);
      OwnThroughout(c, es[..n]);
      RunKeepsOrderly(c, es[..n]);
      StepKeepsOwn(Run(c, es[..n]), es[n]);
    }
  }

  lemma StepKeepsOwn(c: Chain, e: Event)
    requires Orderly(c) && OwnBallots(c.book) && EventWeighs(c, e)
    ensures OwnBallots(Step(c, e).book)
  {
    hide Orderly, OwnBallots, Perform, WeighsVotes;
    LaterKeepsOrderly(c, e.elapsed);
    if Try(c, e).Success? {
      PerformKeepsOwn(Later(c, e.elapsed), e.action, e.auth, e.growth);
    }
  }

  lemma AccruesAt(c: Chain, es: seq<Event>, i: nat)
    requires EarnsThroughout(c, es) && i <= |es|
    ensures Accrues(Run(c, es[..i]).book, Run(c, es[..i]).now)
  {
    hide Accrues, Run;
  }

  lemma OneMoreStep(c: Chain, es: seq<Event>, i: nat)
    requires i < |es|
    ensures Run(c, es[..i + 1]) == Step(Run(c, es[..i]), es[i])
  {
    hide Step;
    assert es[..i + 1][..i] == es[..i];
  }

  /** The exact condition over whole runs in which nobody makes a new choice of negative weight: vote pay is in
      order, in all three respects, in every state of the run if and only if no event drives a producer below
      zero. */
  lemma EarnsIffNoDebt(c: Chain, es: seq<Event>)
    requires Earning(c) && OwnBallots(c.book) && RunWeighs(c, es)
    ensures EarnsThroughout(c, es) <==> RunLeavesNoDebt(c, es)
  {
    hide Orderly, Accrues, Run, OwnBallots, EventLeavesNoDebt, Step, RunWeighs;
    if RunLeavesNoDebt(c, es) {
      forall i | 0 <= i <= |es| ensures Accrues(Run(c, es[..i]).book, Run(c, es[..i]).now) {
        PrefixLeavesNoDebt(c, es, i);
        RunKeepsEarning(c, es[..i]);
      }
    }
    if EarnsThroughout(c, es) {
      forall i | 0 <= i < |es| ensures EventLeavesNoDebt(Run(c, es[..i]), es[i]) {
        AccruesAt(c, es, i);
        AccruesAt(c, es, i + 1);
        OneMoreStep(c, es, i);
        RunKeepsOrderly(c, es[..i]);
        PrefixWeighs(c, es, i);
        OwnThroughout(c, es[..i]);
        StepVerdict(Run(c, es[..i]), es[i]);
      }
    }
  }

  // ---------- runs that skip nothing ----------

  lemma {:induction false} MovesQuiet(b: Book, voter: Name, deltas: seq<int>, k: Clock)
    requires Sound(b) && MoveAll(b, voter, deltas, k).Success? && MovesSkipNothing(b, voter, deltas, k)
    ensures MovesLeaveNoDebt(b, voter, deltas, k)
    decreases |deltas|
  {
    hide Sound, UpdateVotingPower, StakeSkipsNothing, StakeNoDebt;
    if deltas != [] {
      QuietStakeNoDebt(b, voter, deltas[0], k);
      StakeKeepsSound(b, voter, deltas[0], k);
      MovesQuiet(UpdateVotingPower(b, voter, deltas[0], k).value, voter, deltas[1..], k);
    }
  }

  lemma TradeQuiet(c: Chain, a: Action, auth: set<Name>, growth: Growth)
    requires Sane(c) && Perform(c, a, auth, growth).Success? && SkipsNothing(c, a, growth) && IsTrade(a)
    ensures LeavesNoDebt(c, a, growth)
  {
    hide Orderly, Sound, Perform, MovesOf, MoveAll, MovesSkipNothing, MovesLeaveNoDebt;
    TradeMoves(c, a, auth, growth);
    MovesQuiet(c.book, MovesOf(a).voter, MovesOf(a).deltas, Clock(c.now, growth));
  }

  lemma MakeQuiet(c: Chain, auth: set<Name>, voter: Name, proxy: Name, producers: seq<Name>, growth: Growth)
    requires Sane(c) && MakeProd(c, auth, voter, proxy, producers, growth).Success?
    requires SkipsNothing(c, MakeProducer(voter, proxy, producers), growth)
    ensures LeavesNoDebt(c, MakeProducer(voter, proxy, producers), growth)
  {
    hide Orderly, Sound, UpdateVotes, VoteSkipsNothing, VoteNoDebt, MakeProd;
    var c' := MakeKeeps(c, auth, voter, proxy, producers, growth);
    RewriteProducerSound(c.book, voter, c.book.producers[voter].(isProducer := true));
    VoterExists(MadeProducer(c.book, voter), voter, proxy, producers, Clock(c.now, growth));
    QuietVoteNoDebt(MadeProducer(c.book, voter), voter, proxy, producers, true, Clock(c.now, growth));
  }

  lemma OthersLeaveNoDebt(c: Chain, a: Action, growth: Growth)
    requires !IsTrade(a) && !a.MakeProducer? && !a.RegisterProxy?
    ensures LeavesNoDebt(c, a, growth)
  {
    hide VoteNoDebt, ProxyNoDebt, PriceOf, StakeWithMemory;
  }

  /** With exact books an action that skips nothing drives nobody below zero. */
  lemma QuietLeavesNoDebt(c: Chain, a: Action, auth: set<Name>, growth: Growth)
    requires Sane(c) && Perform(c, a, auth, growth).Success? && SkipsNothing(c, a, growth)
    ensures LeavesNoDebt(c, a, growth)
  {
    hide Orderly, Sound, SkipsNothing, ProxyNoDebt, MakeProd, WithToken, DelegateBw, UndelegateBw, ClaimRefund, RegProxy,
         BuyResources, BuyMemBytes, SellRes, SetMem, SetMemRate, SetAcct, SetALimits, NewAccount, SetInflation, OnBlock, ClaimRewards,
         RegProducer, UnregProd, RmvProducer, StakeNoDebt, VoteNoDebt;
    if IsTrade(a) {
      TradeQuiet(c, a, auth, growth);
    } else if a.MakeProducer? {
      MakeQuiet(c, auth, a.voter, a.proxy, a.producers, growth);
    } else if a.RegisterProxy? {
      SoundProxyNoDebt(c.book, a.who, a.on, Clock(c.now, growth));
    } else {
      OthersLeaveNoDebt(c, a, growth);
    }
  }

  /** So runs that skip nothing, and with them all runs in which nobody registers as a proxy, are among
      those that keep vote pay in order. */
  lemma QuietRunLeavesNoDebt(c: Chain, es: seq<Event>)
    requires Sane(c) && RunSkipsNothing(c, es)
    ensures RunLeavesNoDebt(c, es)
  {
    hide Sane, Run, SkipsNothing, LeavesNoDebt, Perform, RunSkipsNothing;
    forall i | 0 <= i < |es| ensures EventLeavesNoDebt(Run(c, es[..i]), es[i]) {
      PrefixSkipsNothing(c, es, i);
      RunKeepsSane(c, es[..i]);
      var s := Run(c, es[..i]);
      LaterSane(s, es[i].elapsed);
      if Try(s, es[i]).Success? {
        QuietLeavesNoDebt(Later(s, es[i].elapsed), es[i].action, es[i].auth, es[i].growth);
      }
    }
  }
}
