/** What vote pay is good for over runs: the vote bucket is never in debt, and the account behind it never
    falls behind. */
module VotePaySolvency {
  import opened Basics
  import opened Sums
  import opened Voting
  import opened VoteLedger
  import opened VoteExactness
  import opened VotePayIndex
  import opened VotePayRows
  import opened Token
  import opened Chain
  import opened Staking
  import opened Memory
  import opened Rewards
  import opened RewardSteps
  import opened Accounts
  import opened Runs
  import opened Invariants
  import opened AccountSteps
  import opened StakeMoves
  import opened VotingRuns
  import opened PlainRuns
  import opened Custody
  import opened Election
  import opened ElectionProof
  import opened VotePayRuns

  lemma BlankBookAccrues(b: Book, now: int)
    requires Blank(b) && now > 0
    ensures Accrues(b, now)
  {
    hide Total, Indexed;
    assert TotalsColumn(b.producers) == map[];
    TotalOfZeros(TotalsColumn(b.producers));
    BlankBookIndexed(b);
  }

  lemma BlankBookIndexed(b: Book)
    requires Blank(b)
    ensures Indexed(b)
  {
    hide Total, Secs;
    assert RateColumn(b) == map[];
    TotalOfZeros(RateColumn(b));
    forall t ensures GlobalShare(b, t) == TotalOwed(b, t) {
      assert OwedColumn(b, t) == map[];
      TotalOfZeros(OwedColumn(b, t));
      NoVotesNoPay(0, t);
    }
  }

  lemma GenesisEarning(now: nat, issuer: Name, supply: int, maxSupply: int, accounts: set<Name>, revision: nat)
    requires now > 0 && 0 < supply <= maxSupply <= MAX_AMOUNT
    ensures Earning(Genesis(now, issuer, supply, maxSupply, accounts, revision))
    ensures OwnBallots(Genesis(now, issuer, supply, maxSupply, accounts, revision).book)
  {
    hide Orderly, Accrues;
    GenesisOrderly(now, issuer, supply, maxSupply, accounts, revision);
    BlankBookAccrues(Genesis(now, issuer, supply, maxSupply, accounts, revision).book, now);
  }

  /** The index in every reachable state: as long as no producer has been driven below zero, the global share
      is at any later time the sum of what the producers have earned, its rate is the sum of their votes, no
      producer has negative votes, and the grand total is their sum. Runs in which nobody registers as a
      proxy, and runs that skip nothing, are among these. */
  lemma ReachableIndex(now: nat, issuer: Name, supply: int, maxSupply: int, accounts: set<Name>, revision: nat, es: seq<Event>)
    requires now > 0 && 0 < supply <= maxSupply <= MAX_AMOUNT
    requires var g := Genesis(now, issuer, supply, maxSupply, accounts, revision);
      NobodyProxies(es) || RunSkipsNothing(g, es) || RunLeavesNoDebt(g, es)
    ensures var b := Run(Genesis(now, issuer, supply, maxSupply, accounts, revision), es).book;
      && (forall t :: t >= b.shareUpdated ==> GlobalShare(b, t) == TotalOwed(b, t))
      && b.shareRate == TotalRate(b)
      && VotesNonNegative(b) && TotalGap(b) == 0.0
  {
    hide Sane, Run, TotalOwed, TotalRate, TotalGap, Orderly, NoProxies;
    var g := Genesis(now, issuer, supply, maxSupply, accounts, revision);
    GenesisSane(now, issuer, supply, maxSupply, accounts, revision);
    GenesisEarning(now, issuer, supply, maxSupply, accounts, revision);
    if NobodyProxies(es) {
      PlainRunSkipsNothing(g, es);
    }
    if RunSkipsNothing(g, es) {
      QuietRunLeavesNoDebt(g, es);
    }
    RunKeepsEarning(g, es);
  }

  /** In every such state a block that proposes a schedule proposes exactly the highest-voted candidates. */
  lemma ReachableElection(now: nat, issuer: Name, supply: int, maxSupply: int, accounts: set<Name>, revision: nat, es: seq<Event>,
                          auth: set<Name>, slot: nat, producer: Name)
    requires now > 0 && 0 < supply <= maxSupply <= MAX_AMOUNT
    requires RunLeavesNoDebt(Genesis(now, issuer, supply, maxSupply, accounts, revision), es)
    requires var c := Run(Genesis(now, issuer, supply, maxSupply, accounts, revision), es);
      && OnBlock(c, auth, slot, producer).Success? && c.book.activatedAt != 0
      && (slot - c.pay.scheduleSlot) % Rewards.WORD > 1 && EligibleSet(c.book.producers) != {}
    ensures var c := Run(Genesis(now, issuer, supply, maxSupply, accounts, revision), es);
      Proposes(c.book.producers, OnBlock(c, auth, slot, producer).value.pay.proposed)
  {
    hide Run, Orderly, OnBlock, Indexed, Timely, TotalGap, Eligible;
    var g := Genesis(now, issuer, supply, maxSupply, accounts, revision);
    GenesisEarning(now, issuer, supply, maxSupply, accounts, revision);
    RunKeepsEarning(g, es);
    BlockProposesElected(Run(g, es), auth, slot, producer);
  }

  // ---------- the vote bucket ----------

  /** With the revision the cap keeps the bucket out of debt, whatever the index says; without it vote pay
      has to be in order. */
  ghost predicate Solvent(c: Chain) {
    Orderly(c) && c.pay.perVote >= 0 && (c.pay.revision == 0 ==> Accrues(c.book, c.now))
  }

  lemma RatioFromAccrues(c: Chain, owner: Name)
    requires Solvent(c)
    ensures RatioSound(c.book, c.pay, owner) && BlocksSound(c)
  {
    hide Indexed, Timely, TotalGap, BlocksSound;
    OrderlyParts(c);
    if c.pay.revision == 0 && owner in c.book.producers {
      VotesWithin(c.book, owner);
    }
  }

  lemma SettingBucket(c: Chain, a: Action, auth: set<Name>, growth: Growth)
    requires Orderly(c) && Perform(c, a, auth, growth).Success? && (IsSetting(a) || IsAccountAction(a))
    ensures var p := Perform(c, a, auth, growth).value.pay; p.revision == c.pay.revision && p.perVote == c.pay.perVote
  {
    hide Orderly, SetMem, SetMemRate, SetAcct, SetALimits, NewAccount;
    match a
    case ResizeMemory(size, reserved) => var c' := SetMemKeeps(c, auth, size, reserved);
    case RateMemory(perBlock) => var c' := SetMemRateKeeps(c, auth, perBlock);
    case PinLimit(account, resource, pin) => var c' := SetAcctKeeps(c, auth, account, resource, pin);
    case LimitAccount(account, limits) => var c' := SetALimitsKeeps(c, auth, account, limits);
    case OpenAccount(account) => var c' := NewAccountKeeps(c, auth, account);
    case Inflate(_, _, _) =>
  }

  lemma PerformKeepsBucket(c: Chain, a: Action, auth: set<Name>, growth: Growth)
    requires Solvent(c) && Perform(c, a, auth, growth).Success?
    ensures var p := Perform(c, a, auth, growth).value.pay;
      p.revision == c.pay.revision && p.perVote >= 0 && (a.Claim? || p.perVote == c.pay.perVote)
  {
    hide Solvent, Orderly, WithToken, DelegateBw, UndelegateBw, ClaimRefund, BuyResources, BuyMemBytes, SellRes, SetMem, SetMemRate, SetAcct,
         SetALimits, NewAccount, SetInflation, MakeProd, OnBlock, ClaimRewards, RegProxy, Retired;
    SolventParts(c);
    if IsTrade(a) {
      TradeMoves(c, a, auth, growth);
    } else if IsTokenAction(a) {
      TokenBookSame(c, a, auth, growth);
    } else if IsSetting(a) || IsAccountAction(a) {
      SettingBucket(c, a, auth, growth);
    } else if a.MakeProducer? {
      var c' := MakeKeeps(c, auth, a.voter, a.proxy, a.producers, growth);
    } else if a.Block? {
      BlockBucket(c, auth, a.slot, a.producer);
    } else if a.Claim? {
      ClaimBucket(c, auth, a.owner, a.minted);
    }
  }

  lemma BlockBucket(c: Chain, auth: set<Name>, slot: nat, producer: Name)
    requires OnBlock(c, auth, slot, producer).Success?
    ensures var p := OnBlock(c, auth, slot, producer).value.pay; p.revision == c.pay.revision && p.perVote == c.pay.perVote
  {
    hide UpdateElected;
    ElectionFrame(CountBlock(c, producer), slot);
  }

  lemma ClaimBucket(c: Chain, auth: set<Name>, owner: Name, minted: nat)
    requires Solvent(c) && ClaimRewards(c, auth, owner, minted).Success?
    ensures var c' := ClaimRewards(c, auth, owner, minted).value;
      && c'.pay.revision == c.pay.revision && c'.pay.perVote >= 0
      && VoteSurplus(c') >= VoteSurplus(c)
  {
    hide Solvent, ClaimRewards, BlocksSound, RatioSound;
    RatioFromAccrues(c, owner);
    assert c.pay.perVote >= 0 by { SolventParts(c); }
    var c' := ClaimIsSolvent(c, auth, owner, minted);
  }

  lemma SolventParts(c: Chain)
    requires Solvent(c)
    ensures Orderly(c) && c.pay.perVote >= 0
  {
    hide Orderly, Accrues;
  }

  /** The event either drives nobody below zero or comes where the cap protects the bucket. */
  ghost predicate EventPays(c: Chain, e: Event) { c.pay.revision == 0 ==> EventLeavesNoDebt(c, e) }

  lemma LaterSolvent(c: Chain, elapsed: nat)
    requires Solvent(c)
    ensures Solvent(Later(c, elapsed))
  {
    hide Orderly, Accrues;
    LaterKeepsOrderly(c, elapsed);
    if c.pay.revision == 0 {
      LaterAccrues(c, elapsed);
    }
  }

  lemma StepKeepsBucket(c: Chain, e: Event)
    requires Solvent(c) && EventPays(c, e)
    ensures Solvent(Step(c, e)) && Step(c, e).pay.revision == c.pay.revision
    ensures VPAY !in e.auth ==> VoteSurplus(Step(c, e)) >= VoteSurplus(c)
  {
    hide Orderly, Accrues, Perform, VoteSurplus, Covered, EventLeavesNoDebt;
    LaterSolvent(c, e.elapsed);
    StepKeepsOrderly(c, e);
    StepCovered(c, e);
    LaterSame(c, e.elapsed);
    var l := Later(c, e.elapsed);
    if c.pay.revision == 0 {
      StepVerdict(c, e);
    }
    if Try(c, e).Success? {
      PerformKeepsBucket(l, e.action, e.auth, e.growth);
      if e.action.Claim? {
        ClaimPerformed(l, e.action, e.auth, e.growth);
      } else if VPAY !in e.auth {
        CoveredVotes(c, e.action, e.auth, Step(c, e));
      }
    }
  }

  lemma ClaimPerformed(c: Chain, a: Action, auth: set<Name>, growth: Growth)
    requires Solvent(c) && a.Claim? && Perform(c, a, auth, growth).Success?
    ensures VoteSurplus(Perform(c, a, auth, growth).value) >= VoteSurplus(c)
  {
    hide Solvent, ClaimRewards, VoteSurplus;
    ClaimBucket(c, auth, a.owner, a.minted);
  }

  lemma CoveredVotes(c: Chain, a: Action, auth: set<Name>, c': Chain)
    requires Covered(c, a, auth, c') && !a.Claim? && VPAY !in auth
    ensures VoteSurplus(c') >= VoteSurplus(c)
  {
  }

  /** Over every run, as long as nobody signs for the vote-pay account, it stays ahead of its bucket, and the
      bucket is never in debt. With the revision set there is no further condition; without it no producer
      may be driven below zero, or the grand total would not bound a producer's votes. */
  lemma {:induction false} RunKeepsVoteSurplus(c: Chain, es: seq<Event>)
    requires Solvent(c) && (c.pay.revision == 0 ==> RunLeavesNoDebt(c, es))
    ensures Solvent(Run(c, es)) && Run(c, es).pay.revision == c.pay.revision
    ensures Unsigned(es, VPAY) ==> VoteSurplus(Run(c, es)) >= VoteSurplus(c)
  {
    if es != [] {
      hide Solvent, Step, EventLeavesNoDebt, RunLeavesNoDebt, VoteSurplus, Unsigned;
      var n := |es| - 1;
      if c.pay.revision == 0 {
        PrefixLeavesNoDebt(c, es, n);
      }
      RunKeepsVoteSurplus(c, es[..n]);
      UnsignedBefore(es, VPAY);
      StepKeepsBucket(Run(c, es[..n]), es[n]);
    }
  }

  /** The account for vote pay holds at least its bucket in every state reachable from genesis. */
  lemma ReachableVotePay(now: nat, issuer: Name, supply: int, maxSupply: int, accounts: set<Name>, revision: nat, es: seq<Event>)
    requires now > 0 && 0 < supply <= maxSupply <= MAX_AMOUNT
    requires revision == 0 ==> RunLeavesNoDebt(Genesis(now, issuer, supply, maxSupply, accounts, revision), es)
    ensures var c := Run(Genesis(now, issuer, supply, maxSupply, accounts, revision), es);
      c.pay.perVote >= 0 && (Unsigned(es, VPAY) ==> BalanceOf(c.token, VPAY, INR) >= c.pay.perVote)
  {
    hide Run, Accrues, Orderly, BalanceOf, Unsigned;
    var g := Genesis(now, issuer, supply, maxSupply, accounts, revision);
    GenesisOrderly(now, issuer, supply, maxSupply, accounts, revision);
    GenesisEarning(now, issuer, supply, maxSupply, accounts, revision);
    GenesisCovered(now, issuer, supply, maxSupply, accounts, revision);
    RunKeepsVoteSurplus(g, es);
  }
}
