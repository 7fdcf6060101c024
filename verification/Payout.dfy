/** A refund that is due can be taken: nothing but its owner's own standing can get in the way. */
module Payout {
  import opened Basics
  import opened Sums
  import opened Voting
  import opened Token
  import opened TokenLedger
  import opened Chain
  import opened Staking
  import opened StakeLedger
  import opened StakeSteps
  import opened Memory
  import opened MarketSteps
  import opened Rewards
  import opened Accounts
  import opened Runs
  import opened Invariants
  import opened AccountSteps
  import opened Custody

  /** The core token exists and the stake account is no producer, whose floor would bind it. */
  ghost predicate CanPay(c: Chain) {
    && INR in c.token.stats && c.token.stats[INR].precision == INR_PRECISION
    && !IsProducing(Env(c), STAKE)
  }

  lemma KeptByTokens(c: Chain, c': Chain)
    requires TokensKept(c, c') && CanPay(c)
    ensures CanPay(c')
  {
    hide Conserved, FloorKept;
  }

  lemma KeptByTradeEffect(c: Chain, c': Chain)
    requires TradeEffect(c, c') && CanPay(c)
    ensures CanPay(c')
  {
    hide CanPay;
    KeptByTokens(c, c');
  }

  lemma TradeKeepsPaying(c: Chain, a: Action, auth: set<Name>, growth: Growth)
    requires Orderly(c) && Perform(c, a, auth, growth).Success? && IsTrade(a) && CanPay(c)
    ensures CanPay(Perform(c, a, auth, growth).value)
  {
    hide Orderly, CanPay, TradeEffect, TokensKept, DelegateBw, UndelegateBw, ClaimRefund, BuyResources, BuyMemBytes, SellRes, PaidTwice, Paid,
         UpdateVotingPower, Settle;
    OrderlyParts(c);
    match a
    case Delegate(from, receiver, net, cpu, transfer) =>
      var c' := DelegateKeeps(c, auth, from, receiver, net, cpu, transfer, growth);
      KeptByTradeEffect(c, c');
    case Undelegate(from, receiver, net, cpu) =>
      var c' := UndelegateKeeps(c, auth, from, receiver, net, cpu, growth);
      KeptByTradeEffect(c, c');
    case TakeRefund(owner) =>
      var c' := RefundKeeps(c, auth, owner);
      KeptByTokens(c, c');
    case Buy(payer, receiver, amount) =>
      var c', bytes, due, staked := BuyEffect(c, auth, payer, receiver, amount, growth);
      KeptByTradeEffect(c, c');
    case BuyBytes(payer, receiver, bytes) =>
      var c', c1 := BuyBytesKeeps(c, auth, payer, receiver, bytes, growth);
      KeptByTradeEffect(c, c1);
      KeptByTradeEffect(c1, c');
    case Sell(account, bytes) =>
      var c', tokens := SellEffect(c, auth, account, bytes, growth);
      KeptByTradeEffect(c, c');
  }

  lemma TokenKeepsPaying(c: Chain, a: Action, auth: set<Name>, growth: Growth)
    requires IsTokenAction(a) && Perform(c, a, auth, growth).Success? && CanPay(c)
    ensures CanPay(Perform(c, a, auth, growth).value)
  {
    hide Perform, TokensKept;
    var c' := TokenActionKeeps(c, a, auth, growth);
    KeptByTokens(c, c');
  }

  lemma PaysAlike(c: Chain, c': Chain)
    requires c'.token == c.token && CanPay(c)
    requires STAKE in c'.producing && c'.producing[STAKE] ==> STAKE in c.producing && c.producing[STAKE]
    ensures CanPay(c')
  {
  }

  lemma PerformKeepsPaying(c: Chain, a: Action, auth: set<Name>, growth: Growth)
    requires Orderly(c) && Perform(c, a, auth, growth).Success? && CanPay(c) && STAKE !in auth
    ensures CanPay(Perform(c, a, auth, growth).value)
  {
    hide Orderly, CanPay, TokensKept, PinsKept, SetMem, SetMemRate, SetAcct, SetALimits, NewAccount, SetInflation, MakeProd,
         RegProxyAction, OnBlock, ClaimRewards, Create, Issue, Retire, Transfer, Open, Close, ClaimBook, Register, UpdateVotes, RegProxy,
         SetFlag, Retired;
    match a
    case ResizeMemory(size, reserved) => var c' := SetMemKeeps(c, auth, size, reserved); PaysAlike(c, c');
    case RateMemory(perBlock) => var c' := SetMemRateKeeps(c, auth, perBlock); PaysAlike(c, c');
    case PinLimit(account, resource, pin) => var c' := SetAcctKeeps(c, auth, account, resource, pin); PaysAlike(c, c');
    case LimitAccount(account, limits) => var c' := SetALimitsKeeps(c, auth, account, limits); PaysAlike(c, c');
    case OpenAccount(account) => var c' := NewAccountKeeps(c, auth, account); PaysAlike(c, c');
    case Inflate(rate, payFactor, voteFactor) => var c' := InflateKeeps(c, auth, rate, payFactor, voteFactor); PaysAlike(c, c');
    case RemoveProducer(_) => PaysAlike(c, Perform(c, a, auth, growth).value);
    case RegisterProducer(_) => PaysAlike(c, Perform(c, a, auth, growth).value);
    case UnregisterProducer(_) => PaysAlike(c, Perform(c, a, auth, growth).value);
    case MakeProducer(voter, proxy, producers) => var c' := MakeKeeps(c, auth, voter, proxy, producers, growth); PaysAlike(c, c');
    case RegisterProxy(who, on) => var c' := ProxyKeeps(c, auth, who, on, growth); PaysAlike(c, c');
    case Block(slot, producer) => var c' := BlockKeeps(c, auth, slot, producer); PaysAlike(c, c');
    case Claim(owner, minted) =>
      var c', revised := ClaimKeeps(c, auth, owner, minted);
      KeptByTokens(c, c');
    case _ =>
      if IsTokenAction(a) {
        TokenKeepsPaying(c, a, auth, growth);
      } else {
        TradeKeepsPaying(c, a, auth, growth);
      }
  }

  lemma LaterPays(c: Chain, elapsed: nat)
    ensures CanPay(Later(c, elapsed)) == CanPay(c)
  {
  }

  lemma StepKeepsPaying(c: Chain, e: Event)
    requires Orderly(c) && CanPay(c) && STAKE !in e.auth
    ensures CanPay(Step(c, e))
  {
    hide Orderly, CanPay, Perform;
    LaterKeepsOrderly(c, e.elapsed);
    LaterPays(c, e.elapsed);
    if Try(c, e).Success? {
      PerformKeepsPaying(Later(c, e.elapsed), e.action, e.auth, e.growth);
    }
  }

  lemma {:induction false} RunKeepsPaying(c: Chain, es: seq<Event>)
    requires Orderly(c) && CanPay(c) && Unsigned(es, STAKE)
    ensures CanPay(Run(c, es))
  {
    if es != [] {
      hide Orderly, CanPay, Step, Unsigned;
      var n := |es| - 1;
      UnsignedBefore(es, STAKE);
      RunKeepsOrderly(c, es[..n]);
      RunKeepsPaying(c, es[..n]);
      StepKeepsPaying(Run(c, es[..n]), es[n]);
    }
  }

  // ---------- the refund itself ----------

  /** A pending refund is within what the stake account holds. */
  lemma RefundIsBacked(c: Chain, owner: Name)
    requires Orderly(c) && Backing(c) >= 0 && owner in c.stakes.refunds
    ensures var amount := c.stakes.refunds[owner].net + c.stakes.refunds[owner].cpu;
      0 < amount <= BalanceOf(c.token, STAKE, INR) && amount <= MAX_AMOUNT
  {
    hide Sum, Held;
    SumNonNegative(RefundColumn(c.stakes.refunds));
    assert RefundColumn(c.stakes.refunds)[owner] == c.stakes.refunds[owner].net + c.stakes.refunds[owner].cpu;
    SumNonNegativeOf(c.stakes.delegated, All);
    HeldNonNegative(c.token, INR);
    assert Held(c.token, INR) == SupplyOf(c.token, INR);
  }

  lemma SendGoesThrough(c: Chain, from: Name, to: Name, amount: int)
    requires from != to && to in c.limits && to != CREATOR && 0 < amount <= BalanceOf(c.token, from, INR) && amount <= MAX_AMOUNT
    requires INR in c.token.stats && c.token.stats[INR].precision == INR_PRECISION && !IsProducing(Env(c), from)
    ensures Send(c, from, to, amount).Success?
  {
  }

  /** Exactly when a refund can be taken: its owner signs, it is pending and three days old, and the owner
      is an account that may receive tokens. */
  lemma RefundPaysIff(c: Chain, auth: set<Name>, owner: Name)
    requires Orderly(c) && Backing(c) >= 0 && CanPay(c)
    ensures ClaimRefund(c, auth, owner).Success? <==>
      && owner in auth && owner in c.stakes.refunds
      && (c.stakes.refunds[owner].requested + REFUND_DELAY) * SECOND <= c.now
      && owner != STAKE && owner in c.limits && owner != CREATOR
  {
    hide Orderly, Backing, Send;
    if owner in c.stakes.refunds {
      var amount := c.stakes.refunds[owner].net + c.stakes.refunds[owner].cpu;
      RefundIsBacked(c, owner);
      if owner != STAKE && owner in c.limits && owner != CREATOR {
        SendGoesThrough(c, STAKE, owner, amount);
      }
      SendNeeds(c, STAKE, owner, amount);
    }
  }

  lemma SendNeeds(c: Chain, from: Name, to: Name, amount: int)
    ensures Send(c, from, to, amount).Success? ==> from != to && to in c.limits && to != CREATOR
  {
  }

  /** In every reachable state nobody has signed for the stake account, a refund is paid if and only if it
      is asked for by its owner, pending and due. */
  lemma ReachableRefundsPay(now: nat, issuer: Name, supply: int, maxSupply: int, accounts: set<Name>, revision: nat, es: seq<Event>,
                            auth: set<Name>, owner: Name)
    requires now > 0 && 0 < supply <= maxSupply <= MAX_AMOUNT && Unsigned(es, STAKE)
    ensures var c := Run(Genesis(now, issuer, supply, maxSupply, accounts, revision), es);
      ClaimRefund(c, auth, owner).Success? <==>
        && owner in auth && owner in c.stakes.refunds
        && (c.stakes.refunds[owner].requested + REFUND_DELAY) * SECOND <= c.now
        && owner != STAKE && owner in c.limits && owner != CREATOR
  {
    hide Run, Orderly, Backing, Unsigned, ClaimRefund, TotalIn, TotalOut;
    var g := Genesis(now, issuer, supply, maxSupply, accounts, revision);
    GenesisOrderly(now, issuer, supply, maxSupply, accounts, revision);
    GenesisCovered(now, issuer, supply, maxSupply, accounts, revision);
    RunCovered(g, es);
    RunKeepsOrderly(g, es);
    RunKeepsPaying(g, es);
    RefundPaysIff(Run(g, es), auth, owner);
  }
}
