/** What the four system accounts hold for others is always covered: stakes and refunds, memory,
    block pay and vote pay. */
module Custody {
  import opened Basics
  import opened Sums
  import opened VotingRules
  import opened Token
  import opened TokenLedger
  import opened Chain
  import opened Staking
  import opened StakeLedger
  import opened StakeSteps
  import opened Memory
  import opened MarketSteps
  import opened Rewards
  import opened RewardSteps
  import opened Accounts
  import opened Runs
  import opened Invariants
  import opened AccountSteps
  import opened StakeMoves

  /** Tokens of the memory account beyond the stake recorded for memory. */
  function MemSurplus(c: Chain): int { BalanceOf(c.token, MEM, INR) - c.market.memStake }

  /** What an action pays for memory, and what it is paid for memory. */
  function PaidIn(a: Action): int {
    match a
    case Buy(_, _, amount) => amount
    case BuyBytes(_, _, bytes) => PriceOf(bytes % Memory.WORD)
    case _ => 0
  }

  function PaidOut(a: Action): int {
    match a
    case Sell(_, bytes) => BytesToTokens(bytes) * 10000
    case _ => 0
  }

  /** No account is used up without its own authority, and the market's two records of tokens agree. */
  ghost predicate Covered(c: Chain, a: Action, auth: set<Name>, c': Chain) {
    && (STAKE !in auth ==> Backing(c') >= Backing(c))
    && (MEM !in auth ==> MemSurplus(c') >= MemSurplus(c))
    && (BPAY !in auth ==> BlockSurplus(c') >= BlockSurplus(c))
    && (VPAY !in auth && !a.Claim? ==> VoteSurplus(c') >= VoteSurplus(c))
    && c'.market.memStake == c.market.memStake + PaidIn(a) - PaidOut(a)
    && c'.market.quote == c.market.quote + PaidIn(a) - PaidOut(a)
  }

  // ---------- stakes and refunds ----------

  /** Restaking from a pending refund, transferring the delegation, undelegating: whatever the stake
      change, the tokens behind stakes and refunds move with what is owed for them. */
  lemma StakeKeepsBacking(c: Chain, auth: set<Name>, payer: Name, receiver: Name, net: int, cpu: int, transfer: bool, growth: Growth)
    requires StakesSound(c.stakes, c.book) && WellFormed(c.book) && payer != STAKE
    requires ChangeBw(c, auth, payer, receiver, net, cpu, transfer, growth).Success?
    ensures Backing(ChangeBw(c, auth, payer, receiver, net, cpu, transfer, growth).value) == Backing(c)
  {
    hide ChangeBw, StakesSound, WellFormed, StakeEffect, Obligations, Settle, UpdateVotingPower;
    var c', due := ChangeBwEffect(c, auth, payer, receiver, net, cpu, transfer, growth);
    assert BalanceOf(c'.token, STAKE, INR) == BalanceOf(c.token, STAKE, INR) + TransferShare(STAKE, INR, payer, STAKE, Inr(due));
  }

  lemma RefundKeepsBacking(c: Chain, auth: set<Name>, owner: Name)
    requires StakesSound(c.stakes, c.book) && ClaimRefund(c, auth, owner).Success?
    ensures Backing(ClaimRefund(c, auth, owner).value) == Backing(c)
  {
    hide ClaimRefund, StakesSound, SumOf, PendingRefunds;
    var c' := RefundEffect(c, auth, owner);
    var r := c.stakes.refunds[owner];
    assert BalanceOf(c'.token, STAKE, INR)
      == BalanceOf(c.token, STAKE, INR) + TransferShare(STAKE, INR, STAKE, owner, Inr(r.net + r.cpu));
  }

  // ---------- every action ----------

  lemma StakeCovered(c: Chain, a: Action, auth: set<Name>, payer: Name, receiver: Name, net: int, cpu: int, transfer: bool, growth: Growth)
    returns (c': Chain)
    requires Orderly(c) && ChangeBw(c, auth, payer, receiver, net, cpu, transfer, growth).Success?
    requires PaidIn(a) == 0 && PaidOut(a) == 0
    ensures ChangeBw(c, auth, payer, receiver, net, cpu, transfer, growth) == Success(c') && Covered(c, a, auth, c')
  {
    hide ChangeBw, StakesSound, WellFormed, Obligations, Settle, UpdateVotingPower, Orderly, StakeEffect, Paid, BalanceOf, Backing;
    OrderlyParts(c);
    var due;
    c', due := ChangeBwEffect(c, auth, payer, receiver, net, cpu, transfer, growth);
    StakeLeavesPay(c, c');
    PaidWithAuthority(c.token, c'.token, payer, STAKE, due, auth);
    if payer != STAKE {
      StakeKeepsBacking(c, auth, payer, receiver, net, cpu, transfer, growth);
    }
  }

  /** A payment its payer has authorised takes from nobody else. */
  lemma PaidWithAuthority(t: Ledger, t': Ledger, from: Name, to: Name, amount: int, auth: set<Name>)
    requires Paid(t, t', from, to, amount) && from in auth && amount >= 0
    ensures forall o :: o !in auth ==> BalanceOf(t', o, INR) >= BalanceOf(t, o, INR)
  {
    forall o | o !in auth ensures BalanceOf(t', o, INR) >= BalanceOf(t, o, INR) {
      assert BalanceOf(t', o, INR) == BalanceOf(t, o, INR) + TransferShare(o, INR, from, to, Inr(amount));
    }
  }

  lemma RefundCovered(c: Chain, a: Action, auth: set<Name>, owner: Name)
    requires Orderly(c) && ClaimRefund(c, auth, owner).Success? && PaidIn(a) == 0 && PaidOut(a) == 0
    ensures Covered(c, a, auth, ClaimRefund(c, auth, owner).value)
  {
    hide ClaimRefund, StakesSound, Obligations, Orderly, PendingRefunds;
    OrderlyParts(c);
    RefundKeepsBacking(c, auth, owner);
    var c' := RefundEffect(c, auth, owner);
    var r := c.stakes.refunds[owner];
    forall o | o != STAKE ensures BalanceOf(c'.token, o, INR) >= BalanceOf(c.token, o, INR) {
      assert BalanceOf(c'.token, o, INR) == BalanceOf(c.token, o, INR) + TransferShare(o, INR, STAKE, owner, Inr(r.net + r.cpu));
    }
  }

  lemma TokenCovered(c: Chain, a: Action, auth: set<Name>, growth: Growth)
    requires IsTokenAction(a) && Perform(c, a, auth, growth).Success?
    ensures Covered(c, a, auth, Perform(c, a, auth, growth).value)
  {
    hide Perform, Obligations;
    var c' := TokenActionKeeps(c, a, auth, growth);
    TokenTakes(c, a, auth, growth);
  }

  /** The token contract takes tokens only from accounts that signed. */
  lemma TokenTakes(c: Chain, a: Action, auth: set<Name>, growth: Growth)
    requires IsTokenAction(a) && Perform(c, a, auth, growth).Success?
    ensures forall o, s :: o !in auth ==> BalanceOf(Perform(c, a, auth, growth).value.token, o, s) >= BalanceOf(c.token, o, s)
  {
    hide Create, Issue, Retire, Transfer, Open, Close, Conserved, FloorKept;
    match a
    case TokenCreate(issuer, max) =>
      BookkeepingEffect(c.token, Create(c.token, auth, TOKEN, issuer, max), Env(c), auth, TOKEN, issuer, max, 0, 0, 0);
    case TokenIssue(to, q) =>
      var t := IssueEffect(c.token, auth, to, q);
    case TokenRetire(q) =>
      var t := RetireEffect(c.token, Env(c), auth, q);
    case TokenTransfer(from, to, q) =>
      var t := TransferEffect(c.token, Env(c), auth, from, to, q);
    case TokenOpen(owner, code, precision, payer) =>
      BookkeepingEffect(c.token, Open(c.token, Env(c), auth, owner, code, precision, payer), Env(c), auth, TOKEN, owner, Inr(0), code, precision, payer);
    case TokenClose(owner, code) =>
      BookkeepingEffect(c.token, Close(c.token, auth, owner, code), Env(c), auth, TOKEN, owner, Inr(0), code, 0, 0);
  }

  /** Buying moves the quote, the memory stake and the memory account's tokens by the same amount. */
  lemma BuyCovered(c: Chain, a: Action, auth: set<Name>, payer: Name, receiver: Name, amount: int, growth: Growth) returns (c': Chain)
    requires Orderly(c) && BuyResources(c, auth, payer, receiver, amount, growth).Success?
    requires PaidIn(a) == amount && PaidOut(a) == 0
    ensures BuyResources(c, auth, payer, receiver, amount, growth) == Success(c')
    ensures Covered(c, a, auth, c') && Orderly(c')
    ensures MemSurplus(c') == MemSurplus(c)
    ensures payer != STAKE ==> Backing(c') == Backing(c)
  {
    hide BuyResources, StakesSound, WellFormed, Obligations, Settle, UpdateVotingPower, Orderly, GrowSupply, TradeEffect, BalanceOf, PaidTwice;
    OrderlyParts(c);
    var bytes, due, staked;
    c', bytes, due, staked := BuyEffect(c, auth, payer, receiver, amount, growth);
    TradeEffectOrderly(c, c');
    TradeLeavesPay(c, c');
    GrowthIsFree(c);
    BuyerPays(c.token, c'.token, payer, amount, due);
  }

  lemma BuyerPays(t: Ledger, t': Ledger, payer: Name, amount: int, due: int)
    requires PaidTwice(t, t', payer, MEM, amount, payer, STAKE, due) && amount >= 0 && due >= 0 && payer != MEM
    ensures BalanceOf(t', MEM, INR) == BalanceOf(t, MEM, INR) + amount
    ensures payer != STAKE ==> BalanceOf(t', STAKE, INR) == BalanceOf(t, STAKE, INR) + due
    ensures payer != BPAY ==> BalanceOf(t', BPAY, INR) == BalanceOf(t, BPAY, INR)
    ensures payer != VPAY ==> BalanceOf(t', VPAY, INR) == BalanceOf(t, VPAY, INR)
  {
    forall o ensures BalanceOf(t', o, INR)
      == BalanceOf(t, o, INR) + TransferShare(o, INR, payer, MEM, Inr(amount)) + TransferShare(o, INR, payer, STAKE, Inr(due)) {
    }
  }

  lemma GrowthIsFree(c: Chain)
    ensures GrowSupply(c.market, c.now).quote == c.market.quote && GrowSupply(c.market, c.now).memStake == c.market.memStake
  {
  }

  lemma SellCovered(c: Chain, a: Action, auth: set<Name>, account: Name, bytes: int, growth: Growth) returns (c': Chain)
    requires Orderly(c) && SellRes(c, auth, account, bytes, growth).Success?
    requires PaidIn(a) == 0 && PaidOut(a) == BytesToTokens(bytes) * 10000
    ensures SellRes(c, auth, account, bytes, growth) == Success(c')
    ensures Covered(c, a, auth, c') && MemSurplus(c') == MemSurplus(c)
  {
    hide SellRes, StakesSound, WellFormed, Obligations, Settle, UpdateVotingPower, Orderly, GrowSupply, TradeEffect, BalanceOf, Paid,
         BytesToTokens, MemLimitFollows;
    OrderlyParts(c);
    var tokens;
    c', tokens := SellEffect(c, auth, account, bytes, growth);
    TradeLeavesPay(c, c');
    GrowthIsFree(c);
    SellerIsPaid(c.token, c'.token, account, tokens);
  }

  lemma SellerIsPaid(t: Ledger, t': Ledger, account: Name, tokens: int)
    requires Paid(t, t', MEM, account, tokens) && tokens >= 0 && account != MEM
    ensures BalanceOf(t', MEM, INR) == BalanceOf(t, MEM, INR) - tokens
    ensures forall o :: o != MEM ==> BalanceOf(t', o, INR) >= BalanceOf(t, o, INR)
  {
    forall o ensures BalanceOf(t', o, INR) == BalanceOf(t, o, INR) + TransferShare(o, INR, MEM, account, Inr(tokens)) {
    }
  }

  lemma BuyBytesCovered(c: Chain, auth: set<Name>, payer: Name, receiver: Name, bytes: int, growth: Growth)
    requires Orderly(c) && BuyMemBytes(c, auth, payer, receiver, bytes, growth).Success?
    ensures Covered(c, BuyBytes(payer, receiver, bytes), auth, BuyMemBytes(c, auth, payer, receiver, bytes, growth).value)
  {
    hide BuyMemBytes, BuyResources, DelegateBw, ChangeBw, Orderly, TradeEffect, PriceOf, Obligations;
    var price := PriceOf(bytes % Memory.WORD);
    var c', c1 := BuyBytesKeeps(c, auth, payer, receiver, bytes, growth);
    var c1' := BuyCovered(c, BuyBytes(payer, receiver, bytes), auth, payer, receiver, price, growth);
    DelegateIsChange(c1, auth, payer, receiver, price, price, false, growth);
    var c'' := StakeCovered(c1, Delegate(payer, receiver, price, price, false), auth, payer, receiver, price, price, false, growth);
  }

  lemma ClaimCovered(c: Chain, auth: set<Name>, owner: Name, minted: nat)
    requires Orderly(c) && ClaimRewards(c, auth, owner, minted).Success?
    ensures Covered(c, Claim(owner, minted), auth, ClaimRewards(c, auth, owner, minted).value)
  {
    hide ClaimRewards, ClaimBook, ClaimedVotePay, BlockPay, FillBuckets, TokensKept, Trunc, Obligations, Orderly, BlocksSound, Sized, SupplyOf;
    OrderlyParts(c);
    var c', f, blockPay, votePay := ClaimEffect(c, auth, owner, minted);
    var f', split := FillEffect(c, minted);
    forall o ensures BalanceOf(c'.token, o, INR)
      == BalanceOf(c.token, o, INR) + FillShare(o, INR, split) + ClaimShareOf(o, INR, owner, blockPay, Trunc(votePay)) {
      assert BalanceOf(f.token, o, INR) == BalanceOf(c.token, o, INR) + FillShare(o, INR, split);
    }
  }

  lemma Untouched(c: Chain, a: Action, auth: set<Name>, c': Chain)
    requires c'.token == c.token && c'.stakes.delegated == c.stakes.delegated && c'.stakes.refunds == c.stakes.refunds
    requires c'.market.quote == c.market.quote && c'.market.memStake == c.market.memStake && c'.pay.perBlock == c.pay.perBlock && c'.pay.perVote == c.pay.perVote
    requires PaidIn(a) == 0 && PaidOut(a) == 0
    ensures Covered(c, a, auth, c')
  {
    hide SumOf, PendingRefunds;
  }

  lemma PerformCovered(c: Chain, a: Action, auth: set<Name>, growth: Growth)
    requires Orderly(c) && Perform(c, a, auth, growth).Success?
    ensures Covered(c, a, auth, Perform(c, a, auth, growth).value)
  {
    hide Orderly, Covered, TokensKept, PinsKept, DelegateBw, UndelegateBw, ClaimRefund, BuyResources, BuyMemBytes, SellRes, SetMem,
         SetMemRate, SetAcct, SetALimits, NewAccount, SetInflation, MakeProd, RegProxyAction, OnBlock, ClaimRewards, ChangeBw,
         Create, Issue, Retire, Transfer, Open, Close, ClaimBook;
    match a
    case Delegate(from, receiver, net, cpu, transfer) =>
      DelegateIsChange(c, auth, from, receiver, net, cpu, transfer, growth);
      var c' := StakeCovered(c, a, auth, from, receiver, net, cpu, transfer, growth);
    case Undelegate(from, receiver, net, cpu) =>
      UndelegateIsChange(c, auth, from, receiver, net, cpu, growth);
      var c' := StakeCovered(c, a, auth, from, receiver, -net, -cpu, false, growth);
    case TakeRefund(owner) => RefundCovered(c, a, auth, owner);
    case Buy(payer, receiver, amount) => var c' := BuyCovered(c, a, auth, payer, receiver, amount, growth);
    case BuyBytes(payer, receiver, bytes) => BuyBytesCovered(c, auth, payer, receiver, bytes, growth);
    case Sell(account, bytes) => var c' := SellCovered(c, a, auth, account, bytes, growth);
    case ResizeMemory(size, reserved) => var c' := SetMemKeeps(c, auth, size, reserved); Untouched(c, a, auth, c');
    case RateMemory(perBlock) => var c' := SetMemRateKeeps(c, auth, perBlock); Untouched(c, a, auth, c');
    case PinLimit(account, resource, pin) => var c' := SetAcctKeeps(c, auth, account, resource, pin); Untouched(c, a, auth, c');
    case LimitAccount(account, limits) => var c' := SetALimitsKeeps(c, auth, account, limits); Untouched(c, a, auth, c');
    case OpenAccount(account) => var c' := NewAccountKeeps(c, auth, account); Untouched(c, a, auth, c');
    case RemoveProducer(producer) => Untouched(c, a, auth, Perform(c, a, auth, growth).value);
    case Inflate(rate, payFactor, voteFactor) =>
      var c' := InflateKeeps(c, auth, rate, payFactor, voteFactor);
      Untouched(c, a, auth, c');
    case RegisterProducer(producer) => Untouched(c, a, auth, Perform(c, a, auth, growth).value);
    case UnregisterProducer(producer) => Untouched(c, a, auth, Perform(c, a, auth, growth).value);
    case MakeProducer(voter, proxy, producers) =>
      var c' := MakeKeeps(c, auth, voter, proxy, producers, growth);
      Untouched(c, a, auth, c');
    case RegisterProxy(who, on) => var c' := ProxyKeeps(c, auth, who, on, growth); Untouched(c, a, auth, c');
    case Block(slot, producer) => var c' := BlockKeeps(c, auth, slot, producer); Untouched(c, a, auth, c');
    case Claim(owner, minted) => ClaimCovered(c, auth, owner, minted);
    case _ => TokenCovered(c, a, auth, growth);
  }

  // ---------- runs ----------

  /** Nobody signs for this account. */
  predicate Unsigned(es: seq<Event>, account: Name) {
    forall i :: 0 <= i < |es| ==> account !in es[i].auth
  }

  /** What a run paid in for memory, and what it paid out. */
  function TotalIn(c: Chain, es: seq<Event>): int {
    if es == [] then 0
    else
      var n := |es| - 1;
      TotalIn(c, es[..n]) + if Try(Run(c, es[..n]), es[n]).Success? then PaidIn(es[n].action) else 0
  }

  function TotalOut(c: Chain, es: seq<Event>): int {
    if es == [] then 0
    else
      var n := |es| - 1;
      TotalOut(c, es[..n]) + if Try(Run(c, es[..n]), es[n]).Success? then PaidOut(es[n].action) else 0
  }

  /** As `Covered`, for an event that may have failed. */
  ghost predicate StillCovered(c: Chain, e: Event, c': Chain) {
    if Try(c, e).Success? then
      Covered(c, e.action, e.auth, c')
    else
      && Backing(c') == Backing(c) && MemSurplus(c') == MemSurplus(c)
      && BlockSurplus(c') == BlockSurplus(c) && VoteSurplus(c') == VoteSurplus(c)
      && c'.market == c.market
  }

  lemma StepCovered(c: Chain, e: Event)
    requires Orderly(c)
    ensures StillCovered(c, e, Step(c, e))
  {
    hide Orderly, Perform, Backing, MemSurplus, BlockSurplus, VoteSurplus, PaidIn, PaidOut;
    LaterKeepsOrderly(c, e.elapsed);
    LaterSame(c, e.elapsed);
    if Try(c, e).Success? {
      PerformCovered(Later(c, e.elapsed), e.action, e.auth, e.growth);
    }
  }

  lemma UnsignedBefore(es: seq<Event>, account: Name)
    requires es != []
    ensures Unsigned(es, account) ==> Unsigned(es[..|es| - 1], account) && account !in es[|es| - 1].auth
  {
  }

  /** Over every run: as long as nobody signs for the stake, memory or block-pay account, what it holds
      for others keeps being covered; the market's quote, the memory stake and the payments agree. */
  lemma {:induction false} RunCovered(c: Chain, es: seq<Event>)
    requires Orderly(c)
    ensures Unsigned(es, STAKE) ==> Backing(Run(c, es)) >= Backing(c)
    ensures Unsigned(es, MEM) ==> MemSurplus(Run(c, es)) >= MemSurplus(c)
    ensures Unsigned(es, BPAY) ==> BlockSurplus(Run(c, es)) >= BlockSurplus(c)
    ensures Run(c, es).market.memStake == c.market.memStake + TotalIn(c, es) - TotalOut(c, es)
    ensures Run(c, es).market.quote == c.market.quote + TotalIn(c, es) - TotalOut(c, es)
  {
    hide Orderly, Try, Step, Backing, MemSurplus, BlockSurplus, VoteSurplus, PaidIn, PaidOut, Unsigned;
    if es != [] {
      var n := |es| - 1;
      RunCovered(c, es[..n]);
      RunKeepsOrderly(c, es[..n]);
      StepCovered(Run(c, es[..n]), es[n]);
      UnsignedBefore(es, STAKE);
      UnsignedBefore(es, MEM);
      UnsignedBefore(es, BPAY);
    }
  }

  lemma LaterSame(c: Chain, elapsed: nat)
    ensures var l := Later(c, elapsed);
      Backing(l) == Backing(c) && MemSurplus(l) == MemSurplus(c) && BlockSurplus(l) == BlockSurplus(c) && VoteSurplus(l) == VoteSurplus(c)
  {
  }

  /** No run of buys and sells, by any accounts and in any order, is paid more for memory than was
      paid for it. */
  lemma MemoryNeverWins(c: Chain, es: seq<Event>)
    requires Orderly(c)
    ensures TotalOut(c, es) <= c.market.memStake + TotalIn(c, es)
  {
    hide Run, TotalIn, TotalOut, Orderly;
    RunCovered(c, es);
    RunKeepsOrderly(c, es);
    OrderlyParts(Run(c, es));
  }

  // ---------- from genesis ----------

  lemma GenesisCovered(now: nat, issuer: Name, supply: int, maxSupply: int, accounts: set<Name>, revision: nat)
    requires 0 < supply
    ensures var g := Genesis(now, issuer, supply, maxSupply, accounts, revision);
      Backing(g) >= 0 && MemSurplus(g) >= 0 && BlockSurplus(g) >= 0 && VoteSurplus(g) >= 0 && g.market.memStake == 0
  {
    hide Sum;
    var g := Genesis(now, issuer, supply, maxSupply, accounts, revision);
    assert Column(g.stakes.delegated, All) == map[];
    SumOfZeros(Column(g.stakes.delegated, All));
    SumOfZeros(RefundColumn(g.stakes.refunds));
  }

  /** In every reachable state: the stake account, unless somebody signs for it, holds at least all
      delegations and all pending refunds; the memory account at least the memory stake; the block-pay
      account at least its bucket. Memory never pays out more than was paid in. */
  lemma ReachableCovered(now: nat, issuer: Name, supply: int, maxSupply: int, accounts: set<Name>, revision: nat, es: seq<Event>)
    requires now > 0 && 0 < supply <= maxSupply <= MAX_AMOUNT
    ensures var g := Genesis(now, issuer, supply, maxSupply, accounts, revision);
      var c := Run(g, es);
      && (Unsigned(es, STAKE) ==>
            BalanceOf(c.token, STAKE, INR) >= SumOf(c.stakes.delegated, All) + PendingRefunds(c.stakes.refunds))
      && (Unsigned(es, MEM) ==> BalanceOf(c.token, MEM, INR) >= c.market.memStake >= 0)
      && (Unsigned(es, BPAY) ==> BalanceOf(c.token, BPAY, INR) >= c.pay.perBlock >= 0)
      && TotalOut(g, es) <= TotalIn(g, es)
  {
    hide Run, TotalIn, TotalOut, Orderly, Genesis, SumOf, PendingRefunds, BalanceOf, Unsigned;
    var g := Genesis(now, issuer, supply, maxSupply, accounts, revision);
    GenesisOrderly(now, issuer, supply, maxSupply, accounts, revision);
    GenesisCovered(now, issuer, supply, maxSupply, accounts, revision);
    RunCovered(g, es);
    RunKeepsOrderly(g, es);
    OrderlyParts(Run(g, es));
  }
}
