/** Pins, limits and the growth of memory, and the step theorem over all actions. */
module AccountSteps {
  import opened Basics
  import opened Sums
  import opened Voting
  import opened ProxyGraph
  import opened ProxyLedger
  import opened VotingRules
  import opened BookSteps
  import opened VotingSteps
  import opened Token
  import opened TokenLedger
  import opened Chain
  import opened Staking
  import opened StakeLedger
  import opened StakeSteps
  import opened Memory
  import opened MarketSteps
  import opened Rewards
  import opened RewardSteps
  import opened Accounts
  import opened Runs
  import opened Invariants

  lemma SetFlagIsRow(b: Book, account: Name, r: Resource, on: bool)
    ensures SetFlag(b, account, r, on)
      == WithRow(b, account, RowOf(b, account).(flags := SetManaged(RowOf(b, account).flags, r, on)))
  {
  }

  lemma SetFlagShape(b: Book, account: Name, r: Resource, on: bool)
    requires WellFormed(b)
    ensures WellFormed(SetFlag(b, account, r, on)) && SameStake(b, SetFlag(b, account, r, on))
    ensures forall v :: v != account ==> FlagsOf(SetFlag(b, account, r, on), v) == FlagsOf(b, v)
    ensures FlagsOf(SetFlag(b, account, r, on), account) == SetManaged(FlagsOf(b, account), r, on)
  {
    SetFlagIsRow(b, account, r, on);
    PlainRow(b, account);
    RewriteVoterShape(b, account, RowOf(b, account).(flags := SetManaged(RowOf(b, account).flags, r, on)));
  }

  lemma VotersFollow(st: Stakes, b: Book, b': Book)
    requires VotersAgree(st, b) && SameStake(b, b')
    ensures VotersAgree(st, b')
  {
    hide SumOf;
    forall v ensures RowOf(b', v).staked == SumOf(st.delegated, From(v)) {
      assert RowOf(b, v).staked == SumOf(st.delegated, From(v));
    }
  }

  /** Pinning sets the limit; unpinning puts it back to what the owner's row says. */
  lemma SetAcctKeeps(c: Chain, auth: set<Name>, account: Name, r: Resource, pin: Pin) returns (c': Chain)
    requires Orderly(c) && SetAcct(c, auth, account, r, pin).Success?
    ensures SetAcct(c, auth, account, r, pin) == Success(c') && Orderly(c')
    ensures c' == c.(book := SetFlag(c.book, account, r, pin.PinAt?), limits := c'.limits)
    ensures account in c'.limits
      && LimitOf(c'.limits[account], r) == if pin.PinAt? then pin.limit else DefaultLimit(c.stakes.resources, account, r)
    ensures Managed(FlagsOf(c'.book, account), r) == pin.PinAt?
    ensures forall a, q :: a in c.limits && (a != account || q != r) ==> a in c'.limits && LimitOf(c'.limits[a], q) == LimitOf(c.limits[a], q)
  {
    hide WellFormed, Conserved, MemorySound, SumOf, TotalUnpaid, RowsSound, RefundsSound, TotalsAgree, VotersAgree, SetFlag;
    c' := SetAcct(c, auth, account, r, pin).value;
    SetFlagShape(c.book, account, r, pin.PinAt?);
    VotersFollow(c.stakes, c.book, c'.book);
    SetFlagProducers(c.book, account, r, pin.PinAt?);
    forall a | a in c'.stakes.resources ensures AccountAgrees(c', a) {
      assert AccountAgrees(c, a);
    }
    SameMemory(c, c');
  }

  lemma SetFlagProducers(b: Book, account: Name, r: Resource, on: bool)
    ensures SetFlag(b, account, r, on).producers == b.producers
  {
  }

  lemma SetALimitsKeeps(c: Chain, auth: set<Name>, account: Name, l: Limits) returns (c': Chain)
    requires Orderly(c) && SetALimits(c, auth, account, l).Success?
    ensures SetALimits(c, auth, account, l) == Success(c') && Orderly(c')
    ensures account !in c.stakes.resources && FlagsOf(c.book, account) == UNMANAGED
    ensures c' == c.(limits := c.limits[account := l]) && PinsKept(c, c')
  {
    hide WellFormed, Conserved, MemorySound, StakesSound, TotalUnpaid;
    c' := SetALimits(c, auth, account, l).value;
    forall a | a in c'.stakes.resources ensures AccountAgrees(c', a) {
      assert AccountAgrees(c, a);
    }
    SameMemory(c, c');
  }

  /** A new account starts with an empty row and matching limits; nothing was pinned before it existed. */
  lemma NewAccountKeeps(c: Chain, auth: set<Name>, account: Name) returns (c': Chain)
    requires Orderly(c) && NewAccount(c, auth, account).Success?
    ensures NewAccount(c, auth, account) == Success(c') && Orderly(c')
    ensures c' == c.(limits := c'.limits, stakes := c'.stakes) && PinsKept(c, c')
    ensures c'.stakes == c.stakes.(resources := c'.stakes.resources)
    ensures account !in c.limits && account in c'.limits && c'.limits[account] == Limits(0, 0, 0)
    ensures account in c'.stakes.resources && c'.stakes.resources[account] == NO_RESOURCES
  {
    hide WellFormed, Conserved, SumOf, TotalUnpaid, RowsSound, RefundsSound, TotalMem;
    c' := NewAccount(c, auth, account).value;
    StoreMem(c.stakes.resources, account, NO_RESOURCES);
    forall r ensures ResourcesOf(c'.stakes.resources, r).net == SumOf(c'.stakes.delegated, NetTo(r))
      && ResourcesOf(c'.stakes.resources, r).cpu == SumOf(c'.stakes.delegated, CpuTo(r))
    {
      assert ResourcesOf(c.stakes.resources, r).net == SumOf(c.stakes.delegated, NetTo(r));
    }
    VotersStay(c.stakes, c'.stakes, c.book);
    forall a | a in c'.stakes.resources ensures AccountAgrees(c', a) {
      if a != account {
        assert AccountAgrees(c, a);
      }
    }
  }

  lemma VotersStay(st: Stakes, st': Stakes, b: Book)
    requires st'.delegated == st.delegated
    ensures VotersAgree(st, b) ==> VotersAgree(st', b)
  {
    hide SumOf;
  }

  /** Memory added to the market is new memory: nobody's share of it changes. */
  lemma MarketOnly(c: Chain, c': Chain)
    requires Orderly(c) && c' == c.(market := c'.market)
    requires MarketSound(c'.market, TotalMem(c.stakes.resources))
    ensures Orderly(c')
  {
    hide WellFormed, Conserved, StakesSound, TotalUnpaid, TotalMem;
    SameLimits(c, c');
  }

  lemma SetMemKeeps(c: Chain, auth: set<Name>, size: int, reserved: int) returns (c': Chain)
    requires Orderly(c) && SetMem(c, auth, size, reserved).Success?
    ensures SetMem(c, auth, size, reserved) == Success(c') && Orderly(c') && c' == c.(market := c'.market)
    ensures c'.market.quote == c.market.quote && c'.market.memStake == c.market.memStake
  {
    hide WellFormed, Conserved, StakesSound, BlocksSound, LimitsAgree, TotalMem;
    c' := SetMem(c, auth, size, reserved).value;
    MarketOnly(c, c');
  }

  lemma SetMemRateKeeps(c: Chain, auth: set<Name>, perBlock: nat) returns (c': Chain)
    requires Orderly(c) && SetMemRate(c, auth, perBlock).Success?
    ensures SetMemRate(c, auth, perBlock) == Success(c') && Orderly(c') && c' == c.(market := c'.market)
    ensures c'.market.quote == c.market.quote && c'.market.memStake == c.market.memStake
  {
    hide WellFormed, Conserved, StakesSound, BlocksSound, LimitsAgree, TotalMem, GrowSupply;
    c' := SetMemRate(c, auth, perBlock).value;
    GrowKeeps(c.market, c.now, TotalMem(c.stakes.resources));
    MarketOnly(c, c');
  }

  lemma InflateKeeps(c: Chain, auth: set<Name>, rate: int, payFactor: int, voteFactor: int) returns (c': Chain)
    requires Orderly(c) && SetInflation(c, auth, rate, payFactor, voteFactor).Success?
    ensures SetInflation(c, auth, rate, payFactor, voteFactor) == Success(c') && Orderly(c') && c' == c.(pay := c'.pay)
    ensures c'.pay.perVote == c.pay.perVote && c'.pay.perBlock == c.pay.perBlock
    ensures c'.pay.payFactor == payFactor && c'.pay.voteFactor == voteFactor
  {
    hide WellFormed, Conserved, StakesSound, MemorySound, TotalUnpaid;
    c' := SetInflation(c, auth, rate, payFactor, voteFactor).value;
    SameLimits(c, c');
    SameMemory(c, c');
  }

  // ---------- all actions ----------

  lemma TradeKeepsOrderly(c: Chain, a: Action, auth: set<Name>, growth: Growth)
    requires Orderly(c) && Perform(c, a, auth, growth).Success? && IsTrade(a)
    ensures Orderly(Perform(c, a, auth, growth).value)
    ensures Perform(c, a, auth, growth).value.now == c.now
  {
    hide Orderly, TradeEffect, DelegateBw, UndelegateBw, ClaimRefund, BuyResources, BuyMemBytes, SellRes, PaidTwice, Paid, UpdateVotingPower, Settle;
    match a
    case Delegate(from, receiver, net, cpu, transfer) =>
      var c' := DelegateKeeps(c, auth, from, receiver, net, cpu, transfer, growth);
      TradeNow(c, c');
    case Undelegate(from, receiver, net, cpu) =>
      var c' := UndelegateKeeps(c, auth, from, receiver, net, cpu, growth);
      TradeNow(c, c');
    case TakeRefund(owner) => RefundCase(c, auth, owner);
    case Buy(payer, receiver, amount) =>
      OrderlyParts(c);
      var c', bytes, due, staked := BuyEffect(c, auth, payer, receiver, amount, growth);
      TradeEffectOrderly(c, c');
      TradeNow(c, c');
    case BuyBytes(payer, receiver, bytes) =>
      var c', c1 := BuyBytesKeeps(c, auth, payer, receiver, bytes, growth);
      TradeNow(c, c1);
      TradeNow(c1, c');
    case Sell(account, bytes) =>
      OrderlyParts(c);
      var c', tokens := SellEffect(c, auth, account, bytes, growth);
      TradeEffectOrderly(c, c');
      TradeNow(c, c');
  }

  /** Every action keeps the invariant. */
  lemma PerformKeepsOrderly(c: Chain, a: Action, auth: set<Name>, growth: Growth)
    requires Orderly(c) && Perform(c, a, auth, growth).Success?
    ensures Orderly(Perform(c, a, auth, growth).value)
    ensures Perform(c, a, auth, growth).value.now == c.now
  {
    hide Orderly, TradeEffect, TokensKept, PinsKept, SameStanding, DelegateBw, UndelegateBw, ClaimRefund, BuyResources, BuyMemBytes,
         SellRes, SetMem, SetMemRate, SetAcct, SetALimits, NewAccount, RmvProducer, SetInflation, RegProducer, UnregProd, MakeProd,
         RegProxyAction, OnBlock, ClaimRewards, Create, Issue, Retire, Transfer, Open, Close;
    match a
    case ResizeMemory(size, reserved) => var c' := SetMemKeeps(c, auth, size, reserved);
    case RateMemory(perBlock) => var c' := SetMemRateKeeps(c, auth, perBlock);
    case PinLimit(account, resource, pin) => var c' := SetAcctKeeps(c, auth, account, resource, pin);
    case LimitAccount(account, limits) => var c' := SetALimitsKeeps(c, auth, account, limits);
    case OpenAccount(account) => var c' := NewAccountKeeps(c, auth, account);
    case RemoveProducer(producer) => RemoveCase(c, auth, producer);
    case Inflate(rate, payFactor, voteFactor) => var c' := InflateKeeps(c, auth, rate, payFactor, voteFactor);
    case RegisterProducer(producer) => var c' := RegisterKeeps(c, auth, producer);
    case UnregisterProducer(producer) => UnregisterCase(c, auth, producer);
    case MakeProducer(voter, proxy, producers) => var c' := MakeKeeps(c, auth, voter, proxy, producers, growth);
    case RegisterProxy(who, on) => var c' := ProxyKeeps(c, auth, who, on, growth);
    case Block(slot, producer) => var c' := BlockKeeps(c, auth, slot, producer);
    case Claim(owner, minted) => var c', revised := ClaimKeeps(c, auth, owner, minted);
    case _ =>
      if IsTokenAction(a) {
        TokenCase(c, a, auth, growth);
      } else {
        TradeKeepsOrderly(c, a, auth, growth);
      }
  }

  lemma TradeNow(c: Chain, c': Chain)
    requires TradeEffect(c, c')
    ensures c'.now == c.now
  {
  }

  lemma TokenCase(c: Chain, a: Action, auth: set<Name>, growth: Growth)
    requires Orderly(c) && IsTokenAction(a) && Perform(c, a, auth, growth).Success?
    ensures Orderly(Perform(c, a, auth, growth).value) && Perform(c, a, auth, growth).value.now == c.now
  {
    hide Orderly, Perform, TokensKept;
    var c' := TokenActionKeeps(c, a, auth, growth);
    TokenOrderly(c, c');
  }

  lemma RefundCase(c: Chain, auth: set<Name>, owner: Name)
    requires Orderly(c) && ClaimRefund(c, auth, owner).Success?
    ensures Orderly(ClaimRefund(c, auth, owner).value) && ClaimRefund(c, auth, owner).value.now == c.now
  {
    hide Orderly, ClaimRefund;
    var c' := RefundKeeps(c, auth, owner);
    OrderlyParts(c);
    var c'' := RefundEffect(c, auth, owner);
  }

  lemma RemoveCase(c: Chain, auth: set<Name>, producer: Name)
    requires Orderly(c) && RmvProducer(c, auth, producer).Success?
    ensures Orderly(RmvProducer(c, auth, producer).value) && RmvProducer(c, auth, producer).value.now == c.now
  {
    hide Orderly;
    var c' := RetireProducerKeeps(c, producer, c.producing);
  }

  lemma UnregisterCase(c: Chain, auth: set<Name>, producer: Name)
    requires Orderly(c) && UnregProd(c, auth, producer).Success?
    ensures Orderly(UnregProd(c, auth, producer).value) && UnregProd(c, auth, producer).value.now == c.now
  {
    hide Orderly;
    var c' := RetireProducerKeeps(c, producer, if producer in c.producing then c.producing[producer := false] else c.producing);
  }

  lemma LaterKeepsOrderly(c: Chain, elapsed: nat)
    requires Orderly(c)
    ensures Orderly(Later(c, elapsed))
  {
    hide WellFormed, Conserved, StakesSound, TotalUnpaid;
    SameLimits(c, Later(c, elapsed));
    SameMemory(c, Later(c, elapsed));
  }

  lemma StepKeepsOrderly(c: Chain, e: Event)
    requires Orderly(c)
    ensures Orderly(Step(c, e))
  {
    hide Orderly, Perform;
    LaterKeepsOrderly(c, e.elapsed);
    if Try(c, e).Success? {
      PerformKeepsOrderly(Later(c, e.elapsed), e.action, e.auth, e.growth);
    }
  }

  /** Every reachable state is orderly. */
  lemma {:induction false} RunKeepsOrderly(c: Chain, es: seq<Event>)
    requires Orderly(c)
    ensures Orderly(Run(c, es))
  {
    if es != [] {
      hide Orderly, Step;
      RunKeepsOrderly(c, es[..|es| - 1]);
      StepKeepsOrderly(Run(c, es[..|es| - 1]), es[|es| - 1]);
    }
  }

  /** The chain right after `init` is orderly. */
  lemma GenesisOrderly(now: nat, issuer: Name, supply: int, maxSupply: int, accounts: set<Name>, revision: nat)
    requires now > 0 && 0 < supply <= maxSupply <= MAX_AMOUNT
    ensures Orderly(Genesis(now, issuer, supply, maxSupply, accounts, revision))
  {
    hide Sum;
    var c := Genesis(now, issuer, supply, maxSupply, accounts, revision);
    var rank: Ranks := map[];
    assert Ranked(c.book.voters, rank);
    forall part ensures SumOf(c.stakes.delegated, part) == 0 {
      assert Column(c.stakes.delegated, part) == map[];
      SumOfZeros(Column(c.stakes.delegated, part));
    }
    SumOfZeros(MemColumn(c.stakes.resources));
    SumOfZeros(UnpaidColumn(c.book.producers));
    var empty := c.token.(balances := map[]);
    forall s: nat ensures Held(c.token, s) == SupplyOf(c.token, s) {
      SumOfZeros(HeldColumn(empty, s));
      WriteBalance(empty, c.token, issuer, INR, supply);
      assert Held(c.token, s) == Held(empty, s) + (if s == INR then supply else 0);
    }
  }
}
