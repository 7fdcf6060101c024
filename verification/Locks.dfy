/** What an account may rely on between two of its own decisions: a producer's balance stays at the
    floor until it unregisters, and a pinned limit stays put until it is pinned again. */
module Locks {
  import opened Basics
  import opened Voting
  import opened Token
  import opened TokenLedger
  import opened Chain
  import opened Staking
  import opened StakeLedger
  import opened StakeSteps
  import opened Memory
  import opened MarketSteps
  import opened Rewards
  import opened RewardSteps
  import opened Accounts
  import opened Runs
  import opened Invariants
  import opened AccountSteps

  /** A producing account that holds at least 50000 whole INR. */
  predicate Locked(c: Chain, x: Name) { IsProducing(Env(c), x) && BalanceOf(c.token, x, INR) >= FLOOR }

  predicate Pinned(c: Chain, x: Name, r: Resource, limit: int) {
    x in c.limits && Managed(FlagsOf(c.book, x), r) && LimitOf(c.limits[x], r) == limit
  }

  predicate Repins(a: Action, x: Name, r: Resource) { a.PinLimit? && a.account == x && a.resource == r }

  ghost predicate LocksKept(c: Chain, a: Action, c': Chain) {
    && (forall x :: Locked(c, x) && a != UnregisterProducer(x) ==> Locked(c', x))
    && (forall x, r, limit :: !Repins(a, x, r) && Pinned(c, x, r, limit) ==> Pinned(c', x, r, limit))
  }

  lemma KeptByFrames(c: Chain, a: Action, c': Chain)
    requires TokensKept(c, c') && PinsKept(c, c')
    ensures LocksKept(c, a, c')
  {
    hide Conserved;
  }

  lemma SameTokensKept(c: Chain, c': Chain)
    requires c'.token == c.token && c'.producing == c.producing
    ensures TokensKept(c, c')
  {
    hide Conserved;
  }

  lemma KeptByTrade(c: Chain, a: Action, c': Chain)
    requires TradeEffect(c, c')
    ensures LocksKept(c, a, c')
  {
    hide TokensKept, PinsKept;
    KeptByFrames(c, a, c');
  }

  lemma SamePins(c: Chain, c': Chain)
    requires c'.limits == c.limits && forall v :: FlagsOf(c'.book, v) == FlagsOf(c.book, v)
    ensures PinsKept(c, c')
  {
  }

  /** A producing mark may be set on anyone, and taken away by unregistering alone. */
  lemma KeptByMark(c: Chain, a: Action, c': Chain, p: Name)
    requires c'.token == c.token && PinsKept(c, c') && (a == UnregisterProducer(p) || c'.producing == c.producing[p := true])
    requires forall x :: x != p && x in c.producing ==> x in c'.producing && c'.producing[x] == c.producing[x]
    ensures LocksKept(c, a, c')
  {
  }

  lemma KeptByPin(c: Chain, auth: set<Name>, account: Name, r: Resource, pin: Pin)
    requires Orderly(c) && SetAcct(c, auth, account, r, pin).Success?
    ensures LocksKept(c, PinLimit(account, r, pin), SetAcct(c, auth, account, r, pin).value)
    ensures pin.PinAt? ==> Pinned(SetAcct(c, auth, account, r, pin).value, account, r, pin.limit)
  {
    hide Orderly, Conserved;
    var a := PinLimit(account, r, pin);
    var c' := SetAcctKeeps(c, auth, account, r, pin);
    SameTokensKept(c, c');
    forall x, q, limit | !Repins(a, x, q) && Pinned(c, x, q, limit) ensures Pinned(c', x, q, limit) {
    }
  }

  lemma BuyBytesLocks(c: Chain, auth: set<Name>, payer: Name, receiver: Name, bytes: int, growth: Growth)
    requires Orderly(c) && BuyMemBytes(c, auth, payer, receiver, bytes, growth).Success?
    ensures LocksKept(c, BuyBytes(payer, receiver, bytes), BuyMemBytes(c, auth, payer, receiver, bytes, growth).value)
  {
    hide Orderly, BuyMemBytes, BuyResources, DelegateBw, TradeEffect, Locked, Pinned;
    var a := BuyBytes(payer, receiver, bytes);
    var c', c1 := BuyBytesKeeps(c, auth, payer, receiver, bytes, growth);
    KeptByTrade(c, a, c1);
    KeptByTrade(c1, a, c');
  }

  lemma BuyLocks(c: Chain, auth: set<Name>, payer: Name, receiver: Name, amount: int, growth: Growth)
    requires Orderly(c) && BuyResources(c, auth, payer, receiver, amount, growth).Success?
    ensures LocksKept(c, Buy(payer, receiver, amount), BuyResources(c, auth, payer, receiver, amount, growth).value)
  {
    hide Orderly, LocksKept, BuyResources, TradeEffect, UpdateVotingPower, Settle, PaidTwice, GrowSupply;
    OrderlyParts(c);
    var c', bytes, due, staked := BuyEffect(c, auth, payer, receiver, amount, growth);
    KeptByTrade(c, Buy(payer, receiver, amount), c');
  }

  lemma SellLocks(c: Chain, auth: set<Name>, account: Name, bytes: int, growth: Growth)
    requires Orderly(c) && SellRes(c, auth, account, bytes, growth).Success?
    ensures LocksKept(c, Sell(account, bytes), SellRes(c, auth, account, bytes, growth).value)
  {
    hide Orderly, LocksKept, SellRes, TradeEffect, UpdateVotingPower, Settle, Paid, GrowSupply;
    OrderlyParts(c);
    var c', tokens := SellEffect(c, auth, account, bytes, growth);
    KeptByTrade(c, Sell(account, bytes), c');
  }

  lemma PerformKeepsLocks(c: Chain, a: Action, auth: set<Name>, growth: Growth)
    requires Orderly(c) && Perform(c, a, auth, growth).Success?
    ensures LocksKept(c, a, Perform(c, a, auth, growth).value)
  {
    hide Orderly, LocksKept, TokensKept, PinsKept, TradeEffect, DelegateBw, UndelegateBw, ClaimRefund, BuyResources, BuyMemBytes, SellRes,
         SetMem, SetMemRate, SetAcct, SetALimits, NewAccount, SetInflation, MakeProd, RegProxyAction, OnBlock, ClaimRewards, Register,
         Create, Issue, Retire, Transfer, Open, Close, ClaimBook, UpdateVotes, RegProxy, Paid, PendingRefunds;
    match a
    case Delegate(from, receiver, net, cpu, transfer) =>
      var c' := DelegateKeeps(c, auth, from, receiver, net, cpu, transfer, growth);
      KeptByTrade(c, a, c');
    case Undelegate(from, receiver, net, cpu) =>
      var c' := UndelegateKeeps(c, auth, from, receiver, net, cpu, growth);
      KeptByTrade(c, a, c');
    case TakeRefund(owner) =>
      var c' := RefundKeeps(c, auth, owner);
      SamePins(c, c');
      KeptByFrames(c, a, c');
    case Buy(payer, receiver, amount) => BuyLocks(c, auth, payer, receiver, amount, growth);
    case BuyBytes(payer, receiver, bytes) => BuyBytesLocks(c, auth, payer, receiver, bytes, growth);
    case Sell(account, bytes) => SellLocks(c, auth, account, bytes, growth);
    case ResizeMemory(size, reserved) => var c' := SetMemKeeps(c, auth, size, reserved); KeptElsewhere(c, a, c');
    case RateMemory(perBlock) => var c' := SetMemRateKeeps(c, auth, perBlock); KeptElsewhere(c, a, c');
    case PinLimit(account, resource, pin) => KeptByPin(c, auth, account, resource, pin);
    case LimitAccount(account, limits) =>
      var c' := SetALimitsKeeps(c, auth, account, limits);
      SameTokensKept(c, c');
      KeptByFrames(c, a, c');
    case OpenAccount(account) =>
      var c' := NewAccountKeeps(c, auth, account);
      SameTokensKept(c, c');
      KeptByFrames(c, a, c');
    case RemoveProducer(producer) => KeptElsewhere(c, a, Perform(c, a, auth, growth).value);
    case Inflate(rate, payFactor, voteFactor) =>
      var c' := InflateKeeps(c, auth, rate, payFactor, voteFactor);
      KeptElsewhere(c, a, c');
    case RegisterProducer(producer) =>
      RegisterFlags(c.book, producer, c.now);
      MarkLocks(c, a, Perform(c, a, auth, growth).value, producer);
    case UnregisterProducer(producer) => MarkLocks(c, a, Perform(c, a, auth, growth).value, producer);
    case MakeProducer(voter, proxy, producers) =>
      var c' := MakeKeeps(c, auth, voter, proxy, producers, growth);
      MarkLocks(c, a, c', voter);
    case RegisterProxy(who, on) =>
      var c' := ProxyKeeps(c, auth, who, on, growth);
      KeptElsewhere(c, a, c');
    case Block(slot, producer) => var c' := BlockKeeps(c, auth, slot, producer); KeptElsewhere(c, a, c');
    case Claim(owner, minted) =>
      var c', revised := ClaimKeeps(c, auth, owner, minted);
      ClaimBookProducers(c.book, owner, revised, c.now);
      SamePins(c, c');
      KeptByFrames(c, a, c');
    case _ => TokenLocks(c, a, auth, growth);
  }

  lemma TokenLocks(c: Chain, a: Action, auth: set<Name>, growth: Growth)
    requires IsTokenAction(a) && Perform(c, a, auth, growth).Success?
    ensures LocksKept(c, a, Perform(c, a, auth, growth).value)
  {
    hide Perform, LocksKept, TokensKept, PinsKept;
    var c' := TokenActionKeeps(c, a, auth, growth);
    SamePins(c, c');
    KeptByFrames(c, a, c');
  }

  lemma KeptElsewhere(c: Chain, a: Action, c': Chain)
    requires c'.token == c.token && c'.producing == c.producing && c'.limits == c.limits
    requires forall v :: FlagsOf(c'.book, v) == FlagsOf(c.book, v)
    ensures LocksKept(c, a, c')
  {
  }

  lemma MarkLocks(c: Chain, a: Action, c': Chain, p: Name)
    requires c'.token == c.token && c'.limits == c.limits && (forall v :: FlagsOf(c'.book, v) == FlagsOf(c.book, v))
    requires a == UnregisterProducer(p) || c'.producing == c.producing[p := true]
    requires forall x :: x != p && x in c.producing ==> x in c'.producing && c'.producing[x] == c.producing[x]
    ensures LocksKept(c, a, c')
  {
    hide LocksKept, PinsKept;
    SamePins(c, c');
    KeptByMark(c, a, c', p);
  }

  lemma RegisterFlags(b: Book, p: Name, now: int)
    ensures forall v :: FlagsOf(Register(b, p, now), v) == FlagsOf(b, v)
  {
  }

  // ---------- runs ----------

  lemma StepKeepsLocks(c: Chain, e: Event)
    requires Orderly(c)
    ensures LocksKept(c, e.action, Step(c, e))
  {
    hide Orderly, Perform;
    LaterKeepsOrderly(c, e.elapsed);
    var l := Later(c, e.elapsed);
    assert forall x :: Locked(c, x) ==> Locked(l, x);
    assert forall x, r, limit :: Pinned(c, x, r, limit) ==> Pinned(l, x, r, limit);
    if Try(c, e).Success? {
      PerformKeepsLocks(l, e.action, e.auth, e.growth);
    }
    hide Locked, Pinned;
  }

  lemma MakingLocks(c: Chain, e: Event)
    requires Orderly(c) && e.action.MakeProducer? && Try(c, e).Success?
    ensures Locked(Step(c, e), e.action.voter)
  {
    hide Orderly, MakeProd;
    LaterKeepsOrderly(c, e.elapsed);
    var c' := MakeKeeps(Later(c, e.elapsed), e.auth, e.action.voter, e.action.proxy, e.action.producers, e.growth);
  }

  /** From a successful `makeprod` until the account unregisters, every reachable state has its balance
      at 500 000 000 units or more, whatever else happens. */
  lemma {:induction false} ProducerStaysFunded(c: Chain, es: seq<Event>, i: nat)
    requires Orderly(c) && i < |es| && es[i].action.MakeProducer? && Try(Run(c, es[..i]), es[i]).Success?
    requires forall j :: i < j < |es| ==> es[j].action != UnregisterProducer(es[i].action.voter)
    ensures Locked(Run(c, es), es[i].action.voter)
    ensures BalanceOf(Run(c, es).token, es[i].action.voter, INR) >= 500_000_000
  {
    hide Orderly, Step, Try, Locked;
    var n := |es| - 1;
    RunKeepsOrderly(c, es[..n]);
    if i == n {
      MakingLocks(Run(c, es[..n]), es[n]);
    } else {
      assert es[..n][..i] == es[..i];
      ProducerStaysFunded(c, es[..n], i);
      StepKeepsLocks(Run(c, es[..n]), es[n]);
    }
    FundedIfLocked(Run(c, es), es[i].action.voter);
  }

  lemma FundedIfLocked(c: Chain, x: Name)
    requires Locked(c, x)
    ensures BalanceOf(c.token, x, INR) >= 500_000_000
  {
  }

  lemma PinningPins(c: Chain, e: Event)
    requires Orderly(c) && e.action.PinLimit? && e.action.pin.PinAt? && Try(c, e).Success?
    ensures Pinned(Step(c, e), e.action.account, e.action.resource, e.action.pin.limit)
  {
    hide Orderly, SetAcct;
    LaterKeepsOrderly(c, e.elapsed);
    KeptByPin(Later(c, e.elapsed), e.auth, e.action.account, e.action.resource, e.action.pin);
  }

  /** A limit that was pinned is what it was pinned at until that limit is set or released again,
      over all interleavings of stakes, trades, accounts and other pins. */
  lemma {:induction false} PinStays(c: Chain, es: seq<Event>, i: nat)
    requires Orderly(c) && i < |es| && es[i].action.PinLimit? && es[i].action.pin.PinAt? && Try(Run(c, es[..i]), es[i]).Success?
    requires forall j :: i < j < |es| ==> !Repins(es[j].action, es[i].action.account, es[i].action.resource)
    ensures Pinned(Run(c, es), es[i].action.account, es[i].action.resource, es[i].action.pin.limit)
  {
    hide Orderly, Step, Try, Pinned;
    var n := |es| - 1;
    RunKeepsOrderly(c, es[..n]);
    if i == n {
      PinningPins(Run(c, es[..n]), es[n]);
    } else {
      assert es[..n][..i] == es[..i];
      PinStays(c, es[..n], i);
      StepKeepsLocks(Run(c, es[..n]), es[n]);
    }
  }
}
