/** Unstaked tokens stay locked up: over whole runs nobody is refunded more than what they had
    undelegated three days before. */
module LockUp {
  import opened Basics
  import opened Voting
  import opened Token
  import opened Chain
  import opened Staking
  import opened StakeLedger
  import opened StakeSteps
  import opened Memory
  import opened MarketSteps
  import opened Rewards
  import opened Accounts
  import opened Runs
  import opened Invariants
  import opened AccountSteps
  import opened StakeMoves

  /** What an action undelegates for `owner`: selling memory gives back the stake that came with it. */
  function UnstakedBy(a: Action, owner: Name): int {
    match a
    case Undelegate(from, _, net, cpu) => if from == owner then net + cpu else 0
    case Sell(account, bytes) => if account == owner then 2 * (BytesToTokens(bytes) * 10000) else 0
    case _ => 0
  }

  function Pending(m: Refunds, owner: Name): int { if owner in m then m[owner].net + m[owner].cpu else 0 }

  function RefundedBy(c: Chain, a: Action, owner: Name): int {
    if a == TakeRefund(owner) then Pending(c.stakes.refunds, owner) else 0
  }

  /** How one action may change the pending refund of `owner`, `m` before and `m'` after. */
  ghost predicate RowMoves(m: Refunds, m': Refunds, owner: Name, unstaked: int, refunded: int, second: int) {
    && unstaked >= 0 && refunded >= 0
    && Pending(m', owner) + refunded <= Pending(m, owner) + unstaked
    && (owner in m' ==>
          if unstaked > 0 then m'[owner].requested == second
          else owner in m && m'[owner].requested == m[owner].requested)
    && (refunded > 0 ==> owner in m && owner !in m' && unstaked == 0 && m[owner].requested + REFUND_DELAY <= second)
  }

  ghost predicate RowStep(c: Chain, a: Action, owner: Name, c': Chain) {
    RowMoves(c.stakes.refunds, c'.stakes.refunds, owner, UnstakedBy(a, owner), RefundedBy(c, a, owner), c.now / SECOND)
  }

  /** A stake change writes the pending refund of its owner alone, and each further undelegation
      restarts the clock. */
  lemma SettleMoves(m: Refunds, from: Name, net: int, cpu: int, toSelf: bool, second: int, owner: Name)
    requires RefundsSound(m) && SameSign(net, cpu)
    requires Settle(m, from, net, cpu, toSelf, second).Success?
    ensures RowMoves(m, Settle(m, from, net, cpu, toSelf, second).value.refunds, owner,
                     if from == owner && net + cpu < 0 then -(net + cpu) else 0, 0, second)
  {
  }

  lemma UntouchedRow(c: Chain, a: Action, owner: Name, c': Chain)
    requires RefundsSound(c.stakes.refunds) && c'.stakes.refunds == c.stakes.refunds
    requires UnstakedBy(a, owner) == 0 && !a.TakeRefund?
    ensures RowStep(c, a, owner, c')
  {
  }

  lemma StakeRow(c: Chain, auth: set<Name>, payer: Name, receiver: Name, net: int, cpu: int, transfer: bool, growth: Growth, owner: Name)
    returns (c': Chain)
    requires Orderly(c) && ChangeBw(c, auth, payer, receiver, net, cpu, transfer, growth).Success? && owner != STAKE
    requires SameSign(net, cpu) && (net + cpu < 0 ==> !transfer)
    ensures ChangeBw(c, auth, payer, receiver, net, cpu, transfer, growth) == Success(c')
    ensures RowMoves(c.stakes.refunds, c'.stakes.refunds, owner, if payer == owner && net + cpu < 0 then -(net + cpu) else 0, 0,
                     c.now / SECOND)
  {
    hide ChangeBw, Settle, UpdateVotingPower, Orderly, StakeEffect, RefundsSound, Paid, Obligations, RowMoves;
    OrderlyParts(c);
    assert RefundsSound(c.stakes.refunds) by { RefundsAreSound(c); }
    var due;
    c', due := ChangeBwEffect(c, auth, payer, receiver, net, cpu, transfer, growth);
    if payer == STAKE {
      NothingMoves(c.stakes.refunds, owner, c.now / SECOND);
    } else {
      SettleMoves(c.stakes.refunds, if transfer then receiver else payer, net, cpu, !transfer && payer == receiver,
                  c.now / SECOND, owner);
    }
  }

  lemma RefundsAreSound(c: Chain)
    requires Orderly(c)
    ensures RefundsSound(c.stakes.refunds)
  {
    hide SumOf;
  }

  lemma NothingMoves(m: Refunds, owner: Name, second: int)
    ensures RowMoves(m, m, owner, 0, 0, second)
  {
  }

  lemma SignsOfStake(c: Chain, auth: set<Name>, payer: Name, receiver: Name, net: int, cpu: int, transfer: bool, growth: Growth)
    requires ChangeBw(c, auth, payer, receiver, net, cpu, transfer, growth).Success?
    ensures SameSign(net, cpu)
  {
    hide Redelegate, SettleStake, UpdateVotingPower;
  }

  lemma DelegateRow(c: Chain, auth: set<Name>, from: Name, receiver: Name, net: int, cpu: int, transfer: bool, growth: Growth, owner: Name)
    returns (c': Chain)
    requires Orderly(c) && DelegateBw(c, auth, from, receiver, net, cpu, transfer, growth).Success? && owner != STAKE
    ensures DelegateBw(c, auth, from, receiver, net, cpu, transfer, growth) == Success(c')
    ensures RowMoves(c.stakes.refunds, c'.stakes.refunds, owner, 0, 0, c.now / SECOND)
  {
    hide DelegateBw, ChangeBw, Orderly, RowMoves;
    DelegateIsChange(c, auth, from, receiver, net, cpu, transfer, growth);
    SignsOfStake(c, auth, from, receiver, net, cpu, transfer, growth);
    c' := StakeRow(c, auth, from, receiver, net, cpu, transfer, growth, owner);
  }

  lemma BuyRow(c: Chain, auth: set<Name>, payer: Name, receiver: Name, amount: int, growth: Growth, owner: Name) returns (c': Chain)
    requires Orderly(c) && BuyResources(c, auth, payer, receiver, amount, growth).Success? && owner != STAKE
    ensures BuyResources(c, auth, payer, receiver, amount, growth) == Success(c') && c'.now == c.now && Orderly(c')
    ensures RowMoves(c.stakes.refunds, c'.stakes.refunds, owner, 0, 0, c.now / SECOND)
  {
    hide BuyResources, Settle, UpdateVotingPower, Orderly, TradeEffect, RefundsSound, PaidTwice, GrowSupply, Obligations, RowMoves;
    OrderlyParts(c);
    RefundsAreSound(c);
    var bytes, due, staked;
    c', bytes, due, staked := BuyEffect(c, auth, payer, receiver, amount, growth);
    TradeEffectOrderly(c, c');
    TradeLeavesPay(c, c');
    if payer == STAKE {
      NothingMoves(c.stakes.refunds, owner, c.now / SECOND);
    } else if staked > 0 {
      SettleMoves(c.stakes.refunds, payer, staked, staked, payer == receiver, c.now / SECOND, owner);
    } else {
      BuyStakesSomething(c, auth, payer, receiver, amount, growth, staked);
    }
  }

  lemma BuyStakesSomething(c: Chain, auth: set<Name>, payer: Name, receiver: Name, amount: int, growth: Growth, staked: int)
    requires BuyResources(c, auth, payer, receiver, amount, growth).Success? && staked == StakeWithMemory(amount)
    ensures staked > 0
  {
    hide Send, DelegateBw, FollowMemory, GrowSupply, WriteMemory, BuyResources;
    var paid, bought, c1, bytes := BuyStages(c, auth, payer, receiver, amount, growth);
    DelegateIsChange(bought, auth, payer, receiver, staked, staked, false, growth);
  }

  lemma BuyBytesRow(c: Chain, auth: set<Name>, payer: Name, receiver: Name, bytes: int, growth: Growth, owner: Name)
    requires Orderly(c) && BuyMemBytes(c, auth, payer, receiver, bytes, growth).Success? && owner != STAKE
    ensures RowStep(c, BuyBytes(payer, receiver, bytes), owner, BuyMemBytes(c, auth, payer, receiver, bytes, growth).value)
  {
    hide BuyMemBytes, BuyResources, DelegateBw, Orderly, TradeEffect, PriceOf;
    var price := PriceOf(bytes % Memory.WORD);
    var c', c1 := BuyBytesKeeps(c, auth, payer, receiver, bytes, growth);
    var c1' := BuyRow(c, auth, payer, receiver, price, growth, owner);
    var c'' := DelegateRow(c1, auth, payer, receiver, price, price, false, growth, owner);
  }

  lemma SellRow(c: Chain, auth: set<Name>, account: Name, bytes: int, growth: Growth, owner: Name)
    requires Orderly(c) && SellRes(c, auth, account, bytes, growth).Success? && owner != STAKE
    ensures RowStep(c, Sell(account, bytes), owner, SellRes(c, auth, account, bytes, growth).value)
  {
    hide SellRes, Settle, UpdateVotingPower, Orderly, TradeEffect, RefundsSound, Paid, GrowSupply, Obligations, RowMoves, BytesToTokens;
    OrderlyParts(c);
    RefundsAreSound(c);
    var c', tokens := SellEffect(c, auth, account, bytes, growth);
    if account == STAKE {
      NothingMoves(c.stakes.refunds, owner, c.now / SECOND);
    } else {
      SettleMoves(c.stakes.refunds, account, -tokens, -tokens, true, c.now / SECOND, owner);
      assert -(-tokens + -tokens) == 2 * tokens;
    }
  }

  lemma UndelegateRow(c: Chain, auth: set<Name>, from: Name, receiver: Name, net: int, cpu: int, growth: Growth, owner: Name)
    requires Orderly(c) && UndelegateBw(c, auth, from, receiver, net, cpu, growth).Success? && owner != STAKE
    ensures RowStep(c, Undelegate(from, receiver, net, cpu), owner, UndelegateBw(c, auth, from, receiver, net, cpu, growth).value)
  {
    hide UndelegateBw, ChangeBw, Orderly, RowMoves;
    UndelegateIsChange(c, auth, from, receiver, net, cpu, growth);
    SignsOfStake(c, auth, from, receiver, -net, -cpu, false, growth);
    var c' := StakeRow(c, auth, from, receiver, -net, -cpu, false, growth, owner);
    assert -(-net + -cpu) == net + cpu;
  }

  lemma RefundRow(c: Chain, auth: set<Name>, taker: Name, owner: Name)
    requires Orderly(c) && ClaimRefund(c, auth, taker).Success?
    ensures RowStep(c, TakeRefund(taker), owner, ClaimRefund(c, auth, taker).value)
  {
    hide ClaimRefund, Orderly, Paid, PendingRefunds;
    OrderlyParts(c);
    RefundsAreSound(c);
    var c' := RefundEffect(c, auth, taker);
  }

  lemma PerformMovesRow(c: Chain, a: Action, auth: set<Name>, growth: Growth, owner: Name)
    requires Orderly(c) && Perform(c, a, auth, growth).Success? && owner != STAKE
    ensures RowStep(c, a, owner, Perform(c, a, auth, growth).value)
  {
    hide Orderly, RowStep, TokensKept, PinsKept, DelegateBw, UndelegateBw, ClaimRefund, BuyResources, BuyMemBytes, SellRes, SetMem,
         SetMemRate, SetAcct, SetALimits, NewAccount, SetInflation, MakeProd, RegProxyAction, OnBlock, ClaimRewards, RefundsSound,
         Create, Issue, Retire, Transfer, Open, Close, ClaimBook, UpdateVotes, RegProxy;
    RefundsAreSound(c);
    match a
    case Delegate(from, receiver, net, cpu, transfer) =>
      var c' := DelegateRow(c, auth, from, receiver, net, cpu, transfer, growth, owner);
      StepIsMove(c, a, owner, c');
    case Undelegate(from, receiver, net, cpu) => UndelegateRow(c, auth, from, receiver, net, cpu, growth, owner);
    case TakeRefund(taker) => RefundRow(c, auth, taker, owner);
    case Buy(payer, receiver, amount) =>
      var c' := BuyRow(c, auth, payer, receiver, amount, growth, owner);
      StepIsMove(c, a, owner, c');
    case BuyBytes(payer, receiver, bytes) => BuyBytesRow(c, auth, payer, receiver, bytes, growth, owner);
    case Sell(account, bytes) => SellRow(c, auth, account, bytes, growth, owner);
    case ResizeMemory(size, reserved) => var c' := SetMemKeeps(c, auth, size, reserved); UntouchedRow(c, a, owner, c');
    case RateMemory(perBlock) => var c' := SetMemRateKeeps(c, auth, perBlock); UntouchedRow(c, a, owner, c');
    case PinLimit(account, resource, pin) => var c' := SetAcctKeeps(c, auth, account, resource, pin); UntouchedRow(c, a, owner, c');
    case LimitAccount(account, limits) => var c' := SetALimitsKeeps(c, auth, account, limits); UntouchedRow(c, a, owner, c');
    case OpenAccount(account) => var c' := NewAccountKeeps(c, auth, account); UntouchedRow(c, a, owner, c');
    case RemoveProducer(producer) => UntouchedRow(c, a, owner, Perform(c, a, auth, growth).value);
    case Inflate(rate, payFactor, voteFactor) =>
      var c' := InflateKeeps(c, auth, rate, payFactor, voteFactor);
      UntouchedRow(c, a, owner, c');
    case RegisterProducer(producer) => UntouchedRow(c, a, owner, Perform(c, a, auth, growth).value);
    case UnregisterProducer(producer) => UntouchedRow(c, a, owner, Perform(c, a, auth, growth).value);
    case MakeProducer(voter, proxy, producers) =>
      var c' := MakeKeeps(c, auth, voter, proxy, producers, growth);
      UntouchedRow(c, a, owner, c');
    case RegisterProxy(who, on) => var c' := ProxyKeeps(c, auth, who, on, growth); UntouchedRow(c, a, owner, c');
    case Block(slot, producer) => var c' := BlockKeeps(c, auth, slot, producer); UntouchedRow(c, a, owner, c');
    case Claim(claimant, minted) => var c', revised := ClaimKeeps(c, auth, claimant, minted); UntouchedRow(c, a, owner, c');
    case _ => TokenRow(c, a, auth, growth, owner);
  }

  lemma StepIsMove(c: Chain, a: Action, owner: Name, c': Chain)
    requires UnstakedBy(a, owner) == 0 && !a.TakeRefund?
    requires RowMoves(c.stakes.refunds, c'.stakes.refunds, owner, 0, 0, c.now / SECOND)
    ensures RowStep(c, a, owner, c')
  {
  }

  lemma TokenRow(c: Chain, a: Action, auth: set<Name>, growth: Growth, owner: Name)
    requires IsTokenAction(a) && Perform(c, a, auth, growth).Success?
    ensures RowStep(c, a, owner, Perform(c, a, auth, growth).value)
  {
    hide Perform, TokensKept;
    var c' := TokenActionKeeps(c, a, auth, growth);
    NothingMoves(c.stakes.refunds, owner, c.now / SECOND);
  }

  // ---------- runs ----------

  function Second(c: Chain): int { c.now / SECOND }

  /** All that `owner` undelegated in the run at or before second `t`. */
  function Unstaked(c: Chain, es: seq<Event>, owner: Name, t: int): int {
    if es == [] then 0
    else
      var n := |es| - 1;
      var s := Run(c, es[..n]);
      Unstaked(c, es[..n], owner, t)
        + if Try(s, es[n]).Success? && Second(Later(s, es[n].elapsed)) <= t then UnstakedBy(es[n].action, owner) else 0
  }

  /** All that `owner` was refunded in the run. */
  function Refunded(c: Chain, es: seq<Event>, owner: Name): int {
    if es == [] then 0
    else
      var n := |es| - 1;
      var s := Run(c, es[..n]);
      Refunded(c, es[..n], owner) + if Try(s, es[n]).Success? then RefundedBy(s, es[n].action, owner) else 0
  }

  /** Up to here: what is pending or refunded was undelegated; what is pending was undelegated by the
      time its row records; what is refunded was undelegated three days ago. */
  ghost predicate InTime(c: Chain, es: seq<Event>, owner: Name) {
    var s := Run(c, es);
    && Refunded(c, es, owner) + Pending(s.stakes.refunds, owner) <= Unstaked(c, es, owner, Second(s))
    && (owner in s.stakes.refunds ==>
          s.stakes.refunds[owner].requested <= Second(s)
          && Unstaked(c, es, owner, s.stakes.refunds[owner].requested) == Unstaked(c, es, owner, Second(s)))
    && Refunded(c, es, owner) <= Unstaked(c, es, owner, Second(s) - REFUND_DELAY)
  }

  lemma StepRow(c: Chain, e: Event, owner: Name)
    requires Orderly(c) && owner != STAKE && Try(c, e).Success?
    ensures RowStep(Later(c, e.elapsed), e.action, owner, Step(c, e))
    ensures Step(c, e).now == c.now + e.elapsed
  {
    hide Orderly, Perform, RowStep;
    LaterKeepsOrderly(c, e.elapsed);
    PerformMovesRow(Later(c, e.elapsed), e.action, e.auth, e.growth, owner);
    PerformKeepsOrderly(Later(c, e.elapsed), e.action, e.auth, e.growth);
  }

  lemma StepTime(c: Chain, e: Event)
    requires Orderly(c)
    ensures Step(c, e).now == c.now + e.elapsed && Second(c) <= Second(Step(c, e))
    ensures Try(c, e).Failure? ==> Step(c, e).stakes == c.stakes
  {
    hide Orderly, Perform;
    LaterKeepsOrderly(c, e.elapsed);
    if Try(c, e).Success? {
      PerformKeepsOrderly(Later(c, e.elapsed), e.action, e.auth, e.growth);
    }
  }

  lemma {:induction false} UnstakedMonotone(c: Chain, es: seq<Event>, owner: Name, t: int, t': int)
    requires Orderly(c) && owner != STAKE && t <= t'
    ensures Unstaked(c, es, owner, t) <= Unstaked(c, es, owner, t')
    ensures t >= Second(Run(c, es)) ==> Unstaked(c, es, owner, t) == Unstaked(c, es, owner, t')
  {
    hide Orderly, Perform, Step, RowStep;
    if es != [] {
      var n := |es| - 1;
      var s := Run(c, es[..n]);
      RunKeepsOrderly(c, es[..n]);
      UnstakedMonotone(c, es[..n], owner, t, t');
      StepTime(s, es[n]);
      if Try(s, es[n]).Success? {
        StepRow(s, es[n], owner);
        UnstakesNoLess(s, es[n], owner);
      }
    }
  }

  lemma UnstakesNoLess(c: Chain, e: Event, owner: Name)
    requires Try(c, e).Success? && RowStep(Later(c, e.elapsed), e.action, owner, Step(c, e))
    ensures UnstakedBy(e.action, owner) >= 0
  {
  }

  /** The run one event on, in numbers: `u` is what the event undelegates, `f` what it refunds, and
      `U` gives what was undelegated by each second. */
  lemma NextInTime(m: Refunds, m': Refunds, owner: Name, u: int, f: int, second: int, was: int, refunded: int,
                   U: int -> int, U': int -> int)
    requires RowMoves(m, m', owner, u, f, second) && was <= second
    requires forall t :: U'(t) == U(t) + (if second <= t then u else 0)
    requires forall t, t' :: t <= t' ==> U(t) <= U(t') && (t >= was ==> U(t) == U(t'))
    requires refunded + Pending(m, owner) <= U(was) && refunded <= U(was - REFUND_DELAY)
    requires owner in m ==> m[owner].requested <= was && U(m[owner].requested) == U(was)
    ensures refunded + f + Pending(m', owner) <= U'(second)
    ensures owner in m' ==> m'[owner].requested <= second && U'(m'[owner].requested) == U'(second)
    ensures refunded + f <= U'(second - REFUND_DELAY)
  {
    assert U(was) == U(second);
    assert U(was - REFUND_DELAY) <= U(second - REFUND_DELAY);
    if f > 0 {
      assert U(m[owner].requested) <= U(second - REFUND_DELAY);
    }
  }

  lemma InTimeStep(c: Chain, es: seq<Event>, e: Event, owner: Name)
    requires Orderly(c) && owner != STAKE && InTime(c, es, owner)
    ensures InTime(c, es + [e], owner)
  {
    hide Orderly, Perform, Step, RowMoves, Run;
    var s := Run(c, es);
    var next := es + [e];
    assert next[..|es|] == es;
    assert Run(c, next) == Step(s, e) by { RunOneMore(c, es, e); }
    RunKeepsOrderly(c, es);
    StepTime(s, e);
    forall t, t' | t <= t'
      ensures Unstaked(c, es, owner, t) <= Unstaked(c, es, owner, t')
      ensures t >= Second(s) ==> Unstaked(c, es, owner, t) == Unstaked(c, es, owner, t')
    {
      UnstakedMonotone(c, es, owner, t, t');
    }
    var success := Try(s, e).Success?;
    if success {
      StepRow(s, e, owner);
    } else {
      NothingMoves(s.stakes.refunds, owner, Second(Step(s, e)));
    }
    NextInTime(s.stakes.refunds, Step(s, e).stakes.refunds, owner,
               if success then UnstakedBy(e.action, owner) else 0,
               if success then RefundedBy(s, e.action, owner) else 0,
               Second(Step(s, e)), Second(s), Refunded(c, es, owner),
               t => Unstaked(c, es, owner, t), t => Unstaked(c, next, owner, t));
  }

  lemma RunOneMore(c: Chain, es: seq<Event>, e: Event)
    ensures Run(c, es + [e]) == Step(Run(c, es), e)
  {
    assert (es + [e])[..|es|] == es;
  }

  /** The lock-up: whatever an owner does and in whatever order, by any time it has been refunded at
      most what it had undelegated three days earlier, counted in whole seconds. */
  lemma {:induction false} RefundsAreLockedUp(c: Chain, es: seq<Event>, owner: Name)
    requires Orderly(c) && owner != STAKE && owner !in c.stakes.refunds
    ensures InTime(c, es, owner)
    ensures Refunded(c, es, owner) <= Unstaked(c, es, owner, Second(Run(c, es)) - REFUND_DELAY)
  {
    hide Orderly, Step;
    if es != [] {
      var n := |es| - 1;
      RefundsAreLockedUp(c, es[..n], owner);
      InTimeStep(c, es[..n], es[n], owner);
      assert es[..n] + [es[n]] == es;
    }
  }
}
