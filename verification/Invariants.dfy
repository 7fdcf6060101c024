/** The invariant that every action keeps, whatever the weights of votes are. */
module Invariants {
  import opened Basics
  import opened Sums
  import opened Voting
  import opened ProxyGraph
  import opened VotingRules
  import opened BookSteps
  import opened VotingSteps
  import opened Token
  import opened TokenLedger
  import opened Chain
  import opened Staking
  import opened StakeLedger
  import opened StakeSteps
  import opened Memory
  import opened MarketSteps
  import opened Rewards
  import opened RewardSteps
  import opened Accounts
  import opened Runs

  /** A producer row always comes with the activity row the token contract looks up. */
  ghost predicate ActivityKnown(c: Chain) { c.book.producers.Keys <= c.producing.Keys }

  ghost predicate Orderly(c: Chain) {
    && c.now > 0
    && WellFormed(c.book)
    && StakesSound(c.stakes, c.book)
    && Conserved(c.token)
    && MemorySound(c)
    && LimitsAgree(c)
    && BlocksSound(c)
    && ActivityKnown(c)
  }

  lemma StandingUnpaid(b: Book, b': Book)
    requires SameStanding(b, b')
    ensures TotalUnpaid(b'.producers) == TotalUnpaid(b.producers)
  {
    hide Sum;
    assert forall p :: p in b.producers ==> SameButVotes(b.producers[p], b'.producers[p]);
    assert UnpaidColumn(b'.producers) == UnpaidColumn(b.producers);
  }

  lemma StakeEffectOrderly(c: Chain, c': Chain)
    requires Orderly(c) && StakeEffect(c, c') && LimitsAgree(c')
    ensures Orderly(c') && TradeEffect(c, c')
  {
    hide WellFormed, StakesSound, Conserved, LimitsAgree, TotalUnpaid, TotalMem, MarketSound, FloorKept, PinsKept;
    StandingUnpaid(c.book, c'.book);
    MemStays(c.stakes.resources, c'.stakes.resources);
  }

  lemma TradeEffectOrderly(c: Chain, c': Chain)
    requires Orderly(c) && TradeEffect(c, c')
    ensures Orderly(c')
  {
    hide WellFormed, StakesSound, Conserved, LimitsAgree, TotalUnpaid, MemorySound, FloorKept, PinsKept;
    StandingUnpaid(c.book, c'.book);
  }

  // ---------- tokens ----------

  predicate IsTokenAction(a: Action) {
    a.TokenCreate? || a.TokenIssue? || a.TokenRetire? || a.TokenTransfer? || a.TokenOpen? || a.TokenClose?
  }

  lemma TokenActionKeeps(c: Chain, a: Action, auth: set<Name>, growth: Growth) returns (c': Chain)
    requires IsTokenAction(a) && Perform(c, a, auth, growth).Success?
    ensures Perform(c, a, auth, growth) == Success(c') && c' == c.(token := c'.token)
    ensures TokensKept(c, c')
  {
    hide Create, Issue, Retire, Transfer, Open, Close, Conserved;
    c' := Perform(c, a, auth, growth).value;
    match a
    case TokenCreate(issuer, max) =>
      BookkeepingEffect(c.token, Create(c.token, auth, TOKEN, issuer, max), Env(c), auth, TOKEN, issuer, max, 0, 0, 0);
    case TokenIssue(to, q) =>
      var t := IssueEffect(c.token, auth, to, q);
    case TokenRetire(q) =>
      var t := RetireEffect(c.token, Env(c), auth, q);
    case TokenTransfer(from, to, q) =>
      var t := TransferEffect(c.token, Env(c), auth, from, to, q);
    case TokenOpen(owner, code, precision, payer) =>
      BookkeepingEffect(c.token, Open(c.token, Env(c), auth, owner, code, precision, payer), Env(c), auth, TOKEN, owner, Inr(0), code, precision, payer);
    case TokenClose(owner, code) =>
      BookkeepingEffect(c.token, Close(c.token, auth, owner, code), Env(c), auth, TOKEN, owner, Inr(0), code, 0, 0);
  }

  lemma TokenOrderly(c: Chain, c': Chain)
    requires Orderly(c) && c' == c.(token := c'.token) && TokensKept(c, c')
    ensures Orderly(c')
  {
    hide WellFormed, StakesSound, Conserved, MemorySound, TotalUnpaid, FloorKept;
    SameLimits(c, c');
    SameMemory(c, c');
  }

  lemma SameMemory(c: Chain, c': Chain)
    requires c'.market == c.market && c'.stakes.resources == c.stakes.resources
    ensures MemorySound(c) ==> MemorySound(c')
  {
    hide TotalMem;
  }

  // ---------- stakes and trades ----------

  lemma DelegateKeeps(c: Chain, auth: set<Name>, from: Name, receiver: Name, net: int, cpu: int, transfer: bool, growth: Growth)
    returns (c': Chain)
    requires Orderly(c) && DelegateBw(c, auth, from, receiver, net, cpu, transfer, growth).Success?
    ensures DelegateBw(c, auth, from, receiver, net, cpu, transfer, growth) == Success(c')
    ensures TradeEffect(c, c') && Orderly(c')
  {
    hide ChangeBw, WellFormed, StakesSound, Conserved, MemorySound, BlocksSound, StakeEffect, TradeEffect, DelegateBw, UpdateVotingPower, Settle;
    DelegateIsChange(c, auth, from, receiver, net, cpu, transfer, growth);
    var due;
    c', due := ChangeBwEffect(c, auth, from, receiver, net, cpu, transfer, growth);
    ExceptNobody(c, receiver);
    StakeEffectOrderly(c, c');
  }

  lemma UndelegateKeeps(c: Chain, auth: set<Name>, from: Name, receiver: Name, net: int, cpu: int, growth: Growth)
    returns (c': Chain)
    requires Orderly(c) && UndelegateBw(c, auth, from, receiver, net, cpu, growth).Success?
    ensures UndelegateBw(c, auth, from, receiver, net, cpu, growth) == Success(c')
    ensures TradeEffect(c, c') && Orderly(c')
  {
    hide ChangeBw, WellFormed, StakesSound, Conserved, MemorySound, BlocksSound, StakeEffect, TradeEffect, UndelegateBw, UpdateVotingPower, Settle;
    UndelegateIsChange(c, auth, from, receiver, net, cpu, growth);
    var due;
    c', due := ChangeBwEffect(c, auth, from, receiver, -net, -cpu, false, growth);
    ExceptNobody(c, receiver);
    StakeEffectOrderly(c, c');
  }

  lemma ExceptNobody(c: Chain, receiver: Name)
    requires LimitsAgree(c)
    ensures LimitsAgreeExcept(c, {receiver})
  {
  }

  lemma BuyBytesKeeps(c: Chain, auth: set<Name>, payer: Name, receiver: Name, bytes: int, growth: Growth)
    returns (c': Chain, c1: Chain)
    requires Orderly(c) && BuyMemBytes(c, auth, payer, receiver, bytes, growth).Success?
    ensures BuyMemBytes(c, auth, payer, receiver, bytes, growth) == Success(c')
    ensures BuyResources(c, auth, payer, receiver, PriceOf(bytes % Memory.WORD), growth) == Success(c1)
    ensures var price := PriceOf(bytes % Memory.WORD);
      DelegateBw(c1, auth, payer, receiver, price, price, false, growth) == Success(c')
    ensures TradeEffect(c, c1) && TradeEffect(c1, c') && Orderly(c1) && Orderly(c')
  {
    hide BuyResources, DelegateBw, Orderly, TradeEffect, PriceOf;
    var price := PriceOf(bytes % Memory.WORD);
    var more, due, staked;
    assert StakesSound(c.stakes, c.book) && WellFormed(c.book) by { OrderlyParts(c); }
    c1, more, due, staked := BuyEffect(c, auth, payer, receiver, price, growth);
    TradeEffectOrderly(c, c1);
    c' := DelegateKeeps(c1, auth, payer, receiver, price, price, false, growth);
  }

  lemma OrderlyParts(c: Chain)
    requires Orderly(c)
    ensures StakesSound(c.stakes, c.book) && WellFormed(c.book) && BlocksSound(c) && LimitsAgree(c) && MemorySound(c) && c.now > 0
    ensures Conserved(c.token) && ActivityKnown(c)
  {
  }

  /** A refund pays out exactly the pending row and takes it away. */
  lemma RefundEffect(c: Chain, auth: set<Name>, owner: Name) returns (c': Chain)
    requires StakesSound(c.stakes, c.book) && ClaimRefund(c, auth, owner).Success?
    ensures ClaimRefund(c, auth, owner) == Success(c') && owner in auth && owner in c.stakes.refunds && owner != STAKE
    ensures c' == c.(token := c'.token, stakes := c.stakes.(refunds := c.stakes.refunds - {owner}))
    ensures var r := c.stakes.refunds[owner];
      && Paid(c.token, c'.token, STAKE, owner, r.net + r.cpu)
      && r.net + r.cpu > 0
      && (r.requested + REFUND_DELAY) * SECOND <= c.now
      && PendingRefunds(c'.stakes.refunds) == PendingRefunds(c.stakes.refunds) - (r.net + r.cpu)
    ensures TokensKept(c, c') && StakesSound(c'.stakes, c'.book)
  {
    hide SumOf, Send, Conserved, FloorKept;
    var r := c.stakes.refunds[owner];
    var c1 := SendEffect(c, STAKE, owner, r.net + r.cpu);
    c' := ClaimRefund(c, auth, owner).value;
    StoreRefundSum(c.stakes.refunds, owner, Refund(0, 0, 0));
    VotersAgreeElsewhere(c.stakes, c'.stakes, c.book);
  }

  lemma VotersAgreeElsewhere(st: Stakes, st': Stakes, b: Book)
    requires st'.delegated == st.delegated && st'.resources == st.resources
    ensures VotersAgree(st, b) ==> VotersAgree(st', b)
    ensures TotalsAgree(st) ==> TotalsAgree(st')
  {
    hide SumOf;
    if TotalsAgree(st) {
      forall r ensures ResourcesOf(st'.resources, r).net == SumOf(st'.delegated, NetTo(r))
        && ResourcesOf(st'.resources, r).cpu == SumOf(st'.delegated, CpuTo(r))
      {
        assert ResourcesOf(st.resources, r).net == SumOf(st.delegated, NetTo(r));
      }
    }
  }

  lemma RefundKeeps(c: Chain, auth: set<Name>, owner: Name) returns (c': Chain)
    requires Orderly(c) && ClaimRefund(c, auth, owner).Success?
    ensures ClaimRefund(c, auth, owner) == Success(c') && Orderly(c')
    ensures c'.book == c.book && c'.limits == c.limits && c'.producing == c.producing && TokensKept(c, c')
  {
    hide StakesSound, Conserved, MemorySound, WellFormed, TotalUnpaid, PendingRefunds, FloorKept, ClaimRefund;
    c' := RefundEffect(c, auth, owner);
    SameLimits(c, c');
    SameMemory(c, c');
  }

  // ---------- books ----------

  /** A change of the voting tables that leaves stakes, flags and unpaid blocks alone. */
  lemma BookChangeOrderly(c: Chain, c': Chain)
    requires Orderly(c)
    requires c' == c.(book := c'.book, producing := c'.producing)
    requires WellFormed(c'.book) && SameStake(c.book, c'.book) && (forall v :: FlagsOf(c'.book, v) == FlagsOf(c.book, v))
    requires TotalUnpaid(c'.book.producers) == TotalUnpaid(c.book.producers)
    requires c'.book.producers.Keys <= c'.producing.Keys
    ensures Orderly(c')
  {
    hide WellFormed, Conserved, MemorySound, TotalUnpaid, SumOf, RowsSound, RefundsSound, TotalsAgree;
    forall a | a in c'.stakes.resources ensures AccountAgrees(c', a) {
      assert AccountAgrees(c, a);
    }
    forall v ensures RowOf(c'.book, v).staked == SumOf(c'.stakes.delegated, From(v)) {
      assert RowOf(c.book, v).staked == SumOf(c.stakes.delegated, From(v));
    }
    SameMemory(c, c');
  }

  lemma StatusChangeShape(b: Book, p: Name, row: Producer)
    requires p in b.producers && WellFormed(b) && row.unpaid == b.producers[p].unpaid
    ensures WellFormed(WithProducer(b, p, row)) && SameStake(b, WithProducer(b, p, row))
    ensures forall v :: FlagsOf(WithProducer(b, p, row), v) == FlagsOf(b, v)
    ensures TotalUnpaid(WithProducer(b, p, row).producers) == TotalUnpaid(b.producers)
  {
    RewriteProducerShape(b, p, row);
    WriteUnpaid(b.producers, p, row);
  }

  lemma RegisterKeeps(c: Chain, auth: set<Name>, producer: Name) returns (c': Chain)
    requires Orderly(c) && RegProducer(c, auth, producer).Success?
    ensures RegProducer(c, auth, producer) == Success(c') && Orderly(c')
    ensures c' == c.(book := Register(c.book, producer, c.now), producing := c.producing[producer := true])
  {
    hide WellFormed, Conserved, MemorySound, StakesSound, LimitsAgree, Sum;
    c' := RegProducer(c, auth, producer).value;
    RegisterShape(c.book, producer, c.now);
    RegisterUnpaid(c.book, producer, c.now);
    BookChangeOrderly(c, c');
  }

  lemma RegisterUnpaid(b: Book, p: Name, now: int)
    ensures TotalUnpaid(Register(b, p, now).producers) == TotalUnpaid(b.producers)
  {
    hide Sum;
    var row := Register(b, p, now).producers[p];
    assert UnpaidColumn(Register(b, p, now).producers) == UnpaidColumn(b.producers)[p := row.unpaid];
    SumWrite(UnpaidColumn(b.producers), p, row.unpaid);
  }

  lemma RetireProducerKeeps(c: Chain, producer: Name, producing: map<Name, bool>) returns (c': Chain)
    requires Orderly(c) && producer in c.book.producers && c.producing.Keys <= producing.Keys
    ensures c' == c.(book := Retired(c.book, producer), producing := producing) && Orderly(c')
  {
    hide WellFormed, Conserved, MemorySound, StakesSound, LimitsAgree, Sum;
    c' := c.(book := Retired(c.book, producer), producing := producing);
    assert Retired(c.book, producer) == WithProducer(c.book, producer, Deactivate(c.book.producers[producer]));
    StatusChangeShape(c.book, producer, Deactivate(c.book.producers[producer]));
    BookChangeOrderly(c, c');
  }

  /** The books in which `makeprod` votes. */
  function MadeProducer(b: Book, voter: Name): Book
    requires voter in b.producers
  {
    WithProducer(b, voter, b.producers[voter].(isProducer := true))
  }

  lemma MakeKeeps(c: Chain, auth: set<Name>, voter: Name, proxy: Name, producers: seq<Name>, growth: Growth) returns (c': Chain)
    requires Orderly(c) && MakeProd(c, auth, voter, proxy, producers, growth).Success?
    ensures MakeProd(c, auth, voter, proxy, producers, growth) == Success(c') && Orderly(c')
    ensures voter in c.book.producers && c' == c.(book := c'.book, producing := c.producing[voter := true])
    ensures UpdateVotes(MadeProducer(c.book, voter), voter, proxy, producers, true, Clock(c.now, growth)) == Success(c'.book)
    ensures voter in auth && BalanceOf(c.token, voter, INR) >= FLOOR
    ensures forall v :: FlagsOf(c'.book, v) == FlagsOf(c.book, v)
  {
    hide WellFormed, Conserved, MemorySound, StakesSound, LimitsAgree, Sum, UpdateVotes;
    var row := c.book.producers[voter].(isProducer := true);
    var b := MadeProducer(c.book, voter);
    StatusChangeShape(c.book, voter, row);
    var b' := VoteKeepsStanding(b, voter, proxy, producers, true, Clock(c.now, growth));
    c' := MakeProd(c, auth, voter, proxy, producers, growth).value;
    StandingUnpaid(b, b');
    BookChangeOrderly(c, c');
  }

  lemma ProxyKeeps(c: Chain, auth: set<Name>, who: Name, on: bool, growth: Growth) returns (c': Chain)
    requires Orderly(c) && RegProxyAction(c, auth, who, on, growth).Success?
    ensures RegProxyAction(c, auth, who, on, growth) == Success(c') && Orderly(c') && c' == c.(book := c'.book)
    ensures RegProxy(c.book, who, on, Clock(c.now, growth)) == Success(c'.book)
    ensures forall v :: FlagsOf(c'.book, v) == FlagsOf(c.book, v)
  {
    hide WellFormed, Conserved, MemorySound, StakesSound, LimitsAgree, TotalUnpaid, RegProxy;
    var b' := RegProxyKeepsShape(c.book, who, on, Clock(c.now, growth));
    c' := RegProxyAction(c, auth, who, on, growth).value;
    StandingUnpaid(c.book, b');
    BookChangeOrderly(c, c');
  }

  lemma BlockKeeps(c: Chain, auth: set<Name>, slot: nat, producer: Name) returns (c': Chain)
    requires Orderly(c) && OnBlock(c, auth, slot, producer).Success?
    ensures OnBlock(c, auth, slot, producer) == Success(c') && Orderly(c') && c' == c.(pay := c'.pay, book := c'.book)
    ensures c'.book == c.book || (producer in c.book.producers &&
      c'.book == WithProducer(c.book, producer, c.book.producers[producer].(unpaid := c.book.producers[producer].unpaid + 1)))
    ensures c'.pay.perVote == c.pay.perVote && c'.pay.perBlock == c.pay.perBlock
  {
    hide WellFormed, Conserved, MemorySound, SumOf, LimitsAgree, TotalUnpaid, OnBlock, RowsSound, RefundsSound, TotalsAgree;
    c' := BlockEffect(c, auth, slot, producer);
    if producer in c.book.producers {
      RewriteProducerShape(c.book, producer, c.book.producers[producer].(unpaid := c.book.producers[producer].unpaid + 1));
    }
    SameMemory(c, c');
    SameVotersLimits(c, c');
  }

  lemma SameVotersLimits(c: Chain, c': Chain)
    requires c'.book.voters == c.book.voters && c'.limits == c.limits && c'.stakes == c.stakes
    ensures LimitsAgree(c) ==> LimitsAgree(c')
    ensures VotersAgree(c.stakes, c.book) ==> VotersAgree(c'.stakes, c'.book)
  {
    hide SumOf;
    if LimitsAgree(c) {
      forall a | a in c'.stakes.resources ensures AccountAgrees(c', a) {
        assert AccountAgrees(c, a);
      }
    }
    if VotersAgree(c.stakes, c.book) {
      forall v ensures RowOf(c'.book, v).staked == SumOf(c'.stakes.delegated, From(v)) {
        assert RowOf(c.book, v).staked == SumOf(c.stakes.delegated, From(v));
      }
    }
  }

  lemma ClaimKeeps(c: Chain, auth: set<Name>, owner: Name, minted: nat) returns (c': Chain, revised: bool)
    requires Orderly(c) && ClaimRewards(c, auth, owner, minted).Success?
    ensures ClaimRewards(c, auth, owner, minted) == Success(c') && Orderly(c') && owner in c.book.producers
    ensures c' == c.(token := c'.token, pay := c'.pay, book := ClaimBook(c.book, owner, revised, c.now))
    ensures TokensKept(c, c')
  {
    hide Conserved, MemorySound, SumOf, LimitsAgree, TotalUnpaid, ClaimRewards, RowsSound, RefundsSound, TotalsAgree, FloorKept,
         ClaimBook, FillBuckets, ClaimedVotePay, BlockPay, Trunc, WellFormed;
    var f, blockPay, votePay;
    c', f, blockPay, votePay := ClaimEffect(c, auth, owner, minted);
    revised := f.pay.revision > 0;
    ClaimShape(c.book, owner, revised, c.now);
    ClaimBookProducers(c.book, owner, revised, c.now);
    SameMemory(c, c');
    SameVotersLimits(c, c');
  }
}
