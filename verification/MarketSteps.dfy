/** The memory market: bytes and tokens are conserved, memory stays covered by the tokens paid for
    it, and trading back and forth never wins tokens. */
module MarketSteps {
  import opened Basics
  import opened Sums
  import opened Token
  import opened Chain
  import opened Staking
  import opened Memory
  import opened VotingRules
  import opened VotingSteps
  import opened StakeLedger
  import opened TokenLedger
  import opened StakeSteps

  /** Memory that is neither for sale nor sold: fixed by `init`. */
  const OFF_MARKET: int := 555_253_372_026_880 - 388_677_360_418_816

  ghost predicate MarketSound(m: Market, sold: int) {
    && m.base > 0
    && m.base + sold == m.maxSize - OFF_MARKET
    && m.memStake >= 0
    && m.memStake * MEBIBYTE >= 10000 * sold
  }

  ghost predicate MemNonNegative(m: map<Name, Resources>) {
    forall a :: a in m ==> m[a].mem >= 0
  }

  ghost predicate MemorySound(c: Chain) {
    MarketSound(c.market, TotalMem(c.stakes.resources)) && MemNonNegative(c.stakes.resources)
  }

  // ---------- prices ----------

  /** Buying with any amount and selling the result returns the amount but for its last four digits. */
  lemma SellingReturns(amount: int)
    requires amount >= 0
    ensures BytesToTokens(TokensToBytes(amount) / 10000) * 10000 == amount - amount % 10000
  {
    var bytes := amount * MEBIBYTE / 10000;
    assert bytes / MEBIBYTE == amount / 10000 by { NestedFloor(amount); }
  }

  lemma NestedFloor(amount: int)
    requires amount >= 0
    ensures amount * MEBIBYTE / 10000 / MEBIBYTE == amount / 10000
  {
    var n, r := amount / 10000, amount % 10000;
    assert amount * MEBIBYTE == n * MEBIBYTE * 10000 + r * MEBIBYTE;
    assert amount * MEBIBYTE / 10000 == n * MEBIBYTE + r * MEBIBYTE / 10000;
    assert 0 <= r * MEBIBYTE / 10000 < MEBIBYTE;
  }

  /** On the market itself the round trip puts every byte back and keeps what rounding took. */
  lemma MarketRoundTrip(m: Market, amount: int)
    requires amount >= 0
    ensures var (m1, out) := ConvertTokens(m, amount);
      var (m2, back) := ConvertBytes(m1, out / 10000);
      && m2 == m.(quote := m.quote + amount % 10000)
      && back * 10000 == amount - amount % 10000
  {
    SellingReturns(amount);
  }

  /** The price of bytes pays for exactly their whole mebibytes, and those are worth exactly that price. */
  lemma WholeMebibytes(bytes: nat)
    ensures TokensToBytes(PriceOf(bytes)) / 10000 == bytes / MEBIBYTE * MEBIBYTE
    ensures BytesToTokens(bytes / MEBIBYTE * MEBIBYTE) * 10000 == PriceOf(bytes)
  {
    var n := bytes / MEBIBYTE;
    assert n * 10000 * 1024 * 1024 / 10000 == n * MEBIBYTE;
    assert n * MEBIBYTE / MEBIBYTE == n;
  }

  // ---------- the supply ----------

  lemma GrowKeeps(m: Market, now: int, sold: int)
    requires MarketSound(m, sold)
    ensures MarketSound(GrowSupply(m, now), sold)
    ensures GrowSupply(m, now).quote == m.quote && GrowSupply(m, now).memStake == m.memStake
  {
    var slot := Slot(now);
    if slot > m.grownAt {
      assert 0 <= (slot - m.grownAt) * m.perBlock % WORD;
    }
  }

  // ---------- one trade ----------

  /** What a trade or stake change keeps, the market and the memory totals aside. */
  ghost predicate TradeEffect(c: Chain, c': Chain) {
    && c' == c.(book := c'.book, stakes := c'.stakes, limits := c'.limits, token := c'.token, market := c'.market)
    && c'.limits.Keys == c.limits.Keys
    && c'.token.stats == c.token.stats
    && WellFormed(c'.book) && SameStanding(c.book, c'.book)
    && StakesSound(c'.stakes, c'.book)
    && PinsKept(c, c')
    && TokensKept(c, c')
    && (LimitsAgree(c) ==> LimitsAgree(c'))
    && (MemorySound(c) ==> MemorySound(c'))
  }

  lemma WriteMemoryKeeps(c: Chain, account: Name, mem: int)
    requires StakesSound(c.stakes, c.book)
    ensures var c' := WriteMemory(c, account, mem);
      && StakesSound(c'.stakes, c'.book)
      && c'.stakes == c.stakes.(resources := c'.stakes.resources)
      && (LimitsAgree(c) ==> LimitsAgreeExcept(c', {account}))
      && TotalMem(c'.stakes.resources) == TotalMem(c.stakes.resources) + mem - ResourcesOf(c.stakes.resources, account).mem
      && (MemNonNegative(c.stakes.resources) && mem >= 0 ==> MemNonNegative(c'.stakes.resources))
      && ResourcesOf(c'.stakes.resources, account).mem == mem
  {
    hide SumOf, TotalMem, RowsSound, RefundsSound;
    var c' := WriteMemory(c, account, mem);
    StoreMem(c.stakes.resources, account, ResourcesOf(c.stakes.resources, account).(mem := mem));
    forall r ensures ResourcesOf(c'.stakes.resources, r).net == SumOf(c'.stakes.delegated, NetTo(r))
      && ResourcesOf(c'.stakes.resources, r).cpu == SumOf(c'.stakes.delegated, CpuTo(r))
    {
      assert ResourcesOf(c.stakes.resources, r).net == SumOf(c.stakes.delegated, NetTo(r));
    }
    if LimitsAgree(c) {
      forall a | a in c'.stakes.resources && a !in {account} ensures AccountAgrees(c', a) {
        assert AccountAgrees(c, a);
      }
    }
  }

  lemma FollowMemoryKeeps(c: Chain, account: Name, mem: int) returns (c': Chain)
    requires FollowMemory(c, account, mem).Success?
    ensures FollowMemory(c, account, mem) == Success(c') && c' == c.(limits := c'.limits)
    ensures c'.limits.Keys == c.limits.Keys && PinsKept(c, c')
    ensures LimitsAgree(c) ==> LimitsAgree(c')
    ensures mem == ResourcesOf(c.stakes.resources, account).mem ==> MemLimitFollows(c', account)
  {
    c' := FollowMemory(c, account, mem).value;
    if LimitsAgree(c) {
      forall a | a in c'.stakes.resources ensures AccountAgrees(c', a) {
        assert AccountAgrees(c, a);
      }
    }
  }

  /** Unstaking sends nothing to the stake account: it all goes into the refund. */
  lemma UnstakeOwesNothing(m: Refunds, owner: Name, net: int, cpu: int, toSelf: bool, second: int)
    requires RefundsSound(m) && net <= 0 && cpu <= 0 && (net < 0 || cpu < 0)
    requires Settle(m, owner, net, cpu, toSelf, second).Success?
    ensures Settle(m, owner, net, cpu, toSelf, second).value.due == 0
  {
  }

  /** The balances after two payments, the second of which may be nothing. */
  ghost predicate PaidTwice(t: Ledger, t': Ledger, from: Name, to: Name, amount: int, from2: Name, to2: Name, amount2: int) {
    forall o, s ::
      BalanceOf(t', o, s) == BalanceOf(t, o, s) + TransferShare(o, s, from, to, Inr(amount)) + TransferShare(o, s, from2, to2, Inr(amount2))
  }

  lemma BuyStages(c: Chain, auth: set<Name>, payer: Name, receiver: Name, amount: int, growth: Growth)
    returns (paid: Chain, bought: Chain, c1: Chain, bytes: int)
    requires BuyResources(c, auth, payer, receiver, amount, growth).Success?
    ensures Send(c.(market := GrowSupply(c.market, c.now)), payer, MEM, amount) == Success(paid)
    ensures payer in auth && amount > 0 && bytes == TokensToBytes(amount) / 10000 && bytes > 0
    ensures paid.market.base - bytes > bytes
    ensures var mem := ResourcesOf(paid.stakes.resources, receiver).mem + bytes;
      && bought == WriteMemory(paid.(market := paid.market.(quote := paid.market.quote + amount,
           base := paid.market.base - bytes, memStake := paid.market.memStake + amount)), receiver, mem)
      && DelegateBw(bought, auth, payer, receiver, bytes * 10000 / MEBIBYTE, bytes * 10000 / MEBIBYTE, false, growth) == Success(c1)
      && BuyResources(c, auth, payer, receiver, amount, growth) == FollowMemory(c1, receiver, mem)
  {
    hide Send, DelegateBw, FollowMemory, GrowSupply, WriteMemory;
    paid := Send(c.(market := GrowSupply(c.market, c.now)), payer, MEM, amount).value;
    bytes := TokensToBytes(amount) / 10000;
    var (m, out) := ConvertTokens(paid.market, amount);
    var mem := ResourcesOf(paid.stakes.resources, receiver).mem + bytes;
    bought := WriteMemory(paid.(market := m.(memStake := m.memStake + amount)), receiver, mem);
    c1 := DelegateBw(bought, auth, payer, receiver, bytes * 10000 / MEBIBYTE, bytes * 10000 / MEBIBYTE, false, growth).value;
  }

  lemma DelegateIsChange(c: Chain, auth: set<Name>, from: Name, receiver: Name, net: int, cpu: int, transfer: bool, growth: Growth)
    requires DelegateBw(c, auth, from, receiver, net, cpu, transfer, growth).Success?
    ensures DelegateBw(c, auth, from, receiver, net, cpu, transfer, growth) == ChangeBw(c, auth, from, receiver, net, cpu, transfer, growth)
    ensures net >= 0 && cpu >= 0 && net + cpu > 0
  {
    hide ChangeBw;
  }

  lemma UndelegateIsChange(c: Chain, auth: set<Name>, from: Name, receiver: Name, net: int, cpu: int, growth: Growth)
    requires UndelegateBw(c, auth, from, receiver, net, cpu, growth).Success?
    ensures UndelegateBw(c, auth, from, receiver, net, cpu, growth) == ChangeBw(c, auth, from, receiver, -net, -cpu, false, growth)
    ensures net >= 0 && cpu >= 0 && net + cpu > 0
  {
    hide ChangeBw;
  }

  /** Buying: the quote, the memory stake and the memory account all grow by the amount, and the
      receiver gets exactly the bytes the market gives up. */
  lemma BuyEffect(c: Chain, auth: set<Name>, payer: Name, receiver: Name, amount: int, growth: Growth)
    returns (c': Chain, bytes: int, due: int, staked: int)
    requires StakesSound(c.stakes, c.book) && WellFormed(c.book)
    requires BuyResources(c, auth, payer, receiver, amount, growth).Success?
    ensures BuyResources(c, auth, payer, receiver, amount, growth) == Success(c')
    ensures TradeEffect(c, c') && payer in auth && payer != MEM && amount > 0
    ensures bytes == TokensToBytes(amount) / 10000 && due >= 0 && staked == bytes * 10000 / MEBIBYTE
    ensures var g := GrowSupply(c.market, c.now);
      c'.market == g.(quote := g.quote + amount, memStake := g.memStake + amount, base := g.base - bytes)
    ensures ResourcesOf(c'.stakes.resources, receiver).mem == ResourcesOf(c.stakes.resources, receiver).mem + bytes
    ensures MemLimitFollows(c', receiver)
    ensures PaidTwice(c.token, c'.token, payer, MEM, amount, payer, STAKE, due)
    ensures payer != STAKE ==> Obligations(c'.stakes) == Obligations(c.stakes) + due
    ensures UpdateVotingPower(c.book, payer, staked + staked, Clock(c.now, growth)) == Success(c'.book)
    ensures payer == STAKE ==> c'.stakes.refunds == c.stakes.refunds && due == 0
    ensures payer != STAKE ==>
      Settle(c.stakes.refunds, payer, staked, staked, payer == receiver, c.now / SECOND) == Success(Settled(c'.stakes.refunds, due))
  {
    hide SumOf, WellFormed, StakesSound, SameStanding, ChangeBw, UpdateVotingPower, PendingRefunds, Settle, TotalMem, TokensKept,
         BuyResources, DelegateBw, FollowMemory, GrowSupply, WriteMemory, Send, TransferShare, LimitsAgree, LimitsAgreeExcept, PinsKept;
    var paid, bought, c1;
    paid, bought, c1, bytes := BuyStages(c, auth, payer, receiver, amount, growth);
    staked := bytes * 10000 / MEBIBYTE;
    var grown := c.(market := GrowSupply(c.market, c.now));
    var paid' := SendEffect(grown, payer, MEM, amount);
    var mem := ResourcesOf(c.stakes.resources, receiver).mem + bytes;
    BoughtState(grown, paid, bought, receiver, bytes, amount);
    DelegateIsChange(bought, auth, payer, receiver, staked, staked, false, growth);
    var c1';
    c1', due := ChangeBwEffect(bought, auth, payer, receiver, staked, staked, false, growth);
    c' := FollowMemoryKeeps(c1, receiver, mem);
    BoughtTrade(c, grown, paid, bought, c1, c', receiver, bytes, amount);
  }

  lemma BoughtState(grown: Chain, paid: Chain, bought: Chain, receiver: Name, bytes: int, amount: int)
    requires StakesSound(grown.stakes, grown.book) && paid == grown.(token := paid.token)
    requires bought == WriteMemory(paid.(market := paid.market.(quote := paid.market.quote + amount,
      base := paid.market.base - bytes, memStake := paid.market.memStake + amount)), receiver,
      ResourcesOf(grown.stakes.resources, receiver).mem + bytes)
    ensures StakesSound(bought.stakes, bought.book)
    ensures bought == paid.(stakes := grown.stakes.(resources := bought.stakes.resources),
      market := paid.market.(quote := paid.market.quote + amount, base := paid.market.base - bytes, memStake := paid.market.memStake + amount))
    ensures ResourcesOf(bought.stakes.resources, receiver).mem == ResourcesOf(grown.stakes.resources, receiver).mem + bytes
    ensures TotalMem(bought.stakes.resources) == TotalMem(grown.stakes.resources) + bytes
    ensures LimitsAgree(grown) ==> LimitsAgreeExcept(bought, {receiver})
    ensures MemNonNegative(grown.stakes.resources) && bytes >= 0 ==> MemNonNegative(bought.stakes.resources)
  {
    hide StakesSound, TotalMem;
    var p := paid.(market := paid.market.(quote := paid.market.quote + amount,
      base := paid.market.base - bytes, memStake := paid.market.memStake + amount));
    WriteMemoryKeeps(p, receiver, ResourcesOf(grown.stakes.resources, receiver).mem + bytes);
    if LimitsAgree(grown) {
      forall a | a in p.stakes.resources ensures AccountAgrees(p, a) {
        assert AccountAgrees(grown, a);
      }
    }
  }

  lemma CoveredBuy(m: Market, sold: int, bytes: int, amount: int)
    requires MarketSound(m, sold) && amount > 0 && bytes == TokensToBytes(amount) / 10000 && m.base - bytes > bytes
    ensures MarketSound(m.(quote := m.quote + amount, base := m.base - bytes, memStake := m.memStake + amount), sold + bytes)
  {
    assert bytes * 10000 <= amount * MEBIBYTE;
  }

  lemma BoughtTrade(c: Chain, grown: Chain, paid: Chain, bought: Chain, c1: Chain, c': Chain, receiver: Name, bytes: int, amount: int)
    requires grown == c.(market := GrowSupply(c.market, c.now)) && paid == grown.(token := paid.token)
    requires bought == paid.(stakes := bought.stakes, market := bought.market) && StakeEffect(bought, c1)
    requires c' == c1.(limits := c'.limits) && c'.limits.Keys == c1.limits.Keys && PinsKept(c1, c')
    requires TokensKept(grown, paid) && paid.token.stats == grown.token.stats
    requires amount > 0 && bytes == TokensToBytes(amount) / 10000 && bytes > 0 && paid.market.base - bytes > bytes
    requires bought.market == paid.market.(quote := paid.market.quote + amount, base := paid.market.base - bytes,
                                           memStake := paid.market.memStake + amount)
    requires TotalMem(bought.stakes.resources) == TotalMem(c.stakes.resources) + bytes
    requires MemNonNegative(c.stakes.resources) && bytes >= 0 ==> MemNonNegative(bought.stakes.resources)
    requires LimitsAgree(grown) ==> LimitsAgree(c')
    ensures TradeEffect(c, c')
  {
    hide WellFormed, StakesSound, SameStanding, TotalMem, Conserved, FloorKept, GrowSupply, TokensToBytes;
    SameTokens(c, grown, paid, bought, c1, c');
    PinsKeptTransitive(bought, c1, c');
    if LimitsAgree(c) {
      SameLimits(c, grown);
    }
    if MemorySound(c) {
      GrowKeeps(c.market, c.now, TotalMem(c.stakes.resources));
      CoveredBuy(grown.market, TotalMem(c.stakes.resources), bytes, amount);
      MemStays(bought.stakes.resources, c1.stakes.resources);
    }
  }

  lemma MemStays(m: map<Name, Resources>, m': map<Name, Resources>)
    requires SameMem(m, m') && MemNonNegative(m)
    ensures MemNonNegative(m')
  {
    forall a | a in m' ensures m'[a].mem >= 0 {
      assert ResourcesOf(m', a).mem == ResourcesOf(m, a).mem;
    }
  }

  lemma SameLimits(c: Chain, c': Chain)
    requires LimitsAgree(c) && c'.book == c.book && c'.limits == c.limits && c'.stakes.resources == c.stakes.resources
    ensures LimitsAgree(c')
  {
    forall a | a in c'.stakes.resources ensures AccountAgrees(c', a) {
      assert AccountAgrees(c, a);
    }
  }

  lemma SameTokens(c: Chain, grown: Chain, paid: Chain, bought: Chain, c1: Chain, c': Chain)
    requires grown.token == c.token && grown.producing == c.producing
    requires TokensKept(grown, paid) && TokensKept(bought, c1)
    requires bought.token == paid.token && bought.producing == paid.producing
    requires c'.token == c1.token && c'.producing == c1.producing
    ensures TokensKept(c, c')
  {
    hide Conserved;
    forall a | IsProducing(Env(c), a) && BalanceOf(c.token, a, INR) >= FLOOR ensures BalanceOf(c'.token, a, INR) >= FLOOR {
      assert IsProducing(Env(grown), a);
      assert IsProducing(Env(bought), a);
    }
  }

  // ---------- selling ----------

  lemma SellStages(c: Chain, auth: set<Name>, account: Name, bytes: int, growth: Growth)
    returns (sold: Chain, c1: Chain, c2: Chain, tokens: int)
    requires SellRes(c, auth, account, bytes, growth).Success?
    ensures account in auth && bytes > 0 && account in c.stakes.resources && tokens == BytesToTokens(bytes) * 10000 && tokens > 1
    ensures bytes <= c.stakes.resources[account].mem
    ensures var g := GrowSupply(c.market, c.now);
      && g.memStake - tokens >= 0
      && sold == WriteMemory(c.(market := g.(base := g.base + bytes, quote := g.quote - tokens, memStake := g.memStake - tokens)),
                             account, c.stakes.resources[account].mem - bytes)
    ensures UndelegateBw(sold, auth, account, account, tokens, tokens, growth) == Success(c1)
    ensures FollowMemory(c1, account, c.stakes.resources[account].mem - bytes) == Success(c2)
    ensures SellRes(c, auth, account, bytes, growth) == Send(c2, MEM, account, tokens)
  {
    hide Send, UndelegateBw, FollowMemory, GrowSupply, WriteMemory;
    var g := GrowSupply(c.market, c.now);
    var (m, out) := ConvertBytes(g, bytes);
    tokens := out * 10000;
    var held := c.stakes.resources[account].mem;
    sold := WriteMemory(c.(market := m.(memStake := m.memStake - tokens)), account, held - bytes);
    c1 := UndelegateBw(sold, auth, account, account, tokens, tokens, growth).value;
    c2 := FollowMemory(c1, account, held - bytes).value;
  }

  lemma CoveredSale(m: Market, sold: int, bytes: int)
    requires MarketSound(m, sold) && 0 < bytes <= sold
    ensures var tokens := BytesToTokens(bytes) * 10000;
      MarketSound(m.(base := m.base + bytes, quote := m.quote - tokens, memStake := m.memStake - tokens), sold - bytes)
  {
    assert bytes / MEBIBYTE * MEBIBYTE <= bytes;
  }

  lemma HeldWithinSold(m: map<Name, Resources>, account: Name)
    requires MemNonNegative(m) && account in m
    ensures m[account].mem <= TotalMem(m)
  {
    hide Sum;
    SumNonNegative(MemColumn(m));
    assert MemColumn(m)[account] == m[account].mem;
  }

  lemma SendEnds(c: Chain, from: Name, to: Name, amount: int)
    ensures var r := Send(c, from, to, amount); r.Failure? ==> !Impossible(r.error)
  {
  }

  lemma UndelegateEnds(c: Chain, auth: set<Name>, account: Name, tokens: int, growth: Growth)
    requires StakesSound(c.stakes, c.book) && WellFormed(c.book)
    ensures var r := UndelegateBw(c, auth, account, account, tokens, tokens, growth); r.Failure? ==> !Impossible(r.error)
  {
    hide ChangeBw, StakesSound, WellFormed;
    ChangeBwCannotFail(c, auth, account, account, -tokens, -tokens, false, growth);
  }

  lemma FollowEnds(c: Chain, account: Name, mem: int)
    ensures var r := FollowMemory(c, account, mem); r.Failure? ==> !Impossible(r.error)
  {
  }

  /** The collateral check of a sale can never fail: what is sold was paid for. */
  lemma SaleIsCovered(c: Chain, auth: set<Name>, account: Name, bytes: int, growth: Growth)
    requires MemorySound(c) && StakesSound(c.stakes, c.book) && WellFormed(c.book)
    ensures var r := SellRes(c, auth, account, bytes, growth); r.Failure? ==> !Impossible(r.error)
  {
    hide WellFormed, StakesSound, TotalMem, GrowSupply, Send, UndelegateBw, FollowMemory, WriteMemory, Impossible;
    assert !Impossible(MissingAuthority) && !Impossible(NotPositive) && !Impossible(ProducerNotFound) && !Impossible(NoResourceRow)
      && !Impossible(FreeResources) && !Impossible(InsufficientQuota) && !Impossible(SaleTooSmall) by { PlainFailures(); }
    if account in c.stakes.resources && 0 < bytes <= c.stakes.resources[account].mem {
      var g := GrowSupply(c.market, c.now);
      var tokens := BytesToTokens(bytes) * 10000;
      var held := c.stakes.resources[account].mem;
      GrowKeeps(c.market, c.now, TotalMem(c.stakes.resources));
      HeldWithinSold(c.stakes.resources, account);
      CoveredSale(g, TotalMem(c.stakes.resources), bytes);
      var sold := WriteMemory(c.(market := g.(base := g.base + bytes, quote := g.quote - tokens, memStake := g.memStake - tokens)),
                              account, held - bytes);
      SoldState(c, sold, account, bytes, tokens);
      UndelegateEnds(sold, auth, account, tokens, growth);
      if UndelegateBw(sold, auth, account, account, tokens, tokens, growth).Success? {
        var c1 := UndelegateBw(sold, auth, account, account, tokens, tokens, growth).value;
        FollowEnds(c1, account, held - bytes);
        if FollowMemory(c1, account, held - bytes).Success? {
          SendEnds(FollowMemory(c1, account, held - bytes).value, MEM, account, tokens);
        }
      }
    }
  }

  lemma PlainFailures()
    ensures !Impossible(MissingAuthority) && !Impossible(NotPositive) && !Impossible(ProducerNotFound) && !Impossible(NoResourceRow)
      && !Impossible(FreeResources) && !Impossible(InsufficientQuota) && !Impossible(SaleTooSmall)
  {
  }

  /** Selling is the reverse: market, memory stake and memory account fall by the same tokens. */
  lemma SellEffect(c: Chain, auth: set<Name>, account: Name, bytes: int, growth: Growth) returns (c': Chain, tokens: int)
    requires StakesSound(c.stakes, c.book) && WellFormed(c.book)
    requires SellRes(c, auth, account, bytes, growth).Success?
    ensures SellRes(c, auth, account, bytes, growth) == Success(c')
    ensures TradeEffect(c, c') && account in auth && account != MEM && bytes > 0
    ensures tokens == BytesToTokens(bytes) * 10000 && tokens > 0
    ensures var g := GrowSupply(c.market, c.now);
      c'.market == g.(base := g.base + bytes, quote := g.quote - tokens, memStake := g.memStake - tokens)
    ensures account in c.stakes.resources && ResourcesOf(c'.stakes.resources, account).mem == c.stakes.resources[account].mem - bytes
    ensures MemLimitFollows(c', account)
    ensures Paid(c.token, c'.token, MEM, account, tokens)
    ensures account != STAKE ==> Obligations(c'.stakes) == Obligations(c.stakes)
    ensures UpdateVotingPower(c.book, account, -tokens - tokens, Clock(c.now, growth)) == Success(c'.book)
    ensures account == STAKE ==> c'.stakes.refunds == c.stakes.refunds
    ensures account != STAKE ==>
      Settle(c.stakes.refunds, account, -tokens, -tokens, true, c.now / SECOND) == Success(Settled(c'.stakes.refunds, 0))
  {
    hide SumOf, WellFormed, SameStanding, ChangeBw, UpdateVotingPower, PendingRefunds, Settle, TotalMem, TokensKept, SellRes,
         UndelegateBw, FollowMemory, GrowSupply, WriteMemory, Send, TransferShare, LimitsAgree, LimitsAgreeExcept, PinsKept, RefundsSound;
    var sold, c1, c2;
    sold, c1, c2, tokens := SellStages(c, auth, account, bytes, growth);
    var held := c.stakes.resources[account].mem;
    SoldState(c, sold, account, bytes, tokens);
    UndelegateIsChange(sold, auth, account, account, tokens, tokens, growth);
    var c1', due := ChangeBwEffect(sold, auth, account, account, -tokens, -tokens, false, growth);
    if account != STAKE {
      UnstakeOwesNothing(c.stakes.refunds, account, -tokens, -tokens, true, c.now / SECOND);
    }
    var c2' := FollowMemoryKeeps(c1, account, held - bytes);
    c' := SendEffect(c2, MEM, account, tokens);
    NothingThenPaid(c.token, c1.token, c'.token, account, tokens);
    SoldTrade(c, sold, c1, c2, c', account, bytes, tokens);
  }

  lemma NothingThenPaid(t: Ledger, t1: Ledger, t': Ledger, account: Name, tokens: int)
    requires Paid(t, t1, account, STAKE, 0) && Paid(t1, t', MEM, account, tokens)
    ensures Paid(t, t', MEM, account, tokens)
  {
    forall o, s ensures BalanceOf(t', o, s) == BalanceOf(t, o, s) + TransferShare(o, s, MEM, account, Inr(tokens)) {
      assert BalanceOf(t1, o, s) == BalanceOf(t, o, s) + TransferShare(o, s, account, STAKE, Inr(0));
    }
  }

  lemma SoldState(c: Chain, sold: Chain, account: Name, bytes: int, tokens: int)
    requires StakesSound(c.stakes, c.book) && account in c.stakes.resources && bytes <= c.stakes.resources[account].mem
    requires var g := GrowSupply(c.market, c.now);
      sold == WriteMemory(c.(market := g.(base := g.base + bytes, quote := g.quote - tokens, memStake := g.memStake - tokens)),
                          account, c.stakes.resources[account].mem - bytes)
    ensures StakesSound(sold.stakes, sold.book)
    ensures var g := GrowSupply(c.market, c.now);
      sold == c.(stakes := c.stakes.(resources := sold.stakes.resources),
                 market := g.(base := g.base + bytes, quote := g.quote - tokens, memStake := g.memStake - tokens))
    ensures TotalMem(sold.stakes.resources) == TotalMem(c.stakes.resources) - bytes
    ensures ResourcesOf(sold.stakes.resources, account).mem == c.stakes.resources[account].mem - bytes
    ensures LimitsAgree(c) ==> LimitsAgreeExcept(sold, {account})
    ensures MemNonNegative(c.stakes.resources) ==> MemNonNegative(sold.stakes.resources)
  {
    hide StakesSound, TotalMem, GrowSupply;
    var g := GrowSupply(c.market, c.now);
    var p := c.(market := g.(base := g.base + bytes, quote := g.quote - tokens, memStake := g.memStake - tokens));
    WriteMemoryKeeps(p, account, c.stakes.resources[account].mem - bytes);
    if LimitsAgree(c) {
      SameLimits(c, p);
    }
  }

  lemma SoldTrade(c: Chain, sold: Chain, c1: Chain, c2: Chain, c': Chain, account: Name, bytes: int, tokens: int)
    requires account in c.stakes.resources && 0 < bytes <= c.stakes.resources[account].mem
    requires tokens == BytesToTokens(bytes) * 10000
    requires var g := GrowSupply(c.market, c.now);
      sold == c.(stakes := sold.stakes, market := g.(base := g.base + bytes, quote := g.quote - tokens, memStake := g.memStake - tokens))
    requires StakeEffect(sold, c1) && c2 == c1.(limits := c2.limits) && c2.limits.Keys == c1.limits.Keys && PinsKept(c1, c2)
    requires c' == c2.(token := c'.token) && TokensKept(c2, c') && c'.token.stats == c2.token.stats
    requires TotalMem(sold.stakes.resources) == TotalMem(c.stakes.resources) - bytes
    requires MemNonNegative(c.stakes.resources) ==> MemNonNegative(sold.stakes.resources)
    requires LimitsAgree(c) ==> LimitsAgree(c2)
    ensures TradeEffect(c, c')
  {
    hide WellFormed, StakesSound, SameStanding, TotalMem, Conserved, FloorKept, GrowSupply, BytesToTokens;
    SameTokens(c, c, c, sold, c1, c1) by { TokensReflexive(c); }
    SameTokens(c, sold, c1, c2, c', c') by { TokensAlong(c, sold, c1); }
    PinsKeptTransitive(sold, c1, c2);
    if LimitsAgree(c) {
      SameLimits(c2, c');
    }
    if MemorySound(c) {
      GrowKeeps(c.market, c.now, TotalMem(c.stakes.resources));
      HeldWithinSold(c.stakes.resources, account);
      CoveredSale(GrowSupply(c.market, c.now), TotalMem(c.stakes.resources), bytes);
      MemStays(sold.stakes.resources, c1.stakes.resources);
    }
  }

  lemma TokensReflexive(c: Chain)
    ensures TokensKept(c, c)
  {
  }

  lemma TokensAlong(c: Chain, sold: Chain, c1: Chain)
    requires sold.token == c.token && sold.producing == c.producing && TokensKept(sold, c1)
    ensures TokensKept(c, c1)
  {
    hide Conserved;
    forall a | IsProducing(Env(c), a) && BalanceOf(c.token, a, INR) >= FLOOR ensures BalanceOf(c1.token, a, INR) >= FLOOR {
      assert IsProducing(Env(sold), a);
    }
  }
}
