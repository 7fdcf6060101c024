/** What one stake change does to every other table: tokens, memory totals and chain limits. */
module StakeSteps {
  import opened Basics
  import opened Sums
  import opened Voting
  import opened Token
  import opened Chain
  import opened Staking
  import opened VotingRules
  import opened VotingSteps
  import opened StakeLedger
  import opened TokenLedger
  import opened Accounts

  // ---------- tokens ----------

  /** `amount` INR went from one account to another (nothing moved if it is 0). */
  ghost predicate Paid(t: Ledger, t': Ledger, from: Name, to: Name, amount: int) {
    forall o, s :: BalanceOf(t', o, s) == BalanceOf(t, o, s) + TransferShare(o, s, from, to, Inr(amount))
  }

  /** The token tables stay conserved, symbols stay, and producing accounts keep their floor. */
  ghost predicate TokensKept(c: Chain, c': Chain) {
    && (Conserved(c.token) ==> Conserved(c'.token))
    && SymbolsKept(c.token, c'.token)
    && FloorKept(c.token, c'.token, Env(c))
    && c'.producing == c.producing
  }

  lemma TokensKeptTransitive(c: Chain, c': Chain, c'': Chain)
    requires TokensKept(c, c') && TokensKept(c', c'')
    ensures TokensKept(c, c'')
  {
    hide Conserved;
    forall a | IsProducing(Env(c), a) && BalanceOf(c.token, a, INR) >= FLOOR
      ensures BalanceOf(c''.token, a, INR) >= FLOOR
    {
      assert IsProducing(Env(c'), a) && BalanceOf(c'.token, a, INR) >= FLOOR;
    }
  }

  lemma SendEffect(c: Chain, from: Name, to: Name, amount: int) returns (c': Chain)
    requires Send(c, from, to, amount).Success?
    ensures Send(c, from, to, amount) == Success(c') && c' == c.(token := c'.token)
    ensures c'.token.stats == c.token.stats && from != to && amount > 0 && to != CREATOR
    ensures Paid(c.token, c'.token, from, to, amount) && TokensKept(c, c')
  {
    hide Conserved, Transfer;
    var t := TransferEffect(c.token, Env(c), {from}, from, to, Inr(amount));
    c' := c.(token := t);
  }

  ghost function Obligations(st: Stakes): int { SumOf(st.delegated, All) + PendingRefunds(st.refunds) }

  /** The tokens behind stakes and refunds, beyond what is owed for them. */
  ghost function Backing(c: Chain): int { BalanceOf(c.token, STAKE, INR) - Obligations(c.stakes) }

  // ---------- memory ----------

  ghost function MemColumn(m: map<Name, Resources>): map<Name, int> { map a | a in m :: m[a].mem }

  ghost function TotalMem(m: map<Name, Resources>): int { Sum(MemColumn(m)) }

  ghost predicate SameMem(m: map<Name, Resources>, m': map<Name, Resources>) {
    forall a :: ResourcesOf(m', a).mem == ResourcesOf(m, a).mem
  }

  lemma StoreMem(m: map<Name, Resources>, a: Name, row: Resources)
    ensures TotalMem(StoreResources(m, a, row)) == TotalMem(m) + row.mem - ResourcesOf(m, a).mem
    ensures TotalMem(m[a := row]) == TotalMem(m) + row.mem - ResourcesOf(m, a).mem
  {
    hide Sum;
    assert MemColumn(m - {a}) == MemColumn(m) - {a};
    SumErase(MemColumn(m), a);
    assert MemColumn(m[a := row]) == MemColumn(m)[a := row.mem];
    SumWrite(MemColumn(m), a, row.mem);
  }

  // ---------- limits ----------

  /** An unmanaged limit is the owner's staked total; only existing accounts have flags. */
  ghost predicate LimitsAgreeExcept(c: Chain, but: set<Name>) {
    && (forall a :: FlagsOf(c.book, a) != UNMANAGED ==> a in c.limits)
    && (forall a :: a in c.stakes.resources && a !in but ==> AccountAgrees(c, a))
  }

  ghost predicate AccountAgrees(c: Chain, a: Name)
    requires a in c.stakes.resources
  {
    && a in c.limits
    && (!FlagsOf(c.book, a).net ==> c.limits[a].net == c.stakes.resources[a].net)
    && (!FlagsOf(c.book, a).cpu ==> c.limits[a].cpu == c.stakes.resources[a].cpu)
  }

  ghost predicate LimitsAgree(c: Chain) { LimitsAgreeExcept(c, {}) }

  function LimitOf(l: Limits, r: Resource): int {
    match r case Mem => l.mem case Net => l.net case Cpu => l.cpu
  }

  /** No pin is set or lifted, and every pinned limit is where it was. */
  ghost predicate PinsKept(c: Chain, c': Chain) {
    && (forall a :: FlagsOf(c'.book, a) == FlagsOf(c.book, a))
    && c.limits.Keys <= c'.limits.Keys
    && (forall a, r :: a in c.limits && Managed(FlagsOf(c.book, a), r) ==> LimitOf(c'.limits[a], r) == LimitOf(c.limits[a], r))
  }

  /** Stake changes never lower what an account may store. */
  ghost predicate MemLimitsRise(c: Chain, c': Chain) {
    forall a :: a in c.limits ==> a in c'.limits && c'.limits[a].mem >= c.limits[a].mem
  }

  /** An unmanaged account may store what its row says, and the gift. */
  ghost predicate MemLimitFollows(c: Chain, a: Name) {
    !FlagsOf(c.book, a).mem ==> a in c.limits && c.limits[a].mem == ResourcesOf(c.stakes.resources, a).mem + MEM_GIFT_BYTES
  }

  lemma PinsKeptTransitive(c: Chain, c': Chain, c'': Chain)
    requires PinsKept(c, c') && PinsKept(c', c'')
    ensures PinsKept(c, c'')
  {
    forall a, r | a in c.limits && Managed(FlagsOf(c.book, a), r)
      ensures LimitOf(c''.limits[a], r) == LimitOf(c.limits[a], r)
    {
      assert a in c'.limits && Managed(FlagsOf(c'.book, a), r);
    }
  }

  // ---------- the stake change ----------

  ghost predicate StakeEffect(c: Chain, c': Chain) {
    && c' == c.(book := c'.book, stakes := c'.stakes, limits := c'.limits, token := c'.token)
    && c'.limits.Keys == c.limits.Keys
    && c'.token.stats == c.token.stats
    && WellFormed(c'.book) && SameStanding(c.book, c'.book)
    && StakesSound(c'.stakes, c'.book)
    && SameMem(c.stakes.resources, c'.stakes.resources)
    && TotalMem(c'.stakes.resources) == TotalMem(c.stakes.resources)
    && PinsKept(c, c')
    && MemLimitsRise(c, c')
    && TokensKept(c, c')
  }

  lemma RedelegateLimits(c: Chain, from: Name, receiver: Name, net: int, cpu: int) returns (c': Chain)
    requires Redelegate(c, from, receiver, net, cpu).Success?
    ensures Redelegate(c, from, receiver, net, cpu) == Success(c')
    ensures c'.limits.Keys == c.limits.Keys && PinsKept(c, c') && MemLimitsRise(c, c')
    ensures SameMem(c.stakes.resources, c'.stakes.resources)
    ensures TotalMem(c'.stakes.resources) == TotalMem(c.stakes.resources)
    ensures LimitsAgreeExcept(c, {receiver}) ==> LimitsAgree(c')
  {
    hide TotalMem;
    c' := Redelegate(c, from, receiver, net, cpu).value;
    var was := ResourcesOf(c.stakes.resources, receiver);
    var tot := was.(net := was.net + net, cpu := was.cpu + cpu);
    StoreMem(c.stakes.resources, receiver, tot);
    var f := FlagsOf(c.book, receiver);
    forall a, r | a in c.limits && Managed(FlagsOf(c.book, a), r)
      ensures LimitOf(c'.limits[a], r) == LimitOf(c.limits[a], r)
    {
      if a == receiver && !(f.net && f.cpu) {
        assert Managed(f, r);
      }
    }
    if LimitsAgreeExcept(c, {receiver}) {
      forall a | a in c'.stakes.resources ensures AccountAgrees(c', a) {
        if a != receiver {
          assert AccountAgrees(c, a);
        }
      }
    }
  }

  lemma SettlePays(c: Chain, payer: Name, from: Name, net: int, cpu: int, toSelf: bool) returns (c': Chain, due: int)
    requires SettleStake(c, payer, from, net, cpu, toSelf).Success?
    requires RefundsSound(c.stakes.refunds) && SameSign(net, cpu)
    ensures SettleStake(c, payer, from, net, cpu, toSelf) == Success(c')
    ensures c' == c.(token := c'.token, stakes := c.stakes.(refunds := c'.stakes.refunds))
    ensures c'.token.stats == c.token.stats && due >= 0
    ensures Paid(c.token, c'.token, payer, STAKE, due) && TokensKept(c, c')
    ensures payer == STAKE ==> due == 0 && c' == c
    ensures payer != STAKE ==>
      PendingRefunds(c'.stakes.refunds) - PendingRefunds(c.stakes.refunds) == due - (net + cpu)
      && Settle(c.stakes.refunds, from, net, cpu, toSelf, c.now / SECOND) == Success(Settled(c'.stakes.refunds, due))
  {
    hide Settle, Send, RefundsSound, Conserved, PendingRefunds;
    due := 0;
    c' := c;
    if payer != STAKE {
      SettleBalances(c.stakes.refunds, from, net, cpu, toSelf, c.now / SECOND);
      var s := Settle(c.stakes.refunds, from, net, cpu, toSelf, c.now / SECOND).value;
      due := s.due;
      c' := c.(stakes := c.stakes.(refunds := s.refunds));
      if 0 < due {
        c' := SendEffect(c', payer, STAKE, due);
      }
    }
  }

  lemma BookLeavesLimits(c: Chain, c1: Chain, c': Chain)
    requires c1.book == c.book && SameStanding(c.book, c'.book)
    requires c'.limits == c1.limits && c'.stakes.resources == c1.stakes.resources
    ensures PinsKept(c, c1) ==> PinsKept(c, c')
    ensures LimitsAgree(c1) ==> LimitsAgree(c')
  {
    if LimitsAgree(c1) {
      forall a | a in c'.stakes.resources ensures AccountAgrees(c', a) {
        assert AccountAgrees(c1, a);
      }
    }
  }

  lemma TokensFromStage(c: Chain, c1: Chain, c2: Chain, c': Chain)
    requires TokensKept(c1, c2) && c1.token == c.token && c1.producing == c.producing
    requires c'.token == c2.token && c'.producing == c2.producing
    ensures TokensKept(c, c')
  {
    hide Conserved;
    forall a | IsProducing(Env(c), a) && BalanceOf(c.token, a, INR) >= FLOOR ensures BalanceOf(c'.token, a, INR) >= FLOOR {
      assert IsProducing(Env(c1), a);
    }
  }

  /** Everything a stake change keeps. `due` is what the payer sends to the stake account. */
  lemma ChangeBwEffect(c: Chain, auth: set<Name>, payer: Name, receiver: Name, net: int, cpu: int, transfer: bool, growth: Growth)
    returns (c': Chain, due: int)
    requires StakesSound(c.stakes, c.book) && WellFormed(c.book)
    requires ChangeBw(c, auth, payer, receiver, net, cpu, transfer, growth).Success?
    ensures ChangeBw(c, auth, payer, receiver, net, cpu, transfer, growth) == Success(c')
    ensures StakeEffect(c, c') && payer in auth && due >= 0
    ensures LimitsAgreeExcept(c, {receiver}) ==> LimitsAgree(c')
    ensures Paid(c.token, c'.token, payer, STAKE, due)
    ensures payer == STAKE ==> due == 0
    ensures payer != STAKE ==> Obligations(c'.stakes) == Obligations(c.stakes) + due
    ensures UpdateVotingPower(c.book, if transfer then receiver else payer, net + cpu, Clock(c.now, growth)) == Success(c'.book)
    ensures payer == STAKE ==> c'.stakes.refunds == c.stakes.refunds
    ensures payer != STAKE ==> Settle(c.stakes.refunds, if transfer then receiver else payer, net, cpu,
      !transfer && payer == receiver, c.now / SECOND) == Success(Settled(c'.stakes.refunds, due))
  {
    hide SumOf, WellFormed, SameStanding, ChangeBw, Redelegate, SettleStake, UpdateVotingPower, RefundsSound,
         PendingRefunds, Settle, TotalMem, SameMem, TokensKept, Paid;
    var from, c1, c2, b := ChangeBwStages(c, auth, payer, receiver, net, cpu, transfer, growth);
    ChangeBwAgrees(c, auth, payer, receiver, net, cpu, transfer, growth);
    RedelegateAgrees(c, from, receiver, net, cpu);
    var c1' := RedelegateLimits(c, from, receiver, net, cpu);
    var c2';
    c2', due := SettlePays(c1, payer, from, net, cpu, !transfer && from == receiver);
    c' := c2.(book := b);
    BookLeavesLimits(c, c1, c');
    TokensFromStage(c, c1, c2, c');
  }
}
