/** The delegation table against the three running totals kept beside it, and against the tokens
    that back it. */
module StakeLedger {
  import opened Basics
  import opened Sums
  import opened Voting
  import opened Token
  import opened Chain
  import opened Staking
  import opened VotingRules
  import opened BookSteps
  import opened VotingSteps

  /** The sums one can take over the delegation table. */
  datatype Part = NetTo(receiver: Name) | CpuTo(receiver: Name) | From(owner: Name) | All

  function PartOf(part: Part, k: (Name, Name), row: Bandwidth): int {
    match part
    case NetTo(r) => if k.1 == r then row.net else 0
    case CpuTo(r) => if k.1 == r then row.cpu else 0
    case From(f) => if k.0 == f then row.net + row.cpu else 0
    case All => row.net + row.cpu
  }

  ghost function Column(d: Delegations, part: Part): map<(Name, Name), int> {
    map k | k in d :: PartOf(part, k, d[k])
  }

  ghost function SumOf(d: Delegations, part: Part): int { Sum(Column(d, part)) }

  ghost function RefundColumn(m: Refunds): map<Name, int> {
    map o | o in m :: m[o].net + m[o].cpu
  }

  ghost function PendingRefunds(m: Refunds): int { Sum(RefundColumn(m)) }

  ghost predicate RowsSound(d: Delegations) {
    forall k :: k in d ==> d[k].net >= 0 && d[k].cpu >= 0 && d[k] != Bandwidth(0, 0)
  }

  /** Stored refunds are non-negative and never empty. */
  ghost predicate RefundsSound(m: Refunds) {
    forall o :: o in m ==> m[o].net >= 0 && m[o].cpu >= 0 && m[o].net + m[o].cpu > 0
  }

  /** Each receiver's totals are its column sums, with an absent row counting as nothing. */
  ghost predicate TotalsAgree(st: Stakes) {
    forall r :: ResourcesOf(st.resources, r).net == SumOf(st.delegated, NetTo(r))
      && ResourcesOf(st.resources, r).cpu == SumOf(st.delegated, CpuTo(r))
  }

  /** Each voter's stake is its row sum. */
  ghost predicate VotersAgree(st: Stakes, b: Book) {
    forall v :: RowOf(b, v).staked == SumOf(st.delegated, From(v))
  }

  ghost predicate StakesSound(st: Stakes, b: Book) {
    RowsSound(st.delegated) && RefundsSound(st.refunds) && TotalsAgree(st) && VotersAgree(st, b)
  }

  // ---------- one row ----------

  lemma StoreSum(d: Delegations, k: (Name, Name), row: Bandwidth, part: Part)
    ensures SumOf(StoreDelegation(d, k, row), part)
      == SumOf(d, part) + PartOf(part, k, row) - PartOf(part, k, StakedFor(d, k))
  {
    hide Sum;
    if row == Bandwidth(0, 0) {
      assert Column(d - {k}, part) == Column(d, part) - {k};
      SumErase(Column(d, part), k);
    } else {
      assert Column(d[k := row], part) == Column(d, part)[k := PartOf(part, k, row)];
      SumWrite(Column(d, part), k, PartOf(part, k, row));
    }
  }

  lemma StoreRefundSum(m: Refunds, o: Name, row: Refund)
    ensures PendingRefunds(StoreRefund(m, o, row))
      == PendingRefunds(m) + row.net + row.cpu - (if o in m then m[o].net + m[o].cpu else 0)
  {
    hide Sum;
    if row.net == 0 && row.cpu == 0 {
      assert RefundColumn(m - {o}) == RefundColumn(m) - {o};
      SumErase(RefundColumn(m), o);
    } else {
      assert RefundColumn(m[o := row]) == RefundColumn(m)[o := row.net + row.cpu];
      SumWrite(RefundColumn(m), o, row.net + row.cpu);
    }
  }

  lemma SumNonNegativeOf(d: Delegations, part: Part)
    requires RowsSound(d)
    ensures SumOf(d, part) >= 0
  {
    SumNonNegative(Column(d, part));
  }

  /** A delegation row is part of its receiver's totals and of its owner's stake. */
  lemma RowWithinSums(d: Delegations, k: (Name, Name))
    requires RowsSound(d)
    ensures StakedFor(d, k).net <= SumOf(d, NetTo(k.1)) && StakedFor(d, k).cpu <= SumOf(d, CpuTo(k.1))
    ensures StakedFor(d, k).net + StakedFor(d, k).cpu <= SumOf(d, From(k.0))
  {
    hide Sum;
    SumNonNegative(Column(d, NetTo(k.1)));
    SumNonNegative(Column(d, CpuTo(k.1)));
    SumNonNegative(Column(d, From(k.0)));
    if k in d {
      assert Column(d, NetTo(k.1))[k] == d[k].net;
      assert Column(d, CpuTo(k.1))[k] == d[k].cpu;
      assert Column(d, From(k.0))[k] == d[k].net + d[k].cpu;
    }
  }

  // ---------- settling with the pending refund ----------

  /** The pending refund absorbs what it can; tokens cover the rest, and nothing is lost between. */
  lemma SettleBalances(m: Refunds, owner: Name, net: int, cpu: int, toSelf: bool, second: int)
    requires RefundsSound(m) && ((net >= 0 && cpu >= 0) || (net <= 0 && cpu <= 0)) && (net != 0 || cpu != 0)
    ensures var r := Settle(m, owner, net, cpu, toSelf, second);
      && r.Success?
      && RefundsSound(r.value.refunds)
      && r.value.due >= 0
      && PendingRefunds(r.value.refunds) - PendingRefunds(m) == r.value.due - (net + cpu)
  {
    if toSelf || net + cpu < 0 {
      if owner in m {
        var requested := if net < 0 || cpu < 0 then second else m[owner].requested;
        StoreRefundSum(m, owner, Refund(requested, Max(m[owner].net - net, 0), Max(m[owner].cpu - cpu, 0)));
      } else if net < 0 || cpu < 0 {
        var row := Refund(second, if net < 0 then -net else 0, if cpu < 0 then -cpu else 0);
        StoreRefundSum(m, owner, row);
      }
    }
  }

  // ---------- the whole of changebw ----------

  predicate SameSign(net: int, cpu: int) {
    (net != 0 || cpu != 0) && ((net >= 0 && cpu >= 0) || (net <= 0 && cpu <= 0))
  }

  lemma RedelegateFrame(c: Chain, from: Name, receiver: Name, net: int, cpu: int)
    requires Redelegate(c, from, receiver, net, cpu).Success?
    ensures var c' := Redelegate(c, from, receiver, net, cpu).value;
      c' == c.(limits := c'.limits, stakes := c'.stakes.(refunds := c.stakes.refunds))
  {
    hide FollowTotals;
  }

  lemma SettleStakeFrame(c: Chain, payer: Name, from: Name, net: int, cpu: int, toSelf: bool)
    requires SettleStake(c, payer, from, net, cpu, toSelf).Success?
    ensures var c' := SettleStake(c, payer, from, net, cpu, toSelf).value;
      c' == c.(token := c'.token, stakes := c.stakes.(refunds := c'.stakes.refunds))
  {
    hide Transfer, Settle;
  }

  /** A successful stake change, stage by stage. */
  lemma ChangeBwStages(c: Chain, auth: set<Name>, payer: Name, receiver: Name, net: int, cpu: int, transfer: bool, growth: Growth)
    returns (from: Name, c1: Chain, c2: Chain, b: Book)
    requires ChangeBw(c, auth, payer, receiver, net, cpu, transfer, growth).Success?
    ensures from == (if transfer then receiver else payer) && payer in auth && SameSign(net, cpu)
    ensures Redelegate(c, from, receiver, net, cpu) == Success(c1)
    ensures SettleStake(c1, payer, from, net, cpu, !transfer && from == receiver) == Success(c2)
    ensures UpdateVotingPower(c.book, from, net + cpu, Clock(c.now, growth)) == Success(b)
    ensures ChangeBw(c, auth, payer, receiver, net, cpu, transfer, growth) == Success(c2.(book := b))
    ensures c2 == c.(limits := c1.limits, token := c2.token, stakes := c1.stakes.(refunds := c2.stakes.refunds))
    ensures c1 == c.(limits := c1.limits, stakes := c1.stakes.(refunds := c.stakes.refunds))
  {
    hide Redelegate, SettleStake, UpdateVotingPower;
    from := if transfer then receiver else payer;
    c1 := Redelegate(c, from, receiver, net, cpu).value;
    RedelegateFrame(c, from, receiver, net, cpu);
    c2 := SettleStake(c1, payer, from, net, cpu, !transfer && from == receiver).value;
    SettleStakeFrame(c1, payer, from, net, cpu, !transfer && from == receiver);
    b := UpdateVotingPower(c.book, from, net + cpu, Clock(c.now, growth)).value;
  }

  /** One delegation row and the receiver's totals move together. */
  lemma TotalsFollow(st: Stakes, from: Name, receiver: Name, net: int, cpu: int) returns (st': Stakes)
    requires TotalsAgree(st)
    ensures var had, was := StakedFor(st.delegated, (from, receiver)), ResourcesOf(st.resources, receiver);
      st' == st.(delegated := StoreDelegation(st.delegated, (from, receiver), Bandwidth(had.net + net, had.cpu + cpu)),
                 resources := StoreResources(st.resources, receiver, was.(net := was.net + net, cpu := was.cpu + cpu)))
    ensures TotalsAgree(st')
    ensures forall part :: SumOf(st'.delegated, part) == SumOf(st.delegated, part) + PartOf(part, (from, receiver), Bandwidth(net, cpu))
  {
    hide SumOf, StoreDelegation;
    var k := (from, receiver);
    var had, was := StakedFor(st.delegated, k), ResourcesOf(st.resources, receiver);
    var row := Bandwidth(had.net + net, had.cpu + cpu);
    st' := st.(delegated := StoreDelegation(st.delegated, k, row),
               resources := StoreResources(st.resources, receiver, was.(net := was.net + net, cpu := was.cpu + cpu)));
    forall part
      ensures SumOf(st'.delegated, part) == SumOf(st.delegated, part) + PartOf(part, k, Bandwidth(net, cpu))
    {
      StoreSum(st.delegated, k, row, part);
    }
    forall r
      ensures ResourcesOf(st'.resources, r).net == SumOf(st'.delegated, NetTo(r))
      ensures ResourcesOf(st'.resources, r).cpu == SumOf(st'.delegated, CpuTo(r))
    {
      assert ResourcesOf(st.resources, r).net == SumOf(st.delegated, NetTo(r));
    }
  }

  /** Once the delegation row stays non-negative, so do the receiver's totals and the voter's stake. */
  lemma RedelegateAgrees(c: Chain, from: Name, receiver: Name, net: int, cpu: int)
    requires RowsSound(c.stakes.delegated) && TotalsAgree(c.stakes)
    ensures var r := Redelegate(c, from, receiver, net, cpu);
      && r !in {Failure(TotalNetNegative), Failure(TotalCpuNegative)}
      && (r.Success? ==>
        && RowsSound(r.value.stakes.delegated)
        && TotalsAgree(r.value.stakes)
        && (forall part :: SumOf(r.value.stakes.delegated, part)
              == SumOf(c.stakes.delegated, part) + PartOf(part, (from, receiver), Bandwidth(net, cpu)))
        && StakedFor(c.stakes.delegated, (from, receiver)).net + net >= 0
        && StakedFor(c.stakes.delegated, (from, receiver)).cpu + cpu >= 0)
  {
    hide SumOf, StoreResources, PartOf;
    RowWithinSums(c.stakes.delegated, (from, receiver));
    assert ResourcesOf(c.stakes.resources, receiver).net == SumOf(c.stakes.delegated, NetTo(receiver));
    var st' := TotalsFollow(c.stakes, from, receiver, net, cpu);
    hide TotalsAgree;
  }

  lemma StakeNeverNegative(c: Chain, from: Name, receiver: Name, net: int, cpu: int)
    requires StakesSound(c.stakes, c.book)
    requires StakedFor(c.stakes.delegated, (from, receiver)).net + net >= 0
    requires StakedFor(c.stakes.delegated, (from, receiver)).cpu + cpu >= 0
    ensures RowOf(c.book, from).staked + net + cpu >= 0
  {
    hide SumOf;
    RowWithinSums(c.stakes.delegated, (from, receiver));
    assert RowOf(c.book, from).staked == SumOf(c.stakes.delegated, From(from));
  }

  /** The three ledgers still agree after any stake change. */
  lemma ChangeBwAgrees(c: Chain, auth: set<Name>, payer: Name, receiver: Name, net: int, cpu: int, transfer: bool, growth: Growth)
    requires StakesSound(c.stakes, c.book) && WellFormed(c.book)
    requires ChangeBw(c, auth, payer, receiver, net, cpu, transfer, growth).Success?
    ensures var c' := ChangeBw(c, auth, payer, receiver, net, cpu, transfer, growth).value;
      StakesSound(c'.stakes, c'.book) && WellFormed(c'.book) && SameStanding(c.book, c'.book)
  {
    hide SumOf, WellFormed, SameStanding, ChangeBw, Redelegate, UpdateVotingPower, RefundsSound;
    var from, c1, c2, b := ChangeBwStages(c, auth, payer, receiver, net, cpu, transfer, growth);
    RedelegateAgrees(c, from, receiver, net, cpu);
    if payer != STAKE {
      SettleBalances(c.stakes.refunds, from, net, cpu, !transfer && from == receiver, c.now / SECOND);
    }
    var b' := StakeKeepsShape(c.book, from, net + cpu, Clock(c.now, growth));
    forall v ensures RowOf(b', v).staked == SumOf(c1.stakes.delegated, From(v)) {
      assert RowOf(c.book, v).staked == SumOf(c.stakes.delegated, From(v));
    }
  }

  /** The checks that guard the totals, the voter's stake, the refund row and the memory stake, and
      endless propagation. */
  predicate Impossible(e: Error) {
    e.TotalNetNegative? || e.TotalCpuNegative? || e.StakedNegative? || e.RefundNegative? || e.Diverges? || e.MemStakeNegative?
  }

  lemma StakeEnds(b: Book, voter: Name, delta: int, k: Clock)
    requires WellFormed(b) && RowOf(b, voter).staked + delta >= 0
    ensures var r := UpdateVotingPower(b, voter, delta, k); r.Failure? ==> !Impossible(r.error)
  {
    hide UpdateVotes, WellFormed;
    var b1 := AddStake(b, voter, delta);
    AddStakeIsRow(b, voter, delta);
    PlainRow(b, voter);
    RewriteVoterShape(b, voter, b1.voters[voter]);
    VoteEnds(b1, voter, b1.voters[voter].proxy, b1.voters[voter].producers, false, k);
  }

  lemma SettleEnds(c: Chain, payer: Name, from: Name, net: int, cpu: int, toSelf: bool)
    requires RefundsSound(c.stakes.refunds) && SameSign(net, cpu)
    ensures var r := SettleStake(c, payer, from, net, cpu, toSelf); r.Failure? ==> !Impossible(r.error)
  {
    hide Settle, RefundsSound;
    SettleBalances(c.stakes.refunds, from, net, cpu, toSelf, c.now / SECOND);
  }

  lemma RedelegateEnds(c: Chain, from: Name, receiver: Name, net: int, cpu: int)
    requires RowsSound(c.stakes.delegated) && TotalsAgree(c.stakes)
    ensures var r := Redelegate(c, from, receiver, net, cpu); r.Failure? ==> !Impossible(r.error)
  {
    RedelegateAgrees(c, from, receiver, net, cpu);
  }

  /** None of those checks can fail, and propagation always ends, once the ledgers agree. */
  lemma ChangeBwCannotFail(c: Chain, auth: set<Name>, payer: Name, receiver: Name, net: int, cpu: int, transfer: bool, growth: Growth)
    requires StakesSound(c.stakes, c.book) && WellFormed(c.book)
    ensures var r := ChangeBw(c, auth, payer, receiver, net, cpu, transfer, growth); r.Failure? ==> !Impossible(r.error)
  {
    hide SumOf, RefundsSound, WellFormed, Redelegate, SettleStake, UpdateVotingPower;
    var from := if transfer then receiver else payer;
    if payer in auth && SameSign(net, cpu) {
      RedelegateAgrees(c, from, receiver, net, cpu);
      RedelegateEnds(c, from, receiver, net, cpu);
      if Redelegate(c, from, receiver, net, cpu).Success? {
        RedelegateFrame(c, from, receiver, net, cpu);
        var c1 := Redelegate(c, from, receiver, net, cpu).value;
        SettleEnds(c1, payer, from, net, cpu, !transfer && from == receiver);
        if SettleStake(c1, payer, from, net, cpu, !transfer && from == receiver).Success? {
          SettleStakeFrame(c1, payer, from, net, cpu, !transfer && from == receiver);
          StakeNeverNegative(c, from, receiver, net, cpu);
          StakeEnds(c.book, from, net + cpu, Clock(c.now, growth));
        }
      }
    }
  }
}
