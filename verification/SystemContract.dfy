/** The system contract as it runs: tables and global state updated in place, one method for each
    action, and transactions that are rolled back when a check fails. */
module SystemContract {
  import opened Basics
  import opened Voting
  import opened VotingRules
  import opened BookSteps
  import opened VotingSteps
  import opened Token
  import opened Chain
  import opened Staking
  import opened Memory
  import opened Election
  import opened Rewards
  import opened Accounts
  import opened Runs
  import opened Invariants
  import opened AccountSteps
  import opened VotingTables
  import opened TokenTables

  /** Following the totals reads the voters' flags and the limits alone. */
  lemma FollowsBookAndLimits(c: Chain, c': Chain, receiver: Name, tot: Resources)
    requires c'.book == c.book && c'.limits == c.limits
    ensures FollowTotals(c', receiver, tot) == FollowTotals(c, receiver, tot)
  {
  }

  /** The connectors of the memory market (exchange_state.cpp). */
  class ExchangeState {
    var base: int
    var quote: int

    constructor (base: int, quote: int)
      ensures this.base == base && this.quote == quote
    {
      this.base, this.quote := base, quote;
    }

    method Restore(base: int, quote: int)
      modifies this
      ensures this.base == base && this.quote == quote
    {
      this.base, this.quote := base, quote;
    }

    method TokensForMemory(amount: int) returns (out: int)
      modifies this
      ensures out == TokensToBytes(amount)
      ensures quote == old(quote) + amount && base == old(base) - out / 10000
    {
      out := amount * 1024 * 1024;
      if out < 0 {
        out := 0;
      }
      quote := quote + amount;
      base := base - out / 10000;
    }

    method MemoryForTokens(bytes: int) returns (out: int)
      modifies this
      ensures out == BytesToTokens(bytes)
      ensures base == old(base) + bytes && quote == old(quote) - out * 10000
    {
      out := bytes / (1024 * 1024);
      if out < 0 {
        out := 0;
      }
      base := base + bytes;
      quote := quote - out * 10000;
    }
  }

  /** The part of the global state that is about memory. */
  datatype MemorySizes = MemorySizes(memStake: int, maxSize: int, perBlock: nat, grownAt: nat)

  function SizesOf(m: Market): MemorySizes { MemorySizes(m.memStake, m.maxSize, m.perBlock, m.grownAt) }

  class SystemContract {
    const voting: VotingTables
    const token: TokenContract
    const market: ExchangeState
    var now: nat
    var producing: map<Name, bool>
    var delegated: Delegations
    var resources: map<Name, Resources>
    var refunds: Refunds
    var limits: map<Name, Limits>
    var sizes: MemorySizes
    var pay: Pay

    function View(): Chain
      reads this, voting, token, market
    {
      Chain(now, voting.View(), producing, Stakes(delegated, resources, refunds),
            Market(market.base, market.quote, sizes.memStake, sizes.maxSize, sizes.perBlock, sizes.grownAt), pay, limits, token.View())
    }

    /** The contracts in a given state; `Genesis` is the one that `init` leaves behind. */
    constructor (c: Chain)
      ensures View() == c && fresh(voting) && fresh(token) && fresh(market)
    {
      var v := new VotingTables();
      v.Restore(c.book);
      var t := new TokenContract();
      t.Restore(c.token);
      var m := new ExchangeState(c.market.base, c.market.quote);
      voting, token, market := v, t, m;
      now, producing, limits, pay := c.now, c.producing, c.limits, c.pay;
      delegated, resources, refunds := c.stakes.delegated, c.stakes.resources, c.stakes.refunds;
      sizes := SizesOf(c.market);
    }

    method RestoreOwn(c: Chain)
      modifies this
      ensures now == c.now && producing == c.producing && limits == c.limits && pay == c.pay
      ensures delegated == c.stakes.delegated && resources == c.stakes.resources && refunds == c.stakes.refunds
      ensures sizes == SizesOf(c.market)
    {
      now, producing, limits, pay := c.now, c.producing, c.limits, c.pay;
      delegated, resources, refunds := c.stakes.delegated, c.stakes.resources, c.stakes.refunds;
      sizes := SizesOf(c.market);
    }

    /** Puts back what an aborted transaction has written. */
    method Restore(c: Chain)
      modifies this, voting, token, market
      ensures View() == c
    {
      RestoreOwn(c);
      market.Restore(c.market.base, c.market.quote);
      token.Restore(c.token);
      voting.Restore(c.book);
    }

    method SendInline(from: Name, to: Name, amount: int) returns (st: Outcome)
      modifies token
      ensures Agrees(st, View(), Send(old(View()), from, to, amount))
    {
      hide Transfer;
      st := token.TransferFrom(Surroundings(limits.Keys, producing), {from}, from, to, Inr(amount));
    }

    // ---------- stakes ----------

    /** The delegation row: written, checked, and erased when nothing is left. */
    method WriteDelegation(from: Name, receiver: Name, net: int, cpu: int) returns (st: Outcome)
      modifies `delegated
      ensures var had := StakedFor(old(delegated), (from, receiver));
        var row := Bandwidth(had.net + net, had.cpu + cpu);
        Agrees(st, delegated, if row.net < 0 then Failure(InsufficientNet) else if row.cpu < 0 then Failure(InsufficientCpu)
                              else Success(StoreDelegation(old(delegated), (from, receiver), row)))
    {
      var k := (from, receiver);
      ghost var d := delegated;
      if k !in delegated {
        delegated := delegated[k := Bandwidth(net, cpu)];
      } else {
        delegated := delegated[k := Bandwidth(delegated[k].net + net, delegated[k].cpu + cpu)];
      }
      :- Check(0 <= delegated[k].net, InsufficientNet);
      :- Check(0 <= delegated[k].cpu, InsufficientCpu);
      if delegated[k] == Bandwidth(0, 0) {
        delegated := delegated - {k};
        assert delegated == d - {k};
      }
      return Pass;
    }

    /** The receiver's totals and chain limits; the row is erased when nothing is left. */
    method WriteTotals(receiver: Name, net: int, cpu: int) returns (st: Outcome)
      modifies `resources, `limits
      ensures var was := ResourcesOf(old(resources), receiver);
        var tot := was.(net := was.net + net, cpu := was.cpu + cpu);
        var follow := FollowTotals(old(View()), receiver, tot);
        && Agrees(st, limits, if tot.net < 0 then Failure(TotalNetNegative) else if tot.cpu < 0 then Failure(TotalCpuNegative) else follow)
        && (st.Pass? ==> resources == StoreResources(old(resources), receiver, tot))
    {
      hide FollowTotals;
      ghost var m := resources;
      if receiver !in resources {
        resources := resources[receiver := Resources(net, cpu, 0)];
      } else {
        var row := resources[receiver];
        resources := resources[receiver := row.(net := row.net + net, cpu := row.cpu + cpu)];
      }
      :- Check(0 <= resources[receiver].net, TotalNetNegative);
      :- Check(0 <= resources[receiver].cpu, TotalCpuNegative);
      FollowsBookAndLimits(old(View()), View(), receiver, resources[receiver]);
      :- FollowTotalsOf(receiver);
      if resources[receiver] == NO_RESOURCES {
        resources := resources - {receiver};
        assert resources == m - {receiver};
      }
      return Pass;
    }

    method FollowTotalsOf(receiver: Name) returns (st: Outcome)
      requires receiver in resources
      modifies `limits
      ensures Agrees(st, limits, FollowTotals(old(View()), receiver, resources[receiver]))
    {
      var f := FlagsOf(voting.View(), receiver);
      if !(f.net && f.cpu) {
        :- Check(receiver in limits, NoSuchAccount);
        var tot, was := resources[receiver], limits[receiver];
        limits := limits[receiver := Limits(
          if f.mem then was.mem else Max(tot.mem + MEM_GIFT_BYTES, was.mem),
          if f.net then was.net else tot.net,
          if f.cpu then was.cpu else tot.cpu)];
      }
      return Pass;
    }

    method MoveStake(from: Name, receiver: Name, net: int, cpu: int) returns (st: Outcome)
      modifies `delegated, `resources, `limits
      ensures Agrees(st, View(), Redelegate(old(View()), from, receiver, net, cpu))
    {
      hide FollowTotals, StoreDelegation, StoreResources;
      ghost var c := View();
      :- WriteDelegation(from, receiver, net, cpu);
      ghost var was := ResourcesOf(resources, receiver);
      FollowsBookAndLimits(c, View(), receiver, was.(net := was.net + net, cpu := was.cpu + cpu));
      :- WriteTotals(receiver, net, cpu);
      return Pass;
    }

    /** The pending refund absorbs what it can; what it leaves of the two amounts is due in tokens. */
    method SettleRefund(owner: Name, net: int, cpu: int, toSelf: bool) returns (st: Outcome, due: int)
      modifies `refunds
      ensures Agrees(st, Settled(refunds, due), Settle(old(refunds), owner, net, cpu, toSelf, now / SECOND))
    {
      var netBalance, cpuBalance := net, cpu;
      due := 0;
      if toSelf || net + cpu < 0 {
        if owner in refunds {
          var r := refunds[owner];
          if netBalance < 0 || cpuBalance < 0 {
            r := r.(requested := now / SECOND);
          }
          r := r.(net := r.net - netBalance);
          if r.net < 0 {
            netBalance := -r.net;
            r := r.(net := 0);
          } else {
            netBalance := 0;
          }
          r := r.(cpu := r.cpu - cpuBalance);
          if r.cpu < 0 {
            cpuBalance := -r.cpu;
            r := r.(cpu := 0);
          } else {
            cpuBalance := 0;
          }
          ghost var m := refunds;
          refunds := refunds[owner := r];
          if r.net < 0 { return Fail(RefundNegative), due; }
          if r.cpu < 0 { return Fail(RefundNegative), due; }
          if r.net == 0 && r.cpu == 0 {
            refunds := refunds - {owner};
            assert refunds == m - {owner};
          }
        } else if netBalance < 0 || cpuBalance < 0 {
          var r := Refund(now / SECOND, 0, 0);
          if netBalance < 0 {
            r := r.(net := -netBalance);
            netBalance := 0;
          }
          if cpuBalance < 0 {
            r := r.(cpu := -cpuBalance);
            cpuBalance := 0;
          }
          refunds := refunds[owner := r];
        }
      }
      return Pass, netBalance + cpuBalance;
    }

    method ChangeVotingPower(voter: Name, delta: int, growth: Growth) returns (st: Outcome)
      requires WellFormed(voting.View())
      modifies voting
      ensures Agrees(st, voting.View(), UpdateVotingPower(old(voting.View()), voter, delta, Clock(now, growth)))
      ensures st.Pass? ==> WellFormed(voting.View())
    {
      hide UpdateVotes, WellFormed, SameStanding;
      ghost var b := voting.View();
      AddStakeIsRow(b, voter, delta);
      PlainRow(b, voter);
      RewriteVoterShape(b, voter, AddStake(b, voter, delta).voters[voter]);
      if UpdateVotingPower(b, voter, delta, Clock(now, growth)).Success? {
        ghost var b' := StakeKeepsShape(b, voter, delta, Clock(now, growth));
      }
      if voter !in voting.voters {
        voting.voters := voting.voters[voter := NEW_VOTER.(staked := delta)];
      } else {
        voting.voters := voting.voters[voter := voting.voters[voter].(staked := voting.voters[voter].staked + delta)];
      }
      var row := voting.voters[voter];
      :- Check(0 <= row.staked, StakedNegative);
      if |row.producers| != 0 || row.proxy != NO_NAME {
        st := voting.CastVote(voter, row.proxy, row.producers, false, Clock(now, growth));
      } else {
        st := Pass;
      }
    }

    method ChangeStake(auth: set<Name>, payer: Name, receiver: Name, net: int, cpu: int, transfer: bool, growth: Growth)
      returns (st: Outcome)
      requires WellFormed(voting.View())
      modifies this, voting, token
      ensures Agrees(st, View(), ChangeBw(old(View()), auth, payer, receiver, net, cpu, transfer, growth))
      ensures st.Pass? ==> WellFormed(voting.View())
    {
      hide Redelegate, Settle, Send, UpdateVotingPower, WellFormed;
      :- Check(payer in auth, MissingAuthority);
      :- Check(net != 0 || cpu != 0, ZeroStake);
      :- Check(Abs(net + cpu) >= Max(Abs(net), Abs(cpu)), OppositeSigns);
      var from := if transfer then receiver else payer;
      :- MoveStake(from, receiver, net, cpu);
      if payer != STAKE {
        var settled, due := SettleRefund(from, net, cpu, !transfer && from == receiver);
        :- settled;
        if 0 < due {
          :- SendInline(payer, STAKE, due);
        }
      }
      st := ChangeVotingPower(from, net + cpu, growth);
    }

    method DelegateBandwidth(auth: set<Name>, from: Name, receiver: Name, net: int, cpu: int, transfer: bool, growth: Growth)
      returns (st: Outcome)
      requires WellFormed(voting.View())
      modifies this, voting, token
      ensures Agrees(st, View(), DelegateBw(old(View()), auth, from, receiver, net, cpu, transfer, growth))
      ensures st.Pass? ==> WellFormed(voting.View())
    {
      hide ChangeBw, WellFormed;
      :- Check(cpu >= 0 && net >= 0, NotPositive);
      :- Check(net + cpu > 0, NotPositive);
      :- Check(!transfer || from != receiver, TransferToSelf);
      st := ChangeStake(auth, from, receiver, net, cpu, transfer, growth);
    }

    method UndelegateBandwidth(auth: set<Name>, from: Name, receiver: Name, net: int, cpu: int, growth: Growth)
      returns (st: Outcome)
      requires WellFormed(voting.View())
      modifies this, voting, token
      ensures Agrees(st, View(), UndelegateBw(old(View()), auth, from, receiver, net, cpu, growth))
      ensures st.Pass? ==> WellFormed(voting.View())
    {
      hide ChangeBw, WellFormed;
      :- Check(cpu >= 0 && net >= 0, NotPositive);
      :- Check(cpu + net > 0, NotPositive);
      st := ChangeStake(auth, from, receiver, -net, -cpu, false, growth);
    }

    method PayRefund(auth: set<Name>, owner: Name) returns (st: Outcome)
      modifies this, token
      ensures Agrees(st, View(), ClaimRefund(old(View()), auth, owner))
    {
      hide Send;
      :- Check(owner in auth, MissingAuthority);
      :- Check(owner in refunds, NoRefund);
      var r := refunds[owner];
      :- Check((r.requested + REFUND_DELAY) * SECOND <= now, RefundTooEarly);
      :- SendInline(STAKE, owner, r.net + r.cpu);
      refunds := refunds - {owner};
      return Pass;
    }

    // ---------- memory ----------

    /** `update_mem_supply` */
    method UpdateMemSupply()
      modifies `sizes, market`base
      ensures View() == old(View()).(market := GrowSupply(old(View()).market, now))
    {
      var slot := Slot(now);
      if slot > sizes.grownAt {
        var grown := (slot - sizes.grownAt) * sizes.perBlock % Memory.WORD;
        sizes := sizes.(maxSize := sizes.maxSize + grown, grownAt := slot);
        market.base := market.base + grown;
      }
    }

    method AddMemory(account: Name, bytes: int)
      modifies `resources
      ensures View() == WriteMemory(old(View()), account, ResourcesOf(old(resources), account).mem + bytes)
      ensures account in resources && resources[account].mem == ResourcesOf(old(resources), account).mem + bytes
    {
      if account !in resources {
        resources := resources[account := Resources(0, 0, bytes)];
      } else {
        resources := resources[account := resources[account].(mem := resources[account].mem + bytes)];
      }
    }

    method FollowMemoryOf(account: Name, mem: int) returns (st: Outcome)
      modifies `limits
      ensures Agrees(st, View(), FollowMemory(old(View()), account, mem))
    {
      if !FlagsOf(voting.View(), account).mem {
        :- Check(account in limits, NoSuchAccount);
        limits := limits[account := limits[account].(mem := mem + MEM_GIFT_BYTES)];
      }
      return Pass;
    }

    method BuyMemory(auth: set<Name>, payer: Name, receiver: Name, amount: int, growth: Growth) returns (st: Outcome)
      requires WellFormed(voting.View())
      modifies this, voting, token, market
      ensures Agrees(st, View(), BuyResources(old(View()), auth, payer, receiver, amount, growth))
      ensures st.Pass? ==> WellFormed(voting.View())
    {
      hide Send, DelegateBw, FollowMemory, GrowSupply, WriteMemory, WellFormed, TokensToBytes;
      :- Check(payer in auth, MissingAuthority);
      UpdateMemSupply();
      :- Check(amount > 0, NotPositive);
      :- SendInline(payer, MEM, amount);
      var out := market.TokensForMemory(amount);
      var bytes := out / 10000;
      :- Check(market.base > bytes, NoMemoryLeft);
      :- Check(bytes > 0, NotPositive);
      sizes := sizes.(memStake := sizes.memStake + amount);
      AddMemory(receiver, bytes);
      var mem := resources[receiver].mem;
      var stake := bytes * 10000 / (1024 * 1024);
      :- DelegateBandwidth(auth, payer, receiver, stake, stake, false, growth);
      st := FollowMemoryOf(receiver, mem);
    }

    method SellMemory(auth: set<Name>, account: Name, bytes: int, growth: Growth) returns (st: Outcome)
      requires WellFormed(voting.View())
      modifies this, voting, token, market
      ensures Agrees(st, View(), SellRes(old(View()), auth, account, bytes, growth))
      ensures st.Pass? ==> WellFormed(voting.View())
    {
      hide Send, UndelegateBw, FollowMemory, GrowSupply, WriteMemory, WellFormed, BytesToTokens;
      :- Check(account in auth, MissingAuthority);
      UpdateMemSupply();
      :- Check(bytes > 0, NotPositive);
      :- Check(account in voting.producers, ProducerNotFound);
      :- Check(account in resources, NoResourceRow);
      var held := resources[account].mem;
      if voting.producers[account].isProducer {
        :- Check(held - bytes > 1024 * 1024, FreeResources);
      }
      :- Check(held >= bytes, InsufficientQuota);
      var out := market.MemoryForTokens(bytes);
      var tokens := out * 10000;
      :- Check(tokens > 1, SaleTooSmall);
      sizes := sizes.(memStake := sizes.memStake - tokens);
      :- Check(sizes.memStake >= 0, MemStakeNegative);
      AddMemory(account, -bytes);
      var mem := resources[account].mem;
      :- UndelegateBandwidth(auth, account, account, tokens, tokens, growth);
      :- FollowMemoryOf(account, mem);
      st := SendInline(MEM, account, tokens);
    }

    method BuyMemoryBytes(auth: set<Name>, payer: Name, receiver: Name, bytes: int, growth: Growth) returns (st: Outcome)
      requires WellFormed(voting.View())
      modifies this, voting, token, market
      ensures Agrees(st, View(), BuyMemBytes(old(View()), auth, payer, receiver, bytes, growth))
      ensures st.Pass? ==> WellFormed(voting.View())
    {
      hide BuyResources, DelegateBw, WellFormed;
      var price := BytesToTokens(bytes % Memory.WORD) * 10000;
      :- BuyMemory(auth, payer, receiver, price, growth);
      st := DelegateBandwidth(auth, payer, receiver, price, price, false, growth);
    }

    method SetMemorySize(auth: set<Name>, size: int, reserved: int) returns (st: Outcome)
      modifies this, market
      ensures Agrees(st, View(), SetMem(old(View()), auth, size, reserved))
    {
      var signed := SYSTEM in auth;
      :- Check(signed, MissingAuthority);
      :- Check(sizes.maxSize < size, MemOnlyGrows);
      :- Check(size < UNREALISTIC, MemUnrealistic);
      :- Check(size > reserved, BelowReserved);
      market.base := market.base + (size - sizes.maxSize);
      sizes := sizes.(maxSize := size);
      return Pass;
    }

    method SetMemoryRate(auth: set<Name>, perBlock: nat) returns (st: Outcome)
      modifies this, market
      ensures Agrees(st, View(), SetMemRate(old(View()), auth, perBlock))
    {
      hide GrowSupply;
      :- Check(SYSTEM in auth, MissingAuthority);
      UpdateMemSupply();
      sizes := sizes.(perBlock := perBlock % 0x1_0000);
      return Pass;
    }

    // ---------- accounts ----------

    /** `setacctmem`, `setacctnet` and `setacctcpu` */
    method PinAccount(auth: set<Name>, account: Name, r: Resource, pin: Pin) returns (st: Outcome)
      modifies this, voting
      ensures Agrees(st, View(), SetAcct(old(View()), auth, account, r, pin))
    {
      hide SetManaged;
      :- Check(SYSTEM in auth, MissingAuthority);
      :- Check(account in limits, NoSuchAccount);
      var limit: int;
      match pin {
        case Unpin =>
          :- Check(account in voting.voters && Managed(voting.voters[account].flags, r), AlreadyUnmanaged);
          limit := DefaultLimit(resources, account, r);
          voting.voters := voting.voters[account := voting.voters[account].(flags := SetManaged(voting.voters[account].flags, r, false))];
        case PinAt(x) =>
          :- Check(x >= (if r.Mem? then 0 else -1), if r.Mem? then UnlimitedMem else InvalidWeight);
          if account in voting.voters {
            voting.voters := voting.voters[account := voting.voters[account].(flags := SetManaged(voting.voters[account].flags, r, true))];
          } else {
            voting.voters := voting.voters[account := NEW_VOTER.(flags := SetManaged(UNMANAGED, r, true))];
          }
          limit := x;
      }
      limits := limits[account := SetLimit(limits[account], r, limit)];
      return Pass;
    }

    method SetAccountLimits(auth: set<Name>, account: Name, l: Limits) returns (st: Outcome)
      modifies `limits
      ensures Agrees(st, View(), SetALimits(old(View()), auth, account, l))
    {
      var signed := SYSTEM in auth;
      :- Check(signed, MissingAuthority);
      :- Check(account !in resources, LimitedAccount);
      if account in voting.voters {
        var f := voting.voters[account].flags;
        :- Check(!(f.mem || f.net || f.cpu), ManagedResources);
      }
      :- Check(account in limits, NoSuchAccount);
      limits := limits[account := l];
      return Pass;
    }

    method CreateAccount(auth: set<Name>, account: Name) returns (st: Outcome)
      modifies `limits, `resources
      ensures Agrees(st, View(), NewAccount(old(View()), auth, account))
    {
      var isNew := account !in limits;
      :- Check(isNew, AccountExists);
      :- Check(CREATOR in auth, MissingAuthority);
      :- Check(account !in resources, AccountExists);
      resources := resources[account := NO_RESOURCES];
      limits := limits[account := Limits(0, 0, 0)];
      return Pass;
    }

    method SetInflationFactors(auth: set<Name>, rate: int, payFactor: int, voteFactor: int) returns (st: Outcome)
      modifies `pay
      ensures Agrees(st, View(), SetInflation(old(View()), auth, rate, payFactor, voteFactor))
    {
      var signed := SYSTEM in auth;
      :- Check(signed, MissingAuthority);
      :- Check(rate >= 0, NegativeRate);
      :- Check(payFactor >= PAY_PRECISION, FactorTooSmall);
      :- Check(voteFactor >= PAY_PRECISION, FactorTooSmall);
      pay := pay.(payFactor := payFactor, voteFactor := voteFactor);
      return Pass;
    }

    // ---------- producers ----------

    method RetireProducer(producer: Name)
      requires producer in voting.producers
      modifies voting
      ensures View() == old(View()).(book := Retired(old(View()).book, producer))
    {
      voting.producers := voting.producers[producer := Deactivate(voting.producers[producer])];
    }

    method RemoveProducerRow(auth: set<Name>, producer: Name) returns (st: Outcome)
      modifies voting
      ensures Agrees(st, View(), RmvProducer(old(View()), auth, producer))
    {
      hide Retired;
      :- Check(SYSTEM in auth, MissingAuthority);
      :- Check(producer in voting.producers, ProducerNotFound);
      RetireProducer(producer);
      return Pass;
    }

    method Unregister(auth: set<Name>, producer: Name) returns (st: Outcome)
      modifies `producing, voting
      ensures Agrees(st, View(), UnregProd(old(View()), auth, producer))
    {
      hide Retired;
      :- Check(producer in auth, MissingAuthority);
      :- Check(producer in voting.producers, ProducerNotFound);
      RetireProducer(producer);
      if producer in producing {
        producing := producing[producer := false];
      }
      return Pass;
    }

    method RegisterAsProducer(auth: set<Name>, producer: Name) returns (st: Outcome)
      modifies `producing, voting
      ensures Agrees(st, View(), RegProducer(old(View()), auth, producer))
    {
      hide Register;
      :- Check(producer in auth, MissingAuthority);
      voting.RegisterProducer(producer, now);
      producing := producing[producer := true];
      return Pass;
    }

    method BecomeProducer(auth: set<Name>, voter: Name, proxy: Name, candidates: seq<Name>, growth: Growth) returns (st: Outcome)
      requires WellFormed(voting.View())
      modifies `producing, voting
      ensures Agrees(st, View(), MakeProd(old(View()), auth, voter, proxy, candidates, growth))
    {
      hide UpdateVotes, WellFormed;
      :- Check(voter in auth, MissingAuthority);
      :- Check((voter, INR) in token.balances, NoBalance);
      :- Check(token.balances[(voter, INR)] / 10000 >= BORDER_BALANCE, BalanceTooLow);
      :- Check(voter in voting.producers, ProducerNotFound);
      RewriteProducerShape(voting.View(), voter, voting.producers[voter].(isProducer := true));
      voting.producers := voting.producers[voter := voting.producers[voter].(isProducer := true)];
      :- voting.CastVote(voter, proxy, candidates, true, Clock(now, growth));
      if voter in producing {
        producing := producing[voter := true];
      }
      return Pass;
    }

    method BecomeProxy(auth: set<Name>, who: Name, on: bool, growth: Growth) returns (st: Outcome)
      requires WellFormed(voting.View())
      modifies voting
      ensures Agrees(st, View(), RegProxyAction(old(View()), auth, who, on, growth))
    {
      hide RegProxy, WellFormed;
      :- Check(who in auth, MissingAuthority);
      st := voting.RegisterAsProxy(who, on, Clock(now, growth));
    }

    // ---------- rewards ----------

    /** `update_elected_producers`: the walk over the vote index stops at the first producer that is
        not eligible, or when all seats are taken. */
    method UpdateElectedProducers(slot: nat)
      modifies `pay
      ensures View() == UpdateElected(old(View()), slot)
    {
      hide Index, Eligible;
      pay := pay.(scheduleSlot := slot);
      var ps := voting.producers;
      var idx := Index(ps);
      var top: seq<Name> := [];
      while |top| < |idx| && |top| < TOP && Eligible(ps[idx[|top|]])
        invariant |top| <= |idx| && top == idx[..|top|]
        invariant Walk(ps, idx, 0) == Walk(ps, idx, |top|)
        decreases |idx| - |top|
      {
        top := top + [idx[|top|]];
      }
      if |top| != 0 {
        pay := pay.(proposed := set x | x in top);
      }
    }

    method RecordBlock(auth: set<Name>, slot: nat, producer: Name) returns (st: Outcome)
      modifies `pay, voting
      ensures Agrees(st, View(), OnBlock(old(View()), auth, slot, producer))
    {
      hide UpdateElected;
      :- Check(SYSTEM in auth, MissingAuthority);
      if voting.activatedAt == 0 {
        return Pass;
      }
      if pay.filledAt == 0 {
        pay := pay.(filledAt := now);
      }
      if producer in voting.producers {
        pay := pay.(unpaid := pay.unpaid + 1);
        var row := voting.producers[producer];
        voting.producers := voting.producers[producer := row.(unpaid := row.unpaid + 1)];
      }
      if (slot - pay.scheduleSlot) % Rewards.WORD > 1 {
        UpdateElectedProducers(slot);
      }
      return Pass;
    }

    method SendIfAny(from: Name, to: Name, amount: int) returns (st: Outcome)
      modifies token
      ensures Agrees(st, View(), SendSome(old(View()), from, to, amount))
    {
      hide Send;
      if amount > 0 {
        st := SendInline(from, to, amount);
      } else {
        st := Pass;
      }
    }

    /** Issuing the inflation and passing it on to the savings and the two pay accounts. */
    method PassOn(minted: nat, split: Split) returns (st: Outcome)
      modifies token
      ensures Agrees(st, View(), Rewards.PassOn(old(View()), minted, split))
    {
      hide Issue, SendSome;
      :- token.IssueTo({SYSTEM}, SYSTEM, Inr(minted));
      :- SendIfAny(SYSTEM, SAVING, split.savings);
      :- SendIfAny(SYSTEM, BPAY, split.perBlock);
      st := SendIfAny(SYSTEM, VPAY, split.perVote);
    }

    method Refill(minted: nat) returns (st: Outcome)
      modifies `pay, token
      ensures Agrees(st, View(), FillBuckets(old(View()), minted))
    {
      hide Rewards.PassOn;
      if now > pay.filledAt && pay.filledAt > 0 {
        var toProducers := minted * PAY_PRECISION / pay.payFactor;
        var toSavings := minted - toProducers;
        var toBlocks := toProducers * PAY_PRECISION / pay.voteFactor;
        var toVotes := toProducers - toBlocks;
        if minted > 0 {
          :- PassOn(minted, Split(toSavings, toBlocks, toVotes));
        }
        pay := pay.(perVote := pay.perVote + toVotes, perBlock := pay.perBlock + toBlocks, filledAt := now);
      }
      return Pass;
    }

    /** Brings the owner's share up to date, takes it, and starts it again at nothing. */
    method TakeShare(owner: Name) returns (share: real, late: bool)
      requires owner in voting.producers
      modifies voting
      ensures share == ClaimedShare(old(voting.View()), owner, now) && late == Frozen(old(voting.View()), owner)
      ensures voting.View() == old(voting.View()).(shares := old(voting.producers2)[owner := Share(0.0, now)])
    {
      hide AdvancedShare;
      var row := voting.producers[owner];
      late := true;
      if owner in voting.producers2 {
        late := row.lastClaim + THREE_DAYS <= voting.producers2[owner].updated;
      } else {
        voting.producers2 := voting.producers2[owner := Share(0.0, now)];
        NoTimeNoShare(now);
      }
      share := voting.UpdateProducerVotepayShare(owner, now, if late then 0.0 else row.votes, true);
    }

    /** What a share of `total` is worth of the vote bucket: never more than all of it, and nothing at
        all below the minimum. */
    method WorthOf(p: Pay, share: real, total: real, crossed: bool, votes: real, totalVotes: real) returns (votePay: real)
      ensures votePay == VotePay(p, share, total, crossed, votes, totalVotes)
    {
      votePay := 0.0;
      if p.revision > 0 {
        if total > 0.0 && !crossed {
          votePay := share * p.perVote as real / total;
          if votePay > p.perVote as real {
            votePay := p.perVote as real;
          }
        }
      } else if totalVotes > 0.0 {
        votePay := p.perVote as real * votes / totalVotes;
      }
      if votePay < MIN_VOTE_PAY {
        votePay := 0.0;
      }
    }

    /** The vote pay of a claim, and the voting tables once its share has been cashed in. */
    method CashShare(owner: Name) returns (votePay: real)
      requires owner in voting.producers
      modifies voting
      ensures votePay == ClaimedVotePay(old(voting.View()), pay, owner, now)
      ensures voting.View() == ClaimBook(old(voting.View()), owner, pay.revision > 0, now)
    {
      hide UpdateTotalShare, VotePay, ClaimedShare, Frozen;
      var row := voting.producers[owner];
      ghost var b := voting.View();
      var share, late := TakeShare(owner);
      TotalIgnoresShares(voting.View(), b, now, 0.0, 0.0);
      TotalUnused(pay, share, UpdateTotalShare(b, now, 0.0, 0.0).totalShare, row.lastClaim + THREE_DAYS <= now, row.votes, b.totalVotes);
      var total := 0.0;
      if pay.revision > 0 {
        total := voting.UpdateTotalVotepayShare(now, 0.0, 0.0);
      }
      votePay := WorthOf(pay, share, total, row.lastClaim + THREE_DAYS <= now, row.votes, voting.totalVotes);
      var _ := voting.UpdateTotalVotepayShare(now, -share, if late then row.votes else 0.0);
      voting.producers := voting.producers[owner := row.(lastClaim := now, unpaid := 0)];
    }

    method ClaimReward(auth: set<Name>, owner: Name, minted: nat) returns (st: Outcome)
      modifies `pay, voting, token
      ensures Agrees(st, View(), ClaimRewards(old(View()), auth, owner, minted))
    {
      hide FillBuckets, ClaimBook, ClaimedVotePay, SendSome, Trunc;
      :- Check(owner in auth, MissingAuthority);
      :- Check(owner in voting.producers, ProducerNotFound);
      var row := voting.producers[owner];
      :- Check(row.active, ProducerInactive);
      :- Check(now - row.lastClaim > DAY, AlreadyClaimed);
      :- Check(INR in token.stats, NoSymbol);
      :- Refill(minted);
      var blockPay := 0;
      if pay.unpaid > 0 {
        blockPay := pay.perBlock * row.unpaid / pay.unpaid;
      }
      var votePay := CashShare(owner);
      pay := pay.(perVote := Trunc(pay.perVote as real - votePay), perBlock := pay.perBlock - blockPay,
                  unpaid := pay.unpaid - row.unpaid);
      :- SendIfAny(BPAY, owner, blockPay);
      st := SendIfAny(VPAY, owner, Trunc(votePay));
    }

    // ---------- transactions ----------

    method ApplyToken(a: Action, auth: set<Name>, growth: Growth) returns (st: Outcome)
      requires IsTokenAction(a)
      modifies token
      ensures Agrees(st, View(), Perform(old(View()), a, auth, growth))
    {
      hide Create, Issue, Retire, Transfer, Open, Close;
      var env := Surroundings(limits.Keys, producing);
      match a
      case TokenCreate(issuer, max) => st := token.CreateSymbol(auth, TOKEN, issuer, max);
      case TokenIssue(to, q) => st := token.IssueTo(auth, to, q);
      case TokenRetire(q) => st := token.RetireFrom(env, auth, q);
      case TokenTransfer(from, to, q) => st := token.TransferFrom(env, auth, from, to, q);
      case TokenOpen(owner, code, precision, payer) => st := token.OpenRow(env, auth, owner, code, precision, payer);
      case TokenClose(owner, code) => st := token.CloseRow(auth, owner, code);
    }

    method ApplyTrade(a: Action, auth: set<Name>, growth: Growth) returns (st: Outcome)
      requires WellFormed(voting.View()) && IsTrade(a)
      modifies this, voting, token, market
      ensures Agrees(st, View(), Perform(old(View()), a, auth, growth))
    {
      hide DelegateBw, UndelegateBw, ClaimRefund, BuyResources, BuyMemBytes, SellRes, WellFormed;
      match a
      case Delegate(from, receiver, net, cpu, transfer) => st := DelegateBandwidth(auth, from, receiver, net, cpu, transfer, growth);
      case Undelegate(from, receiver, net, cpu) => st := UndelegateBandwidth(auth, from, receiver, net, cpu, growth);
      case TakeRefund(owner) => st := PayRefund(auth, owner);
      case Buy(payer, receiver, amount) => st := BuyMemory(auth, payer, receiver, amount, growth);
      case BuyBytes(payer, receiver, bytes) => st := BuyMemoryBytes(auth, payer, receiver, bytes, growth);
      case Sell(account, bytes) => st := SellMemory(auth, account, bytes, growth);
    }

    method ApplySetting(a: Action, auth: set<Name>, growth: Growth) returns (st: Outcome)
      requires IsSetting(a)
      modifies this, market
      ensures Agrees(st, View(), Perform(old(View()), a, auth, growth))
    {
      hide SetMem, SetMemRate, SetInflation;
      match a
      case ResizeMemory(size, reserved) => st := SetMemorySize(auth, size, reserved);
      case RateMemory(perBlock) => st := SetMemoryRate(auth, perBlock);
      case Inflate(rate, payFactor, voteFactor) => st := SetInflationFactors(auth, rate, payFactor, voteFactor);
    }

    method ApplyAccount(a: Action, auth: set<Name>, growth: Growth) returns (st: Outcome)
      requires IsAccountAction(a)
      modifies this, voting
      ensures Agrees(st, View(), Perform(old(View()), a, auth, growth))
    {
      hide SetAcct, SetALimits, NewAccount;
      match a
      case PinLimit(account, resource, pin) => st := PinAccount(auth, account, resource, pin);
      case LimitAccount(account, l) => st := SetAccountLimits(auth, account, l);
      case OpenAccount(account) => st := CreateAccount(auth, account);
    }

    method ApplyProducing(a: Action, auth: set<Name>, growth: Growth) returns (st: Outcome)
      requires WellFormed(voting.View()) && !IsTokenAction(a) && !IsTrade(a) && !IsSetting(a) && !IsAccountAction(a)
      modifies `producing, `pay, voting, token
      ensures Agrees(st, View(), Perform(old(View()), a, auth, growth))
    {
      hide RmvProducer, RegProducer, UnregProd, MakeProd, RegProxyAction, OnBlock, ClaimRewards, WellFormed;
      match a
      case RemoveProducer(producer) => st := RemoveProducerRow(auth, producer);
      case RegisterProducer(producer) => st := RegisterAsProducer(auth, producer);
      case UnregisterProducer(producer) => st := Unregister(auth, producer);
      case MakeProducer(voter, proxy, producers) => st := BecomeProducer(auth, voter, proxy, producers, growth);
      case RegisterProxy(who, on) => st := BecomeProxy(auth, who, on, growth);
      case Block(slot, producer) => st := RecordBlock(auth, slot, producer);
      case Claim(owner, minted) => st := ClaimReward(auth, owner, minted);
    }

    method Apply(a: Action, auth: set<Name>, growth: Growth) returns (st: Outcome)
      requires WellFormed(voting.View())
      modifies this, voting, token, market
      ensures Agrees(st, View(), Perform(old(View()), a, auth, growth))
    {
      hide Perform, WellFormed;
      if IsTokenAction(a) {
        st := ApplyToken(a, auth, growth);
      } else if IsTrade(a) {
        st := ApplyTrade(a, auth, growth);
      } else if IsSetting(a) {
        st := ApplySetting(a, auth, growth);
      } else if IsAccountAction(a) {
        st := ApplyAccount(a, auth, growth);
      } else {
        st := ApplyProducing(a, auth, growth);
      }
    }

    /** One transaction: it goes through as its action says, or leaves nothing but the passing of time. */
    method Execute(e: Event) returns (st: Outcome)
      requires Orderly(View())
      modifies this, voting, token, market
      ensures View() == Step(old(View()), e) && Orderly(View())
      ensures st == match Try(old(View()), e) case Success(_) => Pass case Failure(error) => Fail(error)
    {
      hide Orderly, Perform, WellFormed;
      StepKeepsOrderly(View(), e);
      OrderlyParts(View());
      now := now + e.elapsed;
      var snapshot := View();
      st := Apply(e.action, e.auth, e.growth);
      if st.Fail? {
        Restore(snapshot);
      }
    }
  }

  lemma TotalUnused(p: Pay, share: real, total: real, crossed: bool, votes: real, totalVotes: real)
    ensures p.revision == 0 ==> VotePay(p, share, total, crossed, votes, totalVotes) == VotePay(p, share, 0.0, crossed, votes, totalVotes)
  {
  }

  lemma NoTimeNoShare(now: int)
    ensures AdvancedShare(Share(0.0, now), now, 0.0) == 0.0
  {
  }

  lemma TotalIgnoresShares(b: Book, b': Book, now: int, extra: real, rateDelta: real)
    requires b == b'.(shares := b.shares)
    ensures UpdateTotalShare(b, now, extra, rateDelta) == UpdateTotalShare(b', now, extra, rateDelta).(shares := b.shares)
  {
  }
}
