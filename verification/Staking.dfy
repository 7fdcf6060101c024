/** Staking, unstaking and refunds: delegate_bandwidth.cpp from `changebw` down. */
module Staking {
  import opened Basics
  import opened Voting
  import opened Chain

  const MEM_GIFT_BYTES: int := 1400
  const REFUND_DELAY: int := 3 * 24 * 3600      // in seconds

  function Abs(x: int): int { if x < 0 then -x else x }

  function Max(x: int, y: int): int { if x < y then y else x }

  function StakedFor(d: Delegations, k: (Name, Name)): Bandwidth {
    if k in d then d[k] else Bandwidth(0, 0)
  }

  function ResourcesOf(m: map<Name, Resources>, account: Name): Resources {
    if account in m then m[account] else NO_RESOURCES
  }

  /** Writes a delegation row, or erases it when nothing is left. */
  function StoreDelegation(d: Delegations, k: (Name, Name), row: Bandwidth): Delegations {
    if row == Bandwidth(0, 0) then d - {k} else d[k := row]
  }

  function StoreResources(m: map<Name, Resources>, account: Name, row: Resources): map<Name, Resources> {
    if row == NO_RESOURCES then m - {account} else m[account := row]
  }

  function StoreRefund(m: Refunds, owner: Name, row: Refund): Refunds {
    if row.net == 0 && row.cpu == 0 then m - {owner} else m[owner := row]
  }

  /** The receiver's chain limits after its totals become `tot`; managed limits stay as they are. */
  function FollowTotals(c: Chain, receiver: Name, tot: Resources): Result<map<Name, Limits>> {
    var f := FlagsOf(c.book, receiver);
    if f.net && f.cpu then Success(c.limits)
    else
      :- Need(receiver in c.limits, NoSuchAccount);
      var was := c.limits[receiver];
      Success(c.limits[receiver := Limits(
        if f.mem then was.mem else Max(tot.mem + MEM_GIFT_BYTES, was.mem),
        if f.net then was.net else tot.net,
        if f.cpu then was.cpu else tot.cpu)])
  }

  /** What is left of a stake change after the pending refund has absorbed its part. */
  datatype Settled = Settled(refunds: Refunds, due: int)

  function Settle(m: Refunds, owner: Name, net: int, cpu: int, toSelf: bool, second: int): Result<Settled> {
    if !toSelf && net + cpu >= 0 then Success(Settled(m, net + cpu))
    else if owner in m then
      var r := m[owner];
      var requested := if net < 0 || cpu < 0 then second else r.requested;
      var netLeft := r.net - net;
      var cpuLeft := r.cpu - cpu;
      var row := Refund(requested, Max(netLeft, 0), Max(cpuLeft, 0));
      :- Need(0 <= row.net, RefundNegative);
      :- Need(0 <= row.cpu, RefundNegative);
      Success(Settled(StoreRefund(m, owner, row),
                      (if netLeft < 0 then -netLeft else 0) + (if cpuLeft < 0 then -cpuLeft else 0)))
    else if net < 0 || cpu < 0 then
      Success(Settled(m[owner := Refund(second, if net < 0 then -net else 0, if cpu < 0 then -cpu else 0)],
                      (if net < 0 then 0 else net) + (if cpu < 0 then 0 else cpu)))
    else Success(Settled(m, net + cpu))
  }

  function AddStake(b: Book, voter: Name, delta: int): Book {
    if voter in b.voters then
      b.(voters := b.voters[voter := b.voters[voter].(staked := b.voters[voter].staked + delta)])
    else b.(voters := b.voters[voter := NEW_VOTER.(staked := delta)])
  }

  /** `update_voting_power` */
  function UpdateVotingPower(b: Book, voter: Name, delta: int, k: Clock): Result<Book> {
    var b' := AddStake(b, voter, delta);
    var row := b'.voters[voter];
    :- Need(0 <= row.staked, StakedNegative);
    if row.producers != [] || row.proxy != NO_NAME then UpdateVotes(b', voter, row.proxy, row.producers, false, k)
    else Success(b')
  }

  /** The delegation row and the receiver's totals and limits; the rest of `changebw` follows. */
  function Redelegate(c: Chain, from: Name, receiver: Name, net: int, cpu: int): Result<Chain> {
    var had := StakedFor(c.stakes.delegated, (from, receiver));
    var row := Bandwidth(had.net + net, had.cpu + cpu);
    :- Need(0 <= row.net, InsufficientNet);
    :- Need(0 <= row.cpu, InsufficientCpu);
    var was := ResourcesOf(c.stakes.resources, receiver);
    var tot := was.(net := was.net + net, cpu := was.cpu + cpu);
    :- Need(0 <= tot.net, TotalNetNegative);
    :- Need(0 <= tot.cpu, TotalCpuNegative);
    var limits :- FollowTotals(c, receiver, tot);
    Success(c.(limits := limits, stakes := c.stakes.(
      delegated := StoreDelegation(c.stakes.delegated, (from, receiver), row),
      resources := StoreResources(c.stakes.resources, receiver, tot))))
  }

  /** The refund row and the tokens that move; skipped for the stake account itself. */
  function SettleStake(c: Chain, payer: Name, from: Name, net: int, cpu: int, toSelf: bool): Result<Chain> {
    if payer == STAKE then Success(c)
    else
      var s :- Settle(c.stakes.refunds, from, net, cpu, toSelf, c.now / SECOND);
      var c' := c.(stakes := c.stakes.(refunds := s.refunds));
      if 0 < s.due then Send(c', payer, STAKE, s.due) else Success(c')
  }

  function ChangeBw(c: Chain, auth: set<Name>, payer: Name, receiver: Name, net: int, cpu: int, transfer: bool, growth: Growth): Result<Chain> {
    var signed := payer in auth;
    :- Need(signed, MissingAuthority);
    :- Need(net != 0 || cpu != 0, ZeroStake);
    :- Need(Abs(net + cpu) >= Max(Abs(net), Abs(cpu)), OppositeSigns);
    var from := if transfer then receiver else payer;
    var c1 :- Redelegate(c, from, receiver, net, cpu);
    var c2 :- SettleStake(c1, payer, from, net, cpu, !transfer && from == receiver);
    var book :- UpdateVotingPower(c2.book, from, net + cpu, Clock(c.now, growth));
    Success(c2.(book := book))
  }

  function DelegateBw(c: Chain, auth: set<Name>, from: Name, receiver: Name, net: int, cpu: int, transfer: bool, growth: Growth): Result<Chain> {
    var positive := cpu >= 0 && net >= 0 && net + cpu > 0;
    :- Need(positive, NotPositive);
    :- Need(!transfer || from != receiver, TransferToSelf);
    ChangeBw(c, auth, from, receiver, net, cpu, transfer, growth)
  }

  function UndelegateBw(c: Chain, auth: set<Name>, from: Name, receiver: Name, net: int, cpu: int, growth: Growth): Result<Chain> {
    var positive := cpu >= 0 && net >= 0 && cpu + net > 0;
    :- Need(positive, NotPositive);
    ChangeBw(c, auth, from, receiver, -net, -cpu, false, growth)
  }

  function ClaimRefund(c: Chain, auth: set<Name>, owner: Name): Result<Chain> {
    var signed := owner in auth;
    :- Need(signed, MissingAuthority);
    :- Need(owner in c.stakes.refunds, NoRefund);
    var r := c.stakes.refunds[owner];
    :- Need((r.requested + REFUND_DELAY) * SECOND <= c.now, RefundTooEarly);
    var c' :- Send(c, STAKE, owner, r.net + r.cpu);
    Success(c'.(stakes := c'.stakes.(refunds := c'.stakes.refunds - {owner})))
  }
}
