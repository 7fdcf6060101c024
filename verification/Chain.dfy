/** The state of the chain as the economic contracts see it, and the rows of the system contract
    that are not about voting. */
module Chain {
  import opened Basics
  import opened Voting
  import opened Token

  const SYSTEM: Name := 0x74D5_7F00_0000_0000         // "inery"
  const STAKE: Name := 0x74D5_7F03_1934_1400          // "inery.stake"
  const MEM: Name := 0x74D5_7F02_4A90_0000            // "inery.mem"
  const BPAY: Name := 0x74D5_7F00_F537_8000           // "inery.bpay"
  const VPAY: Name := 0x74D5_7F03_7537_8000           // "inery.vpay"
  const SAVING: Name := 0x74D5_7F03_06DB_A6C0         // "inery.saving"
  const TOKEN: Name := 0x74D5_7F03_2833_55C0          // "inery.token"

  /** What `from` has staked for `to`. */
  datatype Bandwidth = Bandwidth(net: int, cpu: int)

  /** A row of the user resources table: what others staked for the owner, and its memory. */
  datatype Resources = Resources(net: int, cpu: int, mem: int)

  const NO_RESOURCES: Resources := Resources(0, 0, 0)

  /** A pending refund; the time is in whole seconds. */
  datatype Refund = Refund(requested: int, net: int, cpu: int)

  type Delegations = map<(Name, Name), Bandwidth>
  type Refunds = map<Name, Refund>

  datatype Stakes = Stakes(delegated: Delegations, resources: map<Name, Resources>, refunds: Refunds)

  /** The limits an account has with the chain itself. */
  datatype Limits = Limits(mem: int, net: int, cpu: int)

  datatype Market = Market(base: int, quote: int, memStake: int, maxSize: int, perBlock: nat, grownAt: nat)

  /** The inflation factors: `setinflation` and the defaults keep them at or above the precision. */
  const PAY_PRECISION: int := 10000
  type Factor = x: int | x >= PAY_PRECISION witness PAY_PRECISION

  /** The reward buckets and counters. Of the proposed schedule only the members are kept. */
  datatype Pay = Pay(perVote: int, perBlock: int, unpaid: int, filledAt: int, payFactor: Factor, voteFactor: Factor,
                     revision: nat, scheduleSlot: nat, proposed: set<Name>)

  datatype Chain = Chain(now: nat, book: Book, producing: map<Name, bool>, stakes: Stakes, market: Market, pay: Pay,
                         limits: map<Name, Limits>, token: Ledger)

  function Env(c: Chain): Surroundings { Surroundings(c.limits.Keys, c.producing) }

  /** An inline transfer of INR, authorised by its sender. */
  function Send(c: Chain, from: Name, to: Name, amount: int): Result<Chain> {
    var t :- Transfer(c.token, Env(c), {from}, from, to, Inr(amount));
    Success(c.(token := t))
  }

  function BalanceOf(t: Ledger, owner: Name, code: nat): int {
    if (owner, code) in t.balances then t.balances[(owner, code)] else 0
  }

  function FlagsOf(b: Book, account: Name): Flags {
    if account in b.voters then b.voters[account].flags else UNMANAGED
  }
}
