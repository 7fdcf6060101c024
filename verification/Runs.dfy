/** Runs of the chain: every action is one atomic step, and a failed check leaves the state as it was. */
module Runs {
  import opened Basics
  import opened Voting
  import opened Token
  import opened Chain
  import opened Staking
  import opened Memory
  import opened Rewards
  import opened Accounts

  datatype Action =
    // inery.token
    | TokenCreate(issuer: Name, max: Asset)
    | TokenIssue(to: Name, q: Asset)
    | TokenRetire(q: Asset)
    | TokenTransfer(from: Name, to: Name, q: Asset)
    | TokenOpen(owner: Name, code: nat, precision: nat, payer: Name)
    | TokenClose(owner: Name, code: nat)
    // delegate_bandwidth.cpp
    | Delegate(from: Name, receiver: Name, net: int, cpu: int, transfer: bool)
    | Undelegate(from: Name, receiver: Name, net: int, cpu: int)
    | TakeRefund(owner: Name)
    | Buy(payer: Name, receiver: Name, amount: int)
    | BuyBytes(payer: Name, receiver: Name, bytes: int)
    | Sell(account: Name, bytes: int)
    // inery.system.cpp
    | ResizeMemory(size: int, reserved: int)
    | RateMemory(perBlock: nat)
    | PinLimit(account: Name, resource: Resource, pin: Pin)
    | LimitAccount(account: Name, limits: Limits)
    | OpenAccount(account: Name)
    | RemoveProducer(producer: Name)
    | Inflate(rate: int, payFactor: int, voteFactor: int)
    // voting.cpp
    | RegisterProducer(producer: Name)
    | UnregisterProducer(producer: Name)
    | MakeProducer(voter: Name, proxy: Name, producers: seq<Name>)
    | RegisterProxy(who: Name, on: bool)
    // producer_pay.cpp
    | Block(slot: nat, producer: Name)
    | Claim(owner: Name, minted: nat)

  predicate IsTrade(a: Action) { a.Delegate? || a.Undelegate? || a.TakeRefund? || a.Buy? || a.BuyBytes? || a.Sell? }

  predicate IsSetting(a: Action) { a.ResizeMemory? || a.RateMemory? || a.Inflate? }

  predicate IsAccountAction(a: Action) { a.PinLimit? || a.LimitAccount? || a.OpenAccount? }

  /** An action, who authorised it, the microseconds since the event before it, and that week's
      factor from stake to vote weight. */
  datatype Event = Event(action: Action, auth: set<Name>, elapsed: nat, growth: Growth)

  function WithToken(c: Chain, t: Result<Ledger>): Result<Chain> {
    var t' :- t;
    Success(c.(token := t'))
  }

  /** What the action does when its transaction goes through. */
  function Perform(c: Chain, a: Action, auth: set<Name>, growth: Growth): Result<Chain> {
    match a
    case TokenCreate(issuer, max) => WithToken(c, Create(c.token, auth, TOKEN, issuer, max))
    case TokenIssue(to, q) => WithToken(c, Issue(c.token, auth, to, q))
    case TokenRetire(q) => WithToken(c, Retire(c.token, Env(c), auth, q))
    case TokenTransfer(from, to, q) => WithToken(c, Transfer(c.token, Env(c), auth, from, to, q))
    case TokenOpen(owner, code, precision, payer) => WithToken(c, Open(c.token, Env(c), auth, owner, code, precision, payer))
    case TokenClose(owner, code) => WithToken(c, Close(c.token, auth, owner, code))
    case Delegate(from, receiver, net, cpu, transfer) => DelegateBw(c, auth, from, receiver, net, cpu, transfer, growth)
    case Undelegate(from, receiver, net, cpu) => UndelegateBw(c, auth, from, receiver, net, cpu, growth)
    case TakeRefund(owner) => ClaimRefund(c, auth, owner)
    case Buy(payer, receiver, amount) => BuyResources(c, auth, payer, receiver, amount, growth)
    case BuyBytes(payer, receiver, bytes) => BuyMemBytes(c, auth, payer, receiver, bytes, growth)
    case Sell(account, bytes) => SellRes(c, auth, account, bytes, growth)
    case ResizeMemory(size, reserved) => SetMem(c, auth, size, reserved)
    case RateMemory(perBlock) => SetMemRate(c, auth, perBlock)
    case PinLimit(account, resource, pin) => SetAcct(c, auth, account, resource, pin)
    case LimitAccount(account, limits) => SetALimits(c, auth, account, limits)
    case OpenAccount(account) => NewAccount(c, auth, account)
    case RemoveProducer(producer) => RmvProducer(c, auth, producer)
    case Inflate(rate, payFactor, voteFactor) => SetInflation(c, auth, rate, payFactor, voteFactor)
    case RegisterProducer(producer) => RegProducer(c, auth, producer)
    case UnregisterProducer(producer) => UnregProd(c, auth, producer)
    case MakeProducer(voter, proxy, producers) => MakeProd(c, auth, voter, proxy, producers, growth)
    case RegisterProxy(who, on) => RegProxyAction(c, auth, who, on, growth)
    case Block(slot, producer) => OnBlock(c, auth, slot, producer)
    case Claim(owner, minted) => ClaimRewards(c, auth, owner, minted)
  }

  function Later(c: Chain, elapsed: nat): Chain { c.(now := c.now + elapsed) }

  /** The transaction of an event: its result, or the failed check. */
  function Try(c: Chain, e: Event): Result<Chain> {
    Perform(Later(c, e.elapsed), e.action, e.auth, e.growth)
  }

  function Step(c: Chain, e: Event): Chain {
    var r := Try(c, e);
    if r.Success? then r.value else Later(c, e.elapsed)
  }

  function Run(c: Chain, es: seq<Event>): Chain {
    if es == [] then c else Step(Run(c, es[..|es| - 1]), es[|es| - 1])
  }

  /** The chain right after `init`: the core token is out, and nothing else has happened. */
  function Genesis(now: nat, issuer: Name, supply: int, maxSupply: int, accounts: set<Name>, revision: nat): Chain {
    Chain(now,
      Book(map[], map[], map[], 0.0, 0.0, 0.0, 0, 0, 0),
      map[],
      Stakes(map[], map[], map[]),
      Market(388_677_360_418_816, supply / 1000, 0, 555_253_372_026_880, 0, 0),
      Pay(0, 0, 0, 0, 50000, 40000, revision, 0, {}),
      map a | a in accounts :: Limits(-1, -1, -1),
      Ledger(map[INR := Stat(INR_PRECISION, supply, maxSupply, issuer)], map[(issuer, INR) := supply]))
  }
}
