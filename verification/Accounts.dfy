/** Account limits and registration: inery.system.cpp and the registration actions of voting.cpp. */
module Accounts {
  import opened Basics
  import opened Voting
  import opened Token
  import opened Chain
  import opened Staking

  datatype Resource = Mem | Net | Cpu

  function Managed(f: Flags, r: Resource): bool {
    match r case Mem => f.mem case Net => f.net case Cpu => f.cpu
  }

  function SetManaged(f: Flags, r: Resource, on: bool): Flags {
    match r
    case Mem => f.(mem := on)
    case Net => f.(net := on)
    case Cpu => f.(cpu := on)
  }

  function SetLimit(l: Limits, r: Resource, x: int): Limits {
    match r
    case Mem => l.(mem := x)
    case Net => l.(net := x)
    case Cpu => l.(cpu := x)
  }

  /** The limit an unmanaged resource has by its owner's row. */
  function DefaultLimit(m: map<Name, Resources>, account: Name, r: Resource): int {
    var row := ResourcesOf(m, account);
    match r case Mem => MEM_GIFT_BYTES + row.mem case Net => row.net case Cpu => row.cpu
  }

  datatype Pin = Unpin | PinAt(limit: int)

  function SetFlag(b: Book, account: Name, r: Resource, on: bool): Book {
    var row := if account in b.voters then b.voters[account] else NEW_VOTER;
    b.(voters := b.voters[account := row.(flags := SetManaged(row.flags, r, on))])
  }

  /** `setacctmem`, `setacctnet` and `setacctcpu` */
  function SetAcct(c: Chain, auth: set<Name>, account: Name, r: Resource, pin: Pin): Result<Chain> {
    var signed := SYSTEM in auth;
    :- Need(signed, MissingAuthority);
    :- Need(account in c.limits, NoSuchAccount);
    match pin
    case Unpin =>
      :- Need(account in c.book.voters && Managed(c.book.voters[account].flags, r), AlreadyUnmanaged);
      Success(c.(book := SetFlag(c.book, account, r, false),
                 limits := c.limits[account := SetLimit(c.limits[account], r, DefaultLimit(c.stakes.resources, account, r))]))
    case PinAt(x) =>
      :- Need(x >= (if r.Mem? then 0 else -1), if r.Mem? then UnlimitedMem else InvalidWeight);
      Success(c.(book := SetFlag(c.book, account, r, true),
                 limits := c.limits[account := SetLimit(c.limits[account], r, x)]))
  }

  function SetALimits(c: Chain, auth: set<Name>, account: Name, l: Limits): Result<Chain> {
    var signed := SYSTEM in auth;
    :- Need(signed, MissingAuthority);
    :- Need(account !in c.stakes.resources, LimitedAccount);
    :- Need(FlagsOf(c.book, account) == UNMANAGED, ManagedResources);
    :- Need(account in c.limits, NoSuchAccount);
    Success(c.(limits := c.limits[account := l]))
  }

  function NewAccount(c: Chain, auth: set<Name>, account: Name): Result<Chain> {
    var isNew := account !in c.limits;
    :- Need(isNew, AccountExists);
    :- Need(CREATOR in auth, MissingAuthority);
    :- Need(account !in c.stakes.resources, AccountExists);
    Success(c.(limits := c.limits[account := Limits(0, 0, 0)],
               stakes := c.stakes.(resources := c.stakes.resources[account := NO_RESOURCES])))
  }

  function SetInflation(c: Chain, auth: set<Name>, rate: int, payFactor: int, voteFactor: int): Result<Chain> {
    var signed := SYSTEM in auth;
    :- Need(signed, MissingAuthority);
    :- Need(rate >= 0, NegativeRate);
    :- Need(payFactor >= PAY_PRECISION, FactorTooSmall);
    :- Need(voteFactor >= PAY_PRECISION, FactorTooSmall);
    Success(c.(pay := c.pay.(payFactor := payFactor, voteFactor := voteFactor)))
  }

  function Retired(b: Book, producer: Name): Book
    requires producer in b.producers
  {
    b.(producers := b.producers[producer := Deactivate(b.producers[producer])])
  }

  function RmvProducer(c: Chain, auth: set<Name>, producer: Name): Result<Chain> {
    var signed := SYSTEM in auth;
    :- Need(signed, MissingAuthority);
    :- Need(producer in c.book.producers, ProducerNotFound);
    Success(c.(book := Retired(c.book, producer)))
  }

  function UnregProd(c: Chain, auth: set<Name>, producer: Name): Result<Chain> {
    var signed := producer in auth;
    :- Need(signed, MissingAuthority);
    :- Need(producer in c.book.producers, ProducerNotFound);
    Success(c.(book := Retired(c.book, producer),
               producing := if producer in c.producing then c.producing[producer := false] else c.producing))
  }

  function RegProducer(c: Chain, auth: set<Name>, producer: Name): Result<Chain> {
    var signed := producer in auth;
    :- Need(signed, MissingAuthority);
    Success(c.(book := Register(c.book, producer, c.now), producing := c.producing[producer := true]))
  }

  function MakeProd(c: Chain, auth: set<Name>, voter: Name, proxy: Name, producers: seq<Name>, growth: Growth): Result<Chain> {
    var signed := voter in auth;
    :- Need(signed, MissingAuthority);
    :- Need((voter, INR) in c.token.balances, NoBalance);
    :- Need(c.token.balances[(voter, INR)] / 10000 >= BORDER_BALANCE, BalanceTooLow);
    :- Need(voter in c.book.producers, ProducerNotFound);
    var b := c.book.(producers := c.book.producers[voter := c.book.producers[voter].(isProducer := true)]);
    var b' :- UpdateVotes(b, voter, proxy, producers, true, Clock(c.now, growth));
    Success(c.(book := b', producing := if voter in c.producing then c.producing[voter := true] else c.producing))
  }

  function RegProxyAction(c: Chain, auth: set<Name>, who: Name, on: bool, growth: Growth): Result<Chain> {
    var signed := who in auth;
    :- Need(signed, MissingAuthority);
    var b :- RegProxy(c.book, who, on, Clock(c.now, growth));
    Success(c.(book := b))
  }
}
