/** Names, the transaction clock, and the failure-compatible results every contract action returns. */
module Basics {

  /** An account name is the 64-bit value of its encoding; 0 is the empty name. */
  type Name = nat
  const NO_NAME: Name := 0

  /** What a transaction reads from its block: the time in microseconds and 2^(weeks/52), the
      factor by which stake turns into vote weight that week. */
  datatype Clock = Clock(now: nat, growth: Growth)
  type Growth = g: real | g >= 0.0 witness 1.0

  const SECOND: int := 1_000_000
  const DAY: int := 24 * 3600 * SECOND

  /** One constructor for each check of the contracts that can abort a transaction. */
  datatype Error =
    | MissingAuthority | NoSuchAccount
    // voting.cpp
    | ProducersAndProxy | ProxyToSelf | TooManyProducers | UnsortedProducers | NoVoter | ProxyUsingProxy
    | OldProxyMissing | ProxyMissing | NotAProxy | ProxyNotFound | Diverges | NotOwnProducer | ProducerInactive
    | ProducerNotFound | NoEffect | AlreadyUsingProxy | BalanceTooLow
    // delegate_bandwidth.cpp
    | ZeroStake | OppositeSigns | InsufficientNet | InsufficientCpu | TotalNetNegative | TotalCpuNegative
    | StakedNegative | RefundNegative | NotPositive | TransferToSelf | NoRefund | RefundTooEarly
    | NoMemoryLeft | FreeResources | NoResourceRow | InsufficientQuota | SaleTooSmall | MemStakeNegative
    // inery.system.cpp
    | MemOnlyGrows | MemUnrealistic | BelowReserved | LimitedAccount | ManagedResources | AlreadyUnmanaged
    | UnlimitedMem | InvalidWeight | NegativeRate | FactorTooSmall | AccountExists
    // producer_pay.cpp
    | AlreadyClaimed
    // inery.token.cpp
    | SymbolExists | NoSymbol | InvalidQuantity | NotIssuer | ExceedsSupply | SendToSelf | ToCreator
    | NoBalance | Overdrawn | ProducerFloor | NotEmpty
    // inery.msig.cpp
    | Expired | ProposalExists | ProposalMissing | HashMismatch | NotRequested | NotProvided
    | NotYetExpired | Unauthorized

  /** The result of a specification function: the new state, or the check that failed. */
  datatype Result<+T> = Success(value: T) | Failure(error: Error) {
    predicate IsFailure() { Failure? }

    function PropagateFailure<U>(): Result<U>
      requires Failure?
    {
      Failure(error)
    }

    function Extract(): T
      requires Success?
    {
      value
    }
  }

  /** The result of a contract method, which leaves its value in the tables it modifies. */
  datatype Outcome = Pass | Fail(error: Error) {
    predicate IsFailure() { Fail? }

    function PropagateFailure(): Outcome
      requires Fail?
    {
      this
    }
  }

  datatype Required = Met | Unmet(error: Error) {
    predicate IsFailure() { Unmet? }

    function PropagateFailure<U>(): Result<U>
      requires Unmet?
    {
      Failure(error)
    }
  }

  /** `check` inside a specification function. */
  function Need(condition: bool, error: Error): Required {
    if condition then Met else Unmet(error)
  }

  /** `check` inside a method. */
  function Check(condition: bool, error: Error): Outcome {
    if condition then Pass else Fail(error)
  }

  /** A method's outcome, with the tables it leaves, is the one its specification gives. */
  ghost predicate Agrees<T(!new)>(outcome: Outcome, tables: T, spec: Result<T>) {
    match spec
    case Success(v) => outcome.Pass? && tables == v
    case Failure(e) => outcome == Fail(e)
  }
}
