/** Whom skipped changes harm over whole runs: nobody but those whom a voter backs whose own change is
    dropped, and those whom a choice of negative weight names. */
module LocalityRuns {
  import opened Basics
  import opened Sums
  import opened Voting
  import opened VoteLedger
  import opened VotingRules
  import opened BookSteps
  import opened VotingSteps
  import opened Token
  import opened Chain
  import opened Staking
  import opened StakeSteps
  import opened Memory
  import opened Rewards
  import opened RewardSteps
  import opened Accounts
  import opened Runs
  import opened Invariants
  import opened AccountSteps
  import opened StakeMoves
  import opened VotingRuns
  import opened PlainRuns
  import opened Locality

  /** None of a voter's stake changes drops the change of a voter who backs `x`. */
  ghost predicate MovesSpare(b: Book, voter: Name, deltas: seq<int>, k: Clock, x: Name)
    decreases |deltas|
  {
    deltas == []
    || (StakeSpares(b, voter, deltas[0], k, x)
        && (UpdateVotingPower(b, voter, deltas[0], k).Success? ==>
              MovesSpare(UpdateVotingPower(b, voter, deltas[0], k).value, voter, deltas[1..], k, x)))
  }

  /** No propagation the action starts drops the change of a voter who backs `x`, and the action names `x` in no
      choice of negative weight. */
  ghost predicate Spares(c: Chain, a: Action, growth: Growth, x: Name) {
    var k := Clock(c.now, growth);
    match a
    case MakeProducer(voter, proxy, producers) =>
      voter in c.book.producers && voter in c.book.voters ==>
        VoteSpares(MadeProducer(c.book, voter), voter, proxy, producers, true, k, x)
    case RegisterProxy(who, on) => ProxySpares(c.book, who, on, k, x)
    case _ => MovesSpare(c.book, MovesOf(a).voter, MovesOf(a).deltas, k, x)
  }

  /** The chain with the totals of `x` right, whatever those of others are. */
  ghost predicate Fair(c: Chain, x: Name) { Orderly(c) && FairBook(c.book, x) }

  ghost predicate FairBook(b: Book, x: Name) { Kept(b, x) && RightFor(b, x) }

  lemma FairParts(c: Chain, x: Name)
    requires Fair(c, x)
    ensures Orderly(c) && FairBook(c.book, x) && Kept(c.book, x) && RightFor(c.book, x)
    ensures WellFormed(c.book) && c.book.shares.Keys == c.book.producers.Keys
  {
    hide Orderly, RightFor, LendersWeigh, ListedByItself;
  }

  lemma {:induction false} MovesFair(b: Book, voter: Name, deltas: seq<int>, k: Clock, x: Name, b': Book)
    requires FairBook(b, x) && MoveAll(b, voter, deltas, k) == Success(b') && MovesSpare(b, voter, deltas, k, x)
    ensures FairBook(b', x)
    decreases |deltas|
  {
    hide Kept, RightFor, UpdateVotingPower, StakeSpares;
    if deltas != [] {
      StakeKeepsRight(b, voter, deltas[0], k, x);
      MovesFair(UpdateVotingPower(b, voter, deltas[0], k).value, voter, deltas[1..], k, x, b');
    }
  }

  lemma TradeFair(c: Chain, a: Action, auth: set<Name>, growth: Growth, x: Name)
    requires Orderly(c) && FairBook(c.book, x) && Perform(c, a, auth, growth).Success? && Spares(c, a, growth, x) && IsTrade(a)
    ensures FairBook(Perform(c, a, auth, growth).value.book, x)
  {
    hide Orderly, FairBook, Perform, MovesOf, MoveAll, MovesSpare;
    TradeMoves(c, a, auth, growth);
    MovesFair(c.book, MovesOf(a).voter, MovesOf(a).deltas, Clock(c.now, growth), x, Perform(c, a, auth, growth).value.book);
  }

  lemma MakeFair(c: Chain, auth: set<Name>, voter: Name, proxy: Name, producers: seq<Name>, growth: Growth, x: Name)
    requires Fair(c, x) && MakeProd(c, auth, voter, proxy, producers, growth).Success?
    requires Spares(c, MakeProducer(voter, proxy, producers), growth, x)
    ensures FairBook(MakeProd(c, auth, voter, proxy, producers, growth).value.book, x)
  {
    hide Orderly, Kept, RightFor, UpdateVotes, VoteSpares, MakeProd, WellFormed;
    FairParts(c, x);
    var c' := MakeKeeps(c, auth, voter, proxy, producers, growth);
    var b := MadeProducer(c.book, voter);
    SameVotesRight(c.book, b, x);
    VoterExists(b, voter, proxy, producers, Clock(c.now, growth));
    var b' := VoteKeepsRight(b, voter, proxy, producers, true, Clock(c.now, growth), x);
  }

  lemma FlagFair(b: Book, account: Name, r: Resource, on: bool, x: Name)
    requires FairBook(b, x)
    ensures FairBook(SetFlag(b, account, r, on), x)
  {
    hide Kept, RightFor, WellFormed;
    KeptParts(b, x);
    SetFlagIsRow(b, account, r, on);
    PlainRow(b, account);
    StakedKept(b, account, x);
    RowKeepsRight(b, account, RowOf(b, account).(flags := SetManaged(RowOf(b, account).flags, r, on)), x);
  }

  lemma RetiredFair(b: Book, p: Name, x: Name)
    requires FairBook(b, x) && p in b.producers
    ensures FairBook(Retired(b, p), x)
  {
    hide Kept, RightFor;
    SameVotesRight(b, Retired(b, p), x);
  }

  lemma BlockFair(c: Chain, auth: set<Name>, slot: nat, producer: Name, x: Name)
    requires Fair(c, x) && OnBlock(c, auth, slot, producer).Success?
    ensures FairBook(OnBlock(c, auth, slot, producer).value.book, x)
  {
    hide Orderly, Kept, RightFor, OnBlock;
    var c' := BlockKeeps(c, auth, slot, producer);
    if producer in c.book.producers {
      var row := c.book.producers[producer].(unpaid := c.book.producers[producer].unpaid + 1);
      SameVotesRight(c.book, WithProducer(c.book, producer, row), x);
    }
  }

  lemma ClaimFair(c: Chain, auth: set<Name>, owner: Name, minted: nat, x: Name)
    requires Fair(c, x) && ClaimRewards(c, auth, owner, minted).Success?
    ensures FairBook(ClaimRewards(c, auth, owner, minted).value.book, x)
  {
    hide Orderly, Kept, RightFor, ClaimRewards, ClaimBook, WellFormed;
    FairParts(c, x);
    var c', revised := ClaimKeeps(c, auth, owner, minted);
    ClaimBookProducers(c.book, owner, revised, c.now);
    assert c'.book.shares.Keys == c.book.shares.Keys by { ClaimShares(c.book, owner, revised, c.now); }
    SameVotesRight(c.book, c'.book, x);
  }

  lemma ClaimShares(b: Book, owner: Name, revised: bool, now: int)
    requires owner in b.producers && b.shares.Keys == b.producers.Keys
    ensures ClaimBook(b, owner, revised, now).shares.Keys == b.shares.Keys
  {
  }

  lemma RegisterFair(b: Book, p: Name, now: int, x: Name)
    requires FairBook(b, x)
    ensures FairBook(Register(b, p, now), x)
  {
    hide Kept, RightFor, Register;
    RegisterRight(b, p, now, x);
  }

  lemma OthersFair(c: Chain, a: Action, auth: set<Name>, growth: Growth, x: Name)
    requires Fair(c, x) && Perform(c, a, auth, growth).Success? && !IsTrade(a) && !a.MakeProducer? && !a.RegisterProxy?
    ensures FairBook(Perform(c, a, auth, growth).value.book, x)
  {
    hide Orderly, FairBook, TokensKept, PinsKept, SetMem, SetMemRate, SetAcct, SetALimits, NewAccount, SetInflation, OnBlock,
         ClaimRewards, ClaimBook, Create, Issue, Retire, Transfer, Open, Close, Register, Retired, SetFlag;
    match a
    case ResizeMemory(size, reserved) => var c' := SetMemKeeps(c, auth, size, reserved);
    case RateMemory(perBlock) => var c' := SetMemRateKeeps(c, auth, perBlock);
    case PinLimit(account, resource, pin) =>
      var c' := SetAcctKeeps(c, auth, account, resource, pin);
      FlagFair(c.book, account, resource, pin.PinAt?, x);
    case LimitAccount(account, limits) => var c' := SetALimitsKeeps(c, auth, account, limits);
    case OpenAccount(account) => var c' := NewAccountKeeps(c, auth, account);
    case Inflate(rate, payFactor, voteFactor) => var c' := InflateKeeps(c, auth, rate, payFactor, voteFactor);
    case RemoveProducer(producer) => RetiredFair(c.book, producer, x);
    case RegisterProducer(producer) => RegisterFair(c.book, producer, c.now, x);
    case UnregisterProducer(producer) => RetiredFair(c.book, producer, x);
    case Block(slot, producer) => BlockFair(c, auth, slot, producer, x);
    case Claim(owner, minted) => ClaimFair(c, auth, owner, minted, x);
    case _ => TokenBookSame(c, a, auth, growth);
  }

  lemma ProxyFair(c: Chain, a: Action, growth: Growth, x: Name)
    requires FairBook(c.book, x) && a.RegisterProxy? && RegProxy(c.book, a.who, a.on, Clock(c.now, growth)).Success?
    requires Spares(c, a, growth, x)
    ensures FairBook(RegProxy(c.book, a.who, a.on, Clock(c.now, growth)).value, x)
  {
    hide Kept, RightFor, RegProxy, ProxySpares;
    RegProxyKeepsRight(c.book, a.who, a.on, Clock(c.now, growth), x);
  }

  /** Every action leaves right the totals of everybody it does not hurt. */
  lemma PerformKeepsFair(c: Chain, a: Action, auth: set<Name>, growth: Growth, x: Name)
    requires Fair(c, x) && Perform(c, a, auth, growth).Success? && Spares(c, a, growth, x)
    ensures Fair(Perform(c, a, auth, growth).value, x)
  {
    hide Orderly, FairBook, Spares, MakeProd, WithToken, DelegateBw, UndelegateBw, ClaimRefund, RegProxy,
         BuyResources, BuyMemBytes, SellRes, SetMem, SetMemRate, SetAcct, SetALimits, NewAccount, SetInflation, OnBlock, ClaimRewards,
         RegProducer, UnregProd, RmvProducer;
    PerformKeepsOrderly(c, a, auth, growth);
    if IsTrade(a) {
      TradeFair(c, a, auth, growth, x);
    } else if a.MakeProducer? {
      MakeFair(c, auth, a.voter, a.proxy, a.producers, growth, x);
    } else if a.RegisterProxy? {
      ProxyFair(c, a, growth, x);
    } else {
      OthersFair(c, a, auth, growth, x);
    }
  }

  // ---------- runs ----------

  ghost predicate EventSpares(c: Chain, e: Event, x: Name) {
    Try(c, e).Success? ==> Spares(Later(c, e.elapsed), e.action, e.growth, x)
  }

  /** No event of the run hurts `x`. */
  ghost predicate RunSpares(c: Chain, es: seq<Event>, x: Name) {
    forall i :: 0 <= i < |es| ==> EventSpares(Run(c, es[..i]), es[i], x)
  }

  lemma StepKeepsFair(c: Chain, e: Event, x: Name)
    requires Fair(c, x) && EventSpares(c, e, x)
    ensures Fair(Step(c, e), x)
  {
    hide Orderly, FairBook, Perform, Spares;
    LaterKeepsOrderly(c, e.elapsed);
    if Try(c, e).Success? {
      PerformKeepsFair(Later(c, e.elapsed), e.action, e.auth, e.growth, x);
    }
  }

  lemma PrefixSpares(c: Chain, es: seq<Event>, x: Name, n: nat)
    requires RunSpares(c, es, x) && n <= |es|
    ensures RunSpares(c, es[..n], x)
    ensures n < |es| ==> EventSpares(Run(c, es[..n]), es[n], x)
  {
    hide EventSpares, Run;
    forall i | 0 <= i < n ensures EventSpares(Run(c, es[..n][..i]), es[..n][i], x) {
      assert es[..n][..i] == es[..i];
    }
  }

  /** Over every run, whatever it skips: the totals of an account stay right as long as nobody who backs it is the
      one whose change is dropped, and nobody names it in a choice of negative weight. */
  lemma {:induction false} RunKeepsFair(c: Chain, es: seq<Event>, x: Name)
    requires Fair(c, x) && RunSpares(c, es, x)
    ensures Fair(Run(c, es), x)
  {
    if es != [] {
      hide Fair, Step, EventSpares, RunSpares;
      var n := |es| - 1;
      PrefixSpares(c, es, x, n);
      RunKeepsFair(c, es[..n], x);
      StepKeepsFair(Run(c, es[..n]), es[n], x);
    }
  }

  lemma BlankBookFair(b: Book, x: Name)
    requires Blank(b)
    ensures FairBook(b, x)
  {
    hide WellFormed;
    BlankBookShape(b);
  }

  /** From genesis: an account that no event hurts has exactly the votes it was given, and exactly the weight
      that was lent to it. */
  lemma ReachableFair(now: nat, issuer: Name, supply: int, maxSupply: int, accounts: set<Name>, revision: nat, es: seq<Event>, x: Name)
    requires now > 0 && 0 < supply <= maxSupply <= MAX_AMOUNT
    requires var g := Genesis(now, issuer, supply, maxSupply, accounts, revision); RunSpares(g, es, x)
    ensures var b := Run(Genesis(now, issuer, supply, maxSupply, accounts, revision), es).book;
      && (x in b.producers ==> b.producers[x].votes == Total(VoteColumn(b.voters, x)))
      && (x in b.voters ==> b.voters[x].proxied == Total(LentColumn(b.voters, x)))
  {
    hide Run, Orderly, Kept, Total;
    var g := Genesis(now, issuer, supply, maxSupply, accounts, revision);
    GenesisOrderly(now, issuer, supply, maxSupply, accounts, revision);
    BlankBookFair(g.book, x);
    RunKeepsFair(g, es, x);
  }
}
