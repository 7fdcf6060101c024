/** Everybody votes for itself only, over every action that casts no vote of negative weight. */
module OwnVotes {
  import opened Basics
  import opened Voting
  import opened VotingRules
  import opened BookSteps
  import opened VotingSteps
  import opened VoteExactness
  import opened Token
  import opened Chain
  import opened Staking
  import opened StakeSteps
  import opened Memory
  import opened Rewards
  import opened RewardSteps
  import opened Accounts
  import opened Runs
  import opened Invariants
  import opened AccountSteps
  import opened StakeMoves
  import opened VotingRuns

  /** A new choice is made with a non-negative weight: a negative one is not checked against the rule that
      one votes only for oneself (voting.cpp:327 and 341). */
  predicate WeighsVotes(c: Chain, a: Action, growth: Growth) {
    a.MakeProducer? && a.voter in c.book.voters ==> NewWeight(c.book.voters[a.voter], growth) >= 0.0
  }

  lemma SameVotersOwn(b: Book, b': Book)
    requires b'.voters == b.voters
    ensures OwnBallots(b) ==> OwnBallots(b')
  {
  }

  lemma SetFlagKeepsOwn(b: Book, account: Name, r: Resource, on: bool)
    ensures OwnBallots(b) ==> OwnBallots(SetFlag(b, account, r, on))
  {
  }

  lemma StatusKeepsOwn(b: Book, p: Name, now: int)
    ensures OwnBallots(b) ==> OwnBallots(Register(b, p, now)) && (p in b.producers ==> OwnBallots(Retired(b, p)))
  {
  }

  lemma StakeStaysWellFormed(b: Book, voter: Name, delta: int, k: Clock)
    requires WellFormed(b) && UpdateVotingPower(b, voter, delta, k).Success?
    ensures WellFormed(UpdateVotingPower(b, voter, delta, k).value)
  {
    hide WellFormed, UpdateVotingPower, SameStanding;
    var b' := StakeKeepsShape(b, voter, delta, k);
  }

  lemma MakeKeepsOwn(c: Chain, auth: set<Name>, voter: Name, proxy: Name, producers: seq<Name>, growth: Growth)
    requires Orderly(c) && OwnBallots(c.book) && MakeProd(c, auth, voter, proxy, producers, growth).Success?
    requires WeighsVotes(c, MakeProducer(voter, proxy, producers), growth)
    ensures OwnBallots(MakeProd(c, auth, voter, proxy, producers, growth).value.book)
  {
    hide Orderly, UpdateVotes, MakeProd, OwnBallots, WellFormed;
    OrderlyParts(c);
    var c' := MakeKeeps(c, auth, voter, proxy, producers, growth);
    var b := MadeProducer(c.book, voter);
    RewriteProducerShape(c.book, voter, c.book.producers[voter].(isProducer := true));
    SameVotersOwn(c.book, b);
    VoterExists(b, voter, proxy, producers, Clock(c.now, growth));
    VoteKeepsOwn(b, voter, proxy, producers, true, Clock(c.now, growth));
  }

  lemma {:induction false} MovesKeepOwn(b: Book, voter: Name, deltas: seq<int>, k: Clock, b': Book)
    requires WellFormed(b) && OwnBallots(b) && MoveAll(b, voter, deltas, k) == Success(b')
    ensures OwnBallots(b')
    decreases |deltas|
  {
    hide WellFormed, OwnBallots, UpdateVotingPower;
    if deltas != [] {
      StakeKeepsOwn(b, voter, deltas[0], k);
      StakeStaysWellFormed(b, voter, deltas[0], k);
      MovesKeepOwn(UpdateVotingPower(b, voter, deltas[0], k).value, voter, deltas[1..], k, b');
    }
  }

  lemma TradeKeepsOwn(c: Chain, a: Action, auth: set<Name>, growth: Growth)
    requires Orderly(c) && OwnBallots(c.book) && Perform(c, a, auth, growth).Success? && IsTrade(a)
    ensures OwnBallots(Perform(c, a, auth, growth).value.book)
  {
    hide Orderly, OwnBallots, Perform, MovesOf, MoveAll, WellFormed;
    OrderlyParts(c);
    TradeMoves(c, a, auth, growth);
    MovesKeepOwn(c.book, MovesOf(a).voter, MovesOf(a).deltas, Clock(c.now, growth), Perform(c, a, auth, growth).value.book);
  }

  /** Actions that are neither trades nor votes leave every ballot alone. */
  lemma OthersKeepOwn(c: Chain, a: Action, auth: set<Name>, growth: Growth)
    requires Orderly(c) && OwnBallots(c.book) && Perform(c, a, auth, growth).Success? && !IsTrade(a) && !a.MakeProducer? && !a.RegisterProxy?
    ensures OwnBallots(Perform(c, a, auth, growth).value.book)
  {
    hide Orderly, OwnBallots, TokensKept, PinsKept, SetMem, SetMemRate, SetAcct, SetALimits, NewAccount, SetInflation, OnBlock,
         ClaimRewards, ClaimBook, Create, Issue, Retire, Transfer, Open, Close, Register, Retired;
    match a
    case ResizeMemory(size, reserved) => var c' := SetMemKeeps(c, auth, size, reserved);
    case RateMemory(perBlock) => var c' := SetMemRateKeeps(c, auth, perBlock);
    case PinLimit(account, resource, pin) =>
      var c' := SetAcctKeeps(c, auth, account, resource, pin);
      SetFlagKeepsOwn(c.book, account, resource, pin.PinAt?);
    case LimitAccount(account, limits) => var c' := SetALimitsKeeps(c, auth, account, limits);
    case OpenAccount(account) => var c' := NewAccountKeeps(c, auth, account);
    case Inflate(rate, payFactor, voteFactor) => var c' := InflateKeeps(c, auth, rate, payFactor, voteFactor);
    case RemoveProducer(producer) => StatusKeepsOwn(c.book, producer, c.now);
    case RegisterProducer(producer) => StatusKeepsOwn(c.book, producer, c.now);
    case UnregisterProducer(producer) => StatusKeepsOwn(c.book, producer, c.now);
    case Block(slot, producer) =>
      var c' := BlockKeeps(c, auth, slot, producer);
      SameVotersOwn(c.book, c'.book);
    case Claim(owner, minted) =>
      var c', revised := ClaimKeeps(c, auth, owner, minted);
      ClaimBookProducers(c.book, owner, revised, c.now);
      SameVotersOwn(c.book, c'.book);
    case _ => TokenBookSame(c, a, auth, growth);
  }

  lemma PerformKeepsOwn(c: Chain, a: Action, auth: set<Name>, growth: Growth)
    requires Orderly(c) && OwnBallots(c.book) && Perform(c, a, auth, growth).Success? && WeighsVotes(c, a, growth)
    ensures OwnBallots(Perform(c, a, auth, growth).value.book)
  {
    hide Orderly, OwnBallots, MakeProd, WithToken, DelegateBw, UndelegateBw, ClaimRefund, WeighsVotes, RegProxy,
         BuyResources, BuyMemBytes, SellRes, SetMem, SetMemRate, SetAcct, SetALimits, NewAccount, SetInflation, OnBlock, ClaimRewards,
         RegProducer, UnregProd, RmvProducer;
    if IsTrade(a) {
      TradeKeepsOwn(c, a, auth, growth);
    } else if a.MakeProducer? {
      MakeKeepsOwn(c, auth, a.voter, a.proxy, a.producers, growth);
    } else if a.RegisterProxy? {
      assert WellFormed(c.book) by { OrderlyParts(c); }
      hide WellFormed;
      RegProxyKeepsOwn(c.book, a.who, a.on, Clock(c.now, growth));
    } else {
      OthersKeepOwn(c, a, auth, growth);
    }
  }
}
