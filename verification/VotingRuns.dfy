/** The ledger of votes over whole runs. */
module VotingRuns {
  import opened Basics
  import opened Voting
  import opened VotingRules
  import opened VotingInvariant
  import opened VoteStep
  import opened BookSteps
  import opened VotingSteps
  import opened Token
  import opened Chain
  import opened Staking
  import opened StakeLedger
  import opened StakeSteps
  import opened Memory
  import opened Rewards
  import opened RewardSteps
  import opened Accounts
  import opened Runs
  import opened Invariants
  import opened AccountSteps
  import opened StakeMoves

  /** None of a voter's stake changes starts a propagation that drops a change. */
  ghost predicate MovesSkipNothing(b: Book, voter: Name, deltas: seq<int>, k: Clock)
    decreases |deltas|
  {
    deltas == []
    || (StakeSkipsNothing(b, voter, deltas[0], k)
        && (UpdateVotingPower(b, voter, deltas[0], k).Success? ==>
              MovesSkipNothing(UpdateVotingPower(b, voter, deltas[0], k).value, voter, deltas[1..], k)))
  }

  /** The action starts no propagation that drops a non-zero change of size at most 1. It can be read
      off the state before the action. */
  ghost predicate SkipsNothing(c: Chain, a: Action, growth: Growth) {
    var k := Clock(c.now, growth);
    match a
    case MakeProducer(voter, proxy, producers) =>
      voter in c.book.producers && voter in c.book.voters ==> VoteSkipsNothing(MadeProducer(c.book, voter), voter, proxy, k)
    case RegisterProxy(who, on) => ProxySkipsNothing(c.book, who, on, k)
    case _ => MovesSkipNothing(c.book, MovesOf(a).voter, MovesOf(a).deltas, k)
  }

  /** The invariant of the chain with an exact ledger of votes. */
  ghost predicate Sane(c: Chain) { Orderly(c) && Sound(c.book) }

  lemma SaneParts(c: Chain)
    requires Sane(c)
    ensures Orderly(c) && StakesSound(c.stakes, c.book) && WellFormed(c.book) && BlocksSound(c) && c.now > 0
  {
  }

  lemma MakeSound(c: Chain, voter: Name, proxy: Name, producers: seq<Name>, growth: Growth, b': Book)
    requires Sane(c) && voter in c.book.producers
    requires UpdateVotes(MadeProducer(c.book, voter), voter, proxy, producers, true, Clock(c.now, growth)) == Success(b')
    requires voter in c.book.voters ==> VoteSkipsNothing(MadeProducer(c.book, voter), voter, proxy, Clock(c.now, growth))
    ensures Sound(b')
  {
    hide Orderly, Sound, UpdateVotes, VoteSkipsNothing;
    var b := MadeProducer(c.book, voter);
    RewriteProducerSound(c.book, voter, c.book.producers[voter].(isProducer := true));
    VoterExists(b, voter, proxy, producers, Clock(c.now, growth));
    var b'' := VoteKeepsSound(b, voter, proxy, producers, true, Clock(c.now, growth));
  }

  lemma VoterExists(b: Book, voter: Name, proxy: Name, producers: seq<Name>, k: Clock)
    requires UpdateVotes(b, voter, proxy, producers, true, k).Success?
    ensures voter in b.voters
  {
  }

  lemma SetFlagSound(b: Book, account: Name, r: Resource, on: bool)
    requires Sound(b)
    ensures Sound(SetFlag(b, account, r, on))
  {
    hide Core;
    SetFlagIsRow(b, account, r, on);
    CoreParts(b);
    hide WellFormed;
    PlainRow(b, account);
    StakedNow(b, account);
    RewriteVoterSound(b, account, RowOf(b, account).(flags := SetManaged(RowOf(b, account).flags, r, on)));
  }

  lemma RetiredSound(b: Book, p: Name)
    requires Sound(b) && p in b.producers
    ensures Sound(Retired(b, p))
  {
    hide Sound;
    RewriteProducerSound(b, p, Deactivate(b.producers[p]));
    assert Retired(b, p) == WithProducer(b, p, Deactivate(b.producers[p]));
  }

  lemma BlockSound(c: Chain, auth: set<Name>, slot: nat, producer: Name)
    requires Sane(c) && OnBlock(c, auth, slot, producer).Success?
    ensures Sound(OnBlock(c, auth, slot, producer).value.book)
  {
    hide Orderly, Sound, OnBlock;
    var c' := BlockKeeps(c, auth, slot, producer);
    if producer in c.book.producers {
      RewriteProducerSound(c.book, producer, c.book.producers[producer].(unpaid := c.book.producers[producer].unpaid + 1));
    }
  }

  lemma ClaimKeepsSound(c: Chain, auth: set<Name>, owner: Name, minted: nat)
    requires Sane(c) && ClaimRewards(c, auth, owner, minted).Success?
    ensures Sound(ClaimRewards(c, auth, owner, minted).value.book)
  {
    hide Orderly, Sound, ClaimRewards, ClaimBook;
    var c', revised := ClaimKeeps(c, auth, owner, minted);
    ClaimSound(c.book, owner, revised, c.now);
  }

  lemma {:induction false} MovesKeepSound(b: Book, voter: Name, deltas: seq<int>, k: Clock, b': Book)
    requires Sound(b) && MoveAll(b, voter, deltas, k) == Success(b') && MovesSkipNothing(b, voter, deltas, k)
    ensures Sound(b')
    decreases |deltas|
  {
    hide Sound, UpdateVotingPower, StakeSkipsNothing;
    if deltas != [] {
      StakeKeepsSound(b, voter, deltas[0], k);
      MovesKeepSound(UpdateVotingPower(b, voter, deltas[0], k).value, voter, deltas[1..], k, b');
    }
  }

  lemma TradeKeepsSane(c: Chain, a: Action, auth: set<Name>, growth: Growth)
    requires Sane(c) && Perform(c, a, auth, growth).Success? && SkipsNothing(c, a, growth) && IsTrade(a)
    ensures Sane(Perform(c, a, auth, growth).value)
  {
    hide Orderly, Sound, Perform, MovesOf, MoveAll, MovesSkipNothing;
    PerformKeepsOrderly(c, a, auth, growth);
    TradeMoves(c, a, auth, growth);
    MovesKeepSound(c.book, MovesOf(a).voter, MovesOf(a).deltas, Clock(c.now, growth), Perform(c, a, auth, growth).value.book);
  }

  /** Every action that skips nothing keeps the ledger of votes. */
  lemma PerformKeepsSane(c: Chain, a: Action, auth: set<Name>, growth: Growth)
    requires Sane(c) && Perform(c, a, auth, growth).Success? && SkipsNothing(c, a, growth)
    ensures Sane(Perform(c, a, auth, growth).value)
  {
    hide Orderly, Sound, TokensKept, PinsKept, DelegateBw, UndelegateBw, ClaimRefund, BuyResources, BuyMemBytes,
         SellRes, SetMem, SetMemRate, SetAcct, SetALimits, NewAccount, SetInflation, MakeProd, OnBlock, ClaimRewards,
         Create, Issue, Retire, Transfer, Open, Close, MovesSkipNothing, VoteSkipsNothing, ProxySkipsNothing, RegProxy, SetFlag, Register, Retired;
    PerformKeepsOrderly(c, a, auth, growth);
    match a
    case ResizeMemory(size, reserved) => var c' := SetMemKeeps(c, auth, size, reserved);
    case RateMemory(perBlock) => var c' := SetMemRateKeeps(c, auth, perBlock);
    case PinLimit(account, resource, pin) =>
      var c' := SetAcctKeeps(c, auth, account, resource, pin);
      SetFlagSound(c.book, account, resource, pin.PinAt?);
    case LimitAccount(account, limits) => var c' := SetALimitsKeeps(c, auth, account, limits);
    case OpenAccount(account) => var c' := NewAccountKeeps(c, auth, account);
    case RemoveProducer(producer) => RetiredSound(c.book, producer);
    case Inflate(rate, payFactor, voteFactor) => var c' := InflateKeeps(c, auth, rate, payFactor, voteFactor);
    case RegisterProducer(producer) =>
      SaneParts(c);
      RegisterSound(c.book, producer, c.now);
    case UnregisterProducer(producer) => RetiredSound(c.book, producer);
    case MakeProducer(voter, proxy, producers) =>
      var c' := MakeKeeps(c, auth, voter, proxy, producers, growth);
      MakeSound(c, voter, proxy, producers, growth, c'.book);
    case RegisterProxy(who, on) => RegProxyKeepsSound(c.book, who, on, Clock(c.now, growth));
    case Block(slot, producer) => BlockSound(c, auth, slot, producer);
    case Claim(owner, minted) => ClaimKeepsSound(c, auth, owner, minted);
    case _ =>
      if IsTokenAction(a) {
        TokenBookSame(c, a, auth, growth);
      } else {
        TradeKeepsSane(c, a, auth, growth);
      }
  }

  lemma TokenBookSame(c: Chain, a: Action, auth: set<Name>, growth: Growth)
    requires IsTokenAction(a) && Perform(c, a, auth, growth).Success?
    ensures var c' := Perform(c, a, auth, growth).value; c'.book == c.book && c'.pay == c.pay && c'.now == c.now
  {
    hide Perform, TokensKept;
    var c' := TokenActionKeeps(c, a, auth, growth);
  }

  lemma LaterSane(c: Chain, elapsed: nat)
    requires Sane(c)
    ensures Sane(Later(c, elapsed))
  {
    hide Orderly, Sound;
    LaterKeepsOrderly(c, elapsed);
  }

  /** Each event of a run that goes through skips nothing in the state it meets. */
  ghost predicate RunSkipsNothing(c: Chain, es: seq<Event>) {
    forall i :: 0 <= i < |es| ==> EventSkipsNothing(Run(c, es[..i]), es[i])
  }

  ghost predicate EventSkipsNothing(c: Chain, e: Event) {
    Try(c, e).Success? ==> SkipsNothing(Later(c, e.elapsed), e.action, e.growth)
  }

  lemma StepKeepsSane(c: Chain, e: Event)
    requires Sane(c) && EventSkipsNothing(c, e)
    ensures Sane(Step(c, e))
  {
    hide Sane, Perform, SkipsNothing;
    LaterSane(c, e.elapsed);
    if Try(c, e).Success? {
      PerformKeepsSane(Later(c, e.elapsed), e.action, e.auth, e.growth);
    }
  }

  lemma PrefixSkipsNothing(c: Chain, es: seq<Event>, n: nat)
    requires RunSkipsNothing(c, es) && n <= |es|
    ensures RunSkipsNothing(c, es[..n])
    ensures n < |es| ==> EventSkipsNothing(Run(c, es[..n]), es[n])
  {
    hide EventSkipsNothing, Run;
    forall i | 0 <= i < n ensures EventSkipsNothing(Run(c, es[..n][..i]), es[..n][i]) {
      assert es[..n][..i] == es[..i];
    }
  }

  /** Over every run that skips nothing, all ledgers of the voting tables stay exact. */
  lemma {:induction false} RunKeepsSane(c: Chain, es: seq<Event>)
    requires Sane(c) && RunSkipsNothing(c, es)
    ensures Sane(Run(c, es))
  {
    if es != [] {
      hide Sane, Step, EventSkipsNothing, RunSkipsNothing;
      var n := |es| - 1;
      PrefixSkipsNothing(c, es, n);
      RunKeepsSane(c, es[..n]);
      StepKeepsSane(Run(c, es[..n]), es[n]);
    }
  }
}
