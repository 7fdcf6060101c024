/** Runs in which nobody registers as a proxy: nothing is ever skipped, so the ledgers are exact
    without any further condition. */
module PlainRuns {
  import opened Basics
  import opened Sums
  import opened Voting
  import opened ProxyGraph
  import opened VoteLedger
  import opened ProxyLedger
  import opened VotingRules
  import opened VotingInvariant
  import opened VoteStep
  import opened BookSteps
  import opened VotingSteps
  import opened Token
  import opened Chain
  import opened Staking
  import opened StakeSteps
  import opened Memory
  import opened Rewards
  import opened RewardSteps
  import opened Accounts
  import opened Runs
  import opened Invariants
  import opened AccountSteps
  import opened StakeMoves
  import opened VotingRuns

  ghost predicate NoProxies(b: Book) {
    forall v :: v in b.voters ==> b.voters[v].proxy == NO_NAME && !b.voters[v].isProxy
  }

  lemma WeightsKeepNoProxies(b: Book, b': Book)
    requires NoProxies(b) && OnlyWeights(b, b')
    ensures NoProxies(b')
  {
    assert forall v :: v in b.voters ==> SameButWeights(b.voters[v], b'.voters[v]);
  }

  /** Without proxies nobody can choose one. */
  lemma NobodyToChoose(b: Book, voter: Name, proxy: Name, producers: seq<Name>, voting: bool, k: Clock)
    requires WellFormed(b) && NoProxies(b) && (voter in b.voters ==> Repeats(b.voters[voter], proxy, producers, voting))
    requires UpdateVotes(b, voter, proxy, producers, voting, k).Success?
    ensures voter in b.voters && proxy == NO_NAME
  {
    hide WellFormed, LeaveProxy, UpdateVotes, CastAll, CheckBallots, BallotsOf, Record;
    var left, joined := VoteStages(b, voter, proxy, producers, voting, k);
    if voting && proxy != NO_NAME {
      ActivateKeepsShape(b, voter, k.now);
      var a := Activate(b, voter, k.now);
      ShapeParts(a);
      var left' := LeaveProxyFrame(a, voter, k);
      SameProxyFlag(a, left, proxy);
      assert false;
    }
  }

  lemma VoteWithoutProxies(b: Book, voter: Name, proxy: Name, producers: seq<Name>, voting: bool, k: Clock)
    requires WellFormed(b) && NoProxies(b) && (voter in b.voters ==> Repeats(b.voters[voter], proxy, producers, voting))
    requires UpdateVotes(b, voter, proxy, producers, voting, k).Success?
    ensures voter in b.voters && VoteSkipsNothing(b, voter, proxy, k)
    ensures NoProxies(UpdateVotes(b, voter, proxy, producers, voting, k).value)
  {
    hide WellFormed, UpdateVotes, OnlyWeights, LeaveProxy, NothingSkipped;
    NobodyToChoose(b, voter, proxy, producers, voting, k);
    var b' := VoteFrame(b, voter, proxy, producers, voting, k);
    WeightsKeepNoProxies(Chosen(b, voter, proxy, producers, k.now), b');
  }

  lemma StakeWithoutProxies(b: Book, voter: Name, delta: int, k: Clock, b': Book)
    requires WellFormed(b) && NoProxies(b) && UpdateVotingPower(b, voter, delta, k) == Success(b')
    ensures StakeSkipsNothing(b, voter, delta, k) && NoProxies(b') && WellFormed(b')
  {
    hide WellFormed, UpdateVotes, VoteSkipsNothing;
    var b1 := AddStake(b, voter, delta);
    AddStakeIsRow(b, voter, delta);
    PlainRow(b, voter);
    RewriteVoterShape(b, voter, b1.voters[voter]);
    var b'' := StakeKeepsShape(b, voter, delta, k);
    if b1.voters[voter].producers != [] || b1.voters[voter].proxy != NO_NAME {
      VoteWithoutProxies(b1, voter, b1.voters[voter].proxy, b1.voters[voter].producers, false, k);
    }
  }

  lemma MakePlain(c: Chain, auth: set<Name>, voter: Name, proxy: Name, producers: seq<Name>, growth: Growth)
    requires Orderly(c) && NoProxies(c.book) && MakeProd(c, auth, voter, proxy, producers, growth).Success?
    ensures SkipsNothing(c, MakeProducer(voter, proxy, producers), growth)
    ensures NoProxies(MakeProd(c, auth, voter, proxy, producers, growth).value.book)
  {
    hide Orderly, UpdateVotes, VoteSkipsNothing, MakeProd;
    OrderlyParts(c);
    var c' := MakeKeeps(c, auth, voter, proxy, producers, growth);
    var b := MadeProducer(c.book, voter);
    RewriteProducerShape(c.book, voter, c.book.producers[voter].(isProducer := true));
    VoteWithoutProxies(b, voter, proxy, producers, true, Clock(c.now, growth));
  }

  lemma {:induction false} MovesPlain(b: Book, voter: Name, deltas: seq<int>, k: Clock, b': Book)
    requires WellFormed(b) && NoProxies(b) && MoveAll(b, voter, deltas, k) == Success(b')
    ensures MovesSkipNothing(b, voter, deltas, k) && NoProxies(b')
    decreases |deltas|
  {
    hide WellFormed, NoProxies, UpdateVotingPower, StakeSkipsNothing;
    if deltas != [] {
      var b1 := UpdateVotingPower(b, voter, deltas[0], k).value;
      StakeWithoutProxies(b, voter, deltas[0], k, b1);
      MovesPlain(b1, voter, deltas[1..], k, b');
    }
  }

  lemma TradePlain(c: Chain, a: Action, auth: set<Name>, growth: Growth)
    requires Orderly(c) && NoProxies(c.book) && Perform(c, a, auth, growth).Success? && IsTrade(a)
    ensures SkipsNothing(c, a, growth) && NoProxies(Perform(c, a, auth, growth).value.book)
  {
    hide Orderly, NoProxies, Perform, MovesOf, MoveAll, MovesSkipNothing, WellFormed;
    OrderlyParts(c);
    TradeMoves(c, a, auth, growth);
    MovesPlain(c.book, MovesOf(a).voter, MovesOf(a).deltas, Clock(c.now, growth), Perform(c, a, auth, growth).value.book);
  }

  lemma SameVotersPlain(b: Book, b': Book)
    requires b'.voters == b.voters
    ensures NoProxies(b') == NoProxies(b)
  {
  }

  lemma RowsStayPlain(b: Book, x: Name, r: Resource, on: bool, now: int)
    requires NoProxies(b)
    ensures NoProxies(SetFlag(b, x, r, on)) && NoProxies(Register(b, x, now)) && (x in b.producers ==> NoProxies(Retired(b, x)))
  {
  }

  /** Nobody is a proxy, so at most a row without marks is written. */
  lemma NobodyToRetire(b: Book, who: Name, k: Clock)
    requires NoProxies(b) && RegProxy(b, who, false, k).Success?
    ensures ProxySkipsNothing(b, who, false, k) && NoProxies(RegProxy(b, who, false, k).value)
  {
  }

  /** Without proxies, and with nobody becoming one, no action skips anything. */
  lemma PerformPlain(c: Chain, a: Action, auth: set<Name>, growth: Growth)
    requires Orderly(c) && NoProxies(c.book) && Perform(c, a, auth, growth).Success? && !(a.RegisterProxy? && a.on)
    ensures SkipsNothing(c, a, growth) && NoProxies(Perform(c, a, auth, growth).value.book)
  {
    hide Orderly, TokensKept, PinsKept, DelegateBw, UndelegateBw, ClaimRefund, BuyResources, BuyMemBytes,
         SellRes, SetMem, SetMemRate, SetAcct, SetALimits, NewAccount, SetInflation, MakeProd, OnBlock, ClaimRewards,
         Create, Issue, Retire, Transfer, Open, Close, StakeSkipsNothing, VoteSkipsNothing, ClaimBook, NoProxies, SetFlag, Register, Retired,
         RegProxy, ProxySkipsNothing;
    match a
    case ResizeMemory(size, reserved) => var c' := SetMemKeeps(c, auth, size, reserved);
    case RateMemory(perBlock) => var c' := SetMemRateKeeps(c, auth, perBlock);
    case PinLimit(account, resource, pin) =>
      var c' := SetAcctKeeps(c, auth, account, resource, pin);
      RowsStayPlain(c.book, account, resource, pin.PinAt?, c.now);
    case LimitAccount(account, limits) => var c' := SetALimitsKeeps(c, auth, account, limits);
    case OpenAccount(account) => var c' := NewAccountKeeps(c, auth, account);
    case RemoveProducer(producer) => RowsStayPlain(c.book, producer, Mem, false, c.now);
    case Inflate(rate, payFactor, voteFactor) => var c' := InflateKeeps(c, auth, rate, payFactor, voteFactor);
    case RegisterProducer(producer) => RowsStayPlain(c.book, producer, Mem, false, c.now);
    case UnregisterProducer(producer) => RowsStayPlain(c.book, producer, Mem, false, c.now);
    case MakeProducer(voter, proxy, producers) => MakePlain(c, auth, voter, proxy, producers, growth);
    case RegisterProxy(who, on) => NobodyToRetire(c.book, who, Clock(c.now, growth));
    case Block(slot, producer) =>
      var c' := BlockKeeps(c, auth, slot, producer);
      SameVotersPlain(c.book, c'.book);
    case Claim(owner, minted) =>
      var c', revised := ClaimKeeps(c, auth, owner, minted);
      ClaimBookProducers(c.book, owner, revised, c.now);
      SameVotersPlain(c.book, c'.book);
    case _ =>
      if IsTokenAction(a) {
        TokenBookSame(c, a, auth, growth);
      } else {
        TradePlain(c, a, auth, growth);
      }
  }

  /** Nobody registers as a proxy in this run. */
  predicate NobodyProxies(es: seq<Event>) {
    forall i :: 0 <= i < |es| ==> !(es[i].action.RegisterProxy? && es[i].action.on)
  }

  lemma {:induction false} PlainRunStays(c: Chain, es: seq<Event>)
    requires Orderly(c) && NoProxies(c.book) && NobodyProxies(es)
    ensures Orderly(Run(c, es)) && NoProxies(Run(c, es).book)
  {
    if es != [] {
      hide Orderly, Perform, NoProxies;
      var n := |es| - 1;
      PlainRunStays(c, es[..n]);
      var s := Run(c, es[..n]);
      StepKeepsOrderly(s, es[n]);
      LaterKeepsOrderly(s, es[n].elapsed);
      SameBookPlain(s, es[n].elapsed);
      if Try(s, es[n]).Success? {
        PerformPlain(Later(s, es[n].elapsed), es[n].action, es[n].auth, es[n].growth);
      }
    }
  }

  lemma SameBookPlain(c: Chain, elapsed: nat)
    ensures NoProxies(Later(c, elapsed).book) == NoProxies(c.book)
  {
  }

  lemma PlainRunSkipsNothing(c: Chain, es: seq<Event>)
    requires Orderly(c) && NoProxies(c.book) && NobodyProxies(es)
    ensures RunSkipsNothing(c, es)
  {
    hide Orderly, NoProxies, Run, SkipsNothing, Perform;
    forall i | 0 <= i < |es| ensures EventSkipsNothing(Run(c, es[..i]), es[i]) {
      PlainRunStays(c, es[..i]);
      var s := Run(c, es[..i]);
      LaterKeepsOrderly(s, es[i].elapsed);
      SameBookPlain(s, es[i].elapsed);
      if Try(s, es[i]).Success? {
        PerformPlain(Later(s, es[i].elapsed), es[i].action, es[i].auth, es[i].growth);
      }
    }
  }

  // ---------- from genesis ----------

  ghost predicate Blank(b: Book) {
    && b.voters == map[] && b.producers == map[] && b.shares == map[]
    && b.totalVotes == 0.0 && b.totalShare == 0.0 && b.shareRate == 0.0 && b.shareUpdated == 0
  }

  lemma BlankBookSound(b: Book)
    requires Blank(b)
    ensures Sound(b) && NoProxies(b)
  {
    hide Total, WellFormed;
    BlankBookShape(b);
    assert TotalsColumn(b.producers) == map[];
    TotalOfZeros(TotalsColumn(b.producers));
  }

  lemma BlankBookShape(b: Book)
    requires Blank(b)
    ensures WellFormed(b)
  {
    var rank: Ranks := map[];
    assert Ranked(b.voters, rank);
  }

  lemma GenesisSane(now: nat, issuer: Name, supply: int, maxSupply: int, accounts: set<Name>, revision: nat)
    requires now > 0 && 0 < supply <= maxSupply <= MAX_AMOUNT
    ensures Sane(Genesis(now, issuer, supply, maxSupply, accounts, revision))
    ensures NoProxies(Genesis(now, issuer, supply, maxSupply, accounts, revision).book)
  {
    hide Orderly, Sound, NoProxies;
    GenesisOrderly(now, issuer, supply, maxSupply, accounts, revision);
    BlankBookSound(Genesis(now, issuer, supply, maxSupply, accounts, revision).book);
  }

  /** In every state reachable without registering a proxy, whatever else happens and in whatever
      order, the ledger of votes is exact; and so it is as long as nothing is skipped. */
  lemma ReachableLedger(now: nat, issuer: Name, supply: int, maxSupply: int, accounts: set<Name>, revision: nat, es: seq<Event>)
    requires now > 0 && 0 < supply <= maxSupply <= MAX_AMOUNT
    requires NobodyProxies(es) || RunSkipsNothing(Genesis(now, issuer, supply, maxSupply, accounts, revision), es)
    ensures var b := Run(Genesis(now, issuer, supply, maxSupply, accounts, revision), es).book;
      Exact(b) && VotesNonNegative(b) && forall p :: p in b.producers ==> b.producers[p].votes <= b.totalVotes
  {
    hide Orderly, Core, Run, ProxiesExact, VotesExact, Weighty;
    var g := Genesis(now, issuer, supply, maxSupply, accounts, revision);
    GenesisSane(now, issuer, supply, maxSupply, accounts, revision);
    if NobodyProxies(es) {
      PlainRunSkipsNothing(g, es);
    }
    RunKeepsSane(g, es);
    var b := Run(g, es).book;
    SoundMeansExact(b);
    assert Weighty(b) && VotesExact(b) by { CoreParts(b); CoreVotes(b); }
    TotalsBounded(b);
  }

  lemma CoreVotes(b: Book)
    requires Core(b)
    ensures VotesExact(b)
  {
  }
}
