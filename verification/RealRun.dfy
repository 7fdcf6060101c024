/** A run of the chain from genesis, at real times and with the factors of those times, in which a change of
    weight is skipped: the ledger of votes goes wrong, and two votes later, when that drives a producer below
    zero, the index of vote pay goes wrong with it. */
module RealRun {
  import opened Basics
  import opened Calendar
  import opened Voting
  import opened VoteLedger
  import opened VotePayIndex
  import opened TwoAccounts
  import opened Token
  import opened TokenLedger
  import opened Chain
  import opened Staking
  import opened Runs
  import opened Invariants
  import opened AccountSteps
  import opened VotePayRuns
  import opened RewardSteps

  // ---------- the run ----------

  const SUPPLY: int := 10_000_000_0000
  const GIFT: int := 1_000_000_0000
  const ALICES: int := 4188_3925
  const BOBS: int := 56_2040

  /** All on one Friday: BOB is given tokens, both stake and register as producers, ALICE becomes a proxy, BOB
      chooses her, and she votes for herself. */
  function Friday(g: Growth): seq<Event> {
    [Event(TokenTransfer(ALICE, BOB, Inr(GIFT)), {ALICE}, 0, g),
     Event(Delegate(ALICE, ALICE, ALICES, 0, false), {ALICE}, 0, g),
     Event(Delegate(BOB, BOB, BOBS, 0, false), {BOB}, 0, g),
     Event(RegisterProducer(ALICE), {ALICE}, 0, g),
     Event(RegisterProducer(BOB), {BOB}, 0, g),
     Event(RegisterProxy(ALICE, true), {ALICE}, 0, g),
     Event(MakeProducer(BOB, ALICE, []), {BOB}, 0, g),
     Event(MakeProducer(ALICE, NO_NAME, [ALICE]), {ALICE}, 0, g)]
  }

  /** A second later it is Saturday, a new week: ALICE is no proxy any more. */
  function Saturday(g: Growth): Event { Event(RegisterProxy(ALICE, false), {ALICE}, SECOND, g) }

  /** BOB votes for himself, and ALICE for nobody. */
  function LastVotes(g: Growth): seq<Event> {
    [Event(MakeProducer(BOB, NO_NAME, [BOB]), {BOB}, 0, g), Event(MakeProducer(ALICE, NO_NAME, []), {ALICE}, 0, g)]
  }

  function Start(): Chain { Genesis(FRIDAY, ALICE, SUPPLY, SUPPLY, {ALICE, BOB, STAKE}, 0) }

  // ---------- the first three events ----------

  /** An account that has not staked yet, with the tokens to do so. */
  ghost predicate Idle(c: Chain, v: Name, balance: int) {
    && v in c.limits && v !in c.book.voters && (v, v) !in c.stakes.delegated && v !in c.stakes.resources
    && (v, INR) in c.token.balances && c.token.balances[(v, INR)] == balance
  }

  /** The first stake of an account, for itself. */
  lemma FirstStake(c: Chain, v: Name, stake: int, balance: int, growth: Growth) returns (c': Chain)
    requires Idle(c, v, balance) && v != STAKE && STAKE in c.limits && STAKE != CREATOR && c.stakes.refunds == map[]
    requires INR in c.token.stats && c.token.stats[INR].precision == INR_PRECISION && c.producing == map[]
    requires 0 < stake <= balance <= MAX_AMOUNT
    ensures DelegateBw(c, {v}, v, v, stake, 0, false, growth) == Success(c')
    ensures c'.now == c.now && c'.book == c.book.(voters := c.book.voters[v := Fresh(stake)]) && c'.producing == c.producing
    ensures c'.limits.Keys == c.limits.Keys && c'.stakes.refunds == map[] && c'.token.stats == c.token.stats
    ensures c'.stakes.delegated.Keys == c.stakes.delegated.Keys + {(v, v)} && c'.stakes.resources.Keys == c.stakes.resources.Keys + {v}
    ensures (v, INR) in c'.token.balances && c'.token.balances[(v, INR)] == balance - stake
    ensures forall k :: k in c.token.balances && k.0 != v && k.0 != STAKE ==>
      k in c'.token.balances && c'.token.balances[k] == c.token.balances[k]
  {
    hide UpdateVotes;
    var tot := Resources(stake, 0, 0);
    assert Redelegate(c, v, v, stake, 0).Success?;
    c' := DelegateBw(c, {v}, v, v, stake, 0, false, growth).value;
  }

  /** Either account can afford to be a producer. */
  ghost predicate Ready(c: Chain, now: int) {
    && Orderly(c) && c.now == now
    && BalanceOf(c.token, ALICE, INR) >= FLOOR && BalanceOf(c.token, BOB, INR) >= FLOOR
  }

  lemma StartIs()
    ensures Orderly(Start()) && Start().now == FRIDAY
  {
    hide Orderly;
    GenesisOrderly(FRIDAY, ALICE, SUPPLY, SUPPLY, {ALICE, BOB, STAKE}, 0);
  }

  lemma Gift(g: Growth) returns (c: Chain)
    ensures Step(Start(), Friday(g)[0]) == c && c.now == FRIDAY && c.book == Start().book
    ensures c.stakes.refunds == map[] && c.producing == map[] && STAKE in c.limits
    ensures INR in c.token.stats && c.token.stats[INR].precision == INR_PRECISION
    ensures Idle(c, ALICE, SUPPLY - GIFT) && Idle(c, BOB, GIFT)
  {
    c := Try(Start(), Friday(g)[0]).value;
  }

  lemma StakeGoes(c: Chain, v: Name, stake: int, growth: Growth, c': Chain)
    requires DelegateBw(c, {v}, v, v, stake, 0, false, growth) == Success(c')
    ensures Step(c, Event(Delegate(v, v, stake, 0, false), {v}, 0, growth)) == c'
  {
    hide DelegateBw;
    assert Later(c, 0) == c;
  }

  lemma FridayIs(g: Growth)
    ensures var es := Friday(g);
      && |es| == 8
      && es[1] == Event(Delegate(ALICE, ALICE, ALICES, 0, false), {ALICE}, 0, g)
      && es[2] == Event(Delegate(BOB, BOB, BOBS, 0, false), {BOB}, 0, g)
      && es[3] == Event(RegisterProducer(ALICE), {ALICE}, 0, g)
      && es[4] == Event(RegisterProducer(BOB), {BOB}, 0, g)
      && es[5] == Event(RegisterProxy(ALICE, true), {ALICE}, 0, g)
      && es[6] == Event(MakeProducer(BOB, ALICE, []), {BOB}, 0, g)
      && es[7] == Event(MakeProducer(ALICE, NO_NAME, [ALICE]), {ALICE}, 0, g)
  {
  }

  lemma Opening(g: Growth) returns (c: Chain)
    ensures c == Run(Start(), Friday(g)[..3]) && Ready(c, FRIDAY)
    ensures c.book == Start().book.(voters := map[ALICE := Fresh(ALICES), BOB := Fresh(BOBS)])
  {
    hide DelegateBw, Orderly, Step, Start, Friday, Run;
    var es := Friday(g);
    FridayIs(g);
    StartIs();
    RunKeepsOrderly(Start(), es[..3]);
    assert Run(Start(), es[..0]) == Start() by { RunOfNothing(Start(), es); }
    var c1 := Gift(g);
    OneMoreStep(Start(), es, 0);
    var c2 := FirstStake(c1, ALICE, ALICES, SUPPLY - GIFT, g);
    StakeGoes(c1, ALICE, ALICES, g, c2);
    OneMoreStep(Start(), es, 1);
    c := FirstStake(c2, BOB, BOBS, GIFT, g);
    StakeGoes(c2, BOB, BOBS, g, c);
    OneMoreStep(Start(), es, 2);
    StartBook();
  }

  lemma RunOfNothing(c: Chain, es: seq<Event>)
    ensures Run(c, es[..0]) == c
  {
    hide Step;
  }

  lemma StartBook()
    ensures Start().book.voters == map[]
  {
  }

  // ---------- the other events ----------

  lemma RegisterGoes(c: Chain, v: Name, now: int, growth: Growth) returns (c': Chain)
    requires Ready(c, now)
    ensures Step(c, Event(RegisterProducer(v), {v}, 0, growth)) == c'
    ensures Ready(c', now) && c'.book == Register(c.book, v, now)
  {
    hide Orderly, Register;
    assert Later(c, 0) == c;
    c' := RegisterKeeps(c, {v}, v);
  }

  lemma ProxyGoes(c: Chain, on: bool, elapsed: nat, now: int, growth: Growth, b': Book) returns (c': Chain)
    requires Ready(c, now) && RegProxy(c.book, ALICE, on, Clock(c.now + elapsed, growth)) == Success(b')
    ensures Step(c, Event(RegisterProxy(ALICE, on), {ALICE}, elapsed, growth)) == c'
    ensures Ready(c', now + elapsed) && c'.book == b'
  {
    hide Orderly, RegProxy;
    LaterKeepsOrderly(c, elapsed);
    c' := ProxyKeeps(Later(c, elapsed), {ALICE}, ALICE, on, growth);
  }

  lemma MakeGoes(c: Chain, voter: Name, proxy: Name, producers: seq<Name>, now: int, growth: Growth, b': Book) returns (c': Chain)
    requires Ready(c, now) && voter in {ALICE, BOB} && voter in c.book.producers
    requires UpdateVotes(MadeProducer(c.book, voter), voter, proxy, producers, true, Clock(c.now, growth)) == Success(b')
    ensures Step(c, Event(MakeProducer(voter, proxy, producers), {voter}, 0, growth)) == c'
    ensures Ready(c', now) && c'.book == b'
  {
    hide Orderly, UpdateVotes;
    assert Later(c, 0) == c;
    c' := MakeKeeps(c, {voter}, voter, proxy, producers, growth);
  }

  lemma MadeTables(b: Book, voter: Name, alice: Voter, bob: Voter, votesA: real, votesB: real, rate: real, total: real, now: int)
    requires Tables(b, alice, bob, votesA, votesB, rate, total, FRIDAY, now) && voter in {ALICE, BOB}
    ensures Tables(MadeProducer(b, voter), alice, bob, votesA, votesB, rate, total, FRIDAY, now)
  {
  }

  lemma Registered2(b: Book)
    requires b == Start().book.(voters := map[ALICE := Fresh(ALICES), BOB := Fresh(BOBS)])
    ensures Tables(Register(Register(b, ALICE, FRIDAY), BOB, FRIDAY), Fresh(ALICES), Fresh(BOBS), 0.0, 0.0, 0.0, 0.0, FRIDAY, FRIDAY)
  {
  }

  /** The factor of that Friday and of the Saturday make ALICE's stake alone worth a little more than it was
      together with BOB's. */
  lemma Weights(g0: Growth, g1: Growth)
    requires IsGrowth(FRIDAY, g0) && IsGrowth(SATURDAY, g1)
    ensures StakeToVote(ALICES, g0) > 1.0 && StakeToVote(BOBS, g0) > 1.0 && StakeToVote(BOBS, g1) > 1.0
    ensures 0.5 < StakeToVote(ALICES, g1) - StakeToVote(ALICES, g0) - StakeToVote(BOBS, g0) <= 1.0
    ensures StakeToVote(BOBS, g1) < 4_800_000_000_000.0
  {
    hide Pow, IsGrowth;
    FridayGrowth(g0);
    SaturdayGrowth(g1);
  }

  lemma RegisteredTables(g: Growth) returns (c: Chain)
    ensures c == Run(Start(), Friday(g)[..5]) && Ready(c, FRIDAY)
    ensures Tables(c.book, Fresh(ALICES), Fresh(BOBS), 0.0, 0.0, 0.0, 0.0, FRIDAY, FRIDAY)
  {
    hide Step, Start, Friday, Run, Ready, Register;
    var es := Friday(g);
    FridayIs(g);
    var c3 := Opening(g);
    var c4 := RegisterGoes(c3, ALICE, FRIDAY, g);
    OneMoreStep(Start(), es, 3);
    c := RegisterGoes(c4, BOB, FRIDAY, g);
    OneMoreStep(Start(), es, 4);
    Registered2(c3.book);
  }

  lemma ReadyNow(c: Chain, now: int)
    requires Ready(c, now)
    ensures c.now == now
  {
    hide Orderly;
  }

  lemma JoinedState(g: Growth) returns (c: Chain)
    requires StakeToVote(ALICES, g) > 1.0 && StakeToVote(BOBS, g) > 1.0
    ensures c == Run(Start(), Friday(g)[..7]) && Ready(c, FRIDAY)
    ensures var w, v := StakeToVote(ALICES, g), StakeToVote(BOBS, g);
      Tables(c.book, Fresh(ALICES).(isProxy := true, lastWeight := w, proxied := v), Fresh(BOBS).(proxy := ALICE, lastWeight := v),
             0.0, 0.0, 0.0, 0.0, FRIDAY, FRIDAY)
  {
    hide Step, Start, Friday, Run, Ready, StakeToVote, RegProxy, UpdateVotes, MadeProducer;
    var es := Friday(g);
    FridayIs(g);
    var k := Clock(FRIDAY, g);
    var w := StakeToVote(ALICES, g);
    var c5 := RegisteredTables(g);
    ReadyNow(c5, FRIDAY);
    var b6 := ProxyOn(c5.book, ALICES, BOBS, FRIDAY, k);
    var c6 := ProxyGoes(c5, true, 0, FRIDAY, g, b6);
    OneMoreStep(Start(), es, 5);
    ReadyNow(c6, FRIDAY);
    MadeTables(b6, BOB, Fresh(ALICES).(isProxy := true, lastWeight := w), Fresh(BOBS), 0.0, 0.0, 0.0, 0.0, FRIDAY);
    var b7 := Join(MadeProducer(b6, BOB), ALICES, BOBS, FRIDAY, k);
    c := MakeGoes(c6, BOB, ALICE, [], FRIDAY, g, b7);
    OneMoreStep(Start(), es, 6);
  }

  /** The end of that Friday. */
  lemma FridayState(g: Growth) returns (c: Chain)
    requires StakeToVote(ALICES, g) > 1.0 && StakeToVote(BOBS, g) > 1.0
    ensures c == Run(Start(), Friday(g)) && Ready(c, FRIDAY)
    ensures var w, v := StakeToVote(ALICES, g), StakeToVote(BOBS, g);
      Tables(c.book, Fresh(ALICES).(isProxy := true, lastWeight := w + v, proxied := v, producers := [ALICE]),
             Fresh(BOBS).(proxy := ALICE, lastWeight := v), w + v, 0.0, w + v, w + v, FRIDAY, FRIDAY)
  {
    hide Step, Start, Friday, Run, Ready, StakeToVote, UpdateVotes, MadeProducer;
    var es := Friday(g);
    FridayIs(g);
    var w, v := StakeToVote(ALICES, g), StakeToVote(BOBS, g);
    var c7 := JoinedState(g);
    ReadyNow(c7, FRIDAY);
    MadeTables(c7.book, ALICE, Fresh(ALICES).(isProxy := true, lastWeight := w, proxied := v),
               Fresh(BOBS).(proxy := ALICE, lastWeight := v), 0.0, 0.0, 0.0, 0.0, FRIDAY);
    var b8 := VoteSelf(MadeProducer(c7.book, ALICE), ALICES, BOBS, FRIDAY, Clock(FRIDAY, g));
    c := MakeGoes(c7, ALICE, NO_NAME, [ALICE], FRIDAY, g, b8);
    OneMoreStep(Start(), es, 7);
    assert es[..8] == es;
  }

  lemma RunOneMore(c: Chain, es: seq<Event>, e: Event)
    ensures Run(c, es + [e]) == Step(Run(c, es), e)
  {
    hide Step;
    assert (es + [e])[..|es|] == es;
  }

  lemma TablesLater(b: Book, alice: Voter, bob: Voter, votesA: real, votesB: real, rate: real, total: real)
    requires Tables(b, alice, bob, votesA, votesB, rate, total, FRIDAY, FRIDAY)
    ensures Tables(b, alice, bob, votesA, votesB, rate, total, FRIDAY, SATURDAY)
  {
  }

  /** After ALICE has stopped being a proxy. */
  lemma SaturdayState(g0: Growth, g1: Growth) returns (c: Chain)
    requires IsGrowth(FRIDAY, g0) && IsGrowth(SATURDAY, g1)
    ensures c == Run(Start(), Friday(g0) + [Saturday(g1)]) && Ready(c, SATURDAY)
    ensures var w, v := StakeToVote(ALICES, g0), StakeToVote(BOBS, g0);
      Tables(c.book, Fresh(ALICES).(lastWeight := StakeToVote(ALICES, g1), proxied := v, producers := [ALICE]),
             Fresh(BOBS).(proxy := ALICE, lastWeight := v), w + v, 0.0, w + v, w + v, FRIDAY, SATURDAY)
  {
    hide Step, Start, Friday, Run, Ready, StakeToVote, RegProxy, IsGrowth;
    Weights(g0, g1);
    var w, v := StakeToVote(ALICES, g0), StakeToVote(BOBS, g0);
    var c8 := FridayState(g0);
    ReadyNow(c8, FRIDAY);
    var alice := Fresh(ALICES).(isProxy := true, lastWeight := w + v, proxied := v, producers := [ALICE]);
    var bob := Fresh(BOBS).(proxy := ALICE, lastWeight := v);
    TablesLater(c8.book, alice, bob, w + v, 0.0, w + v, w + v);
    var b9 := ProxyOff(c8.book, alice, bob, w + v, w + v, FRIDAY, Clock(SATURDAY, g1));
    c := ProxyGoes(c8, false, SECOND, FRIDAY, g1, b9);
    RunOneMore(Start(), Friday(g0), Saturday(g1));
  }

  /** The skipped change is real. Until that Friday the ledger of votes is exact; on Saturday ALICE's change is
      worth between 0 and 1 of a vote, is skipped, and the ledger is wrong. */
  lemma SkippedChangeIsLost(g0: Growth, g1: Growth)
    requires IsGrowth(FRIDAY, g0) && IsGrowth(SATURDAY, g1)
    ensures Exact(Run(Start(), Friday(g0)).book)
    ensures !Exact(Run(Start(), Friday(g0) + [Saturday(g1)]).book)
  {
    hide Start, Friday, Run, Ready, StakeToVote, IsGrowth, Exact, Tables;
    Weights(g0, g1);
    var w, v := StakeToVote(ALICES, g0), StakeToVote(BOBS, g0);
    var bob := Fresh(BOBS).(proxy := ALICE, lastWeight := v);
    var c8 := FridayState(g0);
    LendingExactIff(c8.book, Fresh(ALICES).(isProxy := true, lastWeight := w + v, proxied := v, producers := [ALICE]), bob,
                    w + v, w + v, FRIDAY, FRIDAY);
    var c9 := SaturdayState(g0, g1);
    LendingExactIff(c9.book, Fresh(ALICES).(lastWeight := StakeToVote(ALICES, g1), proxied := v, producers := [ALICE]), bob,
                    w + v, w + v, FRIDAY, SATURDAY);
  }

  lemma BobHasVoted(g0: Growth, g1: Growth) returns (c: Chain)
    requires IsGrowth(FRIDAY, g0) && IsGrowth(SATURDAY, g1)
    ensures c == Run(Start(), Friday(g0) + [Saturday(g1)] + [LastVotes(g1)[0]]) && Ready(c, SATURDAY)
    ensures var votes, v := StakeToVote(ALICES, g0) + StakeToVote(BOBS, g0), StakeToVote(BOBS, g1);
      Tables(c.book, Fresh(ALICES).(lastWeight := StakeToVote(ALICES, g1), producers := [ALICE]),
             Fresh(BOBS).(producers := [BOB], lastWeight := v), votes, v, votes + v, votes + v, FRIDAY, SATURDAY)
  {
    hide Step, Start, Friday, Run, Ready, StakeToVote, UpdateVotes, IsGrowth, MadeProducer;
    Weights(g0, g1);
    var w, v := StakeToVote(ALICES, g0), StakeToVote(BOBS, g0);
    var c9 := SaturdayState(g0, g1);
    ReadyNow(c9, SATURDAY);
    var alice := Fresh(ALICES).(lastWeight := StakeToVote(ALICES, g1), proxied := v, producers := [ALICE]);
    var bob := Fresh(BOBS).(proxy := ALICE, lastWeight := v);
    MadeTables(c9.book, BOB, alice, bob, w + v, 0.0, w + v, w + v, SATURDAY);
    var b := Leave(MadeProducer(c9.book, BOB), alice, bob, w + v, FRIDAY, Clock(SATURDAY, g1));
    c := MakeGoes(c9, BOB, NO_NAME, [BOB], SATURDAY, g1, b);
    RunOneMore(Start(), Friday(g0) + [Saturday(g1)], LastVotes(g1)[0]);
  }

  /** After ALICE has voted for nobody, and the clamp has fired. */
  lemma LastState(g0: Growth, g1: Growth) returns (after: Book)
    requires IsGrowth(FRIDAY, g0) && IsGrowth(SATURDAY, g1)
    ensures after == Run(Start(), Friday(g0) + [Saturday(g1)] + LastVotes(g1)).book
    ensures var total := StakeToVote(ALICES, g0) + StakeToVote(BOBS, g0) + StakeToVote(BOBS, g1) - StakeToVote(ALICES, g1);
      Tables(after, Fresh(ALICES).(lastWeight := StakeToVote(ALICES, g1)),
             Fresh(BOBS).(producers := [BOB], lastWeight := StakeToVote(BOBS, g1)),
             0.0, StakeToVote(BOBS, g1), total, total, FRIDAY, SATURDAY)
  {
    hide Step, Start, Friday, Run, Ready, StakeToVote, UpdateVotes, IsGrowth, MadeProducer;
    Weights(g0, g1);
    var votes, w, v := StakeToVote(ALICES, g0) + StakeToVote(BOBS, g0), StakeToVote(ALICES, g1), StakeToVote(BOBS, g1);
    var c := BobHasVoted(g0, g1);
    ReadyNow(c, SATURDAY);
    var alice := Fresh(ALICES).(lastWeight := w, producers := [ALICE]);
    var bob := Fresh(BOBS).(producers := [BOB], lastWeight := v);
    MadeTables(c.book, ALICE, alice, bob, votes, v, votes + v, votes + v, SATURDAY);
    after := VoteNobody(MadeProducer(c.book, ALICE), alice, bob, votes, v, FRIDAY, Clock(SATURDAY, g1));
    var c' := MakeGoes(c, ALICE, NO_NAME, [], SATURDAY, g1, after);
    RunOneMore(Start(), Friday(g0) + [Saturday(g1)] + [LastVotes(g1)[0]], LastVotes(g1)[1]);
    var es := Friday(g0) + [Saturday(g1)];
    assert es + [LastVotes(g1)[0]] + [LastVotes(g1)[1]] == es + LastVotes(g1);
  }

  /** And it can break the index. ALICE's last weight is now more than the votes she has, so her last vote drives
      her below zero: the clamp at voting.cpp:351 lifts her to zero, but the full weight leaves the rate and the
      grand total, and neither is the sum over producers any more. */
  lemma ClampBreaksTheIndex(g0: Growth, g1: Growth)
    requires IsGrowth(FRIDAY, g0) && IsGrowth(SATURDAY, g1)
    ensures var before := Run(Start(), Friday(g0) + [Saturday(g1)] + [LastVotes(g1)[0]]).book;
      before.shareRate == TotalRate(before) && TotalGap(before) == 0.0
    ensures var after := Run(Start(), Friday(g0) + [Saturday(g1)] + LastVotes(g1)).book;
      VotesNonNegative(after) && after.shareRate < TotalRate(after) && TotalGap(after) < 0.0 && !Indexed(after)
  {
    hide Start, Friday, Run, Ready, StakeToVote, IsGrowth, TotalGap, TotalRate, TotalOwed;
    Weights(g0, g1);
    var votes, w, v := StakeToVote(ALICES, g0) + StakeToVote(BOBS, g0), StakeToVote(ALICES, g1), StakeToVote(BOBS, g1);
    var bob := Fresh(BOBS).(producers := [BOB], lastWeight := v);
    var c := BobHasVoted(g0, g1);
    TotalsOfTwo(c.book, Fresh(ALICES).(lastWeight := w, producers := [ALICE]), bob, votes, v, votes + v, votes + v, FRIDAY, SATURDAY);
    var after := LastState(g0, g1);
    TotalsOfTwo(after, Fresh(ALICES).(lastWeight := w), bob, 0.0, v, votes + v - w, votes + v - w, FRIDAY, SATURDAY);
  }

  /** And where vote pay is a ratio of votes, it leaves BOB with more votes than the grand total: a bucket of ten
      trillion units or more would go into debt if he claimed. */
  lemma BobOutvotesTheTotal(g0: Growth, g1: Growth, bucket: int)
    requires IsGrowth(FRIDAY, g0) && IsGrowth(SATURDAY, g1) && bucket >= 10_000_000_000_000
    ensures var after := Run(Start(), Friday(g0) + [Saturday(g1)] + LastVotes(g1)).book;
      BOB in after.producers && Outvotes(bucket, after.producers[BOB].votes, after.totalVotes)
  {
    hide Start, Friday, Run, Ready, StakeToVote, IsGrowth, TotalGap, TotalRate, Indexed;
    Weights(g0, g1);
    var d := StakeToVote(ALICES, g1) - StakeToVote(ALICES, g0) - StakeToVote(BOBS, g0);
    var v := StakeToVote(BOBS, g1);
    var after := LastState(g0, g1);
    TenTrillion(bucket as real, d, v);
  }

  lemma TenTrillion(bucket: real, d: real, v: real)
    requires bucket >= 10_000_000_000_000.0 && 0.5 < d <= 1.0 && 1.0 < v < 4_800_000_000_000.0
    ensures 0.0 < v - d <= bucket * (v - (v - d)) && 1000000.0 * (v - d) <= bucket * v
  {
    assert bucket * d >= 10_000_000_000_000.0 * d;
    assert bucket * v >= 10_000_000_000_000.0 * v;
  }
}
