/** What trades do to the voting tables: each of them changes the stake of one voter, once or twice. */
module StakeMoves {
  import opened Basics
  import opened Voting
  import opened VotingRules
  import opened Chain
  import opened Staking
  import opened StakeLedger
  import opened StakeSteps
  import opened Memory
  import opened MarketSteps
  import opened Runs
  import opened Invariants

  /** The stake that comes with memory bought for `amount`. */
  function StakeWithMemory(amount: int): int { TokensToBytes(amount) / 10000 * 10000 / MEBIBYTE }

  /** The stake changes of an action, one after the other, and whose they are. */
  datatype Moves = Moves(voter: Name, deltas: seq<int>)

  function MovesOf(a: Action): (m: Moves)
    ensures |m.deltas| <= 2
  {
    match a
    case Delegate(from, receiver, net, cpu, transfer) => Moves(if transfer then receiver else from, [net + cpu])
    case Undelegate(from, receiver, net, cpu) => Moves(from, [-net - cpu])
    case Buy(payer, receiver, amount) => Moves(payer, [StakeWithMemory(amount) + StakeWithMemory(amount)])
    case BuyBytes(payer, receiver, bytes) =>
      var price := PriceOf(bytes % Memory.WORD);
      Moves(payer, [StakeWithMemory(price) + StakeWithMemory(price), price + price])
    case Sell(account, bytes) => Moves(account, [-(BytesToTokens(bytes) * 10000) - BytesToTokens(bytes) * 10000])
    case _ => Moves(NO_NAME, [])
  }

  function MoveAll(b: Book, voter: Name, deltas: seq<int>, k: Clock): Result<Book>
    decreases |deltas|
  {
    if deltas == [] then Success(b)
    else
      var b' :- UpdateVotingPower(b, voter, deltas[0], k);
      MoveAll(b', voter, deltas[1..], k)
  }

  lemma MoveOne(b: Book, voter: Name, delta: int, k: Clock)
    ensures MoveAll(b, voter, [delta], k) == UpdateVotingPower(b, voter, delta, k)
  {
    hide UpdateVotingPower;
  }

  lemma MoveTwo(b: Book, voter: Name, delta: int, delta2: int, k: Clock, b1: Book)
    requires UpdateVotingPower(b, voter, delta, k) == Success(b1)
    ensures MoveAll(b, voter, [delta, delta2], k) == UpdateVotingPower(b1, voter, delta2, k)
  {
    hide UpdateVotingPower;
    assert [delta, delta2][1..] == [delta2];
    MoveOne(b1, voter, delta2, k);
  }

  lemma StakeLeavesPay(c: Chain, c': Chain)
    requires StakeEffect(c, c')
    ensures c'.market == c.market && c'.pay == c.pay
  {
  }

  lemma TradeLeavesPay(c: Chain, c': Chain)
    requires TradeEffect(c, c')
    ensures c'.pay == c.pay && c'.now == c.now
  {
  }

  lemma DelegateVotes(c: Chain, auth: set<Name>, from: Name, receiver: Name, net: int, cpu: int, transfer: bool, growth: Growth)
    returns (c': Chain)
    requires Orderly(c) && DelegateBw(c, auth, from, receiver, net, cpu, transfer, growth).Success?
    ensures DelegateBw(c, auth, from, receiver, net, cpu, transfer, growth) == Success(c') && c'.pay == c.pay
    ensures UpdateVotingPower(c.book, if transfer then receiver else from, net + cpu, Clock(c.now, growth)) == Success(c'.book)
  {
    hide Orderly, DelegateBw, ChangeBw, UpdateVotingPower, StakeEffect, Settle;
    OrderlyParts(c);
    DelegateIsChange(c, auth, from, receiver, net, cpu, transfer, growth);
    var due;
    c', due := ChangeBwEffect(c, auth, from, receiver, net, cpu, transfer, growth);
    StakeLeavesPay(c, c');
  }

  lemma UndelegateVotes(c: Chain, auth: set<Name>, from: Name, receiver: Name, net: int, cpu: int, growth: Growth)
    returns (c': Chain)
    requires Orderly(c) && UndelegateBw(c, auth, from, receiver, net, cpu, growth).Success?
    ensures UndelegateBw(c, auth, from, receiver, net, cpu, growth) == Success(c') && c'.pay == c.pay
    ensures UpdateVotingPower(c.book, from, -net - cpu, Clock(c.now, growth)) == Success(c'.book)
  {
    hide Orderly, UndelegateBw, ChangeBw, UpdateVotingPower, StakeEffect, Settle;
    OrderlyParts(c);
    UndelegateIsChange(c, auth, from, receiver, net, cpu, growth);
    var due;
    c', due := ChangeBwEffect(c, auth, from, receiver, -net, -cpu, false, growth);
    StakeLeavesPay(c, c');
    assert -net + -cpu == -net - cpu;
  }

  lemma BuyVotes(c: Chain, auth: set<Name>, payer: Name, receiver: Name, amount: int, growth: Growth) returns (c': Chain)
    requires Orderly(c) && BuyResources(c, auth, payer, receiver, amount, growth).Success?
    ensures BuyResources(c, auth, payer, receiver, amount, growth) == Success(c') && c'.now == c.now && c'.pay == c.pay
    ensures UpdateVotingPower(c.book, payer, StakeWithMemory(amount) + StakeWithMemory(amount), Clock(c.now, growth)) == Success(c'.book)
  {
    hide Orderly, BuyResources, UpdateVotingPower, TradeEffect, Settle, GrowSupply, PaidTwice;
    OrderlyParts(c);
    var bytes, due, staked;
    c', bytes, due, staked := BuyEffect(c, auth, payer, receiver, amount, growth);
    TradeLeavesPay(c, c');
  }

  lemma SellVotes(c: Chain, auth: set<Name>, account: Name, bytes: int, growth: Growth) returns (c': Chain)
    requires Orderly(c) && SellRes(c, auth, account, bytes, growth).Success?
    ensures SellRes(c, auth, account, bytes, growth) == Success(c') && c'.pay == c.pay
    ensures UpdateVotingPower(c.book, account, -(BytesToTokens(bytes) * 10000) - BytesToTokens(bytes) * 10000, Clock(c.now, growth))
      == Success(c'.book)
  {
    hide Orderly, SellRes, UpdateVotingPower, TradeEffect, Settle, GrowSupply, Paid;
    OrderlyParts(c);
    var tokens;
    c', tokens := SellEffect(c, auth, account, bytes, growth);
    TradeLeavesPay(c, c');
  }

  lemma BuyBytesVotes(c: Chain, auth: set<Name>, payer: Name, receiver: Name, bytes: int, growth: Growth)
    returns (c': Chain, b1: Book)
    requires Orderly(c) && BuyMemBytes(c, auth, payer, receiver, bytes, growth).Success?
    ensures BuyMemBytes(c, auth, payer, receiver, bytes, growth) == Success(c') && c'.pay == c.pay
    ensures var price := PriceOf(bytes % Memory.WORD);
      && UpdateVotingPower(c.book, payer, StakeWithMemory(price) + StakeWithMemory(price), Clock(c.now, growth)) == Success(b1)
      && UpdateVotingPower(b1, payer, price + price, Clock(c.now, growth)) == Success(c'.book)
  {
    hide Orderly, BuyMemBytes, BuyResources, DelegateBw, UpdateVotingPower, TradeEffect, PriceOf, StakeWithMemory;
    var price := PriceOf(bytes % Memory.WORD);
    var c1;
    c', c1 := BuyBytesKeeps(c, auth, payer, receiver, bytes, growth);
    var c1' := BuyVotes(c, auth, payer, receiver, price, growth);
    var c'' := DelegateVotes(c1, auth, payer, receiver, price, price, false, growth);
    b1 := c1.book;
  }

  /** Every trade changes the voting tables by its stake changes, and leaves the pay buckets alone. */
  lemma TradeMoves(c: Chain, a: Action, auth: set<Name>, growth: Growth)
    requires Orderly(c) && Perform(c, a, auth, growth).Success? && IsTrade(a)
    ensures var c' := Perform(c, a, auth, growth).value;
      && MoveAll(c.book, MovesOf(a).voter, MovesOf(a).deltas, Clock(c.now, growth)) == Success(c'.book)
      && c'.pay == c.pay
  {
    hide Orderly, DelegateBw, UndelegateBw, ClaimRefund, BuyResources, BuyMemBytes, SellRes, TokensKept, Paid, PendingRefunds,
         UpdateVotingPower, StakeWithMemory, PriceOf, StakesSound, WellFormed, MoveAll;
    OrderlyParts(c);
    var k, m := Clock(c.now, growth), MovesOf(a);
    match a
    case Delegate(from, receiver, net, cpu, transfer) =>
      var c' := DelegateVotes(c, auth, from, receiver, net, cpu, transfer, growth);
      MoveOne(c.book, m.voter, m.deltas[0], k);
    case Undelegate(from, receiver, net, cpu) =>
      var c' := UndelegateVotes(c, auth, from, receiver, net, cpu, growth);
      MoveOne(c.book, m.voter, m.deltas[0], k);
    case TakeRefund(owner) =>
      var c' := RefundEffect(c, auth, owner);
      MoveNothing(c.book, m.voter, k);
    case Buy(payer, receiver, amount) =>
      var c' := BuyVotes(c, auth, payer, receiver, amount, growth);
      MoveOne(c.book, m.voter, m.deltas[0], k);
    case BuyBytes(payer, receiver, bytes) =>
      var c', b1 := BuyBytesVotes(c, auth, payer, receiver, bytes, growth);
      MoveTwo(c.book, m.voter, m.deltas[0], m.deltas[1], k, b1);
    case Sell(account, bytes) =>
      var c' := SellVotes(c, auth, account, bytes, growth);
      MoveOne(c.book, m.voter, m.deltas[0], k);
  }

  lemma MoveNothing(b: Book, voter: Name, k: Clock)
    ensures MoveAll(b, voter, [], k) == Success(b)
  {
  }
}
