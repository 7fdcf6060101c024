/** Buying memory by the byte and selling it again, action by action. */
module MemoryTrips {
  import opened Basics
  import opened Chain
  import opened Staking
  import opened StakeSteps
  import opened Memory
  import opened MarketSteps
  import opened Runs
  import opened Invariants
  import opened AccountSteps

  function MemOf(c: Chain, account: Name): int { ResourcesOf(c.stakes.resources, account).mem }

  /** The whole mebibytes of a request for bytes, which is a 32-bit word. */
  function Whole(bytes: int): int { bytes % Memory.WORD / MEBIBYTE * MEBIBYTE }

  /** `buymembytes` delivers exactly the whole mebibytes asked for, at exactly their price; the market gives
      up the one and takes in the other. */
  lemma BuyBytesDelivers(c: Chain, auth: set<Name>, payer: Name, receiver: Name, bytes: int, growth: Growth) returns (c': Chain)
    requires Orderly(c) && BuyMemBytes(c, auth, payer, receiver, bytes, growth).Success?
    ensures BuyMemBytes(c, auth, payer, receiver, bytes, growth) == Success(c') && Orderly(c')
    ensures MemOf(c', receiver) == MemOf(c, receiver) + Whole(bytes) && c'.now == c.now
    ensures var g, price := GrowSupply(c.market, c.now), PriceOf(bytes % Memory.WORD);
      c'.market == g.(base := g.base - Whole(bytes), quote := g.quote + price, memStake := g.memStake + price)
  {
    hide Orderly, BuyMemBytes, BuyResources, DelegateBw, ChangeBw, TradeEffect, PriceOf, UpdateVotingPower, Settle, PaidTwice, Paid,
         GrowSupply, TokensToBytes;
    var price := PriceOf(bytes % Memory.WORD);
    var c1;
    c', c1 := BuyBytesKeeps(c, auth, payer, receiver, bytes, growth);
    OrderlyParts(c);
    OrderlyParts(c1);
    var c1', more, due, staked := BuyEffect(c, auth, payer, receiver, price, growth);
    WholeMebibytes(bytes % Memory.WORD);
    DelegateIsChange(c1, auth, payer, receiver, price, price, false, growth);
    var c'', due2 := ChangeBwEffect(c1, auth, payer, receiver, price, price, false, growth);
    MemoryStays(c1, c', receiver);
    TradeNow(c, c1);
    TradeNow(c1, c');
  }

  lemma MemoryStays(c: Chain, c': Chain, a: Name)
    requires StakeEffect(c, c')
    ensures c'.market == c.market && MemOf(c', a) == MemOf(c, a)
  {
  }

  lemma GrowLater(m: Market, now: int, base: int, quote: int, memStake: int)
    ensures GrowSupply(m.(base := m.base - base, quote := m.quote + quote, memStake := m.memStake + memStake), now)
      == var g := GrowSupply(m, now); g.(base := g.base - base, quote := g.quote + quote, memStake := g.memStake + memStake)
  {
  }

  /** The round trip, whatever time passes in between: after `buymembytes` a sale of what it delivered puts
      every byte back, pays exactly the price, and leaves the market as if it had only grown. */
  lemma BytesRoundTrip(c: Chain, auth: set<Name>, payer: Name, receiver: Name, bytes: int, growth: Growth, c1: Chain,
                       elapsed: nat, auth2: set<Name>, growth2: Growth, c2: Chain)
    requires Orderly(c) && BuyMemBytes(c, auth, payer, receiver, bytes, growth) == Success(c1)
    requires SellRes(Later(c1, elapsed), auth2, receiver, Whole(bytes), growth2) == Success(c2)
    ensures MemOf(c2, receiver) == MemOf(c, receiver)
    ensures Paid(c1.token, c2.token, MEM, receiver, PriceOf(bytes % Memory.WORD))
    ensures c2.market == GrowSupply(GrowSupply(c.market, c.now), c.now + elapsed)
  {
    hide Orderly, BuyMemBytes, SellRes, GrowSupply, TradeEffect, UpdateVotingPower, Settle, Paid;
    var c1' := BuyBytesDelivers(c, auth, payer, receiver, bytes, growth);
    var l := Later(c1, elapsed);
    LaterKeepsOrderly(c1, elapsed);
    OrderlyParts(l);
    var c2', tokens := SellEffect(l, auth2, receiver, Whole(bytes), growth2);
    WholeMebibytes(bytes % Memory.WORD);
    var price := PriceOf(bytes % Memory.WORD);
    GrowLater(GrowSupply(c.market, c.now), c.now + elapsed, Whole(bytes), price, price);
  }
}
