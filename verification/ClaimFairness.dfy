/** The per-block bucket is shared fairly whatever the order in which producers claim. */
module ClaimFairness {
  import opened Basics
  import opened Names
  import opened Sums
  import opened Voting
  import opened Chain
  import opened Rewards
  import opened StakeSteps
  import opened RewardSteps

  /** The claims of `owners`, one after the other at one time. */
  function ClaimEach(c: Chain, owners: seq<Name>, minted: nat): Result<Chain> {
    if owners == [] then Success(c)
    else
      var earlier :- ClaimEach(c, owners[..|owners| - 1], minted);
      ClaimRewards(earlier, {owners[|owners| - 1]}, owners[|owners| - 1], minted)
  }

  /** What the claim at position `i` pays for blocks. */
  function PaidAt(c: Chain, owners: seq<Name>, minted: nat, i: nat): int
    requires i < |owners| && owners[i] in c.book.producers && ClaimEach(c, owners[..i], minted).Success?
  {
    BlockPay(ClaimEach(c, owners[..i], minted).value.pay, c.book.producers[owners[i]].unpaid)
  }

  // ---------- the arithmetic of one claim ----------

  /** The fair rate: tokens for each unpaid block when the round begins. */
  function Rate(p: Pay): real
    requires p.unpaid > 0
  {
    p.perBlock as real / p.unpaid as real
  }

  /** After `k` claims the bucket `b` covers the `t` remaining blocks at the fair rate, with at most
      `k` tokens over. */
  ghost predicate FairSoFar(rate: real, k: nat, b: int, t: int) {
    rate >= 0.0 && 0 <= t && 0 <= b && (t == 0 ==> b == 0) && rate * t as real <= b as real <= rate * t as real + k as real
  }

  lemma Scaled(x: real, y: real, d: real)
    requires x <= y && d >= 0.0
    ensures x * d <= y * d
  {
  }

  /** Over the reals: `now` is the present rate, which never falls below the fair one. */
  lemma RealStep(rate: real, now: real, k: real, t: real, u: real, pay: real)
    requires 0.0 <= u <= t && t > 0.0 && k >= 0.0
    requires rate * t <= now * t <= rate * t + k
    requires pay <= now * u < pay + 1.0
    ensures rate * (t - u) <= now * t - pay <= rate * (t - u) + k + 1.0
    ensures rate * u < pay + 1.0 && pay <= rate * u + k
  {
    Cancels(rate, now, t);
    Scaled(u, t, now - rate);
    Scaled(rate, now, u);
    Scaled(rate, now, t - u);
  }

  lemma QuotientIsFloor(b: int, u: int, t: int)
    requires t > 0 && b >= 0 && u >= 0
    ensures var pay := b * u / t;
      0 <= pay && pay as real <= b as real / t as real * u as real < pay as real + 1.0
    ensures b as real / t as real * t as real == b as real
  {
    var pay := b * u / t;
    ProductAsReal(b, u);
    ProductAsReal(pay, t);
    FloorOf(b as real, u as real, t as real, pay as real);
  }

  lemma ProductAsReal(x: int, y: int)
    ensures (x * y) as real == x as real * y as real
  {
  }

  lemma FloorOf(b: real, u: real, t: real, pay: real)
    requires t > 0.0 && pay * t <= b * u < pay * t + t
    ensures pay <= b / t * u < pay + 1.0
    ensures b / t * t == b
  {
    var now := b / t;
    assert now * t == b;
    assert now * u * t == b * u;
    Cancels(pay, now * u, t);
    CancelsStrictly(now * u, pay + 1.0, t);
  }

  lemma Cancels(x: real, y: real, d: real)
    requires d > 0.0 && x * d <= y * d
    ensures x <= y
  {
  }

  lemma CancelsStrictly(x: real, y: real, d: real)
    requires d > 0.0 && x * d < y * d
    ensures x < y
  {
  }

  function ShareFor(b: int, u: int, t: int): int { if t > 0 then b * u / t else 0 }

  lemma BlockPayIsShare(p: Pay, u: nat)
    ensures BlockPay(p, u) == ShareFor(p.perBlock, u, p.unpaid)
  {
  }

  lemma FairStep(rate: real, k: nat, b: int, t: int, u: int)
    requires FairSoFar(rate, k, b, t) && 0 <= u <= t
    ensures var pay := ShareFor(b, u, t);
      && (rate * u as real).Floor <= pay
      && pay as real <= rate * u as real + k as real
      && FairSoFar(rate, k + 1, b - pay, t - u)
  {
    if t == 0 {
      Nothing(rate, k);
    } else {
      var pay := ShareFor(b, u, t);
      ShareWhole(b, t);
      QuotientIsFloor(b, u, t);
      hide ShareFor;
      RealStep(rate, b as real / t as real, k as real, t as real, u as real, pay as real);
      RestIsFair(rate, k, b, t, u, pay);
    }
  }

  lemma Nothing(rate: real, k: nat)
    ensures ShareFor(0, 0, 0) == 0 && (rate * 0 as real).Floor == 0 && rate * 0 as real == 0.0
  {
  }

  lemma ShareWhole(b: int, t: int)
    requires t > 0
    ensures ShareFor(b, t, t) == b
  {
    var q, r := b * t / t, b * t % t;
    assert (b - q) * t == r;
    AtLeastOne(b - q, t);
    AtLeastOne(q - b, t);
  }

  lemma AtLeastOne(x: int, t: int)
    requires t > 0
    ensures x >= 1 ==> x * t >= t
    ensures (-x) * t == -(x * t)
  {
  }

  lemma RestIsFair(rate: real, k: nat, b: int, t: int, u: int, pay: int)
    requires rate >= 0.0 && 0 <= u <= t && t > 0 && 0 <= pay && (u == t ==> pay == b)
    requires rate * (t as real - u as real) <= b as real - pay as real <= rate * (t as real - u as real) + k as real + 1.0
    requires rate * u as real < pay as real + 1.0
    ensures (rate * u as real).Floor <= pay && FairSoFar(rate, k + 1, b - pay, t - u)
  {
    assert (t - u) as real == t as real - u as real;
    AtMostAll(rate, b, t, u, pay);
  }

  lemma AtMostAll(rate: real, b: int, t: int, u: int, pay: int)
    requires rate >= 0.0 && 0 <= u <= t && rate * (t as real - u as real) <= b as real - pay as real
    ensures pay <= b
  {
    Scaled(0.0, rate, t as real - u as real);
  }

  // ---------- a round of claims ----------

  function UnpaidOf(c: Chain, owners: seq<Name>): int
    requires forall o :: o in owners ==> o in c.book.producers
  {
    if owners == [] then 0
    else UnpaidOf(c, owners[..|owners| - 1]) + c.book.producers[owners[|owners| - 1]].unpaid
  }

  ghost predicate Registered(c: Chain, owners: seq<Name>) {
    forall o :: o in owners ==> o in c.book.producers
  }

  /** The state after some claims of a round: the bucket is still shared fairly, and who has not
      claimed yet has what it had. */
  ghost predicate RoundSoFar(c: Chain, owners: seq<Name>, s: Chain)
    requires Registered(c, owners) && c.pay.unpaid > 0
  {
    && BlocksSound(s) && s.now == c.now && s.pay.filledAt == c.pay.filledAt
    && FairSoFar(Rate(c.pay), |owners|, s.pay.perBlock, s.pay.unpaid)
    && s.pay.unpaid == c.pay.unpaid - UnpaidOf(c, owners)
    && s.book.producers.Keys == c.book.producers.Keys
    && (forall o :: o in c.book.producers && o !in owners ==> s.book.producers[o].unpaid == c.book.producers[o].unpaid)
  }

  /** What one claim without a refill does to the bucket and the counters. */
  lemma ClaimTakes(s: Chain, owner: Name, minted: nat) returns (s': Chain, blockPay: int)
    requires BlocksSound(s) && s.now == s.pay.filledAt && ClaimRewards(s, {owner}, owner, minted).Success?
    ensures ClaimRewards(s, {owner}, owner, minted) == Success(s') && owner in s.book.producers && BlocksSound(s')
    ensures var u := s.book.producers[owner].unpaid;
      && u <= s.pay.unpaid
      && blockPay == BlockPay(s.pay, u)
      && s'.now == s.now && s'.pay.filledAt == s.pay.filledAt
      && s'.pay.perBlock == s.pay.perBlock - blockPay
      && s'.pay.unpaid == s.pay.unpaid - u
      && s'.book.producers == s.book.producers[owner := s.book.producers[owner].(lastClaim := s.now, unpaid := 0)]
  {
    hide TotalUnpaid, TokensKept, ClaimedVotePay, ClaimBook, FillBuckets, ClaimRewards, Trunc, BlockPay, Sized, FillShare, BalanceOf;
    var f, votePay;
    s', f, blockPay, votePay := ClaimEffect(s, {owner}, owner, minted);
    var f', split := FillEffect(s, minted);
    ClaimBookProducers(s.book, owner, f.pay.revision > 0, s.now);
    WriteUnpaid(s.book.producers, owner, s.book.producers[owner]);
  }

  /** One more claim of the round, and what it pays. */
  lemma RoundStep(c: Chain, owners: seq<Name>, s: Chain, owner: Name, minted: nat) returns (s': Chain, blockPay: int)
    requires Registered(c, owners) && c.pay.unpaid > 0 && RoundSoFar(c, owners, s) && owner !in owners && c.now == c.pay.filledAt
    requires ClaimRewards(s, {owner}, owner, minted).Success?
    ensures ClaimRewards(s, {owner}, owner, minted) == Success(s') && owner in c.book.producers
    ensures Registered(c, owners + [owner]) && RoundSoFar(c, owners + [owner], s')
    ensures var u := c.book.producers[owner].unpaid;
      && blockPay == BlockPay(s.pay, u)
      && (Rate(c.pay) * u as real).Floor <= blockPay
      && blockPay as real <= Rate(c.pay) * u as real + |owners| as real
  {
    hide BlocksSound, FairSoFar, ClaimRewards, Rate, BlockPay, ShareFor, UnpaidOf;
    s', blockPay := ClaimTakes(s, owner, minted);
    var u := c.book.producers[owner].unpaid;
    FairStep(Rate(c.pay), |owners|, s.pay.perBlock, s.pay.unpaid, u);
    BlockPayIsShare(s.pay, u);
    UnpaidWithOneMore(c, owners, owner);
  }

  lemma UnpaidWithOneMore(c: Chain, owners: seq<Name>, owner: Name)
    requires Registered(c, owners) && owner in c.book.producers
    ensures Registered(c, owners + [owner])
    ensures UnpaidOf(c, owners + [owner]) == UnpaidOf(c, owners) + c.book.producers[owner].unpaid
  {
    assert (owners + [owner])[..|owners|] == owners;
  }

  lemma RoundBegins(c: Chain)
    requires c.pay.unpaid > 0 && c.pay.perBlock >= 0
    ensures FairSoFar(Rate(c.pay), 0, c.pay.perBlock, c.pay.unpaid)
  {
  }

  lemma {:induction false} RoundIsFair(c: Chain, owners: seq<Name>, minted: nat)
    requires BlocksSound(c) && c.pay.unpaid > 0 && c.now == c.pay.filledAt && Distinct(owners)
    requires ClaimEach(c, owners, minted).Success?
    ensures Registered(c, owners) && RoundSoFar(c, owners, ClaimEach(c, owners, minted).value)
  {
    hide ClaimRewards, TotalUnpaid, Rate, FairSoFar;
    if owners == [] {
      RoundBegins(c);
    } else {
      var n := |owners| - 1;
      var earlier := owners[..n];
      RoundIsFair(c, earlier, minted);
      assert owners[n] !in earlier;
      assert owners == earlier + [owners[n]];
      var s', blockPay := RoundStep(c, earlier, ClaimEach(c, earlier, minted).value, owners[n], minted);
    }
  }

  lemma {:induction false} PrefixSucceeds(c: Chain, owners: seq<Name>, minted: nat, i: nat)
    requires ClaimEach(c, owners, minted).Success? && i <= |owners|
    ensures ClaimEach(c, owners[..i], minted).Success?
  {
    var n := |owners| - 1;
    if i <= n {
      PrefixSucceeds(c, owners[..n], minted, i);
      assert owners[..n][..i] == owners[..i];
    } else {
      assert owners[..i] == owners;
    }
  }

  /** Claims at one time, in any order and without a refill between them, from a bucket of B tokens
      for T blocks: whoever made u blocks and claims after `i` others is paid at least B*u/T rounded
      down and at most `i` tokens above B*u/T. */
  lemma ClaimOrderFairness(c: Chain, owners: seq<Name>, minted: nat, i: nat)
    requires BlocksSound(c) && c.pay.unpaid > 0 && c.now == c.pay.filledAt && Distinct(owners)
    requires i < |owners| && ClaimEach(c, owners, minted).Success?
    ensures owners[i] in c.book.producers && ClaimEach(c, owners[..i], minted).Success?
    ensures var u := c.book.producers[owners[i]].unpaid;
      var paid := PaidAt(c, owners, minted, i);
      && (Rate(c.pay) * u as real).Floor <= paid
      && paid as real <= Rate(c.pay) * u as real + i as real
  {
    hide RoundSoFar, ClaimRewards, BlocksSound, Rate, BlockPay;
    PrefixSucceeds(c, owners, minted, i);
    PrefixSucceeds(c, owners, minted, i + 1);
    RoundIsFair(c, owners[..i], minted);
    assert owners[i] !in owners[..i];
    assert owners[..i + 1][..i] == owners[..i];
    var s := ClaimEach(c, owners[..i], minted).value;
    var s', blockPay := RoundStep(c, owners[..i], s, owners[i], minted);
  }

  /** When everyone with unpaid blocks has claimed, the bucket is exactly empty. */
  lemma RoundEmptiesBucket(c: Chain, owners: seq<Name>, minted: nat)
    requires BlocksSound(c) && c.pay.unpaid > 0 && c.now == c.pay.filledAt && Distinct(owners)
    requires ClaimEach(c, owners, minted).Success?
    requires forall p :: p in c.book.producers && c.book.producers[p].unpaid > 0 ==> p in owners
    ensures ClaimEach(c, owners, minted).value.pay.perBlock == 0
    ensures ClaimEach(c, owners, minted).value.pay.unpaid == 0
  {
    hide ClaimEach;
    RoundIsFair(c, owners, minted);
    var s := ClaimEach(c, owners, minted).value;
    ClaimedHaveNone(c, owners, minted);
    NothingUnpaid(s.book.producers);
  }

  /** Whoever has claimed has no unpaid block left. */
  lemma {:induction false} ClaimedHaveNone(c: Chain, owners: seq<Name>, minted: nat)
    requires BlocksSound(c) && c.pay.unpaid > 0 && c.now == c.pay.filledAt && Distinct(owners)
    requires ClaimEach(c, owners, minted).Success?
    ensures var s := ClaimEach(c, owners, minted).value;
      forall o :: o in owners && o in s.book.producers ==> s.book.producers[o].unpaid == 0
  {
    if owners != [] {
      hide TotalUnpaid, TokensKept, ClaimedVotePay, FairSoFar, FillBuckets;
      var n := |owners| - 1;
      ClaimedHaveNone(c, owners[..n], minted);
      RoundIsFair(c, owners[..n], minted);
      var s := ClaimEach(c, owners[..n], minted).value;
      var s', f, blockPay, votePay := ClaimEffect(s, {owners[n]}, owners[n], minted);
      ClaimBookProducers(s.book, owners[n], f.pay.revision > 0, s.now);
      hide ClaimBook;
      forall o | o in owners && o in s'.book.producers ensures s'.book.producers[o].unpaid == 0 {
        if o != owners[n] {
          assert o in owners[..n];
        }
      }
    }
  }

  lemma NothingUnpaid(ps: map<Name, Producer>)
    requires forall p :: p in ps ==> ps[p].unpaid == 0
    ensures TotalUnpaid(ps) == 0
  {
    SumOfZeros(UnpaidColumn(ps));
  }
}
