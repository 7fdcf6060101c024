/** Rewards: the buckets are covered by the tokens set aside for them, and claims share them fairly. */
module RewardSteps {
  import opened Basics
  import opened Sums
  import opened Voting
  import opened Token
  import opened Chain
  import opened Rewards
  import opened Election
  import opened VoteLedger
  import opened VotePayIndex
  import opened VotePayRows
  import opened BookSteps
  import opened TokenLedger
  import opened StakeSteps

  ghost function UnpaidColumn(ps: map<Name, Producer>): map<Name, int> { map p | p in ps :: ps[p].unpaid }

  ghost function TotalUnpaid(ps: map<Name, Producer>): int { Sum(UnpaidColumn(ps)) }

  /** The counter of unpaid blocks is the sum over producers, and the block bucket is never in debt. */
  ghost predicate BlocksSound(c: Chain) {
    c.pay.unpaid == TotalUnpaid(c.book.producers) && c.pay.perBlock >= 0
  }

  lemma WriteUnpaid(ps: map<Name, Producer>, p: Name, row: Producer)
    requires p in ps
    ensures TotalUnpaid(ps[p := row]) == TotalUnpaid(ps) + row.unpaid - ps[p].unpaid
    ensures 0 <= ps[p].unpaid <= TotalUnpaid(ps)
  {
    hide Sum;
    assert UnpaidColumn(ps[p := row]) == UnpaidColumn(ps)[p := row.unpaid];
    SumWrite(UnpaidColumn(ps), p, row.unpaid);
    SumNonNegative(UnpaidColumn(ps));
    assert UnpaidColumn(ps)[p] == ps[p].unpaid;
  }

  // ---------- splitting what is issued ----------

  /** The three parts are non-negative and nothing is lost between them, for all factors. */
  lemma SplitIsExact(minted: nat, p: Pay)
    ensures var s := SplitTokens(minted, p);
      s.savings >= 0 && s.perBlock >= 0 && s.perVote >= 0 && s.savings + s.perBlock + s.perVote == minted
  {
    ShareWithin(minted, p.payFactor);
    ShareWithin(minted * PAY_PRECISION / p.payFactor, p.voteFactor);
  }

  lemma ShareWithin(x: nat, factor: Factor)
    ensures 0 <= x * PAY_PRECISION / factor <= x
  {
    assert x * PAY_PRECISION <= x * factor;
    QuotientBound(x * PAY_PRECISION, factor, x);
  }

  lemma QuotientBound(a: nat, d: int, q: nat)
    requires d > 0 && a <= q * d
    ensures 0 <= a / d <= q
  {
    Cancel(a / d, q, d);
  }

  lemma Cancel(x: int, y: int, d: int)
    requires d > 0 && x * d <= y * d
    ensures x <= y
  {
  }

  // ---------- filling the buckets ----------

  lemma SendSomeEffect(c: Chain, from: Name, to: Name, amount: int) returns (c': Chain)
    requires SendSome(c, from, to, amount).Success? && amount >= 0
    ensures SendSome(c, from, to, amount) == Success(c') && c' == c.(token := c'.token)
    ensures c'.token.stats == c.token.stats && (amount > 0 ==> from != to)
    ensures Paid(c.token, c'.token, from, to, amount) && TokensKept(c, c')
  {
    hide Send, Conserved;
    c' := c;
    if amount > 0 {
      c' := SendEffect(c, from, to, amount);
    }
  }

  function Sized(split: Split): int { split.savings + split.perBlock + split.perVote }

  /** What a fill adds to each account: the issuer passes everything on. */
  function FillShare(o: Name, s: nat, split: Split): int {
    if s != INR then 0
    else if o == SAVING then split.savings
    else if o == BPAY then split.perBlock
    else if o == VPAY then split.perVote
    else 0
  }

  /** Issuing the inflation and passing all of it on. */
  lemma IssueAndPassOn(c: Chain, minted: nat, split: Split) returns (c4: Chain)
    requires minted > 0 && split.savings >= 0 && split.perBlock >= 0 && split.perVote >= 0 && Sized(split) == minted
    requires PassOn(c, minted, split).Success?
    ensures PassOn(c, minted, split) == Success(c4)
    ensures c4 == c.(token := c4.token) && TokensKept(c, c4)
    ensures forall s: nat :: SupplyOf(c4.token, s) == SupplyOf(c.token, s) + (if s == INR then minted else 0)
    ensures forall o, s :: BalanceOf(c4.token, o, s) == BalanceOf(c.token, o, s) + FillShare(o, s, split)
  {
    hide Conserved, Issue, SendSome, SplitTokens, TokensKept, FillShare;
    var t := IssueEffect(c.token, {SYSTEM}, SYSTEM, Inr(minted));
    var c1 := c.(token := t);
    IssueKeeps(c, c1, minted);
    var c2 := SendSomeEffect(c1, SYSTEM, SAVING, split.savings);
    var c3 := SendSomeEffect(c2, SYSTEM, BPAY, split.perBlock);
    c4 := SendSomeEffect(c3, SYSTEM, VPAY, split.perVote);
    PassedOn(c.token, t, c2.token, c3.token, c4.token, minted, split);
    TokensKeptTransitive(c, c1, c2);
    TokensKeptTransitive(c, c2, c3);
    TokensKeptTransitive(c, c3, c4);
  }

  /** Before a claim is paid, the supply grows by exactly what is issued; the buckets and the accounts
      behind them grow together; the issuer keeps nothing. */
  lemma FillEffect(c: Chain, minted: nat) returns (c': Chain, split: Split)
    requires FillBuckets(c, minted).Success?
    ensures FillBuckets(c, minted) == Success(c') && c' == c.(token := c'.token, pay := c'.pay)
    ensures split.savings >= 0 && split.perBlock >= 0 && split.perVote >= 0
    ensures Sized(split) == (if c.now > c.pay.filledAt && c.pay.filledAt > 0 then minted else 0)
    ensures forall s: nat :: SupplyOf(c'.token, s) == SupplyOf(c.token, s) + (if s == INR then Sized(split) else 0)
    ensures forall o, s :: BalanceOf(c'.token, o, s) == BalanceOf(c.token, o, s) + FillShare(o, s, split)
    ensures c'.pay == c.pay.(perVote := c.pay.perVote + split.perVote, perBlock := c.pay.perBlock + split.perBlock,
                             filledAt := if c.now > c.pay.filledAt && c.pay.filledAt > 0 then c.now else c.pay.filledAt)
    ensures TokensKept(c, c')
    ensures c.now == c.pay.filledAt ==> c' == c
  {
    hide PassOn, SplitTokens, TokensKept, SupplyOf, BalanceOf, FillShare;
    split := Split(0, 0, 0);
    c' := c;
    TokensStay(c);
    NothingToShare();
    if c.now > c.pay.filledAt && c.pay.filledAt > 0 {
      split := SplitTokens(minted, c.pay);
      SplitIsExact(minted, c.pay);
      var c4 := c;
      if minted > 0 {
        c4 := IssueAndPassOn(c, minted, split);
      }
      c' := c4.(pay := c4.pay.(perVote := c4.pay.perVote + split.perVote, perBlock := c4.pay.perBlock + split.perBlock, filledAt := c.now));
      PayIsNoToken(c, c4, c');
    }
  }

  lemma NothingToShare()
    ensures forall o, s: nat :: FillShare(o, s, Split(0, 0, 0)) == 0
  {
  }

  lemma TokensStay(c: Chain)
    ensures TokensKept(c, c)
  {
  }

  lemma PayIsNoToken(c: Chain, c4: Chain, c': Chain)
    requires TokensKept(c, c4) && c' == c4.(pay := c'.pay)
    ensures TokensKept(c, c')
  {
    hide Conserved;
  }

  lemma IssueKeeps(c: Chain, c1: Chain, minted: int)
    requires c1 == c.(token := c1.token) && minted >= 0
    requires Moved(c.token, c1.token, SYSTEM, INR, minted) && (Conserved(c.token) ==> Conserved(c1.token)) && SymbolsKept(c.token, c1.token)
    ensures TokensKept(c, c1)
  {
    hide Conserved;
  }

  lemma PassedOn(t0: Ledger, t1: Ledger, t2: Ledger, t3: Ledger, t4: Ledger, minted: int, split: Split)
    requires Moved(t0, t1, SYSTEM, INR, minted) && split.savings + split.perBlock + split.perVote == minted
    requires Paid(t1, t2, SYSTEM, SAVING, split.savings) && Paid(t2, t3, SYSTEM, BPAY, split.perBlock)
    requires Paid(t3, t4, SYSTEM, VPAY, split.perVote)
    ensures forall o, s :: BalanceOf(t4, o, s) == BalanceOf(t0, o, s) + FillShare(o, s, split)
  {
    forall o, s ensures BalanceOf(t4, o, s) == BalanceOf(t0, o, s) + FillShare(o, s, split) {
      assert BalanceOf(t1, o, s) == BalanceOf(t0, o, s) + (if o == SYSTEM && s == INR then minted else 0);
      assert BalanceOf(t2, o, s) == BalanceOf(t1, o, s) + TransferShare(o, s, SYSTEM, SAVING, Inr(split.savings));
      assert BalanceOf(t3, o, s) == BalanceOf(t2, o, s) + TransferShare(o, s, SYSTEM, BPAY, Inr(split.perBlock));
      assert BalanceOf(t4, o, s) == BalanceOf(t3, o, s) + TransferShare(o, s, SYSTEM, VPAY, Inr(split.perVote));
    }
  }

  // ---------- what a claim pays ----------

  lemma BlockPayWithin(p: Pay, unpaid: nat)
    requires p.perBlock >= 0 && unpaid <= p.unpaid
    ensures 0 <= BlockPay(p, unpaid) <= p.perBlock
  {
    if p.unpaid > 0 {
      assert p.perBlock * unpaid <= p.perBlock * p.unpaid;
      QuotientBound(p.perBlock * unpaid, p.unpaid, p.perBlock);
    }
  }

  lemma RatioWithin(part: real, whole: real, amount: real)
    requires 0.0 <= part <= whole && 0.0 < whole && amount >= 0.0
    ensures 0.0 <= amount * part / whole <= amount
    ensures part * amount / whole == amount * part / whole
  {
    assert part / whole <= 1.0;
    assert amount * part / whole == amount * (part / whole);
  }

  /** A share of the bucket is at most the bucket. */
  lemma RatioBelow(part: real, whole: real, amount: real)
    requires part <= whole && 0.0 < whole && amount >= 0.0
    ensures amount * part / whole <= amount
  {
    assert part / whole <= 1.0;
    assert amount * part / whole == amount * (part / whole);
  }

  /** Vote pay is nothing or at least the minimum, and never more than the bucket: with the revision
      for every share and total, because of the cap at producer_pay.cpp:134; without it as long as no
      producer has more votes than the grand total. */
  lemma VotePayBound(p: Pay, share: real, total: real, crossed: bool, votes: real, totalVotes: real)
    requires p.perVote >= 0 && (p.revision == 0 ==> votes <= totalVotes)
    ensures 0.0 <= VotePay(p, share, total, crossed, votes, totalVotes) <= p.perVote as real
    ensures var pay := VotePay(p, share, total, crossed, votes, totalVotes); pay == 0.0 || pay >= MIN_VOTE_PAY
  {
    assert p.perVote as real >= 0.0;
    if p.revision == 0 && totalVotes > 0.0 {
      RatioBelow(votes, totalVotes, p.perVote as real);
    }
  }

  /** While the index holds, the share a claim cashes in is part of the global share, so that the cap
      at producer_pay.cpp:134 is idle. */
  lemma VotePayWithin(b: Book, p: Pay, owner: Name, now: int)
    requires Accrues(b, now) && owner in b.producers && p.perVote >= 0
    ensures var total := UpdateTotalShare(b, now, 0.0, 0.0).totalShare;
      && 0.0 <= ClaimedShare(b, owner, now) <= total == TotalOwed(b, now)
      && (total > 0.0 ==> ClaimedShare(b, owner, now) * p.perVote as real / total <= p.perVote as real)
    ensures 0.0 <= ClaimedVotePay(b, p, owner, now) <= p.perVote as real
  {
    hide TotalGap, ClaimedShare, TotalOwed, TotalRate;
    VotesWithin(b, owner);
    ClaimedTotals(b, owner, false, now);
    var share := ClaimedShare(b, owner, now);
    UpdateTotalExact(b, now, 0.0, 0.0);
    var total := UpdateTotalShare(b, now, 0.0, 0.0).totalShare;
    assert total == GlobalShare(b, now) == TotalOwed(b, now);
    hide UpdateTotalShare, VotePay;
    VotePayBound(p, share, total, b.producers[owner].lastClaim + THREE_DAYS <= now, b.producers[owner].votes, b.totalVotes);
    if total > 0.0 {
      RatioWithin(share, total, p.perVote as real);
    }
  }

  /** The bucket is charged the vote pay rounded up, the account pays it rounded down. */
  lemma RoundingKeepsChange(bucket: int, pay: real)
    requires 0.0 <= pay <= bucket as real
    ensures 0 <= Trunc(bucket as real - pay) <= bucket
    ensures 0 <= Trunc(pay)
    ensures 0 <= bucket - Trunc(bucket as real - pay) - Trunc(pay) <= 1
  {
    var x := bucket as real - pay;
    assert x.Floor as real <= x < x.Floor as real + 1.0;
    assert pay.Floor as real <= pay < pay.Floor as real + 1.0;
  }

  // ---------- one claim ----------

  lemma ClaimStages(c: Chain, auth: set<Name>, owner: Name, minted: nat)
    returns (f: Chain, c2: Chain, c3: Chain, blockPay: int, votePay: real)
    requires ClaimRewards(c, auth, owner, minted).Success?
    ensures owner in auth && owner in c.book.producers
    ensures FillBuckets(c, minted) == Success(f)
    ensures owner in f.book.producers && f.book == c.book && f == c.(token := f.token, pay := f.pay)
    ensures blockPay == BlockPay(f.pay, c.book.producers[owner].unpaid)
    ensures votePay == ClaimedVotePay(f.book, f.pay, owner, c.now)
    ensures c2 == f.(book := ClaimBook(c.book, owner, f.pay.revision > 0, c.now),
                     pay := f.pay.(perVote := Trunc(f.pay.perVote as real - votePay), perBlock := f.pay.perBlock - blockPay,
                                   unpaid := f.pay.unpaid - c.book.producers[owner].unpaid))
    ensures SendSome(c2, BPAY, owner, blockPay) == Success(c3)
    ensures ClaimRewards(c, auth, owner, minted) == SendSome(c3, VPAY, owner, Trunc(votePay))
  {
    hide SendSome, ClaimBook, ClaimedVotePay, BlockPay, FillBuckets, Trunc;
    f := FillBuckets(c, minted).value;
    assert f == c.(token := f.token, pay := f.pay) by { var f', split := FillEffect(c, minted); }
    blockPay := BlockPay(f.pay, c.book.producers[owner].unpaid);
    votePay := ClaimedVotePay(f.book, f.pay, owner, c.now);
    c2 := f.(book := ClaimBook(c.book, owner, f.pay.revision > 0, c.now),
             pay := f.pay.(perVote := Trunc(f.pay.perVote as real - votePay), perBlock := f.pay.perBlock - blockPay,
                           unpaid := f.pay.unpaid - c.book.producers[owner].unpaid));
    c3 := SendSome(c2, BPAY, owner, blockPay).value;
  }

  lemma VotePayNonNegative(b: Book, p: Pay, owner: Name, now: int)
    requires owner in b.producers
    ensures ClaimedVotePay(b, p, owner, now) >= 0.0 && Trunc(ClaimedVotePay(b, p, owner, now)) >= 0
  {
    hide UpdateTotalShare, ClaimedShare;
  }

  /** Everything a claim does: the block pay leaves both the bucket and its account, the vote pay is
      charged rounded up and paid rounded down. */
  lemma ClaimEffect(c: Chain, auth: set<Name>, owner: Name, minted: nat)
    returns (c': Chain, f: Chain, blockPay: int, votePay: real)
    requires BlocksSound(c) && ClaimRewards(c, auth, owner, minted).Success?
    ensures ClaimRewards(c, auth, owner, minted) == Success(c') && FillBuckets(c, minted) == Success(f)
    ensures owner in auth && owner in c.book.producers && f == c.(token := f.token, pay := f.pay)
    ensures c' == c.(token := c'.token, pay := c'.pay, book := ClaimBook(c.book, owner, f.pay.revision > 0, c.now))
    ensures blockPay == BlockPay(f.pay, c.book.producers[owner].unpaid) && 0 <= blockPay <= f.pay.perBlock
    ensures votePay == ClaimedVotePay(f.book, f.pay, owner, c.now) && Trunc(votePay) >= 0
    ensures c'.pay == f.pay.(perVote := Trunc(f.pay.perVote as real - votePay), perBlock := f.pay.perBlock - blockPay,
                             unpaid := f.pay.unpaid - c.book.producers[owner].unpaid)
    ensures forall o, s :: BalanceOf(c'.token, o, s) == BalanceOf(f.token, o, s) + ClaimShareOf(o, s, owner, blockPay, Trunc(votePay))
    ensures (owner == BPAY ==> blockPay == 0) && (owner == VPAY ==> Trunc(votePay) == 0)
    ensures c'.token.stats == f.token.stats && TokensKept(c, c') && BlocksSound(c')
  {
    hide SendSome, ClaimBook, ClaimedVotePay, BlockPay, FillBuckets, Trunc, TotalUnpaid, TokensKept, Sized, SupplyOf, FillShare;
    var c2, c3;
    f, c2, c3, blockPay, votePay := ClaimStages(c, auth, owner, minted);
    var f', split := FillEffect(c, minted);
    WriteUnpaid(c.book.producers, owner, c.book.producers[owner].(lastClaim := c.now, unpaid := 0));
    BlockPayWithin(f.pay, c.book.producers[owner].unpaid);
    VotePayNonNegative(f.book, f.pay, owner, c.now);
    var c3' := SendSomeEffect(c2, BPAY, owner, blockPay);
    c' := SendSomeEffect(c3, VPAY, owner, Trunc(votePay));
    TwoPayments(f.token, c3.token, c'.token, owner, blockPay, Trunc(votePay));
    ClaimBookProducers(c.book, owner, f.pay.revision > 0, c.now);
    TokensAcross(f, c2, c3);
    TokensKeptTransitive(c, f, c3);
    TokensKeptTransitive(c, c3, c');
  }

  lemma TokensAcross(f: Chain, c2: Chain, c3: Chain)
    requires c2.token == f.token && c2.producing == f.producing && TokensKept(c2, c3)
    ensures TokensKept(f, c3)
  {
    hide Conserved;
    forall a | IsProducing(Env(f), a) && BalanceOf(f.token, a, INR) >= FLOOR ensures BalanceOf(c3.token, a, INR) >= FLOOR {
      assert IsProducing(Env(c2), a);
    }
  }

  lemma ClaimBookProducers(b: Book, owner: Name, revised: bool, now: int)
    requires owner in b.producers
    ensures ClaimBook(b, owner, revised, now).producers == b.producers[owner := b.producers[owner].(lastClaim := now, unpaid := 0)]
    ensures ClaimBook(b, owner, revised, now).voters == b.voters
  {
  }

  function ClaimShareOf(o: Name, s: nat, owner: Name, blockPay: int, votePay: int): int {
    TransferShare(o, s, BPAY, owner, Inr(blockPay)) + TransferShare(o, s, VPAY, owner, Inr(votePay))
  }

  lemma TwoPayments(t: Ledger, t1: Ledger, t2: Ledger, owner: Name, blockPay: int, votePay: int)
    requires Paid(t, t1, BPAY, owner, blockPay) && Paid(t1, t2, VPAY, owner, votePay)
    ensures forall o, s :: BalanceOf(t2, o, s) == BalanceOf(t, o, s) + ClaimShareOf(o, s, owner, blockPay, votePay)
  {
    forall o, s ensures BalanceOf(t2, o, s) == BalanceOf(t, o, s) + ClaimShareOf(o, s, owner, blockPay, votePay) {
      assert BalanceOf(t1, o, s) == BalanceOf(t, o, s) + TransferShare(o, s, BPAY, owner, Inr(blockPay));
    }
  }

  /** What the two pay accounts hold beyond their buckets. */
  function BlockSurplus(c: Chain): int { BalanceOf(c.token, BPAY, INR) - c.pay.perBlock }

  function VoteSurplus(c: Chain): int { BalanceOf(c.token, VPAY, INR) - c.pay.perVote }

  /** What a fill and a claim move on the two pay accounts. */
  lemma PayAccounts(t: Ledger, f: Ledger, t': Ledger, split: Split, owner: Name, blockPay: int, votePay: int)
    requires forall o, s :: BalanceOf(f, o, s) == BalanceOf(t, o, s) + FillShare(o, s, split)
    requires forall o, s :: BalanceOf(t', o, s) == BalanceOf(f, o, s) + ClaimShareOf(o, s, owner, blockPay, votePay)
    requires blockPay >= 0 && votePay >= 0 && (owner == BPAY ==> blockPay == 0) && (owner == VPAY ==> votePay == 0)
    ensures BalanceOf(t', BPAY, INR) >= BalanceOf(t, BPAY, INR) + split.perBlock - blockPay
    ensures owner != BPAY ==> BalanceOf(t', BPAY, INR) == BalanceOf(t, BPAY, INR) + split.perBlock - blockPay
    ensures BalanceOf(t', VPAY, INR) >= BalanceOf(t, VPAY, INR) + split.perVote - votePay
    ensures owner != VPAY ==> BalanceOf(t', VPAY, INR) == BalanceOf(t, VPAY, INR) + split.perVote - votePay
  {
    assert BalanceOf(f, BPAY, INR) == BalanceOf(t, BPAY, INR) + FillShare(BPAY, INR, split);
    assert BalanceOf(f, VPAY, INR) == BalanceOf(t, VPAY, INR) + FillShare(VPAY, INR, split);
  }

  /** Without the revision vote pay is the plain ratio of votes, which needs the grand total to be one. */
  ghost predicate RatioSound(b: Book, p: Pay, owner: Name) {
    p.revision == 0 && owner in b.producers ==> b.producers[owner].votes <= b.totalVotes
  }

  /** What the vote bucket gives up for a claim, and that it never gives up more than it has. */
  lemma VoteCharge(b: Book, p: Pay, owner: Name, now: int, votePay: real)
    requires RatioSound(b, p, owner) && owner in b.producers && p.perVote >= 0 && votePay == ClaimedVotePay(b, p, owner, now)
    ensures Trunc(p.perVote as real - votePay) >= 0 && Trunc(votePay) >= 0
    ensures 0 <= p.perVote - Trunc(p.perVote as real - votePay) - Trunc(votePay) <= 1
  {
    hide Trunc, VotePay, UpdateTotalShare, ClaimedShare;
    VotePayBound(p, ClaimedShare(b, owner, now), UpdateTotalShare(b, now, 0.0, 0.0).totalShare,
                 b.producers[owner].lastClaim + THREE_DAYS <= now, b.producers[owner].votes, b.totalVotes);
    RoundingKeepsChange(p.perVote, votePay);
  }

  /** The claimant outvotes the grand total by so much that its pay, of at least the minimum, exceeds a bucket of
      `bucket` tokens by a whole one. */
  predicate Outvotes(bucket: int, votes: real, totalVotes: real) {
    && 0.0 < totalVotes && totalVotes <= bucket as real * (votes - totalVotes)
    && MIN_VOTE_PAY * totalVotes <= bucket as real * votes
  }

  lemma QuotientIff(a: real, d: real, q: real)
    requires d > 0.0
    ensures a / d >= q <==> a >= q * d
  {
    assert a == a / d * d;
    if a / d >= q {
      assert a / d * d >= q * d;
    } else {
      assert a / d * d < q * d;
    }
  }

  lemma TruncNegativeIff(x: real)
    ensures Trunc(x) < 0 <==> x <= -1.0
  {
  }

  lemma RatioPay(p: Pay, share: real, total: real, crossed: bool, votes: real, totalVotes: real, ratio: real)
    requires p.revision == 0 && (totalVotes > 0.0 ==> ratio == p.perVote as real * votes / totalVotes)
    ensures VotePay(p, share, total, crossed, votes, totalVotes) == if totalVotes > 0.0 && ratio >= MIN_VOTE_PAY then ratio else 0.0
  {
  }

  /** Without the revision: exactly when the charge takes the bucket below zero. */
  lemma ChargeOverdrawsIff(p: Pay, share: real, total: real, crossed: bool, votes: real, totalVotes: real)
    requires p.revision == 0 && p.perVote >= 0
    ensures Trunc(p.perVote as real - VotePay(p, share, total, crossed, votes, totalVotes)) < 0 <==> Outvotes(p.perVote, votes, totalVotes)
  {
    hide VotePay, Trunc;
    var bucket := p.perVote as real;
    var ratio := if totalVotes > 0.0 then bucket * votes / totalVotes else 0.0;
    RatioPay(p, share, total, crossed, votes, totalVotes, ratio);
    TruncNegativeIff(bucket - VotePay(p, share, total, crossed, votes, totalVotes));
    if totalVotes > 0.0 {
      QuotientIff(bucket * votes, totalVotes, bucket + 1.0);
      QuotientIff(bucket * votes, totalVotes, MIN_VOTE_PAY);
      Excess(bucket, votes, totalVotes);
    }
  }

  lemma Excess(bucket: real, votes: real, totalVotes: real)
    ensures bucket * votes >= (bucket + 1.0) * totalVotes <==> totalVotes <= bucket * (votes - totalVotes)
  {
  }

  /** The exact condition for a claim without the revision: it leaves the bucket in debt if and only if the
      claimant outvotes the grand total, measured by the bucket as it has just been filled. */
  lemma ClaimOverdrawsIff(c: Chain, auth: set<Name>, owner: Name, minted: nat) returns (c': Chain, f: Chain)
    requires BlocksSound(c) && c.pay.revision == 0 && c.pay.perVote >= 0 && ClaimRewards(c, auth, owner, minted).Success?
    ensures ClaimRewards(c, auth, owner, minted) == Success(c') && FillBuckets(c, minted) == Success(f) && owner in c.book.producers
    ensures c'.pay.perVote < 0 <==> Outvotes(f.pay.perVote, c.book.producers[owner].votes, c.book.totalVotes)
  {
    hide ClaimBook, VotePay, UpdateTotalShare, ClaimedShare, BlockPay, FillBuckets, TokensKept, Trunc, BlocksSound, ClaimRewards, BalanceOf,
         ClaimShareOf, FillShare, SupplyOf, Sized, Outvotes;
    var blockPay, votePay;
    c', f, blockPay, votePay := ClaimEffect(c, auth, owner, minted);
    var f', split := FillEffect(c, minted);
    var b := c.book;
    ChargeOverdrawsIff(f.pay, ClaimedShare(b, owner, c.now), UpdateTotalShare(b, c.now, 0.0, 0.0).totalShare,
                       b.producers[owner].lastClaim + THREE_DAYS <= c.now, b.producers[owner].votes, b.totalVotes);
  }

  /** Solvency of one claim: the block surplus stands still, the vote surplus grows by 0 or 1, and
      neither bucket falls below zero. */
  lemma ClaimIsSolvent(c: Chain, auth: set<Name>, owner: Name, minted: nat) returns (c': Chain)
    requires BlocksSound(c) && RatioSound(c.book, c.pay, owner) && c.pay.perVote >= 0
    requires ClaimRewards(c, auth, owner, minted).Success?
    ensures ClaimRewards(c, auth, owner, minted) == Success(c')
    ensures owner != BPAY ==> BlockSurplus(c') == BlockSurplus(c)
    ensures owner != VPAY ==> VoteSurplus(c) <= VoteSurplus(c') <= VoteSurplus(c) + 1
    ensures BlockSurplus(c') >= BlockSurplus(c) && VoteSurplus(c') >= VoteSurplus(c)
    ensures c'.pay.perVote >= 0 && c'.pay.perBlock >= 0 && c'.pay.revision == c.pay.revision
  {
    hide ClaimBook, ClaimedVotePay, BlockPay, FillBuckets, TokensKept, Trunc, BlocksSound, ClaimRewards, BalanceOf,
         ClaimShareOf, FillShare, SupplyOf, Sized;
    var f, blockPay, votePay;
    c', f, blockPay, votePay := ClaimEffect(c, auth, owner, minted);
    var f', split := FillEffect(c, minted);
    VoteCharge(f.book, f.pay, owner, c.now, votePay);
    PayAccounts(c.token, f.token, c'.token, split, owner, blockPay, Trunc(votePay));
  }

  /** A block adds one to the counter and to its producer, and nothing else. */
  lemma BlockEffect(c: Chain, auth: set<Name>, slot: nat, producer: Name) returns (c': Chain)
    requires BlocksSound(c) && OnBlock(c, auth, slot, producer).Success?
    ensures OnBlock(c, auth, slot, producer) == Success(c') && BlocksSound(c')
    ensures c' == c.(pay := c'.pay, book := c'.book)
    ensures c'.pay.perVote == c.pay.perVote && c'.pay.perBlock == c.pay.perBlock
    ensures c'.book == c.book || (producer in c.book.producers &&
      c'.book == WithProducer(c.book, producer, c.book.producers[producer].(unpaid := c.book.producers[producer].unpaid + 1)))
  {
    hide TotalUnpaid, UpdateElected;
    c' := OnBlock(c, auth, slot, producer).value;
    ElectionFrame(CountBlock(c, producer), slot);
    if producer in c.book.producers {
      WriteUnpaid(c.book.producers, producer, c.book.producers[producer].(unpaid := c.book.producers[producer].unpaid + 1));
    }
  }

  lemma ElectionFrame(c: Chain, slot: nat)
    ensures UpdateElected(c, slot) == c.(pay := c.pay.(scheduleSlot := slot, proposed := UpdateElected(c, slot).pay.proposed))
  {
    hide Elected;
  }
}
