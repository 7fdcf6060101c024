/** The global vote-pay share is kept as one number and one rate. It stands for a sum over all
    producers that the contract never computes: this is the proof that it always equals that sum. */
module VotePayIndex {
  import opened Basics
  import opened Sums
  import opened Voting
  import opened ProxyGraph
  import opened VoteLedger

  /** A producer earns vote pay until three days after its last claim. */
  predicate Live(b: Book, p: Name)
    requires p in b.producers && p in b.shares
  {
    b.shares[p].updated < b.producers[p].lastClaim + THREE_DAYS
  }

  /** The share a producer has earned by time `t`, counting since its own last update. */
  function Owed(b: Book, p: Name, t: int): real
    requires p in b.producers && p in b.shares
  {
    if Live(b, p) then b.shares[p].amount + b.producers[p].votes * Secs(t - b.shares[p].updated) else 0.0
  }

  function LiveVotes(b: Book, p: Name): real
    requires p in b.producers && p in b.shares
  {
    if Live(b, p) then b.producers[p].votes else 0.0
  }

  ghost function OwedColumn(b: Book, t: int): map<Name, real> {
    map p | p in b.producers && p in b.shares :: Owed(b, p, t)
  }

  ghost function RateColumn(b: Book): map<Name, real> {
    map p | p in b.producers && p in b.shares :: LiveVotes(b, p)
  }

  ghost function TotalOwed(b: Book, t: int): real { Total(OwedColumn(b, t)) }

  ghost function TotalRate(b: Book): real { Total(RateColumn(b)) }

  function GlobalShare(b: Book, t: int): real { b.totalShare + b.shareRate * Secs(t - b.shareUpdated) }

  predicate ShareSound(b: Book, p: Name)
    requires p in b.producers && p in b.shares
  {
    if Live(b, p) then b.shares[p].amount >= 0.0 else b.shares[p].amount == 0.0
  }

  /** The invariant: the lazily kept pair agrees with the sums, now and at any later time. */
  ghost predicate Indexed(b: Book) {
    && (forall t :: t >= b.shareUpdated ==> GlobalShare(b, t) == TotalOwed(b, t))
    && b.shareRate == TotalRate(b)
    && (forall p :: p in b.producers && p in b.shares ==> ShareSound(b, p))
  }

  /** Nothing recorded lies in the future. */
  ghost predicate Timely(b: Book, now: int) {
    && b.shareUpdated <= now
    && (forall p :: p in b.shares ==> b.shares[p].updated <= now)
    && (forall p :: p in b.producers ==> 0 < b.producers[p].lastClaim <= now)
  }

  lemma Accrual(votes: real, delta: real, from: int, now: int, t: int)
    ensures votes * Secs(now - from) + (votes + delta) * Secs(t - now) == votes * Secs(t - from) + delta * Secs(t - now)
  {
    assert Secs(t - from) == Secs(now - from) + Secs(t - now);
  }

  lemma EarnsNonNegative(votes: real, us: int)
    requires votes >= 0.0 && us >= 0
    ensures votes * Secs(us) >= 0.0
  {
  }

  ghost predicate RowsElsewhere(b: Book, b': Book, p: Name) {
    && b'.producers.Keys == b.producers.Keys && b'.shares.Keys == b.shares.Keys
    && (forall q :: q in b.producers && q != p ==> b'.producers[q] == b.producers[q])
    && (forall q :: q in b.shares && q != p ==> b'.shares[q] == b.shares[q])
  }

  /** Rewriting the rows of one producer moves both sums by what that producer contributes. */
  lemma WriteProducer(b: Book, b': Book, p: Name, t: int)
    requires RowsElsewhere(b, b', p) && p in b.producers && p in b.shares
    ensures TotalOwed(b', t) == TotalOwed(b, t) + Owed(b', p, t) - Owed(b, p, t)
    ensures TotalRate(b') == TotalRate(b) + LiveVotes(b', p) - LiveVotes(b, p)
  {
    hide Total;
    forall q | q in b.producers && q in b.shares && q != p
      ensures Owed(b', q, t) == Owed(b, q, t) && LiveVotes(b', q) == LiveVotes(b, q)
    {
      assert b'.producers[q] == b.producers[q] && b'.shares[q] == b.shares[q];
    }
    hide Owed, LiveVotes;
    assert OwedColumn(b', t) == OwedColumn(b, t)[p := Owed(b', p, t)];
    TotalWrite(OwedColumn(b, t), p, Owed(b', p, t));
    assert RateColumn(b') == RateColumn(b)[p := LiveVotes(b', p)];
    TotalWrite(RateColumn(b), p, LiveVotes(b', p));
  }

  /** What the clamp at voting.cpp:351 gives back to a producer who is earning, but not to the rate. */
  function LiveShort(row: Producer, delta: real, clamp: bool, now: int): real {
    if clamp && now < row.lastClaim + THREE_DAYS && row.votes + delta < 0.0 then -(row.votes + delta) else 0.0
  }

  /** What the books say of a ballot's producer before it is counted. */
  ghost predicate Countable(t: Tally, v: Ballot, now: int) {
    && v.producer in t.book.producers && v.producer in t.book.shares
    && t.book.shares[v.producer].updated <= now
    && (t.book.producers[v.producer].votes >= 0.0 || t.book.shares[v.producer].updated == now)
    && ShareSound(t.book, v.producer)
  }

  /** The share a turn of the loop brings up to date. */
  lemma AdvancedNow(b: Book, p: Name, now: int)
    requires p in b.producers && p in b.shares && b.shares[p].updated <= now
    requires b.producers[p].votes >= 0.0 || b.shares[p].updated == now
    ensures AdvancedShare(b.shares[p], now, b.producers[p].votes)
      == b.shares[p].amount + b.producers[p].votes * Secs(now - b.shares[p].updated)
    ensures AdvancedShare(b.shares[p], now, b.producers[p].votes) >= b.shares[p].amount
  {
    if b.shares[p].updated == now {
      NoTime(b.producers[p].votes, now);
    } else {
      EarnsNonNegative(b.producers[p].votes, now - b.shares[p].updated);
    }
  }

  lemma CountRows(t: Tally, v: Ballot, clamp: bool, now: int)
    requires Countable(t, v, now)
    ensures var t', p := Count(t, v, clamp, now), v.producer;
      RowsElsewhere(t.book, t'.book, p) && ShareSound(t'.book, p) && t'.book.shares[p].updated == now
  {
    AdvancedNow(t.book, v.producer, now);
    hide AdvancedShare, Secs;
  }

  /** A producer who is earning goes on with its new votes. */
  lemma CountEarning(t: Tally, v: Ballot, clamp: bool, now: int, at: int)
    requires Countable(t, v, now) && now <= at && now < t.book.producers[v.producer].lastClaim + THREE_DAYS
    ensures var t', p := Count(t, v, clamp, now), v.producer;
      var r := v.delta + LiveShort(t.book.producers[p], v.delta, clamp, now);
      && p in t'.book.producers && p in t'.book.shares
      && t'.rate == t.rate + v.delta && t'.inactive == t.inactive
      && Owed(t'.book, p, at) == Owed(t.book, p, at) + r * Secs(at - now)
  {
    var p := v.producer;
    AdvancedNow(t.book, p, now);
    Accrual(t.book.producers[p].votes, v.delta + LiveShort(t.book.producers[p], v.delta, clamp, now), t.book.shares[p].updated, now, at);
    hide AdvancedShare, Secs;
  }

  /** One who has not claimed for three days stops earning, and what it had is lost. */
  lemma CountOverdue(t: Tally, v: Ballot, clamp: bool, now: int, at: int)
    requires Countable(t, v, now) && now <= at && t.book.producers[v.producer].lastClaim + THREE_DAYS <= now
    ensures var t', p := Count(t, v, clamp, now), v.producer;
      && p in t'.book.producers && p in t'.book.shares
      && Owed(t'.book, p, at) == 0.0
      && Owed(t.book, p, at) == (t'.inactive - t.inactive) - (t'.rate - t.rate) * Secs(at - now)
  {
    var p := v.producer;
    AdvancedNow(t.book, p, now);
    Accrual(t.book.producers[p].votes, 0.0, t.book.shares[p].updated, now, at);
    NoRate(at - now);
    hide AdvancedShare, Secs;
  }

  lemma NoRate(us: int)
    ensures 0.0 * Secs(us) == 0.0
  {
  }

  /** One turn of the loop moves the producer's books by what the accumulators collect, and the clamp. */
  lemma CountOne(t: Tally, v: Ballot, clamp: bool, now: int, at: int)
    requires Countable(t, v, now) && now <= at
    ensures var t' := Count(t, v, clamp, now);
      var p := v.producer;
      var r := t'.rate - t.rate + LiveShort(t.book.producers[p], v.delta, clamp, now);
      && RowsElsewhere(t.book, t'.book, p)
      && ShareSound(t'.book, p)
      && t'.book.shares[p].updated == now
      && Owed(t'.book, p, at) == Owed(t.book, p, at) + r * Secs(at - now) - (t'.inactive - t.inactive)
  {
    hide Count, Owed, Secs, ShareSound;
    CountRows(t, v, clamp, now);
    if now < t.book.producers[v.producer].lastClaim + THREE_DAYS {
      CountEarning(t, v, clamp, now, at);
    } else {
      CountOverdue(t, v, clamp, now, at);
    }
  }

  /** The votes that earn move likewise, whatever they were. */
  lemma CountLive(t: Tally, v: Ballot, clamp: bool, now: int)
    requires v.producer in t.book.producers && v.producer in t.book.shares && t.book.shares[v.producer].updated <= now
    ensures var t' := Count(t, v, clamp, now);
      var p := v.producer;
      && RowsElsewhere(t.book, t'.book, p)
      && LiveVotes(t'.book, p) == LiveVotes(t.book, p) + t'.rate - t.rate + LiveShort(t.book.producers[p], v.delta, clamp, now)
  {
    hide AdvancedShare;
  }

  lemma {:induction false} CountElsewhere(t: Tally, ballots: seq<Ballot>, clamp: bool, now: int, p: Name)
    requires AllKnown(ballots, t.book) && p in t.book.producers && p in t.book.shares
    requires forall i :: 0 <= i < |ballots| ==> ballots[i].producer != p
    ensures var b' := CountAll(t, ballots, clamp, now).book;
      b'.producers[p] == t.book.producers[p] && p in b'.shares && b'.shares[p] == t.book.shares[p]
  {
    if ballots != [] {
      CountElsewhere(t, ballots[..|ballots| - 1], clamp, now, p);
    }
  }

  /** What the clamp gives back to all producers of the ballots. */
  ghost function ShortAll(b: Book, ballots: seq<Ballot>, clamp: bool, now: int): (s: real)
    requires AllKnown(ballots, b)
    ensures s >= 0.0
  {
    if ballots == [] then 0.0
    else
      var v := ballots[|ballots| - 1];
      ShortAll(b, ballots[..|ballots| - 1], clamp, now) + LiveShort(b.producers[v.producer], v.delta, clamp, now)
  }

  /** The books of a tally stand for the sums of `b`, plus what the accumulators have collected, plus `s`. */
  ghost predicate Balanced(b: Book, t: Tally, s: real, now: int) {
    forall at :: at >= now ==> TotalOwed(t.book, at) == TotalOwed(b, at) + (t.rate + s) * Secs(at - now) - t.inactive
  }

  ghost predicate AllShareSound(b: Book) {
    forall p :: p in b.producers && p in b.shares ==> ShareSound(b, p)
  }

  lemma StepAt(b: Book, t: Tally, v: Ballot, clamp: bool, s: real, now: int, at: int)
    requires Countable(t, v, now) && now <= at
    requires TotalOwed(t.book, at) == TotalOwed(b, at) + (t.rate + s) * Secs(at - now) - t.inactive
    ensures var t' := Count(t, v, clamp, now);
      var s' := s + LiveShort(t.book.producers[v.producer], v.delta, clamp, now);
      TotalOwed(t'.book, at) == TotalOwed(b, at) + (t'.rate + s') * Secs(at - now) - t'.inactive
  {
    hide Count, TotalOwed, TotalRate, Owed, LiveVotes, Secs, LiveShort;
    var t' := Count(t, v, clamp, now);
    var short := LiveShort(t.book.producers[v.producer], v.delta, clamp, now);
    CountOne(t, v, clamp, now, at);
    WriteProducer(t.book, t'.book, v.producer, at);
    Distribute(t.rate + s, t'.rate + s + short, at - now);
  }

  lemma BalancedStep(b: Book, t: Tally, v: Ballot, clamp: bool, s: real, now: int)
    requires Balanced(b, t, s, now) && AllShareSound(t.book) && Countable(t, v, now)
    ensures Balanced(b, Count(t, v, clamp, now), s + LiveShort(t.book.producers[v.producer], v.delta, clamp, now), now)
    ensures AllShareSound(Count(t, v, clamp, now).book)
  {
    hide Count, TotalOwed, TotalRate, Secs, LiveShort;
    var t' := Count(t, v, clamp, now);
    var s' := s + LiveShort(t.book.producers[v.producer], v.delta, clamp, now);
    forall at | at >= now
      ensures TotalOwed(t'.book, at) == TotalOwed(b, at) + (t'.rate + s') * Secs(at - now) - t'.inactive
    {
      StepAt(b, t, v, clamp, s, now, at);
    }
    CountOne(t, v, clamp, now, now);
    forall q | q in t'.book.producers && q in t'.book.shares ensures ShareSound(t'.book, q) {
      assert q != v.producer ==> ShareSound(t.book, q);
    }
  }

  lemma Distribute(r: real, r': real, us: int)
    ensures r * Secs(us) + (r' - r) * Secs(us) == r' * Secs(us)
  {
  }

  lemma BalancedAtStart(b: Book, now: int)
    requires Indexed(b)
    ensures Balanced(b, Tally(b, 0.0, 0.0), 0.0, now) && AllShareSound(b)
  {
    hide TotalOwed, TotalRate, ShareSound, Secs;
  }

  /** The pair is right, and whoever has negative votes has nothing left to accrue: what holds between the
      casts of one action. */
  ghost predicate Paired(b: Book, now: int) {
    b.shares.Keys == b.producers.Keys && Indexed(b) && b.shareRate >= 0.0 && Timely(b, now) && NothingPending(b, now)
  }

  ghost predicate NothingPending(b: Book, now: int) {
    forall p :: p in b.producers && p in b.shares ==> b.producers[p].votes >= 0.0 || b.shares[p].updated == now
  }

  lemma SoundAt(b: Book, p: Name)
    requires AllShareSound(b) && p in b.producers && p in b.shares
    ensures ShareSound(b, p)
  {
  }

  lemma {:induction false} BalancedAll(b: Book, ballots: seq<Ballot>, clamp: bool, now: int)
    requires AllKnown(ballots, b) && OneEach(ballots) && Paired(b, now)
    ensures var t := CountAll(Tally(b, 0.0, 0.0), ballots, clamp, now);
      Balanced(b, t, ShortAll(b, ballots, clamp, now), now) && AllShareSound(t.book)
  {
    hide Balanced, AllShareSound, Indexed, Count, LiveShort;
    if ballots == [] {
      BalancedAtStart(b, now);
    } else {
      var n := |ballots| - 1;
      var p := ballots[n].producer;
      var t := CountAll(Tally(b, 0.0, 0.0), ballots[..n], clamp, now);
      BalancedAll(b, ballots[..n], clamp, now);
      CountElsewhere(Tally(b, 0.0, 0.0), ballots[..n], clamp, now, p);
      SoundAt(t.book, p);
      BalancedStep(b, t, ballots[n], clamp, ShortAll(b, ballots[..n], clamp, now), now);
    }
  }

  /** The sum of the votes that earn, after a loop over producers. */
  lemma {:induction false} RateMoves(b: Book, ballots: seq<Ballot>, clamp: bool, now: int)
    requires AllKnown(ballots, b) && OneEach(ballots) && b.shares.Keys == b.producers.Keys
    requires forall p :: p in b.shares ==> b.shares[p].updated <= now
    ensures var t := CountAll(Tally(b, 0.0, 0.0), ballots, clamp, now);
      TotalRate(t.book) == TotalRate(b) + t.rate + ShortAll(b, ballots, clamp, now)
  {
    hide Count, LiveShort, TotalRate, LiveVotes;
    if ballots != [] {
      var n := |ballots| - 1;
      var v := ballots[n];
      var t := CountAll(Tally(b, 0.0, 0.0), ballots[..n], clamp, now);
      RateMoves(b, ballots[..n], clamp, now);
      CountElsewhere(Tally(b, 0.0, 0.0), ballots[..n], clamp, now, v.producer);
      CountLive(t, v, clamp, now);
      WriteProducer(t.book, Count(t, v, clamp, now).book, v.producer, now);
    }
  }

  /** What is owed at the moment is never negative, so the share is never clamped. */
  lemma OwedNonNegative(b: Book, now: int)
    requires AllShareSound(b) && NothingPending(b, now)
    requires forall p :: p in b.shares ==> b.shares[p].updated <= now
    ensures TotalOwed(b, now) >= 0.0 && (VotesNonNegative(b) ==> TotalRate(b) >= 0.0)
    ensures forall p :: p in b.producers && p in b.shares ==> 0.0 <= Owed(b, p, now) <= TotalOwed(b, now)
  {
    forall p | p in b.producers && p in b.shares
      ensures Owed(b, p, now) >= 0.0 && (VotesNonNegative(b) ==> LiveVotes(b, p) >= 0.0)
    {
      assert ShareSound(b, p);
      if b.shares[p].updated == now {
        NoTime(b.producers[p].votes, now);
      } else {
        EarnsNonNegative(b.producers[p].votes, now - b.shares[p].updated);
      }
    }
    hide Owed, LiveVotes, Total;
    TotalNonNegative(OwedColumn(b, now));
    if VotesNonNegative(b) {
      TotalNonNegative(RateColumn(b));
    }
    forall p | p in b.producers && p in b.shares ensures Owed(b, p, now) <= TotalOwed(b, now) {
      assert p in OwedColumn(b, now) && OwedColumn(b, now)[p] == Owed(b, p, now);
    }
  }

  /** With the sums non-negative, the global update accrues exactly and clamps nothing. */
  lemma UpdateTotalExact(b: Book, now: int, extra: real, rateDelta: real)
    requires b.shareUpdated <= now
    requires GlobalShare(b, now) + extra >= 0.0 && b.shareRate + rateDelta >= 0.0
    ensures var b' := UpdateTotalShare(b, now, extra, rateDelta);
      && b' == b.(totalShare := GlobalShare(b, now) + extra, shareRate := b.shareRate + rateDelta, shareUpdated := now)
      && forall t :: GlobalShare(b', t) == GlobalShare(b, t) + extra + rateDelta * Secs(t - now)
  {
    var b' := UpdateTotalShare(b, now, extra, rateDelta);
    if now == b.shareUpdated {
      NoTime(b.shareRate, now);
    }
    assert b'.totalShare == GlobalShare(b, now) + extra;
    hide UpdateTotalShare, Secs;
    forall t ensures GlobalShare(b', t) == GlobalShare(b, t) + extra + rateDelta * Secs(t - now) {
      Accrual(b.shareRate, rateDelta, b.shareUpdated, now, t);
    }
  }

  lemma {:induction false} CountedAt(t: Tally, ballots: seq<Ballot>, clamp: bool, now: int)
    requires AllKnown(ballots, t.book) && (forall p :: p in t.book.shares ==> t.book.shares[p].updated <= now)
    ensures var b' := CountAll(t, ballots, clamp, now).book;
      && (forall p :: p in b'.shares ==> b'.shares[p].updated <= now)
      && b'.totalShare == t.book.totalShare && b'.shareRate == t.book.shareRate && b'.shareUpdated == t.book.shareUpdated
  {
    hide AdvancedShare;
    if ballots != [] {
      CountedAt(t, ballots[..|ballots| - 1], clamp, now);
    }
  }

  lemma CountPending(t: Tally, v: Ballot, clamp: bool, now: int)
    requires v.producer in t.book.producers && NothingPending(t.book, now) && t.book.shares.Keys == t.book.producers.Keys
    ensures NothingPending(Count(t, v, clamp, now).book, now)
    ensures Count(t, v, clamp, now).book.shares.Keys == t.book.shares.Keys
  {
    hide AdvancedShare;
  }

  /** Whoever the loop has touched is up to date. */
  lemma {:induction false} CountedPending(t: Tally, ballots: seq<Ballot>, clamp: bool, now: int)
    requires AllKnown(ballots, t.book) && NothingPending(t.book, now) && t.book.shares.Keys == t.book.producers.Keys
    ensures NothingPending(CountAll(t, ballots, clamp, now).book, now)
    ensures CountAll(t, ballots, clamp, now).book.shares.Keys == t.book.shares.Keys
  {
    hide Count, NothingPending;
    if ballots != [] {
      CountedPending(t, ballots[..|ballots| - 1], clamp, now);
      CountPending(CountAll(t, ballots[..|ballots| - 1], clamp, now), ballots[|ballots| - 1], clamp, now);
    }
  }

  lemma {:induction false} CountedVotes(t: Tally, ballots: seq<Ballot>, clamp: bool, now: int)
    requires AllKnown(ballots, t.book) && VotesNonNegative(t.book) && ClampIdle(t.book, ballots)
    ensures VotesNonNegative(CountAll(t, ballots, clamp, now).book)
  {
    forall p | p in t.book.producers
      ensures CountAll(t, ballots, clamp, now).book.producers[p].votes >= 0.0
    {
      CountAllVotes(t, ballots, clamp, now, p);
      if i: nat :| i < |ballots| && ballots[i].producer == p {
        DeltaForListed(ballots, i);
      } else {
        DeltaForAbsent(ballots, p);
      }
    }
  }

  /** Neither clamp of the update that ends the loop can fire: see `UpdateTotalExact`. */
  predicate NoClamp(b: Book, t: Tally, now: int) {
    GlobalShare(b, now) - t.inactive >= 0.0 && b.shareRate + t.rate >= 0.0
  }

  /** The sum of the votes that earn after ballots are cast, as it can be told before. */
  ghost function RateDue(b: Book, ballots: seq<Ballot>, clamp: bool, now: int): real
    requires AllKnown(ballots, b)
  {
    b.shareRate + CountAll(Tally(b, 0.0, 0.0), ballots, clamp, now).rate + ShortAll(b, ballots, clamp, now)
  }

  /** The rate follows the votes that earn: their sum stays non-negative, and where the clamp has given votes
      back nobody is left who earns. */
  ghost predicate RateFits(b: Book, ballots: seq<Ballot>, clamp: bool, now: int)
    requires AllKnown(ballots, b)
  {
    RateDue(b, ballots, clamp, now) >= 0.0 && (ShortAll(b, ballots, clamp, now) == 0.0 || RateDue(b, ballots, clamp, now) == 0.0)
  }

  /** The global update follows the books of the tally, but for the rate. */
  lemma FinishShare(b: Book, t: Tally, s: real, now: int)
    requires Indexed(b) && b.shareUpdated <= now && Balanced(b, t, s, now) && AllShareSound(t.book) && NothingPending(t.book, now)
    requires forall p :: p in t.book.shares ==> t.book.shares[p].updated <= now
    requires t.book.totalShare == b.totalShare && t.book.shareRate == b.shareRate && t.book.shareUpdated == b.shareUpdated
    ensures var b' := UpdateTotalShare(t.book, now, -t.inactive, t.rate);
      && b'.totalShare == GlobalShare(b, now) - t.inactive == TotalOwed(t.book, now) && b'.totalShare >= 0.0
      && b'.shareUpdated == now
      && b'.shareRate == (if t.rate < 0.0 && b.shareRate < -t.rate then 0.0 else b.shareRate + t.rate)
  {
    hide TotalRate, TotalOwed, Secs, ShareSound;
    OwedNonNegative(t.book, now);
    assert TotalOwed(t.book, now) == TotalOwed(b, now) - t.inactive by { NoTime(t.rate + s, now); }
    assert GlobalShare(b, now) == TotalOwed(b, now);
    if now == b.shareUpdated {
      NoTime(b.shareRate, now);
    }
  }

  /** From then on the two sides grow at their rates. */
  lemma FinishPair(b: Book, t: Tally, s: real, now: int)
    requires Indexed(b) && b.shareUpdated <= now && Balanced(b, t, s, now) && AllShareSound(t.book) && NothingPending(t.book, now)
    requires forall p :: p in t.book.shares ==> t.book.shares[p].updated <= now
    requires t.book.totalShare == b.totalShare && t.book.shareRate == b.shareRate && t.book.shareUpdated == b.shareUpdated
    requires TotalRate(t.book) == TotalRate(b) + t.rate + s
    ensures var b' := UpdateTotalShare(t.book, now, -t.inactive, t.rate); Indexed(b') <==> b'.shareRate == TotalRate(t.book)
  {
    hide TotalRate, TotalOwed, UpdateTotalShare, Secs, ShareSound;
    var b' := UpdateTotalShare(t.book, now, -t.inactive, t.rate);
    FinishShare(b, t, s, now);
    SameTablesSameSums(t.book, b') by { UpdateKeepsTables(t.book, now, -t.inactive, t.rate); }
    assert b'.producers == t.book.producers && b'.shares == t.book.shares by { UpdateKeepsTables(t.book, now, -t.inactive, t.rate); }
    if b'.shareRate == TotalRate(t.book) {
      forall at | at >= now ensures GlobalShare(b', at) == TotalOwed(b', at) {
        assert GlobalShare(b, at) == TotalOwed(b, at);
        Accrual(b.shareRate, t.rate + s, b.shareUpdated, now, at);
      }
    }
  }

  lemma UpdateKeepsTables(b: Book, now: int, extra: real, rateDelta: real)
    ensures var b' := UpdateTotalShare(b, now, extra, rateDelta); b'.producers == b.producers && b'.shares == b.shares
  {
  }

  /** The exact condition under which the pair stays right over a loop of either kind: the share always does, so
      it is the rate that decides. */
  lemma CastIndexedIff(b: Book, ballots: seq<Ballot>, clamp: bool, now: int)
    requires AllKnown(ballots, b) && OneEach(ballots) && Paired(b, now)
    ensures var b' := CastAll(b, ballots, clamp, now);
      && (Indexed(b') <==> RateFits(b, ballots, clamp, now))
      && (Indexed(b') ==> Paired(b', now))
      && TotalRate(b') == RateDue(b, ballots, clamp, now)
  {
    hide TotalOwed, TotalRate, GlobalShare, Secs, ShareSound, Live, Count, OneEach, UpdateTotalShare, ShortAll;
    var start := Tally(b, 0.0, 0.0);
    var t := CountAll(start, ballots, clamp, now);
    var s := ShortAll(b, ballots, clamp, now);
    BalancedAll(b, ballots, clamp, now);
    RateMoves(b, ballots, clamp, now);
    CountedAt(start, ballots, clamp, now);
    CountedPending(start, ballots, clamp, now);
    CountAllFrame(start, ballots, clamp, now);
    FinishShare(b, t, s, now);
    FinishPair(b, t, s, now);
    UpdateKeepsTables(t.book, now, -t.inactive, t.rate);
    SameTablesSameSums(t.book, CastAll(b, ballots, clamp, now));
    FinishTimely(b, t.book, CastAll(b, ballots, clamp, now), now);
  }

  lemma FinishTimely(b: Book, b1: Book, b': Book, now: int)
    requires Timely(b, now) && OnlyWeights(b, b1) && b'.producers == b1.producers && b'.shares == b1.shares && b'.shareUpdated == now
    requires forall p :: p in b1.shares ==> b1.shares[p].updated <= now
    ensures Timely(b', now)
  {
    forall p | p in b'.producers ensures 0 < b'.producers[p].lastClaim <= now {
      assert SameButVotes(b.producers[p], b1.producers[p]);
    }
  }

  lemma {:induction false} NoDebtNoShort(b: Book, ballots: seq<Ballot>, clamp: bool, now: int)
    requires AllKnown(ballots, b) && (clamp ==> NoDebt(b, ballots))
    ensures ShortAll(b, ballots, clamp, now) == 0.0
  {
    if ballots != [] {
      NoDebtNoShort(b, ballots[..|ballots| - 1], clamp, now);
    }
  }

  /** Casting ballots that drive nobody below zero keeps the index, for any number of producers at once, and
      clamps nothing. */
  lemma CastAllIndexed(b: Book, ballots: seq<Ballot>, clamp: bool, now: int)
    requires AllKnown(ballots, b) && b.shares.Keys == b.producers.Keys
    requires Indexed(b) && Timely(b, now) && VotesNonNegative(b) && ClampIdle(b, ballots)
    ensures Indexed(CastAll(b, ballots, clamp, now)) && Timely(CastAll(b, ballots, clamp, now), now)
    ensures VotesNonNegative(CastAll(b, ballots, clamp, now))
    ensures NoClamp(b, CountAll(Tally(b, 0.0, 0.0), ballots, clamp, now), now)
  {
    hide TotalOwed, TotalRate, GlobalShare, Secs, ShareSound, Live, Count, OneEach, UpdateTotalShare, NoDebt, ShortAll;
    var start := Tally(b, 0.0, 0.0);
    var t := CountAll(start, ballots, clamp, now);
    NoDebtNoShort(b, ballots, clamp, now);
    OwnRate(b, now);
    CastIndexedIff(b, ballots, clamp, now);
    CountedVotes(start, ballots, clamp, now);
    BalancedAll(b, ballots, clamp, now);
    RateMoves(b, ballots, clamp, now);
    CountedAt(start, ballots, clamp, now);
    CountedPending(start, ballots, clamp, now);
    OwnRate(t.book, now);
    FinishShare(b, t, 0.0, now);
    UpdateKeepsTables(t.book, now, -t.inactive, t.rate);
  }

  lemma OwnRate(b: Book, now: int)
    requires (AllShareSound(b) || Indexed(b)) && VotesNonNegative(b) && forall p :: p in b.shares ==> b.shares[p].updated <= now
    ensures TotalRate(b) >= 0.0
  {
    hide TotalOwed, TotalRate, ShareSound;
    OwedNonNegative(b, now);
  }

  lemma NoTime(rate: real, now: int)
    ensures rate * Secs(now - now) == 0.0
  {
  }

  /** The sums depend on the producer tables alone. */
  lemma SameTablesSameSums(b: Book, b': Book)
    requires b'.producers == b.producers && b'.shares == b.shares
    ensures forall t :: TotalOwed(b', t) == TotalOwed(b, t)
    ensures TotalRate(b') == TotalRate(b)
    ensures AllShareSound(b) ==> AllShareSound(b')
  {
    hide Total;
    forall t, p | p in b.producers && p in b.shares
      ensures Owed(b', p, t) == Owed(b, p, t) && LiveVotes(b', p) == LiveVotes(b, p)
    {
    }
    hide Owed, LiveVotes;
    forall t ensures TotalOwed(b', t) == TotalOwed(b, t) {
      assert OwedColumn(b', t) == OwedColumn(b, t);
    }
    assert RateColumn(b') == RateColumn(b);
    forall p | AllShareSound(b) && p in b'.producers && p in b'.shares ensures ShareSound(b', p) {
      assert ShareSound(b, p);
    }
  }
}
