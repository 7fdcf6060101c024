/** Vote pay and the steps that move no votes. It asks nothing of the voters' ledger. */
module VotePayRows {
  import opened Basics
  import opened Sums
  import opened Voting
  import opened VoteLedger
  import opened VotePayIndex
  import opened BookSteps
  import opened Rewards

  /** All that vote pay relies on: the global pair stands for the sum over producers, no producer has
      negative votes, and the grand total is the sum of all votes. */
  ghost predicate Accrues(b: Book, now: int) {
    b.shares.Keys == b.producers.Keys && Indexed(b) && Timely(b, now) && VotesNonNegative(b) && TotalGap(b) == 0.0
  }

  lemma VotesWithin(b: Book, p: Name)
    requires VotesNonNegative(b) && TotalGap(b) == 0.0 && p in b.producers
    ensures 0.0 <= b.producers[p].votes <= b.totalVotes
  {
    TotalNonNegative(TotalsColumn(b.producers));
    assert TotalsColumn(b.producers)[p] == b.producers[p].votes;
  }

  // ---------- rows that carry no votes ----------

  lemma SameProducers(b: Book, b': Book, now: int)
    requires b' == b.(voters := b'.voters, activatedStake := b'.activatedStake, activatedAt := b'.activatedAt)
    ensures Indexed(b) ==> Indexed(b')
    ensures Timely(b, now) ==> Timely(b', now)
  {
    hide TotalRate, TotalOwed, ShareSound;
    SameTablesSameSums(b, b');
    if Indexed(b) {
      forall t | t >= b'.shareUpdated ensures GlobalShare(b', t) == TotalOwed(b', t) {
        assert GlobalShare(b, t) == TotalOwed(b, t);
      }
    }
  }

  /** Whatever is written into voter rows, vote pay goes on. */
  lemma VoterRowsAccrue(b: Book, b': Book, now: int)
    requires b' == b.(voters := b'.voters, activatedStake := b'.activatedStake, activatedAt := b'.activatedAt)
    ensures Accrues(b', now) == Accrues(b, now)
  {
    hide Indexed, Timely, Total;
    SameProducers(b, b', now);
    SameProducers(b', b, now);
  }

  /** The index reads only votes, claim times and shares. */
  lemma SameEarnings(b: Book, b': Book, now: int)
    requires b'.producers.Keys == b.producers.Keys && b'.shares == b.shares
    requires b'.totalShare == b.totalShare && b'.shareRate == b.shareRate && b'.shareUpdated == b.shareUpdated
    requires forall p :: p in b.producers ==>
      b'.producers[p].votes == b.producers[p].votes && b'.producers[p].lastClaim == b.producers[p].lastClaim
    ensures Indexed(b) ==> Indexed(b')
    ensures Timely(b, now) ==> Timely(b', now)
  {
    hide Total;
    forall p, t | p in b.producers && p in b.shares
      ensures Owed(b', p, t) == Owed(b, p, t) && LiveVotes(b', p) == LiveVotes(b, p) && ShareSound(b', p) == ShareSound(b, p)
    {
    }
    hide Owed, LiveVotes, ShareSound;
    assert RateColumn(b') == RateColumn(b);
    if Indexed(b) {
      forall t | t >= b'.shareUpdated ensures GlobalShare(b', t) == TotalOwed(b', t) {
        assert OwedColumn(b', t) == OwedColumn(b, t);
        assert GlobalShare(b, t) == TotalOwed(b, t);
      }
    }
  }

  lemma ProducerRowAccrues(b: Book, p: Name, row: Producer, now: int)
    requires p in b.producers && row.votes == b.producers[p].votes && row.lastClaim == b.producers[p].lastClaim
    requires Accrues(b, now)
    ensures Accrues(WithProducer(b, p, row), now)
  {
    hide Indexed, Timely, Total;
    SameEarnings(b, WithProducer(b, p, row), now);
    WriteVotes(b.producers, p, row);
  }

  // ---------- registration ----------

  /** `b'` is `b` with a producer that has neither votes nor share. */
  ghost predicate Joined(b: Book, b': Book, p: Name, now: int) {
    && p !in b.producers && p !in b.shares
    && b'.shares == b.shares[p := Share(0.0, now)] && b'.producers.Keys == b.producers.Keys + {p}
    && (forall q :: q in b.producers ==> b'.producers[q] == b.producers[q])
    && b'.producers[p].votes == 0.0 && b'.producers[p].lastClaim == now
    && b'.totalShare == b.totalShare && b'.shareRate == b.shareRate && b'.shareUpdated == b.shareUpdated
  }

  lemma JoinedRows(b: Book, b': Book, p: Name, now: int, t: int)
    requires Joined(b, b', p, now)
    ensures forall q :: q in b.producers && q in b.shares ==>
      Owed(b', q, t) == Owed(b, q, t) && LiveVotes(b', q) == LiveVotes(b, q) && ShareSound(b', q) == ShareSound(b, q)
    ensures Owed(b', p, t) == 0.0 && LiveVotes(b', p) == 0.0 && ShareSound(b', p)
  {
    NoVotesNoPay(now, t);
    forall q | q in b.producers && q in b.shares
      ensures Owed(b', q, t) == Owed(b, q, t) && LiveVotes(b', q) == LiveVotes(b, q) && ShareSound(b', q) == ShareSound(b, q)
    {
      assert b'.shares[q] == b.shares[q];
    }
  }

  lemma JoinedSums(b: Book, b': Book, p: Name, now: int, t: int)
    requires Joined(b, b', p, now)
    ensures TotalOwed(b', t) == TotalOwed(b, t) && TotalRate(b') == TotalRate(b)
  {
    hide Total, Owed, LiveVotes, ShareSound;
    JoinedRows(b, b', p, now, t);
    assert RateColumn(b') == RateColumn(b)[p := 0.0];
    TotalWrite(RateColumn(b), p, 0.0);
    assert OwedColumn(b', t) == OwedColumn(b, t)[p := 0.0];
    TotalWrite(OwedColumn(b, t), p, 0.0);
  }

  /** Such a producer is owed nothing, so the index goes on as it was. */
  lemma NewProducerIndexed(b: Book, b': Book, p: Name, now: int)
    requires Joined(b, b', p, now) && 0 < now && Indexed(b) && Timely(b, now)
    ensures Indexed(b') && Timely(b', now)
  {
    hide TotalOwed, TotalRate, ShareSound;
    JoinedRows(b, b', p, now, now);
    JoinedSums(b, b', p, now, now);
    forall t | t >= b'.shareUpdated ensures GlobalShare(b', t) == TotalOwed(b', t) {
      JoinedSums(b, b', p, now, t);
      assert GlobalShare(b, t) == TotalOwed(b, t);
    }
  }

  lemma NoVotesNoPay(from: int, t: int)
    ensures 0.0 * Secs(t - from) == 0.0
  {
  }

  lemma RegisterAccrues(b: Book, p: Name, now: int)
    requires Accrues(b, now) && 0 < now
    ensures Accrues(Register(b, p, now), now)
  {
    hide Indexed, Total;
    if p in b.producers {
      ProducerRowAccrues(b, p, b.producers[p].(active := true), now);
    } else {
      NewProducerIndexed(b, Register(b, p, now), p, now);
      var row := Producer(0.0, true, false, 0, now);
      assert TotalsColumn(b.producers[p := row]) == TotalsColumn(b.producers)[p := 0.0];
      TotalWrite(TotalsColumn(b.producers), p, 0.0);
    }
  }

  // ---------- claims ----------

  /** The share a claim cashes in is what the producer is owed at that moment. */
  lemma ClaimedIsOwed(b: Book, owner: Name, now: int)
    requires owner in b.producers && owner in b.shares && ShareSound(b, owner)
    requires b.shares[owner].updated <= now && b.producers[owner].votes >= 0.0
    ensures ClaimedShare(b, owner, now) == Owed(b, owner, now)
    ensures Frozen(b, owner) == !Live(b, owner)
  {
    if now == b.shares[owner].updated {
      NoTime(b.producers[owner].votes, now);
    }
  }

  /** What a claimed producer is owed from then on. */
  lemma OwedAfterClaim(b: Book, b': Book, owner: Name, now: int, t: int)
    requires owner in b.producers && owner in b.shares && owner in b'.producers && owner in b'.shares
    requires b.shares[owner].updated <= now && b'.shares[owner] == Share(0.0, now)
    requires b'.producers[owner].votes == b.producers[owner].votes && b'.producers[owner].lastClaim == now
    ensures var restart := if Live(b, owner) then 0.0 else b.producers[owner].votes;
      && Owed(b', owner, t) == Owed(b, owner, t) - Owed(b, owner, now) + restart * Secs(t - now)
      && LiveVotes(b', owner) == LiveVotes(b, owner) + restart
      && ShareSound(b', owner)
  {
    hide Secs;
    Accrual(b.producers[owner].votes, 0.0, b.shares[owner].updated, now, t);
    NoVotesNoPay(now, t);
  }

  /** The rows of a claimed producer, and what all producers are owed from then on. */
  lemma ClaimedRows(b: Book, b': Book, owner: Name, now: int, t: int)
    requires owner in b.producers && owner in b.shares && ShareSound(b, owner)
    requires b.shares[owner].updated <= now <= t && b.producers[owner].votes >= 0.0
    requires RowsElsewhere(b, b', owner) && b'.shares[owner] == Share(0.0, now)
    requires b'.producers[owner].votes == b.producers[owner].votes && b'.producers[owner].lastClaim == now
    ensures var restart := if Frozen(b, owner) then b.producers[owner].votes else 0.0;
      && TotalOwed(b', t) == TotalOwed(b, t) - ClaimedShare(b, owner, now) + restart * Secs(t - now)
      && TotalRate(b') == TotalRate(b) + restart
      && ShareSound(b', owner)
  {
    hide TotalOwed, TotalRate, ClaimedShare, Secs, Owed, LiveVotes, Live, Frozen;
    ClaimedIsOwed(b, owner, now);
    WriteProducer(b, b', owner, t);
    OwedAfterClaim(b, b', owner, now, t);
  }

  /** The global share after a claim, with both clamps idle. */
  lemma ClaimedTotals(b: Book, owner: Name, revised: bool, now: int)
    requires Accrues(b, now) && owner in b.producers
    ensures var b' := ClaimBook(b, owner, revised, now);
      var restart := if Frozen(b, owner) then b.producers[owner].votes else 0.0;
      && b' == b.(shares := b'.shares, producers := b'.producers,
                  totalShare := GlobalShare(b, now) - ClaimedShare(b, owner, now),
                  shareRate := b.shareRate + restart, shareUpdated := now)
      && RowsElsewhere(b, b', owner) && b'.shares[owner] == Share(0.0, now)
      && b'.producers[owner] == b.producers[owner].(lastClaim := now, unpaid := 0)
    ensures ClaimedShare(b, owner, now) <= GlobalShare(b, now) && 0.0 <= b.shareRate
    ensures 0.0 <= ClaimedShare(b, owner, now)
  {
    hide TotalOwed, TotalRate, TotalGap, ShareSound, ClaimedShare, Owed, Frozen, UpdateTotalShare;
    OwedNonNegative(b, now);
    assert GlobalShare(b, now) == TotalOwed(b, now);
    ClaimedIsOwed(b, owner, now);
    var share := ClaimedShare(b, owner, now);
    var restart := if Frozen(b, owner) then b.producers[owner].votes else 0.0;
    var b1 := b.(shares := b.shares[owner := Share(0.0, now)]);
    UpdateTotalExact(b1, now, 0.0, 0.0);
    var b2 := if revised then UpdateTotalShare(b1, now, 0.0, 0.0) else b1;
    assert GlobalShare(b2, now) == GlobalShare(b, now) by { NoVotesNoPay(now, now); }
    UpdateTotalExact(b2, now, -share, restart);
  }

  lemma RestartedGlobal(b: Book, b': Book, now: int, taken: real, restart: real, t: int)
    requires b'.totalShare == GlobalShare(b, now) - taken && b'.shareRate == b.shareRate + restart && b'.shareUpdated == now
    ensures GlobalShare(b', t) == GlobalShare(b, t) - taken + restart * Secs(t - now)
  {
    hide Secs;
    Accrual(b.shareRate, restart, b.shareUpdated, now, t);
  }

  /** Both sides of the index after a claim, at any later time. */
  lemma ClaimBalances(b: Book, owner: Name, revised: bool, now: int, t: int)
    requires Accrues(b, now) && owner in b.producers && now <= t
    ensures var b' := ClaimBook(b, owner, revised, now);
      GlobalShare(b', t) == TotalOwed(b', t) && b'.shareRate == TotalRate(b') && ShareSound(b', owner)
  {
    hide TotalOwed, TotalRate, TotalGap, ShareSound, ClaimedShare, Frozen, ClaimBook, Secs,
         GlobalShare, RowsElsewhere;
    var b' := ClaimBook(b, owner, revised, now);
    ClaimedTotals(b, owner, revised, now);
    ClaimedRows(b, b', owner, now, t);
    RestartedGlobal(b, b', now, ClaimedShare(b, owner, now), if Frozen(b, owner) then b.producers[owner].votes else 0.0, t);
    assert GlobalShare(b, t) == TotalOwed(b, t);
  }

  lemma ClaimIndexed(b: Book, owner: Name, revised: bool, now: int)
    requires Accrues(b, now) && owner in b.producers && 0 < now
    ensures Indexed(ClaimBook(b, owner, revised, now)) && Timely(ClaimBook(b, owner, revised, now), now)
  {
    hide TotalOwed, TotalRate, TotalGap, ShareSound, ClaimedShare, Frozen, ClaimBook,
         GlobalShare;
    var b' := ClaimBook(b, owner, revised, now);
    ClaimedTotals(b, owner, revised, now);
    forall t | t >= b'.shareUpdated ensures GlobalShare(b', t) == TotalOwed(b', t) {
      ClaimBalances(b, owner, revised, now, t);
    }
    ClaimBalances(b, owner, revised, now, now);
    forall p | p in b'.producers && p in b'.shares ensures ShareSound(b', p) {
      if p != owner {
        assert ShareSound(b, p);
        SameRowSound(b, b', p);
      }
    }
  }

  lemma SameRowSound(b: Book, b': Book, p: Name)
    requires p in b.producers && p in b.shares && p in b'.producers && p in b'.shares
    requires b'.producers[p] == b.producers[p] && b'.shares[p] == b.shares[p]
    ensures ShareSound(b', p) == ShareSound(b, p)
  {
  }

  /** A claim keeps vote pay: the share paid out leaves both sides of the index, and a frozen producer
      starts earning again. */
  lemma ClaimAccrues(b: Book, owner: Name, revised: bool, now: int)
    requires Accrues(b, now) && owner in b.producers && 0 < now
    ensures Accrues(ClaimBook(b, owner, revised, now), now)
  {
    hide Indexed, Timely, Total, ClaimedShare, Frozen;
    var b' := ClaimBook(b, owner, revised, now);
    ClaimIndexed(b, owner, revised, now);
    ClaimedTotals(b, owner, revised, now);
    hide ClaimBook;
    WriteVotes(b.producers, owner, b'.producers[owner]);
    assert b'.producers == b.producers[owner := b'.producers[owner]];
  }
}
