/** The running vote totals against the sums they stand for. A "gap" is a running total minus its
    sum over the voters table; the ledger is exact when every gap is zero. */
module VoteLedger {
  import opened Basics
  import opened Names
  import opened Sums
  import opened Voting
  import opened ProxyGraph

  predicate VoteFrom(row: Voter, p: Name) {
    row.proxy == NO_NAME && p in row.producers
  }

  predicate LoanTo(row: Voter, x: Name) {
    row.proxy != NO_NAME && row.proxy == x
  }

  function When(condition: bool, x: real): real {
    if condition then x else 0.0
  }

  function VoteOf(row: Voter, p: Name): real { When(VoteFrom(row, p), row.lastWeight) }

  function LentTo(row: Voter, x: Name): real { When(LoanTo(row, x), row.lastWeight) }

  ghost function VoteColumn(voters: map<Name, Voter>, p: Name): map<Name, real> {
    map v | v in voters :: VoteOf(voters[v], p)
  }

  ghost function LentColumn(voters: map<Name, Voter>, x: Name): map<Name, real> {
    map v | v in voters :: LentTo(voters[v], x)
  }

  ghost function TotalsColumn(producers: map<Name, Producer>): map<Name, real> {
    map p | p in producers :: producers[p].votes
  }

  ghost function VoteGap(b: Book, p: Name): real
    requires p in b.producers
  {
    b.producers[p].votes - Total(VoteColumn(b.voters, p))
  }

  ghost function ProxyGap(b: Book, x: Name): real
    requires x in b.voters
  {
    b.voters[x].proxied - Total(LentColumn(b.voters, x))
  }

  ghost function TotalGap(b: Book): real {
    b.totalVotes - Total(TotalsColumn(b.producers))
  }

  ghost predicate SameVoteGaps(b: Book, b': Book)
    requires b'.producers.Keys == b.producers.Keys
  {
    forall p :: p in b.producers ==> VoteGap(b', p) == VoteGap(b, p)
  }

  ghost predicate SameProxyGaps(b: Book, b': Book)
    requires b'.voters.Keys == b.voters.Keys
  {
    forall x :: x in b.voters ==> ProxyGap(b', x) == ProxyGap(b, x)
  }

  /** `total_votes(p)` is the weight of the proxy-less voters listing `p`, `proxied_vote_weight(x)`
      the weight lent to `x`, and the grand total is the sum of all `total_votes`. */
  ghost predicate Exact(b: Book) {
    && (forall p :: p in b.producers ==> VoteGap(b, p) == 0.0)
    && (forall x :: x in b.voters ==> ProxyGap(b, x) == 0.0)
    && TotalGap(b) == 0.0
  }

  ghost predicate VotesNonNegative(b: Book) {
    forall p :: p in b.producers ==> b.producers[p].votes >= 0.0
  }

  ghost predicate DistinctBallots(b: Book) {
    forall v :: v in b.voters ==> Distinct(b.voters[v].producers)
  }

  function OldVote(voters: map<Name, Voter>, v: Name, p: Name): real {
    if v in voters then VoteOf(voters[v], p) else 0.0
  }

  function OldLoan(voters: map<Name, Voter>, v: Name, x: Name): real {
    if v in voters then LentTo(voters[v], x) else 0.0
  }

  /** Writing one voter row moves each sum by what that voter's contribution changed. */
  lemma WriteVoter(voters: map<Name, Voter>, v: Name, row: Voter, p: Name)
    ensures Total(VoteColumn(voters[v := row], p))
      == Total(VoteColumn(voters, p)) + VoteOf(row, p) - OldVote(voters, v, p)
    ensures Total(LentColumn(voters[v := row], p))
      == Total(LentColumn(voters, p)) + LentTo(row, p) - OldLoan(voters, v, p)
  {
    hide Total;
    assert VoteColumn(voters[v := row], p) == VoteColumn(voters, p)[v := VoteOf(row, p)];
    TotalWrite(VoteColumn(voters, p), v, VoteOf(row, p));
    assert LentColumn(voters[v := row], p) == LentColumn(voters, p)[v := LentTo(row, p)];
    TotalWrite(LentColumn(voters, p), v, LentTo(row, p));
  }

  lemma WriteVotes(producers: map<Name, Producer>, p: Name, row: Producer)
    requires p in producers
    ensures Total(TotalsColumn(producers[p := row])) == Total(TotalsColumn(producers)) + row.votes - producers[p].votes
  {
    hide Total;
    assert TotalsColumn(producers[p := row]) == TotalsColumn(producers)[p := row.votes];
    TotalWrite(TotalsColumn(producers), p, row.votes);
  }

  // ---------- the loops over producers ----------

  /** What a list of ballots adds to producer `p`. */
  function DeltaFor(ballots: seq<Ballot>, p: Name): real {
    if ballots == [] then 0.0
    else
      var v := ballots[|ballots| - 1];
      DeltaFor(ballots[..|ballots| - 1], p) + When(v.producer == p, v.delta)
  }

  ghost predicate OneEach(ballots: seq<Ballot>) {
    forall i, j :: 0 <= i < j < |ballots| ==> ballots[i].producer != ballots[j].producer
  }

  lemma {:induction false} DeltaForAbsent(ballots: seq<Ballot>, p: Name)
    requires forall i :: 0 <= i < |ballots| ==> ballots[i].producer != p
    ensures DeltaFor(ballots, p) == 0.0
  {
    if ballots != [] {
      DeltaForAbsent(ballots[..|ballots| - 1], p);
    }
  }

  lemma {:induction false} DeltaForListed(ballots: seq<Ballot>, i: nat)
    requires OneEach(ballots) && i < |ballots|
    ensures DeltaFor(ballots, ballots[i].producer) == ballots[i].delta
  {
    var n := |ballots| - 1;
    if i == n {
      DeltaForAbsent(ballots[..n], ballots[i].producer);
    } else {
      DeltaForListed(ballots[..n], i);
    }
  }

  /** No producer is driven below zero votes. */
  ghost predicate NoDebt(b: Book, ballots: seq<Ballot>)
    requires AllKnown(ballots, b)
  {
    forall i :: 0 <= i < |ballots| ==> b.producers[ballots[i].producer].votes + ballots[i].delta >= 0.0
  }

  /** The clamp at voting.cpp:351 stays idle when each producer is listed once and ends up with
      non-negative votes. */
  ghost predicate ClampIdle(b: Book, ballots: seq<Ballot>)
    requires AllKnown(ballots, b)
  {
    OneEach(ballots) && NoDebt(b, ballots)
  }

  lemma {:induction false} CountAllVotes(t: Tally, ballots: seq<Ballot>, clamp: bool, now: int, p: Name)
    requires AllKnown(ballots, t.book) && (clamp ==> ClampIdle(t.book, ballots))
    requires p in t.book.producers
    ensures CountAll(t, ballots, clamp, now).book.producers[p].votes == t.book.producers[p].votes + DeltaFor(ballots, p)
  {
    if ballots != [] {
      var n := |ballots| - 1;
      CountAllVotes(t, ballots[..n], clamp, now, p);
      if p == ballots[n].producer && clamp {
        DeltaForAbsent(ballots[..n], p);
      }
    }
  }

  lemma {:induction false} CountAllTotal(t: Tally, ballots: seq<Ballot>, clamp: bool, now: int)
    requires AllKnown(ballots, t.book) && (clamp ==> ClampIdle(t.book, ballots))
    ensures TotalGap(CountAll(t, ballots, clamp, now).book) == TotalGap(t.book)
  {
    hide Total;
    if ballots != [] {
      var n := |ballots| - 1;
      var v := ballots[n];
      var before := CountAll(t, ballots[..n], clamp, now);
      CountAllTotal(t, ballots[..n], clamp, now);
      CountAllVotes(t, ballots[..n], clamp, now, v.producer);
      DeltaForUnless(ballots[..n], v.producer, clamp);
      WriteVotes(before.book.producers, v.producer, Count(before, v, clamp, now).book.producers[v.producer]);
    }
  }

  lemma DeltaForUnless(ballots: seq<Ballot>, p: Name, clamp: bool)
    ensures clamp && (forall i :: 0 <= i < |ballots| ==> ballots[i].producer != p) ==> DeltaFor(ballots, p) == 0.0
  {
    if clamp && (forall i :: 0 <= i < |ballots| ==> ballots[i].producer != p) {
      DeltaForAbsent(ballots, p);
    }
  }

  /** Casting ballots moves each producer's gap by its ballot, and no other gap. */
  lemma CastAllGaps(b: Book, ballots: seq<Ballot>, clamp: bool, now: int)
    requires AllKnown(ballots, b) && (clamp ==> ClampIdle(b, ballots))
    ensures var b' := CastAll(b, ballots, clamp, now);
      && OnlyWeights(b, b')
      && (forall p :: p in b.producers ==> VoteGap(b', p) == VoteGap(b, p) + DeltaFor(ballots, p))
      && SameProxyGaps(b, b')
      && TotalGap(b') == TotalGap(b)
  {
    hide Total;
    CastAllFrame(b, ballots, clamp, now);
    CountAllTotal(Tally(b, 0.0, 0.0), ballots, clamp, now);
    forall p | p in b.producers
      ensures VoteGap(CastAll(b, ballots, clamp, now), p) == VoteGap(b, p) + DeltaFor(ballots, p)
    {
      CountAllVotes(Tally(b, 0.0, 0.0), ballots, clamp, now, p);
    }
  }
}
