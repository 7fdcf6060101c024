/** The steps on the voting tables that are not votes: registration, stake, flags, proxies, claims. */
module BookSteps {
  import opened Basics
  import opened Sums
  import opened Voting
  import opened ProxyGraph
  import opened VoteLedger
  import opened ProxyLedger
  import opened VotingRules
  import opened VotingInvariant
  import opened Rewards

  function RowOf(b: Book, v: Name): Voter {
    if v in b.voters then b.voters[v] else NEW_VOTER
  }

  /** The row still backs what it backed, with the same weight. */
  predicate SameBacking(row: Voter, row': Voter) {
    && row'.proxy == row.proxy && row'.producers == row.producers
    && row'.lastWeight == row.lastWeight && row'.proxied == row.proxied
    && (row'.isProxy ==> row'.proxy == NO_NAME)
  }

  /** Nobody lends to an account without a row. */
  lemma NoLoans(b: Book, x: Name)
    requires Acyclic(b.voters) && x !in b.voters
    ensures Total(LentColumn(b.voters, x)) == 0.0
  {
    var rank: Ranks :| Ranked(b.voters, rank);
    assert forall v :: v in b.voters ==> b.voters[v].proxy != x || b.voters[v].proxy == NO_NAME;
    TotalOfZeros(LentColumn(b.voters, x));
  }

  /** Nobody lists a producer that is not registered. */
  lemma NoVotes(b: Book, p: Name)
    requires BallotsKnown(b) && p !in b.producers
    ensures Total(VoteColumn(b.voters, p)) == 0.0
  {
    forall v | v in b.voters ensures VoteOf(b.voters[v], p) == 0.0 {
      assert Registered(b.voters[v].producers, b);
    }
    TotalOfZeros(VoteColumn(b.voters, p));
  }

  // ---------- voter rows ----------

  lemma RewriteVoterShape(b: Book, v: Name, row: Voter)
    requires SameBacking(RowOf(b, v), row)
    ensures WellFormed(b) ==> WellFormed(WithRow(b, v, row))
    ensures BallotsKnown(b) ==> BallotsKnown(WithRow(b, v, row))
  {
    var b' := WithRow(b, v, row);
    if WellFormed(b) {
      KeepProxy(b.voters, v, row);
    }
    if BallotsKnown(b) {
      forall u | u in b'.voters ensures Registered(b'.voters[u].producers, b') {
        assert u in b.voters ==> Registered(b.voters[u].producers, b);
      }
    }
  }

  lemma RewriteVoterGaps(b: Book, v: Name, row: Voter)
    requires SameBacking(RowOf(b, v), row) && Acyclic(b.voters)
    ensures var b' := WithRow(b, v, row);
      && TotalGap(b') == TotalGap(b)
      && (forall p :: p in b.producers ==> VoteGap(b', p) == VoteGap(b, p))
      && (forall x :: x in b.voters ==> ProxyGap(b', x) == ProxyGap(b, x))
      && (v !in b.voters ==> ProxyGap(b', v) == 0.0)
  {
    hide Total;
    var b' := WithRow(b, v, row);
    forall p | p in b.producers ensures VoteGap(b', p) == VoteGap(b, p) {
      WriteVoter(b.voters, v, row, p);
    }
    forall x | x in b.voters ensures ProxyGap(b', x) == ProxyGap(b, x) {
      WriteVoter(b.voters, v, row, x);
    }
    if v !in b.voters {
      NoLoans(b, v);
      WriteVoter(b.voters, v, row, v);
    }
  }

  /** Stake, flags and the proxy mark of a row move no vote. */
  lemma RewriteVoterSound(b: Book, v: Name, row: Voter)
    requires SameBacking(RowOf(b, v), row) && row.staked >= 0 && Sound(b)
    ensures Sound(WithRow(b, v, row))
  {
    hide VoteGap, ProxyGap, TotalGap, BallotsKnown, WellFormed;
    assert Acyclic(b.voters) by { ShapeParts(b); }
    RewriteVoterShape(b, v, row);
    RewriteVoterGaps(b, v, row);
  }

  // ---------- producer rows ----------

  function WithProducer(b: Book, p: Name, row: Producer): Book {
    b.(producers := b.producers[p := row])
  }

  lemma RewriteProducerShape(b: Book, p: Name, row: Producer)
    requires p in b.producers
    ensures WellFormed(b) ==> WellFormed(WithProducer(b, p, row))
    ensures BallotsKnown(b) ==> BallotsKnown(WithProducer(b, p, row))
  {
    var b' := WithProducer(b, p, row);
    if BallotsKnown(b) {
      forall u | u in b'.voters ensures Registered(b'.voters[u].producers, b') {
        assert Registered(b.voters[u].producers, b);
      }
    }
  }

  lemma RewriteProducerSound(b: Book, p: Name, row: Producer)
    requires p in b.producers && row.votes == b.producers[p].votes && Sound(b)
    ensures Sound(WithProducer(b, p, row))
  {
    hide Total, WellFormed, BallotsKnown;
    var b' := WithProducer(b, p, row);
    RewriteProducerShape(b, p, row);
    WriteVotes(b.producers, p, row);
    forall q | q in b'.producers ensures VoteGap(b', q) == 0.0 {
      assert VoteGap(b, q) == 0.0;
    }
    forall x | x in b'.voters ensures ProxyGap(b', x) == 0.0 {
      assert ProxyGap(b, x) == 0.0;
    }
  }

  // ---------- registration ----------

  lemma RegisterShape(b: Book, p: Name, now: int)
    requires WellFormed(b)
    ensures WellFormed(Register(b, p, now)) && Register(b, p, now).voters == b.voters
    ensures BallotsKnown(b) ==> BallotsKnown(Register(b, p, now))
  {
    var b' := Register(b, p, now);
    if BallotsKnown(b) {
      forall u | u in b'.voters ensures Registered(b'.voters[u].producers, b') {
        assert Registered(b.voters[u].producers, b);
      }
    }
  }

  lemma NewProducerGaps(b: Book, p: Name, row: Producer)
    requires p !in b.producers && BallotsKnown(b) && row.votes == 0.0
    ensures var b' := WithProducer(b, p, row);
      && TotalGap(b') == TotalGap(b)
      && VoteGap(b', p) == 0.0
      && (forall q :: q in b.producers ==> VoteGap(b', q) == VoteGap(b, q))
      && (forall x :: x in b.voters ==> ProxyGap(b', x) == ProxyGap(b, x))
  {
    hide Total;
    NoVotes(b, p);
    assert TotalsColumn(b.producers[p := row]) == TotalsColumn(b.producers)[p := 0.0];
    TotalWrite(TotalsColumn(b.producers), p, 0.0);
  }

  lemma RegisterSound(b: Book, p: Name, now: int)
    requires Sound(b)
    ensures Sound(Register(b, p, now))
  {
    hide VoteGap, ProxyGap, TotalGap;
    RegisterShape(b, p, now);
    if p in b.producers {
      RewriteProducerSound(b, p, Register(b, p, now).producers[p]);
    } else {
      var row := Producer(0.0, true, false, 0, now);
      NewProducerGaps(b, p, row);
      SameSums(WithProducer(b, p, row), Register(b, p, now));
    }
  }

  /** Gaps read only voters, producers and the grand total. */
  lemma SameSums(b: Book, b': Book)
    requires b'.voters == b.voters && b'.producers == b.producers && b'.totalVotes == b.totalVotes
    ensures TotalGap(b') == TotalGap(b)
    ensures forall p :: p in b.producers ==> VoteGap(b', p) == VoteGap(b, p)
    ensures forall x :: x in b.voters ==> ProxyGap(b', x) == ProxyGap(b, x)
  {
  }

  // ---------- claims ----------

  lemma ClaimShape(b: Book, owner: Name, revised: bool, now: int)
    requires owner in b.producers && WellFormed(b)
    ensures WellFormed(ClaimBook(b, owner, revised, now)) && ClaimBook(b, owner, revised, now).voters == b.voters
    ensures BallotsKnown(b) ==> BallotsKnown(ClaimBook(b, owner, revised, now))
  {
    var b' := ClaimBook(b, owner, revised, now);
    if BallotsKnown(b) {
      forall u | u in b'.voters ensures Registered(b'.voters[u].producers, b') {
        assert Registered(b.voters[u].producers, b);
      }
    }
  }

  /** A claim moves no votes. */
  lemma ClaimSound(b: Book, owner: Name, revised: bool, now: int)
    requires Sound(b) && owner in b.producers
    ensures Sound(ClaimBook(b, owner, revised, now))
  {
    hide Total, WellFormed, BallotsKnown, ClaimedShare, Frozen;
    var b' := ClaimBook(b, owner, revised, now);
    ClaimShape(b, owner, revised, now);
    var row := b.producers[owner].(lastClaim := now, unpaid := 0);
    assert b'.producers == b.producers[owner := row] && b'.totalVotes == b.totalVotes;
    hide ClaimBook;
    WriteVotes(b.producers, owner, row);
    forall p | p in b'.producers ensures VoteGap(b', p) == 0.0 {
      assert VoteGap(b, p) == 0.0;
    }
    forall x | x in b'.voters ensures ProxyGap(b', x) == 0.0 {
      assert ProxyGap(b, x) == 0.0;
    }
  }
}
