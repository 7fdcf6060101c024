/** The early-stopping walk elects exactly the highest-voted active producers. */
module ElectionProof {
  import opened Basics
  import opened Names
  import opened Voting
  import opened Election
  import opened Chain
  import opened Rewards

  ghost predicate Ordered(ps: map<Name, Producer>, xs: seq<Name>)
    requires forall y :: y in xs ==> y in ps
  {
    forall i, j :: 0 <= i < j < |xs| ==> Before(ps, xs[i], xs[j])
  }

  lemma {:induction false} InsertOrdered(ps: map<Name, Producer>, xs: seq<Name>, x: Name)
    requires x in ps && x !in xs && (forall y :: y in xs ==> y in ps) && Ordered(ps, xs)
    ensures Ordered(ps, Insert(ps, xs, x))
  {
    if xs != [] && !Before(ps, x, xs[0]) {
      InsertOrdered(ps, xs[1..], x);
      var rest := Insert(ps, xs[1..], x);
      forall y | y in rest ensures Before(ps, xs[0], y) {
        if y != x {
          var j :| 1 <= j < |xs| && xs[j] == y;
        }
      }
    }
  }

  lemma {:induction false} SortOrdered(ps: map<Name, Producer>, xs: seq<Name>)
    requires (forall y :: y in xs ==> y in ps) && Distinct(xs)
    ensures Ordered(ps, SortByVotes(ps, xs))
  {
    if xs != [] {
      SortOrdered(ps, xs[1..]);
      assert forall y :: y in xs[1..] ==> exists j :: 1 <= j < |xs| && xs[j] == y;
      InsertOrdered(ps, SortByVotes(ps, xs[1..]), xs[0]);
    }
  }

  lemma IndexOrdered(ps: map<Name, Producer>)
    ensures Ordered(ps, Index(ps))
  {
    SortOrdered(ps, Sorted(ps.Keys));
  }

  lemma {:induction false} WalkStops(ps: map<Name, Producer>, index: seq<Name>, i: nat)
    requires i <= |index| && i <= TOP && forall x :: x in index ==> x in ps
    ensures var n := Walk(ps, index, i);
      && n <= TOP
      && (forall j :: i <= j < n ==> Eligible(ps[index[j]]))
      && (n == |index| || n == TOP || !Eligible(ps[index[n]]))
    decreases |index| - i
  {
    if i < |index| && i < TOP && Eligible(ps[index[i]]) {
      WalkStops(ps, index, i + 1);
    }
  }

  ghost function EligibleSet(ps: map<Name, Producer>): set<Name> {
    set p | p in ps && Eligible(ps[p])
  }

  ghost function Members(xs: seq<Name>): set<Name> { set x | x in xs }

  lemma {:induction false} SizeOfDistinct(xs: seq<Name>)
    requires Distinct(xs)
    ensures |Members(xs)| == |xs|
  {
    if xs != [] {
      var n := |xs| - 1;
      SizeOfDistinct(xs[..n]);
      assert xs[n] !in xs[..n];
      assert xs == xs[..n] + [xs[n]];
      assert Members(xs) == Members(xs[..n]) + {xs[n]};
    }
  }

  lemma SmallerSet(a: set<Name>, b: set<Name>)
    requires a <= b
    ensures |a| <= |b|
  {
    assert b == a + (b - a);
  }

  lemma OrderedAt(ps: map<Name, Producer>, xs: seq<Name>, i: nat, j: nat)
    requires (forall y :: y in xs ==> y in ps) && Ordered(ps, xs) && i < |xs| && j < |xs|
    ensures i < j ==> Before(ps, xs[i], xs[j])
    ensures xs[i] == xs[j] ==> i == j
  {
  }

  lemma ElectedMembers(ps: map<Name, Producer>)
    ensures Distinct(Elected(ps)) && |Elected(ps)| <= TOP && Members(Elected(ps)) <= EligibleSet(ps)
  {
    var index := Index(ps);
    IndexOrdered(ps);
    WalkStops(ps, index, 0);
    hide Walk, Index, Before, Eligible, Ordered;
    forall i, j | 0 <= i < j < |Elected(ps)| ensures Elected(ps)[i] != Elected(ps)[j] {
      OrderedAt(ps, index, i, j);
    }
  }

  /** The election as the documentation promises it: as many as there are seats or candidates, each of them
      a candidate and none twice, and nobody left out has more votes than anybody taken in. */
  ghost predicate Rightful(ps: map<Name, Producer>, top: seq<Name>) {
    && Distinct(top)
    && |top| == Seats(ps)
    && (forall p :: p in top ==> p in EligibleSet(ps))
    && (forall p, q :: p in top && q in EligibleSet(ps) && q !in top ==> ps[q].votes <= ps[p].votes)
  }

  ghost function Seats(ps: map<Name, Producer>): nat {
    if |EligibleSet(ps)| < TOP then |EligibleSet(ps)| else TOP
  }

  /** The candidates that the index holds in front of `x`. */
  ghost function Ahead(ps: map<Name, Producer>, x: Name): set<Name>
    requires x in ps
  {
    set q | q in EligibleSet(ps) && Before(ps, q, x)
  }

  /** Debts of inactive producers rank behind all candidates that have a seat. */
  ghost predicate Unblocked(ps: map<Name, Producer>) {
    forall x :: x in ps && !ps[x].active && ps[x].votes < 0.0 ==> |Ahead(ps, x)| >= Seats(ps)
  }

  lemma CandidatesInOrder(ps: map<Name, Producer>, a: Name, b: Name)
    requires a in EligibleSet(ps) && b in EligibleSet(ps) && Before(ps, a, b)
    ensures ps[b].votes <= ps[a].votes
  {
  }

  /** A producer that is no candidate stands behind all candidates, unless it is inactive and in debt. */
  lemma CandidatesFirst(ps: map<Name, Producer>, q: Name, x: Name)
    requires q in EligibleSet(ps) && x in ps && !Eligible(ps[x]) && (ps[x].active || ps[x].votes >= 0.0)
    ensures Before(ps, q, x)
  {
  }

  lemma BeforeOneWay(ps: map<Name, Producer>, a: Name, b: Name)
    requires a in ps && b in ps && Before(ps, a, b)
    ensures !Before(ps, b, a)
  {
  }

  /** What the walk finds, and where it ends. */
  lemma WalkMeans(ps: map<Name, Producer>) returns (index: seq<Name>, n: nat)
    ensures index == Index(ps) && n == Walk(ps, index, 0) && n <= |index| && n <= TOP
    ensures (forall x :: x in index <==> x in ps) && Ordered(ps, index) && Elected(ps) == index[..n]
    ensures forall j :: 0 <= j < n ==> index[j] in EligibleSet(ps)
    ensures n == |index| || n == TOP || (index[n] in ps && !Eligible(ps[index[n]]))
  {
    hide Before, Eligible;
    index := Index(ps);
    n := Walk(ps, index, 0);
    IndexOrdered(ps);
    WalkStops(ps, index, 0);
  }

  lemma PlaceOf(xs: seq<Name>, x: Name) returns (i: nat)
    requires x in xs
    ensures i < |xs| && xs[i] == x
  {
    i :| 0 <= i < |xs| && xs[i] == x;
  }

  /** Where the walk has ended, the candidates it has found are those in front of that place. */
  lemma FoundAhead(ps: map<Name, Producer>, index: seq<Name>, n: nat)
    requires (forall x :: x in index <==> x in ps) && Ordered(ps, index) && n < |index|
    requires forall j :: 0 <= j < n ==> index[j] in EligibleSet(ps)
    ensures Members(index[..n]) == Ahead(ps, index[n])
  {
    hide Before, Eligible, Ordered;
    forall q | q in Ahead(ps, index[n]) ensures q in Members(index[..n]) {
      var j := PlaceOf(index, q);
      if j >= n {
        OrderedAt(ps, index, n, j);
        BeforeOneWay(ps, q, index[n]);
      }
    }
    forall q | q in Members(index[..n]) ensures q in Ahead(ps, index[n]) {
      var j := PlaceOf(index[..n], q);
      OrderedAt(ps, index, j, n);
    }
  }

  /** Producers behind the walk's end have all those it found in front of them. */
  lemma FoundBefore(ps: map<Name, Producer>, x: Name)
    requires x in ps && x !in Elected(ps)
    ensures forall p :: p in Elected(ps) ==> p in EligibleSet(ps) && Before(ps, p, x)
  {
    hide Walk, Index, Before, Eligible, Ordered, Elected;
    var index, n := WalkMeans(ps);
    var j := PlaceOf(index, x);
    forall i | 0 <= i < n ensures index[i] != x {
      assert index[i] == index[..n][i];
    }
    forall p | p in Elected(ps) ensures p in EligibleSet(ps) && Before(ps, p, x) {
      var i := PlaceOf(index[..n], p);
      OrderedAt(ps, index, i, j);
    }
  }

  lemma ElectedSize(ps: map<Name, Producer>)
    ensures Distinct(Elected(ps)) && |Members(Elected(ps))| == |Elected(ps)| <= Seats(ps)
    ensures Members(Elected(ps)) <= EligibleSet(ps)
  {
    hide Elected, Eligible;
    ElectedMembers(ps);
    SizeOfDistinct(Elected(ps));
    SmallerSet(Members(Elected(ps)), EligibleSet(ps));
  }

  /** The walk always takes the best: it can only take too few. */
  lemma OnlyTooFew(ps: map<Name, Producer>)
    ensures Rightful(ps, Elected(ps)) <==> |Elected(ps)| == Seats(ps)
  {
    hide Elected, Eligible, Before;
    ElectedSize(ps);
    forall p | p in Elected(ps) ensures p in EligibleSet(ps) {
      assert p in Members(Elected(ps));
    }
    forall p, q | p in Elected(ps) && q in EligibleSet(ps) && q !in Elected(ps) ensures ps[q].votes <= ps[p].votes {
      FoundBefore(ps, q);
      CandidatesInOrder(ps, p, q);
    }
  }

  lemma AllAhead(ps: map<Name, Producer>, x: Name)
    requires x in ps && !Eligible(ps[x]) && (ps[x].active || ps[x].votes >= 0.0)
    ensures Ahead(ps, x) == EligibleSet(ps)
  {
    hide Before, Eligible;
    forall q | q in EligibleSet(ps) ensures q in Ahead(ps, x) {
      CandidatesFirst(ps, q, x);
    }
  }

  /** Without debts in the way the walk fills all seats. */
  lemma UnblockedFills(ps: map<Name, Producer>)
    requires Unblocked(ps)
    ensures |Elected(ps)| == Seats(ps)
  {
    hide Walk, Index, Before, Eligible, Ordered, Elected, Ahead;
    var index, n := WalkMeans(ps);
    ElectedSize(ps);
    if n < TOP {
      if n < |index| {
        FoundAhead(ps, index, n);
        if ps[index[n]].active || ps[index[n]].votes >= 0.0 {
          AllAhead(ps, index[n]);
        }
      } else {
        assert index[..n] == index;
        assert forall q :: q in EligibleSet(ps) ==> q in index;
        SmallerSet(EligibleSet(ps), Members(Elected(ps)));
      }
    }
  }

  /** The exact condition: the walk elects the highest-voted candidates if and only if no inactive producer
      with negative votes precedes the last of those who should have a seat. */
  lemma ElectionExactIff(ps: map<Name, Producer>)
    ensures Rightful(ps, Elected(ps)) <==> Unblocked(ps)
  {
    hide Elected, Eligible, Before;
    OnlyTooFew(ps);
    ElectedSize(ps);
    if Unblocked(ps) {
      UnblockedFills(ps);
    }
    if |Elected(ps)| == Seats(ps) {
      forall x | x in ps && !ps[x].active && ps[x].votes < 0.0 ensures |Ahead(ps, x)| >= Seats(ps) {
        assert x !in Elected(ps) by { NoCandidate(ps, x); }
        FoundBefore(ps, x);
        assert Members(Elected(ps)) <= Ahead(ps, x);
        SmallerSet(Members(Elected(ps)), Ahead(ps, x));
      }
    }
  }

  lemma NoCandidate(ps: map<Name, Producer>, x: Name)
    requires x in ps && !ps[x].active
    ensures x !in Elected(ps)
  {
    hide Elected;
    ElectedMembers(ps);
    assert x !in Members(Elected(ps));
  }

  /** In particular the election is right while nobody has negative votes. */
  lemma ElectionIsExact(ps: map<Name, Producer>)
    requires forall p :: p in ps ==> ps[p].votes >= 0.0
    ensures Rightful(ps, Elected(ps))
  {
    hide Elected;
    ElectionExactIff(ps);
  }

  /** A map on which it goes wrong: one candidate, one inactive producer in debt, and nobody is elected. */
  lemma DebtShutsOut()
    ensures var ps := map[1 := Producer(-2.0, false, false, 0, 1), 2 := Producer(1.0, true, false, 0, 1)];
      Elected(ps) == [] && EligibleSet(ps) == {2} && !Rightful(ps, Elected(ps))
  {
    hide Elected;
    var ps := map[1 := Producer(-2.0, false, false, 0, 1), 2 := Producer(1.0, true, false, 0, 1)];
    assert EligibleSet(ps) == {2};
    assert Ahead(ps, 1) == {};
    ElectionExactIff(ps);
    OnlyTooFew(ps);
    ElectedSize(ps);
  }

  lemma CountedElection(ps: map<Name, Producer>, ps': map<Name, Producer>)
    requires ps'.Keys == ps.Keys
    requires forall p :: p in ps ==> ps'[p].votes == ps[p].votes && ps'[p].active == ps[p].active
    ensures EligibleSet(ps') == EligibleSet(ps) && (Unblocked(ps) ==> Unblocked(ps'))
  {
    assert EligibleSet(ps') == EligibleSet(ps);
    forall x | x in ps ensures Ahead(ps', x) == Ahead(ps, x) {
    }
  }

  /** The members of a schedule are those of a rightful election. */
  ghost predicate Proposes(ps: map<Name, Producer>, proposed: set<Name>) {
    && |proposed| == Seats(ps)
    && proposed <= EligibleSet(ps)
    && (forall p, q :: p in proposed && q in EligibleSet(ps) && q !in proposed ==> ps[q].votes <= ps[p].votes)
  }

  /** What a block proposes, whenever it proposes: the election of that moment, exactly. */
  lemma BlockProposesElected(c: Chain, auth: set<Name>, slot: nat, producer: Name)
    requires Unblocked(c.book.producers) && OnBlock(c, auth, slot, producer).Success?
    requires c.book.activatedAt != 0 && (slot - c.pay.scheduleSlot) % WORD > 1 && EligibleSet(c.book.producers) != {}
    ensures Proposes(c.book.producers, OnBlock(c, auth, slot, producer).value.pay.proposed)
  {
    hide Elected, Sorted, Unblocked, Eligible;
    var ps := CountBlock(c, producer).book.producers;
    CountedElection(c.book.producers, ps);
    ElectionExactIff(ps);
    var top := Elected(ps);
    SizeOfDistinct(top);
    assert top != [];
    assert OnBlock(c, auth, slot, producer).value.pay.proposed == Members(top);
  }
}
