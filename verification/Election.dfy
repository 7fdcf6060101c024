/** The election of block producers: a walk over the vote index that stops early. */
module Election {
  import opened Basics
  import opened Names
  import opened Voting

  const TOP: nat := 101

  /** `by_votes`: active producers sort by falling votes, in front of inactive ones by rising votes. */
  function ByVotes(row: Producer): real { if row.active then -row.votes else row.votes }

  predicate Eligible(row: Producer) { 0.0 < row.votes && row.active }

  /** The order of the "prototalvote" index: by key, then by name. */
  predicate Before(ps: map<Name, Producer>, a: Name, b: Name)
    requires a in ps && b in ps
  {
    ByVotes(ps[a]) < ByVotes(ps[b]) || (ByVotes(ps[a]) == ByVotes(ps[b]) && a < b)
  }

  function Insert(ps: map<Name, Producer>, xs: seq<Name>, x: Name): (r: seq<Name>)
    requires x in ps && forall y :: y in xs ==> y in ps
    ensures multiset(r) == multiset(xs) + multiset{x}
    ensures forall y :: y in r <==> y == x || y in xs
  {
    if xs == [] then [x]
    else if Before(ps, x, xs[0]) then [x] + xs
    else
      assert xs == [xs[0]] + xs[1..];
      [xs[0]] + Insert(ps, xs[1..], x)
  }

  function SortByVotes(ps: map<Name, Producer>, xs: seq<Name>): (r: seq<Name>)
    requires forall y :: y in xs ==> y in ps
    ensures multiset(r) == multiset(xs)
    ensures forall y :: y in r <==> y in xs
  {
    if xs == [] then []
    else
      assert xs == [xs[0]] + xs[1..];
      Insert(ps, SortByVotes(ps, xs[1..]), xs[0])
  }

  /** The index the chain keeps over the producers table. */
  function Index(ps: map<Name, Producer>): (r: seq<Name>)
    ensures forall x :: x in r <==> x in ps
  {
    SortByVotes(ps, Sorted(ps.Keys))
  }

  /** How far the walk at voting.cpp:136 gets when it has reached position `i`. */
  function Walk(ps: map<Name, Producer>, index: seq<Name>, i: nat): (n: nat)
    requires i <= |index| && forall x :: x in index ==> x in ps
    ensures i <= n <= |index|
    decreases |index| - i
  {
    if i < |index| && i < TOP && Eligible(ps[index[i]]) then Walk(ps, index, i + 1) else i
  }

  /** The producers collected by the walk. */
  function Elected(ps: map<Name, Producer>): seq<Name> {
    Index(ps)[..Walk(ps, Index(ps), 0)]
  }
}
