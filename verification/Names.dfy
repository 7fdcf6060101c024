/** Ordered lists of names: what `std::map<name, …>` iterates over and what ballots must be. */
module Names {
  import opened Basics

  ghost predicate Ascending(ns: seq<Name>) {
    forall i, j :: 0 <= i < j < |ns| ==> ns[i] < ns[j]
  }

  ghost predicate Distinct<T(!new)>(xs: seq<T>) {
    forall i, j :: 0 <= i < j < |xs| ==> xs[i] != xs[j]
  }

  predicate Least(x: Name, s: set<Name>) {
    x in s && forall y :: y in s ==> x <= y
  }

  lemma {:induction false} LeastExists(s: set<Name>)
    requires s != {}
    ensures exists x :: Least(x, s)
  {
    var x :| x in s;
    var rest := s - {x};
    if rest == {} {
      assert s == {x};
      assert Least(x, s);
    } else {
      LeastExists(rest);
      var z :| Least(z, rest);
      assert s == rest + {x};
      assert Least(if x <= z then x else z, s);
    }
  }

  /** The elements of a set in increasing order. */
  function Sorted(s: set<Name>): (r: seq<Name>)
    ensures Ascending(r)
    ensures forall x :: x in r <==> x in s
  {
    if s == {} then []
    else
      LeastExists(s);
      var x: Name :| Least(x, s);
      [x] + Sorted(s - {x})
  }
}
