/** The factor by which stake turns into vote weight: 2 to the power of the weeks since 2000, divided by 52
    (voting.cpp:174-178). */
module Calendar {
  import opened Basics

  const EPOCH: int := 946_684_800
  const WEEK: int := 7 * 24 * 3600

  function Weeks(now: int): int { (now / SECOND - EPOCH) / WEEK }

  function Pow(x: real, n: nat): real { if n == 0 then 1.0 else x * Pow(x, n - 1) }

  /** `growth` is 2^(weeks/52) at the time `now`: the 52nd root of 2, to the power of the weeks. */
  ghost predicate IsGrowth(now: int, growth: real) {
    Weeks(now) >= 0 && exists root :: IsRoot(root) && growth == Pow(root, Weeks(now))
  }

  predicate IsRoot(root: real) { root > 0.0 && Pow(root, 52) == 2.0 }

  // ---------- powers ----------

  lemma {:induction false} PowAdd(x: real, m: nat, n: nat)
    ensures Pow(x, m + n) == Pow(x, m) * Pow(x, n)
  {
    if m > 0 {
      PowAdd(x, m - 1, n);
      Regroup(x, Pow(x, m - 1), Pow(x, n));
    }
  }

  lemma Regroup(x: real, y: real, z: real)
    ensures x * (y * z) == x * y * z
  {
  }

  lemma {:induction false} PowPow(x: real, m: nat, n: nat)
    ensures Pow(Pow(x, m), n) == Pow(x, m * n)
  {
    if n > 0 {
      PowPow(x, m, n - 1);
      PowAdd(x, m, m * (n - 1));
      assert m + m * (n - 1) == m * n;
    } else {
      assert m * n == 0;
    }
  }

  lemma Product(x: real, y: real, u: real, v: real)
    requires 0.0 <= x <= u && 0.0 <= y <= v
    ensures 0.0 <= x * y <= u * v
  {
    assert x * y <= u * y <= u * v;
  }

  lemma Positive(x: real, y: real)
    requires x > 0.0 && y > 0.0
    ensures x * y > 0.0
  {
  }

  lemma {:induction false} PowPositive(x: real, n: nat)
    requires x > 0.0
    ensures Pow(x, n) > 0.0
  {
    if n > 0 {
      PowPositive(x, n - 1);
      Positive(x, Pow(x, n - 1));
    }
  }

  lemma {:induction false} PowMonotone(x: real, y: real, n: nat)
    requires 0.0 < x <= y
    ensures Pow(x, n) <= Pow(y, n)
  {
    if n > 0 {
      PowMonotone(x, y, n - 1);
      PowPositive(x, n - 1);
      Product(x, Pow(x, n - 1), y, Pow(y, n - 1));
    }
  }

  lemma Squares(x: real) returns (x4: real, x16: real, x32: real)
    ensures x4 == x * x * (x * x)
    ensures x16 == x4 * x4 * (x4 * x4) && x32 == x16 * x16
    ensures Pow(x, 52) == x32 * (x16 * x4)
  {
    hide Pow;
    x4 := x * x * (x * x);
    x16 := x4 * x4 * (x4 * x4);
    x32 := x16 * x16;
    PowTwo(x);
    PowAdd(x, 2, 2);
    PowAdd(x, 4, 4);
    PowAdd(x, 8, 8);
    PowAdd(x, 16, 16);
    PowAdd(x, 16, 4);
    PowAdd(x, 32, 20);
  }

  lemma PowTwo(x: real)
    ensures Pow(x, 0) == 1.0 && Pow(x, 1) == x && Pow(x, 2) == x * x
  {
    assert Pow(x, 0) == 1.0;
    assert Pow(x, 1) == x * Pow(x, 0);
    assert Pow(x, 2) == x * Pow(x, 1);
  }

  // ---------- one turn of the week ----------

  /** The last second of week 1196, and the first of week 1197. */
  const FRIDAY: nat := 1_670_630_399 * SECOND
  const SATURDAY: nat := 1_670_630_400 * SECOND

  /** 1196 is 23 times 52, so the factor of that week is a whole number. */
  const GROWTH: real := 8388608.0

  /** After 52 weeks the factor has doubled. */
  lemma YearsOf(root: real)
    requires IsRoot(root)
    ensures Pow(root, 1196) == GROWTH
  {
    hide Pow;
    PowPow(root, 52, 23);
    PowTwo(2.0);
    PowAdd(2.0, 2, 2);
    PowAdd(2.0, 4, 4);
    PowAdd(2.0, 8, 8);
    PowAdd(2.0, 4, 2);
    PowAdd(2.0, 6, 1);
    PowAdd(2.0, 16, 7);
  }

  lemma FridayGrowth(g: real)
    requires IsGrowth(FRIDAY, g)
    ensures g == GROWTH
  {
    hide Pow;
    assert Weeks(FRIDAY) == 1196;
    var root :| IsRoot(root) && g == Pow(root, 1196);
    YearsOf(root);
  }

  /** Bounds for a 52nd power by repeated squaring. */
  lemma PowUnder(x: real, c2: real, c4: real, c8: real, c16: real, c32: real)
    requires 0.0 < x && x * x <= c2 && c2 * c2 <= c4 && c4 * c4 <= c8 && c8 * c8 <= c16 && c16 * c16 <= c32
    ensures Pow(x, 52) <= c32 * (c16 * c4)
  {
    hide Pow;
    var x4, x16, x32 := Squares(x);
    var x2, x8 := x * x, x4 * x4;
    Positive(x, x);
    Product(x2, x2, c2, c2);
    Product(x4, x4, c4, c4);
    Product(x8, x8, c8, c8);
    Product(x16, x16, c16, c16);
    Product(x16, x4, c16, c4);
    Product(x32, x16 * x4, c32, c16 * c4);
  }

  lemma PowOver(x: real, c2: real, c4: real, c8: real, c16: real, c32: real)
    requires 0.0 <= c2 <= x * x && 0.0 <= c4 <= c2 * c2 && 0.0 <= c8 <= c4 * c4 && 0.0 <= c16 <= c8 * c8 && 0.0 <= c32 <= c16 * c16
    ensures c32 * (c16 * c4) <= Pow(x, 52)
  {
    hide Pow;
    var x4, x16, x32 := Squares(x);
    var x2, x8 := x * x, x4 * x4;
    Product(c2, c2, x2, x2);
    Product(c4, c4, x4, x4);
    Product(c8, c8, x8, x8);
    Product(c16, c16, x16, x16);
    Product(c16, c4, x16, x4);
    Product(c32, c16 * c4, x32, x16 * x4);
  }

  /** A bound below the 52nd root of 2, and one above it. */
  lemma BelowRoot()
    ensures Pow(1.01341899069870031000, 52) < 2.0
  {
    hide Pow;
    PowUnder(1.01341899069870031000, 1.02701805070877242544, 1.05476607648164664905, 1.11253147609648686831,
             1.23772628530542793205, 1.53196635733597358444);
  }

  lemma AboveRoot()
    ensures 2.0 < Pow(1.01341899069870169066, 52)
  {
    hide Pow;
    PowOver(1.01341899069870169066, 1.02701805070877522380, 1.05476607648165239697, 1.11253147609649899372,
            1.23772628530545491184, 1.53196635733604037162);
  }

  lemma RootBounds(root: real)
    requires IsRoot(root)
    ensures 1.01341899069870031000 < root < 1.01341899069870169066
  {
    hide Pow;
    BelowRoot();
    AboveRoot();
    if root <= 1.01341899069870031000 {
      PowMonotone(root, 1.01341899069870031000, 52);
    }
    if root >= 1.01341899069870169066 {
      PowMonotone(1.01341899069870169066, root, 52);
    }
  }

  lemma SaturdayGrowth(g: real)
    requires IsGrowth(SATURDAY, g)
    ensures 1.01341899069870031000 * GROWTH < g < 1.01341899069870169066 * GROWTH
  {
    hide Pow;
    assert Weeks(SATURDAY) == 1197;
    var root :| IsRoot(root) && g == Pow(root, 1197);
    YearsOf(root);
    PowTwo(root);
    PowAdd(root, 1, 1196);
    RootBounds(root);
  }
}
