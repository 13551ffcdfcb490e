/** Pearson's coefficient over the reals: bounds, when it is undefined, and what leaves it unchanged. */
module Pearson {
  import opened Wrappers

  type Pair = (real, real)

  // ---------- Products, so that the proofs below need only their laws ----------

  function Times(a: real, b: real): real { a * b }

  lemma Commutes(a: real, b: real)
    ensures Times(a, b) == Times(b, a)
  {
  }

  lemma Associates(a: real, b: real, c: real)
    ensures Times(Times(a, b), c) == Times(a, Times(b, c))
  {
    assert (a * b) * c == a * (b * c);
  }

  lemma Distributes(a: real, b: real, c: real)
    ensures Times(a, b + c) == Times(a, b) + Times(a, c)
  {
  }

  lemma Negates(a: real, b: real)
    ensures Times(a, -b) == -Times(a, b) && Times(-a, b) == -Times(a, b)
  {
  }

  lemma Units(a: real)
    ensures Times(a, 0.0) == 0.0 && Times(a, 1.0) == a
  {
  }

  lemma Positive(a: real, b: real)
    requires a > 0.0 && b > 0.0
    ensures Times(a, b) > 0.0
  {
  }

  lemma Quotient(a: real, b: real)
    requires b != 0.0
    ensures Times(a / b, b) == a
  {
  }

  /** The sign of a product with a positive number is the other factor's. */
  lemma Sign(a: real, b: real)
    requires a > 0.0
    ensures (Times(a, b) > 0.0 <==> b > 0.0) && (Times(a, b) == 0.0 <==> b == 0.0)
  {
    hide Times;
    Units(a);
    Negates(a, b);
    if b > 0.0 {
      Positive(a, b);
    } else if b < 0.0 {
      Positive(a, -b);
    }
  }

  lemma SquareSign(a: real)
    ensures Times(a, a) >= 0.0 && (Times(a, a) == 0.0 <==> a == 0.0)
  {
    hide Times;
    Units(a);
    Negates(a, a);
    Negates(a, -a);
    if a > 0.0 {
      Positive(a, a);
    } else if a < 0.0 {
      Positive(-a, -a);
      Negates(-a, a);
    }
  }

  lemma ProductZero(a: real, b: real)
    ensures Times(a, b) == 0.0 <==> a == 0.0 || b == 0.0
  {
    hide Times;
    Units(a);
    Units(b);
    Commutes(a, b);
    Negates(a, b);
    if a > 0.0 {
      Sign(a, b);
    } else if a < 0.0 {
      Sign(-a, b);
    }
  }

  lemma Exchange(a: real, b: real, c: real, d: real)
    ensures Times(Times(a, b), Times(c, d)) == Times(Times(a, c), Times(b, d))
  {
    hide Times;
    Associates(a, b, Times(c, d));
    Associates(b, c, d);
    Commutes(b, c);
    Associates(c, b, d);
    Associates(a, c, Times(b, d));
  }

  // ---------- The source's sums ----------

  function Sum(s: seq<real>): real {
    if s == [] then 0.0 else Sum(s[..|s| - 1]) + s[|s| - 1]
  }

  function Mean(s: seq<real>): real
    requires s != []
  {
    Sum(s) / |s| as real
  }

  function Xs(pairs: seq<Pair>): (xs: seq<real>)
    ensures |xs| == |pairs| && forall i :: 0 <= i < |pairs| ==> xs[i] == pairs[i].0
  {
    seq(|pairs|, i requires 0 <= i < |pairs| => pairs[i].0)
  }

  function Ys(pairs: seq<Pair>): (ys: seq<real>)
    ensures |ys| == |pairs| && forall i :: 0 <= i < |pairs| ==> ys[i] == pairs[i].1
  {
    seq(|pairs|, i requires 0 <= i < |pairs| => pairs[i].1)
  }

  function Deviations(s: seq<real>): (d: seq<real>)
    ensures |d| == |s| && forall i :: 0 <= i < |s| ==> d[i] == s[i] - Mean(s)
  {
    seq(|s|, i requires 0 <= i < |s| => s[i] - Mean(s))
  }

  function Dot(a: seq<real>, b: seq<real>): real
    requires |a| == |b|
  {
    if a == [] then 0.0 else Dot(a[..|a| - 1], b[..|b| - 1]) + Times(a[|a| - 1], b[|b| - 1])
  }

  function Spread(s: seq<real>): real { Dot(Deviations(s), Deviations(s)) }

  function Numerator(pairs: seq<Pair>): real { Dot(Deviations(Xs(pairs)), Deviations(Ys(pairs))) }

  /** The square root the source takes, as the number it must be. */
  ghost predicate IsRoot(root: real, pairs: seq<Pair>) {
    root >= 0.0 && Times(root, root) == Times(Spread(Xs(pairs)), Spread(Ys(pairs)))
  }

  function Coefficient(pairs: seq<Pair>, root: real): Option<real> {
    if |pairs| < 2 then None
    else if root != 0.0 then Some(Numerator(pairs) / root)
    else None
  }

  // ---------- Cauchy-Schwarz ----------

  function Term(p: real, y: real, q: real, x: real): real { Times(p, y) - Times(q, x) }

  /** p times b minus q times a, term by term. */
  function Combine(p: real, b: seq<real>, q: real, a: seq<real>): (c: seq<real>)
    requires |a| == |b|
    ensures |c| == |a| && forall i :: 0 <= i < |a| ==> c[i] == Term(p, b[i], q, a[i])
  {
    seq(|a|, i requires 0 <= i < |a| => Term(p, b[i], q, a[i]))
  }

  lemma {:induction false} SquaresNonNegative(a: seq<real>)
    ensures Dot(a, a) >= 0.0
    ensures Dot(a, a) == 0.0 <==> forall i :: 0 <= i < |a| ==> a[i] == 0.0
  {
    if a != [] {
      var rest, last := a[..|a| - 1], a[|a| - 1];
      SquaresNonNegative(rest);
      hide Times;
      SquareSign(last);
      assert forall i :: 0 <= i < |rest| ==> rest[i] == a[i];
    }
  }

  /** The square of a combination, given the products of its parts. */
  function Form(p: real, q: real, bb: real, ab: real, aa: real): real {
    Times(Times(p, p), bb) - 2.0 * Times(Times(p, q), ab) + Times(Times(q, q), aa)
  }

  lemma FormOfSquare(p: real, y: real, q: real, x: real)
    ensures Times(Term(p, y, q, x), Term(p, y, q, x)) == Form(p, q, Times(y, y), Times(x, y), Times(x, x))
  {
    hide Times;
    var u, v := Times(p, y), Times(q, x);
    SquareOfDifference(u, v);
    Exchange(p, y, p, y);
    Exchange(q, x, q, x);
    Exchange(p, y, q, x);
    Commutes(x, y);
  }

  lemma SquareOfDifference(u: real, v: real)
    ensures Times(u - v, u - v) == Times(u, u) - 2.0 * Times(u, v) + Times(v, v)
  {
    hide Times;
    Distributes(u - v, u, -v);
    Negates(u - v, v);
    Commutes(u - v, u);
    Commutes(u - v, v);
    Distributes(u, u, -v);
    Distributes(v, u, -v);
    Negates(u, v);
    Negates(v, v);
    Commutes(u, v);
  }

  lemma FormAdds(p: real, q: real, bb: real, ab: real, aa: real, yy: real, xy: real, xx: real)
    ensures Form(p, q, bb + yy, ab + xy, aa + xx) == Form(p, q, bb, ab, aa) + Form(p, q, yy, xy, xx)
  {
    hide Times;
    Distributes(Times(p, p), bb, yy);
    Distributes(Times(p, q), ab, xy);
    Distributes(Times(q, q), aa, xx);
  }

  lemma FormZero(p: real, q: real)
    ensures Form(p, q, 0.0, 0.0, 0.0) == 0.0
  {
    hide Times;
    Units(Times(p, p));
    Units(Times(p, q));
    Units(Times(q, q));
  }

  lemma {:induction false} Expand(p: real, b: seq<real>, q: real, a: seq<real>)
    requires |a| == |b|
    ensures Dot(Combine(p, b, q, a), Combine(p, b, q, a)) == Form(p, q, Dot(b, b), Dot(a, b), Dot(a, a))
  {
    hide Form, Term, Times;
    FormZero(p, q);
    if a != [] {
      var n := |a| - 1;
      var c := Combine(p, b, q, a);
      Expand(p, b[..n], q, a[..n]);
      assert c[..n] == Combine(p, b[..n], q, a[..n]);
      FormOfSquare(p, b[n], q, a[n]);
      FormAdds(p, q, Dot(b[..n], b[..n]), Dot(a[..n], b[..n]), Dot(a[..n], a[..n]), Times(b[n], b[n]), Times(a[n], b[n]), Times(a[n], a[n]));
    }
  }

  lemma {:induction false} ZeroDot(a: seq<real>, b: seq<real>)
    requires |a| == |b| && forall i :: 0 <= i < |a| ==> a[i] == 0.0
    ensures Dot(a, b) == 0.0
  {
    if a != [] {
      ZeroDot(a[..|a| - 1], b[..|b| - 1]);
      ProductZero(0.0, b[|b| - 1]);
      hide Times;
    }
  }

  lemma Factor(n: real, d: real, m: real)
    ensures Form(n, d, m, d, n) == Times(n, Times(n, m) - Times(d, d))
  {
    hide Times;
    Associates(n, n, m);
    Associates(n, d, d);
    Commutes(Times(d, d), n);
    Distributes(n, Times(n, m), -Times(d, d));
    Negates(n, Times(d, d));
  }

  /** The square of a dot product is at most the product of the squares; equal exactly when one side is a multiple. */
  lemma CauchySchwarz(a: seq<real>, b: seq<real>)
    requires |a| == |b|
    ensures Times(Dot(a, b), Dot(a, b)) <= Times(Dot(a, a), Dot(b, b))
    ensures Times(Dot(a, b), Dot(a, b)) == Times(Dot(a, a), Dot(b, b)) <==> IsMultiple(b, Dot(a, a), a, Dot(a, b))
  {
    hide Dot, Form, Times;
    var n, d, m := Dot(a, a), Dot(a, b), Dot(b, b);
    SquaresNonNegative(a);
    if n == 0.0 {
      ZeroDot(a, b);
      ProductZero(n, m);
      ProductZero(d, d);
      ZeroMultiple(a, b);
    } else {
      var c := Combine(n, b, d, a);
      Expand(n, b, d, a);
      SquaresNonNegative(c);
      Factor(n, d, m);
      Sign(n, Times(n, m) - Times(d, d));
      MultipleIsZero(n, b, d, a);
    }
  }

  /** p times b is q times a, term by term. */
  ghost predicate IsMultiple(b: seq<real>, p: real, a: seq<real>, q: real)
    requires |a| == |b|
  {
    forall i :: 0 <= i < |a| ==> Times(p, b[i]) == Times(q, a[i])
  }

  lemma ZeroMultiple(a: seq<real>, b: seq<real>)
    requires |a| == |b|
    ensures IsMultiple(b, 0.0, a, 0.0)
  {
  }

  lemma MultipleIsZero(p: real, b: seq<real>, q: real, a: seq<real>)
    requires |a| == |b|
    ensures var c := Combine(p, b, q, a); IsMultiple(b, p, a, q) <==> forall i :: 0 <= i < |c| ==> c[i] == 0.0
  {
    hide Times;
    var c := Combine(p, b, q, a);
    if forall i :: 0 <= i < |c| ==> c[i] == 0.0 {
      forall i | 0 <= i < |a|
        ensures Times(p, b[i]) == Times(q, a[i])
      {
        assert c[i] == 0.0;
      }
    }
  }

  // ---------- The coefficient ----------

  ghost predicate AllEqual(s: seq<real>) {
    forall i, j :: 0 <= i < |s| && 0 <= j < |s| ==> s[i] == s[j]
  }

  lemma {:induction false} SumOfEqual(s: seq<real>, v: real)
    requires forall i :: 0 <= i < |s| ==> s[i] == v
    ensures Sum(s) == Times(v, |s| as real)
  {
    hide Times;
    Units(v);
    if s != [] {
      SumOfEqual(s[..|s| - 1], v);
      Distributes(v, (|s| - 1) as real, 1.0);
    }
  }

  lemma NoSpread(s: seq<real>)
    ensures Spread(s) >= 0.0
    ensures Spread(s) == 0.0 <==> AllEqual(s)
  {
    hide Times;
    var d := Deviations(s);
    SquaresNonNegative(d);
    if AllEqual(s) && s != [] {
      SumOfEqual(s, s[0]);
      MeanOf(Sum(s), |s| as real, s[0]);
    }
    if Spread(s) == 0.0 {
      forall i, j | 0 <= i < |s| && 0 <= j < |s|
        ensures s[i] == s[j]
      {
        assert d[i] == d[j] == 0.0;
      }
    }
  }

  lemma MeanOf(total: real, n: real, v: real)
    requires n > 0.0 && total == Times(v, n)
    ensures total / n == v
  {
    assert v * n / n == v;
  }

  /** Undefined exactly with fewer than two pairs or when one axis does not vary. */
  lemma UndefinedExactly(pairs: seq<Pair>, root: real)
    requires IsRoot(root, pairs)
    ensures Coefficient(pairs, root).None? <==> |pairs| < 2 || AllEqual(Xs(pairs)) || AllEqual(Ys(pairs))
  {
    hide Times, Spread, AllEqual;
    NoSpread(Xs(pairs));
    NoSpread(Ys(pairs));
    ProductZero(Spread(Xs(pairs)), Spread(Ys(pairs)));
    ProductZero(root, root);
  }

  lemma SquareBounds(n: real, root: real)
    requires root > 0.0 && Times(n, n) <= Times(root, root)
    ensures -1.0 <= n / root <= 1.0
    ensures Times(n / root, n / root) == 1.0 <==> Times(n, n) == Times(root, root)
  {
    hide Times;
    var q := n / root;
    Quotient(n, root);
    Exchange(q, root, q, root);
    Positive(root, root);
    Compare(Times(q, q), Times(root, root));
    WithinOne(q);
  }

  lemma Compare(q: real, r: real)
    requires r > 0.0
    ensures (Times(q, r) <= r <==> q <= 1.0) && (Times(q, r) == r <==> q == 1.0)
  {
    hide Times;
    Commutes(q, r);
    Distributes(r, q, -1.0);
    Negates(r, 1.0);
    Units(r);
    Sign(r, q - 1.0);
  }

  lemma WithinOne(q: real)
    requires Times(q, q) <= 1.0
    ensures -1.0 <= q <= 1.0
  {
    hide Times;
    Negates(q, q);
    Negates(-q, q);
    if q > 1.0 {
      Commutes(q, q);
      Compare(q, q);
    } else if q < -1.0 {
      Compare(-q, -q);
    }
  }

  // ---------- What the sums are ----------

  lemma {:induction false} SumAdds(a: seq<real>, b: seq<real>)
    ensures Sum(a + b) == Sum(a) + Sum(b)
    ensures |b| == 1 ==> Sum(b) == b[0]
  {
    if b == [] {
      assert a + b == a;
    } else {
      assert (a + b)[..|a + b| - 1] == a + b[..|b| - 1];
      SumAdds(a, b[..|b| - 1]);
    }
  }

  lemma {:induction false} DotAdds(a: seq<real>, b: seq<real>, a': seq<real>, b': seq<real>)
    requires |a| == |b| && |a'| == |b'|
    ensures Dot(a + a', b + b') == Dot(a, b) + Dot(a', b')
    ensures |a'| == 1 ==> Dot(a', b') == a'[0] * b'[0]
  {
    if a' == [] {
      assert a + a' == a && b + b' == b;
    } else {
      var n := |a'| - 1;
      assert (a + a')[..|a + a'| - 1] == a + a'[..n] && (b + b')[..|b + b'| - 1] == b + b'[..n];
      DotAdds(a, b, a'[..n], b'[..n]);
      hide Times;
      assert Times(a'[n], b'[n]) == a'[n] * b'[n] by { TimesIs(a'[n], b'[n]); }
    }
  }

  lemma TimesIs(a: real, b: real)
    ensures Times(a, b) == a * b
  {
  }

  /** Taking a constant off every number. */
  function Less(s: seq<real>, c: real): (d: seq<real>)
    ensures |d| == |s| && forall i :: 0 <= i < |s| ==> d[i] == s[i] - c
  {
    seq(|s|, i requires 0 <= i < |s| => s[i] - c)
  }

  lemma {:induction false} LessSum(s: seq<real>, c: real)
    ensures Sum(Less(s, c)) == Sum(s) - Times(c, |s| as real)
  {
    hide Times;
    Units(c);
    if s != [] {
      var n := |s| - 1;
      LessSum(s[..n], c);
      assert Less(s, c)[..n] == Less(s[..n], c);
      Distributes(c, n as real, 1.0);
    }
  }

  /** The centre is the mean: deviations from it cancel out. */
  lemma DeviationsCancel(s: seq<real>)
    requires s != []
    ensures Sum(Deviations(s)) == 0.0
  {
    assert Deviations(s) == Less(s, Mean(s));
    LessSum(s, Mean(s));
    Quotient(Sum(s), |s| as real);
  }

  lemma ShiftedProduct(x: real, y: real, a: real, b: real)
    ensures Times(x - a, y - b) == Times(x, y) - Times(b, x) - Times(a, y) + Times(a, b)
  {
    hide Times;
    Distributes(x - a, y, -b);
    Negates(x - a, b);
    Commutes(x - a, y);
    Commutes(x - a, b);
    Distributes(y, x, -a);
    Distributes(b, x, -a);
    Negates(y, a);
    Negates(b, a);
    Commutes(x, y);
    Commutes(a, y);
    Commutes(a, b);
  }

  lemma {:induction false} ShiftedDot(x: seq<real>, y: seq<real>, a: real, b: real)
    requires |x| == |y|
    ensures Dot(Less(x, a), Less(y, b)) ==
            Dot(x, y) - Times(b, Sum(x)) - Times(a, Sum(y)) + Times(Times(a, b), |x| as real)
  {
    hide Times;
    Units(a);
    Units(b);
    Units(Times(a, b));
    if x != [] {
      var n := |x| - 1;
      ShiftedDot(x[..n], y[..n], a, b);
      assert Less(x, a)[..n] == Less(x[..n], a) && Less(y, b)[..n] == Less(y[..n], b);
      ShiftedProduct(x[n], y[n], a, b);
      Distributes(b, Sum(x[..n]), x[n]);
      Distributes(a, Sum(y[..n]), y[n]);
      Distributes(Times(a, b), n as real, 1.0);
    }
  }

  /** The sums of products of deviations, from the plain sums: n times one of them is n times the sum of the products
      less the product of the sums. */
  lemma FromPlainSums(x: seq<real>, y: seq<real>)
    requires |x| == |y| && x != []
    ensures Times(|x| as real, Dot(Deviations(x), Deviations(y))) == Times(|x| as real, Dot(x, y)) - Times(Sum(x), Sum(y))
  {
    var n, a, b := |x| as real, Mean(x), Mean(y);
    assert Deviations(x) == Less(x, a) && Deviations(y) == Less(y, b);
    ShiftedDot(x, y, a, b);
    Quotient(Sum(x), n);
    Quotient(Sum(y), n);
    hide Times, Dot, Mean, Sum;
    CentredSums(n, Dot(x, y), Sum(x), Sum(y), a, b);
  }

  lemma CentredSums(n: real, d: real, sx: real, sy: real, a: real, b: real)
    requires Times(a, n) == sx && Times(b, n) == sy
    ensures Times(n, d - Times(b, sx) - Times(a, sy) + Times(Times(a, b), n)) == Times(n, d) - Times(sx, sy)
  {
    hide Times;
    var p := Times(Times(a, b), n);
    Associates(a, b, n);
    Associates(b, a, n);
    Commutes(a, b);
    assert Times(b, sx) == p && Times(a, sy) == p;
    Distributes(n, d, -p);
    Negates(n, p);
    Associates(n, a, sy);
    Commutes(n, a);
  }

  /** The coefficient is 1 exactly on rising lines, and -1 exactly on falling ones. */
  lemma EndsAreLines(pairs: seq<Pair>, root: real)
    requires IsRoot(root, pairs) && Coefficient(pairs, root).Some?
    ensures Coefficient(pairs, root).value == 1.0 <==> exists slope, intercept :: slope > 0.0 && IsLine(pairs, slope, intercept)
    ensures Coefficient(pairs, root).value == -1.0 <==> exists slope, intercept :: slope < 0.0 && IsLine(pairs, slope, intercept)
  {
    hide Dot, Deviations, Times, IsLine, Spread, Numerator;
    var v, x, n := Coefficient(pairs, root).value, Spread(Xs(pairs)), Numerator(pairs);
    UndefinedExactly(pairs, root);
    NoSpread(Xs(pairs));
    Bounded(pairs, root);
    UnitSquare(v);
    QuotientSign(n, root);
    if OnOneLine(pairs) {
      forall slope, intercept | IsLine(pairs, slope, intercept)
        ensures (slope > 0.0 <==> v > 0.0) && (slope < 0.0 <==> v < 0.0)
      {
        LineNumerator(pairs, slope, intercept);
        Sign(x, slope);
        Commutes(x, slope);
      }
      var slope, intercept :| IsLine(pairs, slope, intercept);
    }
  }

  lemma UnitSquare(v: real)
    ensures Times(v, v) == 1.0 <==> v == 1.0 || v == -1.0
  {
    hide Times;
    Units(1.0);
    Negates(1.0, 1.0);
    Negates(1.0, -1.0);
    SquareOfDifference(v, 1.0);
    Distributes(v - 1.0, v, 1.0);
    Distributes(v, v, -1.0);
    Commutes(v - 1.0, v);
    Negates(v, 1.0);
    Units(v);
    Units(v - 1.0);
    ProductZero(v - 1.0, v + 1.0);
  }

  lemma QuotientSign(n: real, root: real)
    requires root != 0.0 ==> root > 0.0
    ensures root > 0.0 ==> (n / root > 0.0 <==> n > 0.0) && (n / root < 0.0 <==> n < 0.0)
  {
    hide Times;
    if root > 0.0 {
      var q := n / root;
      Quotient(n, root);
      Commutes(q, root);
      Sign(root, q);
    }
  }

  lemma LineNumerator(pairs: seq<Pair>, slope: real, intercept: real)
    requires IsLine(pairs, slope, intercept)
    ensures Numerator(pairs) == Times(slope, Spread(Xs(pairs)))
  {
    var dx := Deviations(Xs(pairs));
    assert Ys(pairs) == Moved(Xs(pairs), slope, intercept);
    MovedDeviations(Xs(pairs), slope, intercept);
    hide Dot, Times, Deviations;
    ScaledDot(dx, dx, slope);
    DotSymmetric(dx, Moved(dx, slope, 0.0));
  }

  function Swapped(pairs: seq<Pair>): (r: seq<Pair>)
    ensures |r| == |pairs| && forall i :: 0 <= i < |pairs| ==> r[i] == (pairs[i].1, pairs[i].0)
  {
    seq(|pairs|, i requires 0 <= i < |pairs| => (pairs[i].1, pairs[i].0))
  }

  lemma {:induction false} DotSymmetric(a: seq<real>, b: seq<real>)
    requires |a| == |b|
    ensures Dot(a, b) == Dot(b, a)
  {
    if a != [] {
      DotSymmetric(a[..|a| - 1], b[..|b| - 1]);
      Commutes(a[|a| - 1], b[|b| - 1]);
      hide Times;
    }
  }

  /** Swapping the axes changes neither the root nor the coefficient. */
  lemma SwapInvariant(pairs: seq<Pair>, root: real)
    ensures IsRoot(root, Swapped(pairs)) <==> IsRoot(root, pairs)
    ensures Coefficient(Swapped(pairs), root) == Coefficient(pairs, root)
  {
    hide Times;
    Commutes(Spread(Xs(pairs)), Spread(Ys(pairs)));
    assert Xs(Swapped(pairs)) == Ys(pairs) && Ys(Swapped(pairs)) == Xs(pairs);
    DotSymmetric(Deviations(Xs(pairs)), Deviations(Ys(pairs)));
  }

  function Affine(scale: real, shift: real, v: real): real { Times(scale, v) + shift }

  function Moved(s: seq<real>, scale: real, shift: real): (r: seq<real>)
    ensures |r| == |s| && forall i :: 0 <= i < |s| ==> r[i] == Affine(scale, shift, s[i])
  {
    seq(|s|, i requires 0 <= i < |s| => Affine(scale, shift, s[i]))
  }

  lemma {:induction false} MovedSum(s: seq<real>, scale: real, shift: real)
    ensures Sum(Moved(s, scale, shift)) == Times(scale, Sum(s)) + Times(shift, |s| as real)
  {
    hide Times;
    Units(scale);
    Units(shift);
    if s != [] {
      var n := |s| - 1;
      MovedSum(s[..n], scale, shift);
      assert Moved(s, scale, shift)[..n] == Moved(s[..n], scale, shift);
      Distributes(shift, n as real, 1.0);
      Distributes(scale, Sum(s[..n]), s[n]);
    }
  }

  lemma MovedMean(total: real, n: real, scale: real, shift: real)
    requires n > 0.0
    ensures (Times(scale, total) + Times(shift, n)) / n == Times(scale, total / n) + shift
  {
    hide Times;
    var mean := total / n;
    Quotient(total, n);
    Associates(scale, mean, n);
    Commutes(n, Times(scale, mean));
    Commutes(n, shift);
    Distributes(n, Times(scale, mean), shift);
    Commutes(n, Times(scale, mean) + shift);
    MeanOf(Times(scale, total) + Times(shift, n), n, Times(scale, mean) + shift);
  }

  lemma MovedDeviations(s: seq<real>, scale: real, shift: real)
    ensures Deviations(Moved(s, scale, shift)) == Moved(Deviations(s), scale, 0.0)
  {
    hide Times;
    if s != [] {
      MovedSum(s, scale, shift);
      MovedMean(Sum(s), |s| as real, scale, shift);
      forall i | 0 <= i < |s|
        ensures Deviations(Moved(s, scale, shift))[i] == Moved(Deviations(s), scale, 0.0)[i]
      {
        Distributes(scale, s[i], -Mean(s));
        Negates(scale, Mean(s));
      }
    }
  }

  lemma {:induction false} ScaledDot(a: seq<real>, b: seq<real>, scale: real)
    requires |a| == |b|
    ensures Dot(Moved(a, scale, 0.0), b) == Times(scale, Dot(a, b))
  {
    hide Times;
    Units(scale);
    if a != [] {
      var n := |a| - 1;
      ScaledDot(a[..n], b[..n], scale);
      assert Moved(a, scale, 0.0)[..n] == Moved(a[..n], scale, 0.0);
      Distributes(scale, Dot(a[..n], b[..n]), Times(a[n], b[n]));
      Associates(scale, a[n], b[n]);
    }
  }

  // ---------- Bounds ----------

  /** Some line goes through all the points. */
  ghost predicate OnOneLine(pairs: seq<Pair>) {
    exists slope, intercept :: IsLine(pairs, slope, intercept)
  }

  ghost predicate IsLine(pairs: seq<Pair>, slope: real, intercept: real) {
    forall i :: 0 <= i < |pairs| ==> pairs[i].1 == Affine(slope, intercept, pairs[i].0)
  }

  /** Deviations in y are one multiple of those in x. */
  ghost predicate Proportional(pairs: seq<Pair>) {
    IsMultiple(Deviations(Ys(pairs)), Spread(Xs(pairs)), Deviations(Xs(pairs)), Numerator(pairs))
  }

  lemma LineIsProportional(pairs: seq<Pair>, slope: real, intercept: real)
    requires IsLine(pairs, slope, intercept)
    ensures Proportional(pairs)
  {
    var dx, dy := Deviations(Xs(pairs)), Deviations(Ys(pairs));
    assert Ys(pairs) == Moved(Xs(pairs), slope, intercept);
    MovedDeviations(Xs(pairs), slope, intercept);
    hide Dot, Times, Deviations;
    ScaledDot(dx, dx, slope);
    DotSymmetric(dx, Moved(dx, slope, 0.0));
    forall i | 0 <= i < |pairs|
      ensures Times(Spread(Xs(pairs)), dy[i]) == Times(Numerator(pairs), dx[i])
    {
      assert dy[i] == Times(slope, dx[i]) + 0.0;
      Associates(Spread(Xs(pairs)), slope, dx[i]);
      Commutes(Spread(Xs(pairs)), slope);
    }
  }

  /** The regression line: the slope that the deviations share, through the means. */
  lemma ProportionalIsLine(pairs: seq<Pair>) returns (slope: real, intercept: real)
    requires Proportional(pairs) && pairs != [] && Spread(Xs(pairs)) > 0.0
    ensures IsLine(pairs, slope, intercept)
  {
    var dx, dy, x, n := Deviations(Xs(pairs)), Deviations(Ys(pairs)), Spread(Xs(pairs)), Numerator(pairs);
    slope := n / x;
    intercept := Mean(Ys(pairs)) - Times(slope, Mean(Xs(pairs)));
    hide Dot, Times, Spread, Numerator;
    forall i | 0 <= i < |pairs|
      ensures pairs[i].1 == Affine(slope, intercept, pairs[i].0)
    {
      assert Times(x, dy[i]) == Times(n, dx[i]);
      Quotient(n, x);
      Commutes(slope, x);
      Associates(x, slope, dx[i]);
      CancelFactor(x, dy[i], Times(slope, dx[i]));
      Distributes(slope, pairs[i].0, -Mean(Xs(pairs)));
      Negates(slope, Mean(Xs(pairs)));
    }
  }

  lemma CancelFactor(a: real, b: real, c: real)
    requires a > 0.0 && Times(a, b) == Times(a, c)
    ensures b == c
  {
    hide Times;
    Distributes(a, b, -c);
    Negates(a, c);
    Sign(a, b - c);
  }

  /** The coefficient never leaves [-1, 1], and reaches an end exactly when some line goes through all the points. */
  lemma Bounded(pairs: seq<Pair>, root: real)
    requires IsRoot(root, pairs) && Coefficient(pairs, root).Some?
    ensures -1.0 <= Coefficient(pairs, root).value <= 1.0
    ensures Times(Coefficient(pairs, root).value, Coefficient(pairs, root).value) == 1.0 <==> OnOneLine(pairs)
  {
    hide Dot, IsMultiple, Deviations, Times, IsLine;
    CauchySchwarz(Deviations(Xs(pairs)), Deviations(Ys(pairs)));
    SquareBounds(Numerator(pairs), root);
    UndefinedExactly(pairs, root);
    NoSpread(Xs(pairs));
    if Proportional(pairs) {
      var slope, intercept := ProportionalIsLine(pairs);
    } else if slope, intercept :| IsLine(pairs, slope, intercept) {
      LineIsProportional(pairs, slope, intercept);
    }
  }

  /** Measuring x in other units, from another origin, changes nothing. */
  lemma UnitsInvariant(pairs: seq<Pair>, pairs': seq<Pair>, root: real, scale: real, shift: real)
    requires scale > 0.0 && IsRoot(root, pairs)
    requires Xs(pairs') == Moved(Xs(pairs), scale, shift) && Ys(pairs') == Ys(pairs)
    ensures IsRoot(Times(scale, root), pairs')
    ensures Coefficient(pairs', Times(scale, root)) == Coefficient(pairs, root)
  {
    hide Dot, Deviations, Moved, Times;
    var dx, dy := Deviations(Xs(pairs)), Deviations(Ys(pairs));
    assert |pairs'| == |Xs(pairs')| == |pairs|;
    MovedDeviations(Xs(pairs), scale, shift);
    ScaledDot(dx, dy, scale);
    ScaledDot(dx, Moved(dx, scale, 0.0), scale);
    DotSymmetric(dx, Moved(dx, scale, 0.0));
    ScaledDot(dx, dx, scale);
    ScaledRoot(scale, root, Spread(Xs(pairs)), Spread(Ys(pairs)));
    if root != 0.0 {
      Cancel(Numerator(pairs), root, scale);
    }
  }

  lemma ScaledRoot(scale: real, root: real, x: real, y: real)
    requires scale > 0.0 && root >= 0.0 && Times(root, root) == Times(x, y)
    ensures Times(scale, root) >= 0.0 && (Times(scale, root) == 0.0 <==> root == 0.0)
    ensures Times(Times(scale, root), Times(scale, root)) == Times(Times(scale, Times(scale, x)), y)
  {
    hide Times;
    Sign(scale, root);
    Exchange(scale, root, scale, root);
    Associates(scale, scale, x);
    Associates(Times(scale, scale), x, y);
  }

  lemma Cancel(n: real, root: real, scale: real)
    requires root > 0.0 && scale > 0.0
    ensures Times(scale, root) > 0.0 && Times(scale, n) / Times(scale, root) == n / root
  {
    hide Times;
    var q := n / root;
    Positive(scale, root);
    Quotient(n, root);
    Commutes(q, root);
    Associates(scale, root, q);
    Commutes(q, Times(scale, root));
    MeanOf(Times(scale, n), Times(scale, root), q);
  }
}
