/**
 Cohen's kappa over two rating lists (meta/drift.py).

 `Compute` follows the program: it fills a confusion matrix in place, sums its
 diagonal, rows and columns, and divides.  `Kappa` is the definition it is proved
 against: it counts agreements and marginals straight from the rating lists and
 never mentions a matrix.
 */
module CohensKappa {
  import opened Basics
  import opened Wrappers

  datatype Error = IndexError

  /** The category index a rating falls into: ratings start at 1 and are clamped. */
  function Category(rating: int, categories: int): int {
    var top := if rating - 1 < categories - 1 then rating - 1 else categories - 1;
    if top < 0 then 0 else top
  }

  /** How many ratings fall into category `c`. */
  function Count(xs: seq<int>, categories: int, c: int): nat {
    if xs == [] then 0
    else Count(xs[..|xs| - 1], categories, c)
         + if Category(xs[|xs| - 1], categories) == c then 1 else 0
  }

  /** How many positions fall into category `i` on the left and `j` on the right. */
  function PairCount(a: seq<int>, b: seq<int>, categories: int, i: int, j: int): nat
    requires |a| == |b|
  {
    if a == [] then 0
    else PairCount(a[..|a| - 1], b[..|a| - 1], categories, i, j)
         + if Category(a[|a| - 1], categories) == i && Category(b[|a| - 1], categories) == j then 1 else 0
  }

  /** How many positions fall into the same category on both sides. */
  function Hits(a: seq<int>, b: seq<int>, categories: int): nat
    requires |a| == |b|
  {
    if a == [] then 0
    else Hits(a[..|a| - 1], b[..|a| - 1], categories)
         + if Category(a[|a| - 1], categories) == Category(b[|a| - 1], categories) then 1 else 0
  }

  /** The sum of the products of the two marginals over the first `m` categories. */
  function MarginProducts(a: seq<int>, b: seq<int>, categories: int, m: nat): nat {
    if m == 0 then 0
    else MarginProducts(a, b, categories, m - 1) + Count(a, categories, m - 1) * Count(b, categories, m - 1)
  }

  function Observed(a: seq<int>, b: seq<int>, categories: int): real
    requires |a| == |b| > 0
  {
    Hits(a, b, categories) as real / |a| as real
  }

  function Expected(a: seq<int>, b: seq<int>, categories: nat): real
    requires |a| == |b| > 0
  {
    MarginProducts(a, b, categories, categories) as real / (|a| * |a|) as real
  }

  /** Cohen's kappa, from agreement counts and marginals. */
  function Kappa(a: seq<int>, b: seq<int>, categories: nat): real {
    if |a| != |b| || a == [] then 0.0
    else
      var po, pe := Observed(a, b, categories), Expected(a, b, categories);
      if pe == 1.0 then 1.0 else (po - pe) / (1.0 - pe)
  }

  // ----- the confusion matrix and its sums

  ghost function RowTotal(a: seq<int>, b: seq<int>, categories: int, i: int, m: nat): nat
    requires |a| == |b|
  {
    if m == 0 then 0 else RowTotal(a, b, categories, i, m - 1) + PairCount(a, b, categories, i, m - 1)
  }

  ghost function ColumnTotal(a: seq<int>, b: seq<int>, categories: int, j: int, m: nat): nat
    requires |a| == |b|
  {
    if m == 0 then 0 else ColumnTotal(a, b, categories, j, m - 1) + PairCount(a, b, categories, m - 1, j)
  }

  ghost function DiagonalTotal(a: seq<int>, b: seq<int>, categories: int, m: nat): nat
    requires |a| == |b|
  {
    if m == 0 then 0 else DiagonalTotal(a, b, categories, m - 1) + PairCount(a, b, categories, m - 1, m - 1)
  }

  ghost function MarginTotal(xs: seq<int>, categories: int, m: nat): nat {
    if m == 0 then 0 else MarginTotal(xs, categories, m - 1) + Count(xs, categories, m - 1)
  }

  ghost predicate Tabulates(confusion: array2<nat>, a: seq<int>, b: seq<int>, categories: nat)
    requires |a| == |b|
    reads confusion
  {
    && confusion.Length0 == confusion.Length1 == categories
    && forall i, j :: 0 <= i < categories && 0 <= j < categories ==> confusion[i, j] == PairCount(a, b, categories, i, j)
  }

  lemma {:induction m} RowTotalEmpty(b: seq<int>, categories: nat, i: int, m: nat)
    requires b == []
    ensures RowTotal([], b, categories, i, m) == 0 == ColumnTotal([], b, categories, i, m) == DiagonalTotal([], b, categories, m)
    ensures MarginTotal([], categories, m) == 0
  {
  }

  lemma {:induction m} RowTotalStep(a: seq<int>, b: seq<int>, categories: nat, i: int, m: nat)
    requires |a| == |b| > 0
    ensures var c, d := Category(a[|a| - 1], categories), Category(b[|a| - 1], categories);
            && RowTotal(a, b, categories, i, m)
               == RowTotal(a[..|a| - 1], b[..|a| - 1], categories, i, m) + (if c == i && d < m then 1 else 0)
            && ColumnTotal(a, b, categories, i, m)
               == ColumnTotal(a[..|a| - 1], b[..|a| - 1], categories, i, m) + (if d == i && c < m then 1 else 0)
            && DiagonalTotal(a, b, categories, m)
               == DiagonalTotal(a[..|a| - 1], b[..|a| - 1], categories, m) + (if c == d && c < m then 1 else 0)
            && MarginTotal(a, categories, m) == MarginTotal(a[..|a| - 1], categories, m) + (if c < m then 1 else 0)
  {
  }

  /** With at least one category, row sums and column sums are the marginals, the
      diagonal is the number of agreements, and the marginals add up to the list. */
  lemma {:induction false} SumsOfTheMatrix(a: seq<int>, b: seq<int>, categories: nat, i: int)
    requires |a| == |b| && categories > 0
    ensures RowTotal(a, b, categories, i, categories) == Count(a, categories, i)
    ensures ColumnTotal(a, b, categories, i, categories) == Count(b, categories, i)
    ensures DiagonalTotal(a, b, categories, categories) == Hits(a, b, categories)
    ensures MarginTotal(a, categories, categories) == |a|
    decreases |a|
  {
    if a == [] {
      RowTotalEmpty(b, categories, i, categories);
    } else {
      SumsOfTheMatrix(a[..|a| - 1], b[..|a| - 1], categories, i);
      RowTotalStep(a, b, categories, i, categories);
    }
  }

  // ----- the bounds

  /** Inclusion-exclusion for one category: `i` on the left or on the right. */
  lemma {:induction false} MarginsOverlap(a: seq<int>, b: seq<int>, categories: int, i: int)
    requires |a| == |b|
    ensures PairCount(a, b, categories, i, i) <= Count(a, categories, i)
    ensures PairCount(a, b, categories, i, i) <= Count(b, categories, i)
    ensures Count(a, categories, i) + Count(b, categories, i) <= |a| + PairCount(a, b, categories, i, i)
    decreases |a|
  {
    if a != [] {
      MarginsOverlap(a[..|a| - 1], b[..|a| - 1], categories, i);
    }
  }

  lemma MulMonotone(x: int, y: int, z: int)
    requires x <= y && 0 <= z
    ensures x * z <= y * z
  {
  }

  lemma SquareIsNonNegative(x: int)
    ensures 0 <= x * x
  {
  }

  lemma ProductOfSum(r: int, c: int)
    ensures 4 * (r * c) <= (r + c) * (r + c)
  {
    SquareIsNonNegative(r - c);
    assert (r - c) * (r - c) == r * r - 2 * (r * c) + c * c;
    assert (r + c) * (r + c) == r * r + 2 * (r * c) + c * c;
  }

  lemma SquareBound(n: nat, s: nat, d: nat)
    requires s <= n + d && s <= 2 * n
    ensures s * s <= n * s + 2 * (n * d)
  {
    calc {
      s * s;
    <= { MulMonotone(s, n + d, s); }
      (n + d) * s;
    == { Commute(n + d, s); Distribute(s, n, d); }
      s * n + s * d;
    <= { MulMonotone(s, 2 * n, d); }
      s * n + (2 * n) * d;
    == { Commute(s, n); }
      n * s + 2 * (n * d);
    }
  }

  lemma Commute(x: int, y: int)
    ensures x * y == y * x
  {
  }

  lemma TermBound(n: nat, r: nat, c: nat, d: nat)
    requires d <= r <= n && d <= c <= n && r + c <= n + d
    ensures 4 * (r * c) <= n * r + n * c + 2 * (n * d)
    ensures r * c <= n * c
  {
    calc {
      4 * (r * c);
    <= { ProductOfSum(r, c); }
      (r + c) * (r + c);
    <= { SquareBound(n, r + c, d); }
      n * (r + c) + 2 * (n * d);
    == { Distribute(n, r, c); }
      n * r + n * c + 2 * (n * d);
    }
    MulMonotone(r, n, c);
  }

  /** The inequality behind the lower bound, one category at a time. */
  lemma {:induction false} MarginProductsBound(a: seq<int>, b: seq<int>, categories: int, m: nat)
    requires |a| == |b|
    ensures 4 * MarginProducts(a, b, categories, m)
            <= |a| * MarginTotal(a, categories, m) + |a| * MarginTotal(b, categories, m)
               + 2 * (|a| * DiagonalTotal(a, b, categories, m))
    ensures MarginProducts(a, b, categories, m) <= |a| * MarginTotal(b, categories, m)
  {
    if m > 0 {
      MarginProductsBound(a, b, categories, m - 1);
      MarginsOverlap(a, b, categories, m - 1);
      var n, r, c := |a|, Count(a, categories, m - 1), Count(b, categories, m - 1);
      var d := PairCount(a, b, categories, m - 1, m - 1);
      TermBound(n, r, c, d);
      Distribute(n, MarginTotal(a, categories, m - 1), r);
      Distribute(n, MarginTotal(b, categories, m - 1), c);
      Distribute(n, DiagonalTotal(a, b, categories, m - 1), d);
    }
  }

  lemma Distribute(n: int, x: int, y: int)
    ensures n * (x + y) == n * x + n * y
  {
  }

  lemma ShareInUnit(x: nat, n: nat)
    requires 0 < n && x <= n
    ensures 0.0 <= x as real / n as real <= 1.0
    ensures x as real / n as real == 1.0 <==> x == n
  {
    var w := n as real;
    var q := x as real / w;
    assert q * w == x as real;
    SignTimes(q, w);
    SignTimes(1.0 - q, w);
  }

  lemma Cancel(h: nat, n: nat)
    requires n > 0
    ensures (n * h) as real / (n * n) as real == h as real / n as real
  {
    var rn, rh := n as real, h as real;
    var q := rh / rn;
    assert (n * h) as real == rn * rh && (n * n) as real == rn * rn;
    assert q * rn == rh;
    assert q * (rn * rn) == (q * rn) * rn == rn * rh;
    assert rn * rn > 0.0;
  }

  lemma ScaleDown(e: nat, h: nat, n: nat)
    requires n > 0 && 2 * e <= n * n + n * h && e <= n * n && h <= n
    ensures var po, pe := h as real / n as real, e as real / (n * n) as real;
            2.0 * pe <= 1.0 + po && 0.0 <= pe <= 1.0 && 0.0 <= po <= 1.0
    ensures h as real / n as real == 1.0 <==> h == n
  {
    var w := n * n;
    ShareInUnit(h, n);
    ShareInUnit(e, w);
    Cancel(h, n);
    var po, pe := (n * h) as real / w as real, e as real / w as real;
    assert po * w as real == (n * h) as real && pe * w as real == e as real;
    assert (1.0 + po - 2.0 * pe) * w as real == w as real + po * w as real - 2.0 * (pe * w as real);
    SignTimes(1.0 + po - 2.0 * pe, w as real);
  }

  lemma RatioBounds(po: real, pe: real)
    requires 0.0 <= pe < 1.0 && po <= 1.0 && 2.0 * pe <= 1.0 + po
    ensures -1.0 <= (po - pe) / (1.0 - pe) <= 1.0
    ensures (po - pe) / (1.0 - pe) == 1.0 <==> po == 1.0
  {
    var w := 1.0 - pe;
    var k := (po - pe) / w;
    assert k * w == po - pe;
    assert (1.0 - k) * w == w - k * w == 1.0 - po;
    assert (1.0 + k) * w == w + k * w == 1.0 + po - 2.0 * pe;
    SignTimes(1.0 - k, w);
    SignTimes(1.0 + k, w);
  }

  lemma {:induction false} HitsAreAgreements(a: seq<int>, b: seq<int>, categories: int)
    requires |a| == |b|
    ensures Hits(a, b, categories) <= |a|
    ensures Hits(a, b, categories) == |a|
            <==> forall t :: 0 <= t < |a| ==> Category(a[t], categories) == Category(b[t], categories)
    decreases |a|
  {
    if a != [] {
      HitsAreAgreements(a[..|a| - 1], b[..|a| - 1], categories);
    }
  }

  lemma AgreementRates(a: seq<int>, b: seq<int>, categories: nat)
    requires |a| == |b| > 0 && categories > 0
    ensures var po, pe := Observed(a, b, categories), Expected(a, b, categories);
            2.0 * pe <= 1.0 + po && 0.0 <= pe <= 1.0 && 0.0 <= po <= 1.0
    ensures Observed(a, b, categories) == 1.0
            <==> forall t :: 0 <= t < |a| ==> Category(a[t], categories) == Category(b[t], categories)
  {
    SumsOfTheMatrix(a, b, categories, 0);
    SumsOfTheMatrix(b, a, categories, 0);
    MarginProductsBound(a, b, categories, categories);
    HitsAreAgreements(a, b, categories);
    ScaleDown(MarginProducts(a, b, categories, categories), Hits(a, b, categories), |a|);
  }

  /** Kappa never leaves [-1, 1]. */
  lemma KappaBounds(a: seq<int>, b: seq<int>, categories: nat)
    requires categories > 0
    ensures -1.0 <= Kappa(a, b, categories) <= 1.0
  {
    if |a| == |b| > 0 {
      AgreementRates(a, b, categories);
      if Expected(a, b, categories) < 1.0 {
        RatioBounds(Observed(a, b, categories), Expected(a, b, categories));
      }
    }
  }

  /** On usable input kappa is 1 exactly when every clamped rating agrees; the
      special exit for an expected agreement of 1 never hides a disagreement. */
  lemma KappaOneIsAgreement(a: seq<int>, b: seq<int>, categories: nat)
    requires |a| == |b| > 0 && categories > 0
    ensures Kappa(a, b, categories) == 1.0
            <==> forall t :: 0 <= t < |a| ==> Category(a[t], categories) == Category(b[t], categories)
    ensures Expected(a, b, categories) == 1.0 ==> Observed(a, b, categories) == 1.0
  {
    AgreementRates(a, b, categories);
    if Expected(a, b, categories) < 1.0 {
      RatioBounds(Observed(a, b, categories), Expected(a, b, categories));
    }
  }

  lemma {:induction false} HitsSymmetric(a: seq<int>, b: seq<int>, categories: int)
    requires |a| == |b|
    ensures Hits(a, b, categories) == Hits(b, a, categories)
    decreases |a|
  {
    if a != [] {
      HitsSymmetric(a[..|a| - 1], b[..|a| - 1], categories);
    }
  }

  lemma {:induction false} MarginProductsSymmetric(a: seq<int>, b: seq<int>, categories: int, m: nat)
    ensures MarginProducts(a, b, categories, m) == MarginProducts(b, a, categories, m)
  {
    if m > 0 {
      MarginProductsSymmetric(a, b, categories, m - 1);
    }
  }

  /** It does not matter which rater is named first. */
  lemma KappaSymmetric(a: seq<int>, b: seq<int>, categories: nat)
    ensures Kappa(a, b, categories) == Kappa(b, a, categories)
  {
    if |a| == |b| {
      HitsSymmetric(a, b, categories);
      MarginProductsSymmetric(a, b, categories, categories);
    }
  }

  lemma {:induction false} ConstantMargins(a: seq<int>, b: seq<int>, categories: nat, c: int)
    requires |a| == |b| && 0 <= c < categories
    requires forall t :: 0 <= t < |a| ==> Category(a[t], categories) == c
    ensures Count(a, categories, c) == |a| && Hits(a, b, categories) == Count(b, categories, c)
    ensures forall i :: i != c ==> Count(a, categories, i) == 0
    decreases |a|
  {
    if a != [] {
      ConstantMargins(a[..|a| - 1], b[..|a| - 1], categories, c);
    }
  }

  lemma {:induction false} ConstantProducts(a: seq<int>, b: seq<int>, categories: nat, c: int, m: nat)
    requires Count(a, categories, c) == |a| && 0 <= c
    requires forall i :: i != c ==> Count(a, categories, i) == 0
    ensures MarginProducts(a, b, categories, m) == if c < m then |a| * Count(b, categories, c) else 0
  {
    if m > 0 {
      ConstantProducts(a, b, categories, c, m - 1);
    }
  }

  /** Chance correction: a rater who always gives the same category earns nothing by
      it.  Its kappa is 0, unless the other rater does the same and they agree. */
  lemma ConstantRaterEarnsNothing(a: seq<int>, b: seq<int>, categories: nat, c: int)
    requires |a| == |b| > 0 && 0 <= c < categories
    requires forall t :: 0 <= t < |a| ==> Category(a[t], categories) == c
    ensures Kappa(a, b, categories) == if Hits(a, b, categories) == |a| then 1.0 else 0.0
  {
    ConstantMargins(a, b, categories, c);
    ConstantProducts(a, b, categories, c, categories);
    HitsAreAgreements(a, b, categories);
    AgreementRates(a, b, categories);
    Cancel(Hits(a, b, categories), |a|);
    if Hits(a, b, categories) < |a| {
      assert Observed(a, b, categories) == Expected(a, b, categories) < 1.0;
    }
  }

  // ----- the program's own computation

  method FillConfusion(ratingsA: seq<int>, ratingsB: seq<int>, categories: nat) returns (confusion: array2<nat>)
    requires |ratingsA| == |ratingsB| && categories > 0
    ensures fresh(confusion) && Tabulates(confusion, ratingsA, ratingsB, categories)
  {
    confusion := new nat[categories, categories]((i, j) => 0);
    for t := 0 to |ratingsA|
      invariant Tabulates(confusion, ratingsA[..t], ratingsB[..t], categories)
    {
      var ai, bi := Category(ratingsA[t], categories), Category(ratingsB[t], categories);
      confusion[ai, bi] := confusion[ai, bi] + 1;
      assert ratingsA[..t + 1][..t] == ratingsA[..t] && ratingsB[..t + 1][..t] == ratingsB[..t];
    }
    assert ratingsA[..|ratingsA|] == ratingsA && ratingsB[..|ratingsA|] == ratingsB;
  }

  method SumDiagonal(confusion: array2<nat>, ghost a: seq<int>, ghost b: seq<int>, categories: nat) returns (total: nat)
    requires |a| == |b| && categories > 0 && Tabulates(confusion, a, b, categories)
    ensures total == Hits(a, b, categories)
  {
    total := 0;
    for i := 0 to categories
      invariant total == DiagonalTotal(a, b, categories, i)
    {
      total := total + confusion[i, i];
    }
    SumsOfTheMatrix(a, b, categories, 0);
  }

  method SumRow(confusion: array2<nat>, i: nat, ghost a: seq<int>, ghost b: seq<int>, categories: nat) returns (total: nat)
    requires |a| == |b| && i < categories && Tabulates(confusion, a, b, categories)
    ensures total == Count(a, categories, i)
  {
    total := 0;
    for j := 0 to categories
      invariant total == RowTotal(a, b, categories, i, j)
    {
      total := total + confusion[i, j];
    }
    SumsOfTheMatrix(a, b, categories, i);
  }

  method SumColumn(confusion: array2<nat>, j: nat, ghost a: seq<int>, ghost b: seq<int>, categories: nat) returns (total: nat)
    requires |a| == |b| && j < categories && Tabulates(confusion, a, b, categories)
    ensures total == Count(b, categories, j)
  {
    total := 0;
    for i := 0 to categories
      invariant total == ColumnTotal(a, b, categories, j, i)
    {
      total := total + confusion[i, j];
    }
    SumsOfTheMatrix(a, b, categories, j);
  }

  /** The program's kappa.  Lists that are empty or of different lengths give 0; with
      no category at all the first matrix access raises. */
  method Compute(ratingsA: seq<int>, ratingsB: seq<int>, numCategories: int := 5) returns (r: Result<real, Error>)
    ensures |ratingsA| == |ratingsB| > 0 && numCategories <= 0 <==> r.Err?
    ensures r.Ok? && |ratingsA| == |ratingsB| > 0 ==> r.value == Kappa(ratingsA, ratingsB, numCategories)
    ensures |ratingsA| != |ratingsB| || ratingsA == [] ==> r == Ok(0.0)
    ensures r.Ok? ==> -1.0 <= r.value <= 1.0
  {
    if |ratingsA| != |ratingsB| || ratingsA == [] {
      return Ok(0.0);
    }
    if numCategories <= 0 {
      return Err(IndexError);
    }
    var n := |ratingsA|;
    var confusion := FillConfusion(ratingsA, ratingsB, numCategories);
    var diagonal := SumDiagonal(confusion, ratingsA, ratingsB, numCategories);
    var po := diagonal as real / n as real;
    var products: nat := 0;
    for i := 0 to numCategories
      invariant Tabulates(confusion, ratingsA, ratingsB, numCategories)
      invariant products == MarginProducts(ratingsA, ratingsB, numCategories, i)
    {
      var row := SumRow(confusion, i, ratingsA, ratingsB, numCategories);
      var column := SumColumn(confusion, i, ratingsA, ratingsB, numCategories);
      products := products + row * column;
    }
    var pe := products as real / (n * n) as real;
    KappaBounds(ratingsA, ratingsB, numCategories);
    if pe == 1.0 {
      return Ok(1.0);
    }
    return Ok((po - pe) / (1.0 - pe));
  }
}
