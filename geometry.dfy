/**
 * The bidirectional dimension reconciler behind the building and room forms: a one-field
 * edit of length, breadth or area becomes a new (length, breadth, area) triple.
 * Numbers are exact reals; `parseFloat(x.toFixed(2))` and `Math.sqrt` are modelled by
 * exact decimal rounding (Round2, RoundedSqrt) rather than by IEEE doubles.
 */
module Geometry {
  import opened Wrappers

  /** The edited input: `'l'`, `'b'` or `'a'`. */
  datatype Field = Length | Breadth | Area

  /** A reconciled (length, breadth, area) triple. */
  datatype Dims = Dims(length: real, breadth: real, area: real)

  function Abs(x: real): real {
    if x < 0.0 then -x else x
  }

  function Sq(x: real): real {
    x * x
  }

  /** `x || 0` on an optional numeric form field: a missing field reads as 0. */
  function OrZero(x: Option<real>): real {
    x.GetOr(0.0)
  }

  /** `x` has at most two decimals. */
  predicate IsHundredths(x: real) {
    (100.0 * x).Floor as real == 100.0 * x
  }

  /** `y` rounded to the nearest hundredth, a tie going up. */
  function HalfUpHundredths(y: real): real {
    ((100.0 * y + 0.5).Floor as real) / 100.0
  }

  /** A whole number of hundredths has at most two decimals. */
  lemma HundredthsOf(n: int)
    ensures IsHundredths(n as real / 100.0)
  {
    var x := n as real / 100.0;
    assert 100.0 * x == n as real;
    assert (n as real).Floor == n;
  }

  /** Any whole number of hundredths, and its negation, has at most two decimals. */
  lemma WholeHundredths(n: int)
    ensures IsHundredths(n as real / 100.0) && IsHundredths(-(n as real / 100.0))
  {
    HundredthsOf(n);
    HundredthsOf(-n);
    assert -(n as real / 100.0) == (-n) as real / 100.0;
  }

  lemma HalfUpHundredthsBounds(y: real)
    ensures var m := HalfUpHundredths(y);
      IsHundredths(m) && IsHundredths(-m) && -1.0 / 200.0 < m - y <= 1.0 / 200.0
  {
    var n := (100.0 * y + 0.5).Floor;
    WholeHundredths(n);
    assert 100.0 * y - 0.5 < n as real <= 100.0 * y + 0.5;
  }

  /**
   * `parseFloat(x.toFixed(2))`: the nearest hundredth; `toFixed` rounds the magnitude and
   * picks the larger candidate on a tie, so ties go away from zero.
   */
  function Round2(x: real): (r: real)
    ensures IsHundredths(r)
    ensures Abs(r - x) <= 1.0 / 200.0
    ensures x >= 0.0 ==> r >= 0.0
  {
    HalfUpHundredthsBounds(Abs(x));
    if x >= 0.0 then HalfUpHundredths(x) else -HalfUpHundredths(-x)
  }

  /**
   * The integer nearest to the square root of `x` (a tie going up), found by counting up
   * from `k`: the k with (k - 1/2)^2 <= x < (k + 1/2)^2, or 0 when x < 1/4.
   */
  function RootSearch(x: real, k: nat): (r: nat)
    requires k == 0 || Sq(k as real - 0.5) <= x
    ensures k <= r
    ensures r == 0 || Sq(r as real - 0.5) <= x
    ensures x < Sq(r as real + 0.5)
    decreases x.Floor - k * k
  {
    if Sq(k as real + 0.5) <= x then
      assert (k * k) as real < x;
      assert k * k + 2 * k + 1 == (k + 1) * (k + 1);
      RootSearch(x, k + 1)
    else k
  }

  /** `parseFloat(Math.sqrt(a).toFixed(2))`: the hundredth nearest to the square root of `a`. */
  function RoundedSqrt(a: real): (r: real)
    ensures r >= 0.0 && IsHundredths(r)
    ensures var k := (100.0 * r).Floor;
      && (k == 0 || Sq(k as real - 0.5) <= 10000.0 * a)
      && 10000.0 * a < Sq(k as real + 0.5)
  {
    (RootSearch(10000.0 * a, 0) as real) / 100.0
  }

  /**
   * `updateBuildingDimensions` / `updateRoomDimensions`: the triple after setting `field`
   * to `value`, given the form's previous length and breadth. The previous area is read
   * by the source but every branch overwrites it, so it is not a parameter.
   */
  function Reconcile(length: Option<real>, breadth: Option<real>, field: Field, value: real): (d: Dims)
    ensures field == Length ==> d.length == value && d.breadth == OrZero(breadth)
    ensures field == Breadth ==> d.breadth == value && d.length == OrZero(length)
    ensures field != Area ==> d.area == d.length * d.breadth
    ensures field == Area ==> d.area == value
    ensures field == Area && value <= 0.0 ==> d.length == OrZero(length) && d.breadth == OrZero(breadth)
  {
    var l, b := OrZero(length), OrZero(breadth);
    match field
    case Length => Dims(value, b, value * b)
    case Breadth => Dims(l, value, l * value)
    case Area =>
      if value <= 0.0 then Dims(l, b, value)
      else if l > 0.0 then Dims(l, Round2(value / l), value)
      else if b > 0.0 then Dims(Round2(value / b), b, value)
      else var s := RoundedSqrt(value); Dims(s, s, value)
  }

  // ---------------------------------------------------------------- lemmas

  lemma SquareMonotone(p: real, q: real)
    requires 0.0 <= p <= q
    ensures Sq(p) <= Sq(q)
  {
    assert p * p <= p * q;
    assert p * q <= q * q;
  }

  /** At most one k satisfies the nearest-root characterisation, so RootSearch is exact. */
  lemma RootUnique(x: real, j: nat, k: nat)
    requires j == 0 || Sq(j as real - 0.5) <= x
    requires k == 0 || Sq(k as real - 0.5) <= x
    requires x < Sq(j as real + 0.5) && x < Sq(k as real + 0.5)
    ensures j == k
  {
    if j < k {
      SquareMonotone(j as real + 0.5, k as real - 0.5);
    } else if k < j {
      SquareMonotone(k as real + 0.5, j as real - 0.5);
    }
  }

  /** The rounded root squared is within a hundredth of itself (plus 1/40000) of `a`. */
  lemma RoundedSqrtError(a: real)
    requires a >= 0.0
    ensures var r := RoundedSqrt(a); Abs(r * r - a) <= r / 100.0 + 1.0 / 40000.0
  {
    var x := 10000.0 * a;
    var k := RootSearch(x, 0);
    var kr := k as real;
    assert Sq(kr + 0.5) == kr * kr + kr + 0.25;
    assert Sq(kr - 0.5) == kr * kr - kr + 0.25;
    assert x - kr * kr < kr + 0.25;
    assert kr * kr - x <= kr + 0.25;
    var r := kr / 100.0;
    assert r * r - a == (kr * kr - x) / 10000.0;
  }

  /** Scaling: if q is within e of t / l, then l * q is within l * e of t. */
  lemma ScaledError(l: real, q: real, t: real, e: real)
    requires l > 0.0 && Abs(q - t / l) <= e
    ensures Abs(l * q - t) <= l * e
  {
    var y := q - t / l;
    assert l * (t / l) == t;
    assert l * q - t == l * y;
    if y >= 0.0 {
      assert l * y <= l * e;
    } else {
      assert l * (-y) <= l * e;
    }
  }

  /**
   * An edit of a positive area selects its branch by what is known: a positive length is
   * kept, else a positive breadth is kept, else the plot is taken to be square.
   */
  lemma PositiveAreaEdit(length: Option<real>, breadth: Option<real>, value: real)
    requires value > 0.0
    ensures var d := Reconcile(length, breadth, Area, value);
      var l, b := OrZero(length), OrZero(breadth);
      && (l > 0.0 ==> d.length == l && d.breadth == Round2(value / l))
      && (l <= 0.0 && b > 0.0 ==> d.breadth == b && d.length == Round2(value / b))
      && (l <= 0.0 && b <= 0.0 ==> d.length == d.breadth == RoundedSqrt(value))
  {
  }

  /**
   * No side is negative and length * breadth agrees with the area up to two-decimal
   * rounding: within (length + breadth) / 200 + 1/40000.
   */
  predicate NearlyConsistent(d: Dims) {
    && d.length >= 0.0 && d.breadth >= 0.0
    && Abs(d.length * d.breadth - d.area) <= (d.length + d.breadth) / 200.0 + 1.0 / 40000.0
  }

  /** Keeping a positive length and rounding breadth to value / length is nearly consistent. */
  lemma KeptLengthConsistent(l: real, value: real)
    requires l > 0.0 && value > 0.0
    ensures NearlyConsistent(Dims(l, Round2(value / l), value))
  {
    ScaledError(l, Round2(value / l), value, 1.0 / 200.0);
  }

  /** Keeping a positive breadth and rounding length to value / breadth is nearly consistent. */
  lemma KeptBreadthConsistent(b: real, value: real)
    requires b > 0.0 && value > 0.0
    ensures NearlyConsistent(Dims(Round2(value / b), b, value))
  {
    var q := Round2(value / b);
    ScaledError(b, q, value, 1.0 / 200.0);
    assert q * b == b * q;
  }

  /** Taking a square plot of rounded side sqrt(value) is nearly consistent. */
  lemma SquareConsistent(value: real)
    requires value > 0.0
    ensures NearlyConsistent(Dims(RoundedSqrt(value), RoundedSqrt(value), value))
  {
    RoundedSqrtError(value);
  }

  /** After any positive area edit the triple is nearly consistent. */
  lemma PositiveAreaEditConsistent(length: Option<real>, breadth: Option<real>, value: real)
    requires value > 0.0
    ensures NearlyConsistent(Reconcile(length, breadth, Area, value))
  {
    var l, b := OrZero(length), OrZero(breadth);
    if l > 0.0 {
      KeptLengthConsistent(l, value);
      assert Reconcile(length, breadth, Area, value) == Dims(l, Round2(value / l), value);
    } else if b > 0.0 {
      KeptBreadthConsistent(b, value);
      assert Reconcile(length, breadth, Area, value) == Dims(Round2(value / b), b, value);
    } else {
      SquareConsistent(value);
      assert Reconcile(length, breadth, Area, value) == Dims(RoundedSqrt(value), RoundedSqrt(value), value);
    }
  }

  /** Repeating a length or breadth edit changes nothing. */
  lemma LinearEditIdempotent(length: Option<real>, breadth: Option<real>, field: Field, value: real)
    requires field != Area
    ensures var d := Reconcile(length, breadth, field, value);
      Reconcile(Some(d.length), Some(d.breadth), field, value) == d
  {
  }

  /** Repeating an area edit changes nothing when the length was already known. */
  lemma AreaEditIdempotentWithKnownLength(length: Option<real>, breadth: Option<real>, value: real)
    requires OrZero(length) > 0.0
    ensures var d := Reconcile(length, breadth, Area, value);
      Reconcile(Some(d.length), Some(d.breadth), Area, value) == d
  {
  }

  /**
   * Area edits are not idempotent in general: with breadth 7 and no length, setting the
   * area to 1 gives length 0.14; setting it to 1 again keeps that length and gives breadth 7.14.
   */
  lemma AreaEditNotIdempotent()
    ensures Reconcile(None, Some(7.0), Area, 1.0) == Dims(0.14, 7.0, 1.0)
    ensures Reconcile(Some(0.14), Some(7.0), Area, 1.0) == Dims(0.14, 7.14, 1.0)
  {
    assert (100.0 * (1.0 / 7.0) + 0.5).Floor == 14;
    assert (100.0 * (1.0 / 0.14) + 0.5).Floor == 714;
  }

  /** Worked cases: a length edit on an empty plot, a kept length, a square, a zero area. */
  lemma ReconcileExamples()
    ensures Reconcile(Some(0.0), Some(0.0), Length, 5.0) == Dims(5.0, 0.0, 0.0)
    ensures Reconcile(Some(5.0), Some(4.0), Area, 40.0) == Dims(5.0, 8.0, 40.0)
    ensures Reconcile(Some(0.0), Some(0.0), Area, 49.0) == Dims(7.0, 7.0, 49.0)
    ensures Reconcile(Some(5.0), Some(0.0), Area, 0.0) == Dims(5.0, 0.0, 0.0)
  {
    assert (100.0 * (40.0 / 5.0) + 0.5).Floor == 800;
    var k := RootSearch(490000.0, 0);
    RootUnique(490000.0, k, 700);
  }
}
