/** The floating-point values of the statistics core, modelled over `real`.

    A value is a finite real, NaN, or a signed infinity. The operations follow
    IEEE-754 for every case the core can produce (NaN absorbs, `inf - inf` is
    NaN, `x / 0` is NaN for `x == 0` and a signed infinity otherwise) but do no
    rounding: finite results are exact, so summation order is immaterial. */
module Numbers {

  datatype Num = Finite(x: real) | NaN | Inf(positive: bool)

  /** Unary minus. */
  function Neg(a: Num): (r: Num)
    ensures r.NaN? <==> a.NaN?
  {
    match a
    case Finite(x) => Finite(-x)
    case NaN => NaN
    case Inf(p) => Inf(!p)
  }

  function Add(a: Num, b: Num): (r: Num)
    ensures a.Finite? && b.Finite? ==> r == Finite(a.x + b.x)
    ensures r.NaN? <==> a.NaN? || b.NaN? || (a.Inf? && b.Inf? && a.positive != b.positive)
  {
    match (a, b)
    case (NaN, _) => NaN
    case (_, NaN) => NaN
    case (Inf(p), Inf(q)) => if p == q then Inf(p) else NaN
    case (Inf(p), Finite(_)) => Inf(p)
    case (Finite(_), Inf(q)) => Inf(q)
    case (Finite(x), Finite(y)) => Finite(x + y)
  }

  /** The two operands of a subtraction whose result is a number: neither is
      NaN, and they are not two infinities of the same sign. */
  predicate Subtractable(a: Num, b: Num) {
    !a.NaN? && !b.NaN? && !(a.Inf? && b.Inf? && a.positive == b.positive)
  }

  function Sub(a: Num, b: Num): (r: Num)
    ensures r.NaN? <==> !Subtractable(a, b)
    ensures a.Finite? && b.Finite? ==> r == Finite(a.x - b.x)
  {
    Add(a, Neg(b))
  }

  /** `powf(d, 2.0)`. */
  function Square(a: Num): (r: Num)
    ensures a.Finite? ==> r.Finite? && r.x == a.x * a.x
    ensures r.NaN? <==> a.NaN?
    ensures !r.Inf? || r.positive
  {
    match a
    case Finite(x) => Finite(x * x)
    case NaN => NaN
    case Inf(_) => Inf(true)
  }

  /** Division by a count-derived denominator (`n as f64` or `n - 1.0`), which
      is never a negative zero: a zero denominator is `+0.0`. */
  function Div(a: Num, d: real): (r: Num)
    ensures a.Finite? && d != 0.0 ==> r == Finite(a.x / d)
    ensures r.NaN? <==> a.NaN? || (a.Finite? && a.x == 0.0 && d == 0.0)
  {
    match a
    case NaN => NaN
    case Inf(p) => if d < 0.0 then Inf(!p) else Inf(p)
    case Finite(x) =>
      if d != 0.0 then Finite(x / d)
      else if x == 0.0 then NaN
      else Inf(x > 0.0)
  }

  /** `Iterator::sum` over `f64`: a left fold of `Add` from zero. */
  function Sum(s: seq<Num>): (r: Num)
  {
    if |s| == 0 then Finite(0.0) else Add(Sum(s[..|s| - 1]), s[|s| - 1])
  }

  predicate AllFinite(s: seq<Num>) {
    forall i :: 0 <= i < |s| ==> s[i].Finite?
  }

  /** The real values of an all-finite sequence. */
  function Reals(s: seq<Num>): (r: seq<real>)
    requires AllFinite(s)
    ensures |r| == |s|
    ensures forall i :: 0 <= i < |s| ==> r[i] == s[i].x
  {
    seq(|s|, i requires 0 <= i < |s| => s[i].x)
  }

  /** Mathematical sum of reals, the reference for `Sum`. */
  function RealSum(s: seq<real>): (r: real)
  {
    if |s| == 0 then 0.0 else RealSum(s[..|s| - 1]) + s[|s| - 1]
  }

  function Negated(s: seq<Num>): (r: seq<Num>)
    ensures |r| == |s|
    ensures forall i :: 0 <= i < |s| ==> r[i] == Neg(s[i])
  {
    seq(|s|, i requires 0 <= i < |s| => Neg(s[i]))
  }

  /** Without NaN or infinities, the floating-point sum is the real sum. */
  lemma {:induction false} SumOfFinite(s: seq<Num>)
    requires AllFinite(s)
    ensures Sum(s) == Finite(RealSum(Reals(s)))
  {
    if |s| > 0 {
      var p := s[..|s| - 1];
      SumOfFinite(p);
      assert Reals(s)[..|s| - 1] == Reals(p);
    }
  }

  lemma NegDistributesOverAdd(a: Num, b: Num)
    ensures Add(Neg(a), Neg(b)) == Neg(Add(a, b))
  {
  }

  /** Negating every summand negates the sum. */
  lemma {:induction false} SumOfNegated(s: seq<Num>)
    ensures Sum(Negated(s)) == Neg(Sum(s))
  {
    if |s| > 0 {
      var p := s[..|s| - 1];
      SumOfNegated(p);
      assert Negated(s)[..|s| - 1] == Negated(p);
      NegDistributesOverAdd(Sum(p), s[|s| - 1]);
    }
  }

  lemma DivOfNeg(a: Num, d: real)
    ensures Div(Neg(a), d) == Neg(Div(a, d))
  {
  }

  lemma SubOfNegated(a: Num, b: Num)
    ensures Sub(Neg(a), Neg(b)) == Neg(Sub(a, b))
    ensures Sub(b, a) == Neg(Sub(a, b))
  {
  }

  lemma SquareOfNeg(a: Num)
    ensures Square(Neg(a)) == Square(a)
  {
  }
}
