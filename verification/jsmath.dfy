/** The few JavaScript number operations the core relies on, over exact
    reals: `Math.abs`, `Math.round`, `Math.floor`, and a NaN-carrying number
    for the one place where the source divides by zero. */
module JsMath {

  function Abs(x: real): (r: real)
    ensures r >= 0.0
    ensures r == x || r == -x
  {
    if x < 0.0 then -x else x
  }

  /** `Math.round`: the nearest integer, halves rounded towards +infinity. */
  function Round(x: real): (r: int)
    ensures x - 0.5 < r as real <= x + 0.5
  {
    (x + 0.5).Floor
  }

  /** `Math.round(x)` is within half a unit of `x`, ties going up. */
  lemma RoundBounds(x: real)
    ensures x - 0.5 < Round(x) as real <= x + 0.5
  {
  }

  /** No integer is strictly closer to `x` than `Round(x)`. */
  lemma RoundIsNearest(x: real, k: int)
    ensures Abs(Round(x) as real - x) <= Abs(k as real - x)
  {
    var r := Round(x);
    RoundBounds(x);
    if k < r {
      assert k as real <= r as real - 1.0;
      assert Abs(k as real - x) == x - k as real;
    } else if k > r {
      assert k as real >= r as real + 1.0;
      assert Abs(k as real - x) == k as real - x;
    }
  }

  /** A JavaScript number: finite, NaN, or one of the two infinities. */
  datatype JsNumber = Finite(value: real) | NaN | PosInf | NegInf

  /** `+` on JavaScript numbers: NaN absorbs everything, an infinity absorbs
      every finite number, and opposite infinities give NaN. */
  function JsAdd(a: JsNumber, b: JsNumber): (r: JsNumber)
    ensures r.NaN? <==> a.NaN? || b.NaN? || (a.PosInf? && b.NegInf?) || (a.NegInf? && b.PosInf?)
    ensures r.Finite? <==> a.Finite? && b.Finite?
    ensures r.Finite? ==> r.value == a.value + b.value
    ensures r.PosInf? <==> !r.NaN? && (a.PosInf? || b.PosInf?)
    ensures r.NegInf? <==> !r.NaN? && (a.NegInf? || b.NegInf?)
  {
    if a.NaN? || b.NaN? then NaN
    else if a.Finite? && b.Finite? then Finite(a.value + b.value)
    else if a.Finite? then b
    else if b.Finite? || a == b then a
    else NaN
  }

  /** `Math.round(x * Infinity)` for a finite `x`: `Math.round` leaves the
      infinities and NaN as they are. */
  function TimesInfinity(x: real): (r: JsNumber)
    ensures r.NaN? <==> x == 0.0
    ensures r.PosInf? <==> x > 0.0
    ensures r.NegInf? <==> x < 0.0
  {
    if x > 0.0 then PosInf else if x < 0.0 then NegInf else NaN
  }

  /** `xs.reduce((sum, x) => sum + x, 0)` over JavaScript numbers. */
  function JsSum(xs: seq<JsNumber>): JsNumber
  {
    if |xs| == 0 then Finite(0.0) else JsAdd(JsSum(xs[..|xs| - 1]), xs[|xs| - 1])
  }

  predicate HasNaN(xs: seq<JsNumber>)
  {
    exists k :: 0 <= k < |xs| && xs[k].NaN?
  }

  predicate HasPosInf(xs: seq<JsNumber>)
  {
    exists k :: 0 <= k < |xs| && xs[k].PosInf?
  }

  predicate HasNegInf(xs: seq<JsNumber>)
  {
    exists k :: 0 <= k < |xs| && xs[k].NegInf?
  }

  /** What a sum of JavaScript numbers comes to, by which special values
      occur among its terms, whatever their order. */
  lemma {:induction false} JsSumShape(xs: seq<JsNumber>)
    ensures JsSum(xs).NaN? <==> HasNaN(xs) || (HasPosInf(xs) && HasNegInf(xs))
    ensures JsSum(xs).PosInf? <==> !HasNaN(xs) && HasPosInf(xs) && !HasNegInf(xs)
    ensures JsSum(xs).NegInf? <==> !HasNaN(xs) && !HasPosInf(xs) && HasNegInf(xs)
  {
    if |xs| > 0 {
      var n := |xs| - 1;
      JsSumShape(xs[..n]);
      HasLast(xs);
    }
  }

  lemma HasLast(xs: seq<JsNumber>)
    requires |xs| > 0
    ensures HasNaN(xs) <==> HasNaN(xs[..|xs| - 1]) || xs[|xs| - 1].NaN?
    ensures HasPosInf(xs) <==> HasPosInf(xs[..|xs| - 1]) || xs[|xs| - 1].PosInf?
    ensures HasNegInf(xs) <==> HasNegInf(xs[..|xs| - 1]) || xs[|xs| - 1].NegInf?
  {
    var n := |xs| - 1;
    assert forall k :: 0 <= k < n ==> xs[..n][k] == xs[k];
  }
}
