/** JavaScript numbers as the rest of the model sees them, and the decimal
    rendering that template strings such as `Player ${i}` apply to them. */
module Numbers {
  import Lists

  /** A JavaScript number: NaN or a finite value. Where a computation could
      produce an infinity (a division by zero), the model yields NaN. */
  datatype Num = NaN | Real(value: real)

  /** JavaScript falsiness of a number: exactly 0 and NaN are falsy. */
  predicate Falsy(n: Num) {
    n == NaN || n == Real(0.0)
  }

  /** `a < b` on JavaScript numbers: every comparison with NaN is false. */
  predicate Less(a: Num, b: real) {
    a.Real? && a.value < b
  }

  /** `a > b` on JavaScript numbers. */
  predicate Greater(a: Num, b: real) {
    a.Real? && a.value > b
  }

  /** Addition; NaN absorbs. */
  function Add(a: Num, b: Num): (r: Num)
    ensures r.Real? <==> a.Real? && b.Real?
  {
    if a.Real? && b.Real? then Real(a.value + b.value) else NaN
  }

  /** Division; NaN absorbs, and a zero divisor yields NaN. */
  function Div(a: Num, b: Num): (r: Num)
    ensures r.Real? <==> a.Real? && b.Real? && b.value != 0.0
  {
    if a.Real? && b.Real? && b.value != 0.0 then Real(a.value / b.value) else NaN
  }

  lemma {:induction false} AddAssociative(a: Num, b: Num, c: Num)
    ensures Add(Add(a, b), c) == Add(a, Add(b, c))
  {
  }

  /** `xs.reduce((a, b) => b + a, 0)`: a left fold from 0. */
  function SumNums(xs: seq<Num>): Num {
    if xs == [] then Real(0.0) else Add(SumNums(xs[..|xs| - 1]), xs[|xs| - 1])
  }

  lemma {:induction false} SumNumsAppend(xs: seq<Num>, x: Num)
    ensures SumNums(xs + [x]) == Add(SumNums(xs), x)
  {
    assert (xs + [x])[..|xs|] == xs;
  }

  lemma {:induction false} SumNumsPrefixStep(xs: seq<Num>, i: nat)
    requires i < |xs|
    ensures SumNums(xs[..i + 1]) == Add(SumNums(xs[..i]), xs[i])
  {
    assert xs[..i + 1][..i] == xs[..i];
  }

  lemma {:induction false} SumNumsConcat(xs: seq<Num>, ys: seq<Num>)
    ensures SumNums(xs + ys) == Add(SumNums(xs), SumNums(ys))
    decreases |ys|
  {
    if ys == [] {
      assert xs + ys == xs;
    } else {
      var n := |ys| - 1;
      SumNumsConcat(xs, ys[..n]);
      assert (xs + ys)[..|xs + ys| - 1] == xs + ys[..n];
      AddAssociative(SumNums(xs), SumNums(ys[..n]), ys[n]);
    }
  }

  /** A sum does not depend on the order of its values. */
  lemma {:induction false} SumNumsPermutation(xs: seq<Num>, ys: seq<Num>)
    requires multiset(xs) == multiset(ys)
    ensures SumNums(xs) == SumNums(ys)
    decreases |xs|
  {
    if xs != [] {
      var n := |xs| - 1;
      var x := xs[n];
      assert x in multiset(xs);
      assert x in ys;
      var i :| 0 <= i < |ys| && ys[i] == x;
      var rest := ys[..i] + ys[i + 1..];
      Lists.RemoveAt(xs, n);
      Lists.RemoveAt(ys, i);
      assert xs[..n] + xs[n + 1..] == xs[..n] && xs == xs[..n] + [x];
      Lists.MultisetCancel(multiset(xs[..n]), multiset(rest), x);
      SumNumsPermutation(xs[..n], rest);
      SumNumsAppend(xs[..n], x);
      SumNumsRemoveAt(ys, i);
    }
  }

  /** Taking one value out of a sum and adding it back last. */
  lemma {:induction false} SumNumsRemoveAt(ys: seq<Num>, i: nat)
    requires i < |ys|
    ensures SumNums(ys) == Add(SumNums(ys[..i] + ys[i + 1..]), ys[i])
  {
    var x := ys[i];
    assert ys == (ys[..i] + [x]) + ys[i + 1..];
    SumNumsConcat(ys[..i] + [x], ys[i + 1..]);
    SumNumsConcat(ys[..i], ys[i + 1..]);
    SumNumsAppend(ys[..i], x);
  }

  predicate AllReal(xs: seq<Num>) {
    forall k :: 0 <= k < |xs| ==> xs[k].Real?
  }

  predicate AllNonNegative(xs: seq<Num>) {
    forall k :: 0 <= k < |xs| ==> xs[k].Real? && 0.0 <= xs[k].value
  }

  /** Each value divided by the sum of all of them. */
  function Normalise(xs: seq<Num>): (r: seq<Num>)
    ensures |r| == |xs|
  {
    seq(|xs|, k requires 0 <= k < |xs| => Div(xs[k], SumNums(xs)))
  }

  /** Rows whose sums are `xs`, each sum divided by the sum of `xs`, give
      `Normalise(xs)`. */
  lemma {:induction false} NormalisedRows(xs: seq<Num>, rows: seq<seq<Num>>, scores: seq<Num>)
    requires |rows| == |xs| && |scores| == |xs|
    requires forall k :: 0 <= k < |xs| ==> SumNums(rows[k]) == xs[k]
    requires forall k :: 0 <= k < |xs| ==> scores[k] == Div(SumNums(rows[k]), SumNums(xs))
    ensures scores == Normalise(xs)
  {
  }

  lemma {:induction false} SumNumsDefined(xs: seq<Num>)
    requires AllReal(xs)
    ensures SumNums(xs).Real?
  {
    if xs != [] {
      SumNumsDefined(xs[..|xs| - 1]);
    }
  }

  /** A sum of non-negative values is at least each of them. */
  lemma {:induction false} SumNumsAtLeastEach(xs: seq<Num>)
    requires AllNonNegative(xs)
    ensures SumNums(xs).Real? && 0.0 <= SumNums(xs).value
    ensures forall k :: 0 <= k < |xs| ==> xs[k].value <= SumNums(xs).value
  {
    if xs != [] {
      var n := |xs| - 1;
      SumNumsAtLeastEach(xs[..n]);
      assert forall k :: 0 <= k < n ==> xs[..n][k] == xs[k];
    }
  }

  lemma {:induction false} DivisionDistributes(a: real, b: real, t: real)
    requires t != 0.0
    ensures a / t + b / t == (a + b) / t
  {
  }

  lemma {:induction false} NormalisedPrefixSum(xs: seq<Num>, k: nat)
    requires AllReal(xs) && k <= |xs|
    requires SumNums(xs) != Real(0.0)
    ensures SumNums(xs).Real? && SumNums(xs[..k]).Real?
    ensures SumNums(Normalise(xs)[..k]) == Real(SumNums(xs[..k]).value / SumNums(xs).value)
  {
    SumNumsDefined(xs);
    var t := SumNums(xs).value;
    var ys := Normalise(xs);
    if k == 0 {
      assert xs[..0] == [] && ys[..0] == [];
    } else {
      NormalisedPrefixSum(xs, k - 1);
      assert xs[..k][..k - 1] == xs[..k - 1];
      assert ys[..k] == ys[..k - 1] + [ys[k - 1]];
      SumNumsAppend(ys[..k - 1], ys[k - 1]);
      DivisionDistributes(SumNums(xs[..k - 1]).value, xs[k - 1].value, t);
    }
  }

  /** Normalised values add up to exactly 1. */
  lemma {:induction false} NormaliseSumsToOne(xs: seq<Num>)
    requires AllReal(xs)
    requires SumNums(xs) != Real(0.0)
    ensures AllReal(Normalise(xs))
    ensures SumNums(Normalise(xs)) == Real(1.0)
  {
    SumNumsDefined(xs);
    NormalisedPrefixSum(xs, |xs|);
    assert xs[..|xs|] == xs;
    assert Normalise(xs)[..|xs|] == Normalise(xs);
  }

  lemma {:induction false} FractionInUnit(a: real, t: real)
    requires 0.0 <= a <= t && 0.0 < t
    ensures 0.0 <= a / t <= 1.0
  {
    assert a / t * t == a;
  }

  /** Normalised non-negative values lie in [0, 1]. */
  lemma {:induction false} NormaliseBounds(xs: seq<Num>)
    requires AllNonNegative(xs)
    requires SumNums(xs) != Real(0.0)
    ensures forall k :: 0 <= k < |xs| ==>
      Normalise(xs)[k].Real? && 0.0 <= Normalise(xs)[k].value <= 1.0
  {
    SumNumsAtLeastEach(xs);
    var t := SumNums(xs).value;
    forall k | 0 <= k < |xs|
      ensures Normalise(xs)[k].Real? && 0.0 <= Normalise(xs)[k].value <= 1.0
    {
      FractionInUnit(xs[k].value, t);
      assert Normalise(xs)[k] == Real(xs[k].value / t);
    }
  }

  /** The decimal digit for `d`. */
  function DigitChar(d: nat): (c: char)
    requires d < 10
    ensures '0' <= c <= '9'
  {
    "0123456789"[d]
  }

  lemma {:induction false} DigitCharInjective(d: nat, e: nat)
    requires d < 10 && e < 10
    requires DigitChar(d) == DigitChar(e)
    ensures d == e
  {
  }

  /** The decimal rendering JavaScript gives a non-negative integer. */
  function NatToString(n: nat): (s: string)
    ensures 1 <= |s|
    ensures forall k :: 0 <= k < |s| ==> '0' <= s[k] <= '9'
    ensures 10 <= n ==> 2 <= |s|
  {
    if n < 10 then [DigitChar(n)] else NatToString(n / 10) + [DigitChar(n % 10)]
  }

  /** Distinct numbers render to distinct strings, so `Player 1`, `Player 2`,
      ... never collide. */
  lemma {:induction false} NatToStringInjective(a: nat, b: nat)
    requires NatToString(a) == NatToString(b)
    ensures a == b
  {
    var s := NatToString(a);
    if a < 10 && b < 10 {
      DigitCharInjective(a, b);
    } else if a < 10 || b < 10 {
      assert false;
    } else {
      assert s[|s| - 1] == DigitChar(a % 10) && s[|s| - 1] == DigitChar(b % 10);
      DigitCharInjective(a % 10, b % 10);
      assert s[..|s| - 1] == NatToString(a / 10) && s[..|s| - 1] == NatToString(b / 10);
      NatToStringInjective(a / 10, b / 10);
    }
  }

  /** A prefix followed by a number, as the template `${prefix}${n}` builds it;
      prefixed names never collide for distinct numbers. */
  lemma {:induction false} LabelInjective(prefix: string, a: nat, b: nat)
    requires prefix + NatToString(a) == prefix + NatToString(b)
    ensures a == b
  {
    var x, y := prefix + NatToString(a), prefix + NatToString(b);
    assert x[|prefix|..] == NatToString(a) && y[|prefix|..] == NatToString(b);
    NatToStringInjective(a, b);
  }
}
