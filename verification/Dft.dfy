/** CalculateDFT of HW2 over exact reals.  The cosine and sine of the k-th n-th part of a
    full turn are given as functions of k; all that is assumed of them is that they repeat
    with period n and that one is even and the other odd. */
module Dft {

  ghost predicate Twiddles(n: nat, cos: int -> real, sin: int -> real) {
    && (forall k :: cos(k + n) == cos(k)) && (forall k :: sin(k + n) == sin(k))
    && (forall k :: cos(-k) == cos(k)) && (forall k :: sin(-k) == -sin(k))
  }

  /** The sum over the first m samples of sample j times the twiddle of j * i. */
  function WeightedSum(x: seq<real>, twiddle: int -> real, i: int, m: nat): real
    requires m <= |x|
  {
    if m == 0 then 0.0 else WeightedSum(x, twiddle, i, m - 1) + x[m - 1] * twiddle((m - 1) * i)
  }

  lemma SumSteps(x: seq<real>, twiddle: int -> real, i: int)
    ensures WeightedSum(x, twiddle, i, 0) == 0.0
    ensures forall m | 0 <= m < |x| ::
      WeightedSum(x, twiddle, i, m + 1) == WeightedSum(x, twiddle, i, m) + x[m] * twiddle(m * i)
  {}

  method CalculateDFT(x: seq<real>, cos: int -> real, sin: int -> real, re: array<real>, im: array<real>)
    requires re.Length == im.Length == |x| && re != im
    modifies re, im
    ensures forall i | 0 <= i < |x| :: re[i] == WeightedSum(x, cos, i, |x|)
    ensures forall i | 0 <= i < |x| :: im[i] == -WeightedSum(x, sin, i, |x|)
  {
    hide WeightedSum;
    var n := |x|;
    for i := 0 to n
      invariant forall k | 0 <= k < i :: re[k] == WeightedSum(x, cos, k, n)
      invariant forall k | 0 <= k < i :: im[k] == -WeightedSum(x, sin, k, n)
    {
      SumSteps(x, cos, i);
      SumSteps(x, sin, i);
      re[i] := 0.0;
      im[i] := 0.0;
      label Cleared:
      for j := 0 to n
        invariant forall k | 0 <= k < i :: re[k] == WeightedSum(x, cos, k, n)
        invariant re[i] == WeightedSum(x, cos, i, j) && im[..] == old@Cleared(im[..])
      {
        re[i] := re[i] + x[j] * cos(j * i);
      }
      label Summed:
      for j := 0 to n
        invariant forall k | 0 <= k < i :: im[k] == -WeightedSum(x, sin, k, n)
        invariant im[i] == -WeightedSum(x, sin, i, j) && re[..] == old@Summed(re[..])
      {
        im[i] := im[i] - x[j] * sin(j * i);
      }
    }
  }

  lemma {:induction false} Repeats(n: nat, f: int -> real, k: int, j: nat)
    requires forall k :: f(k + n) == f(k)
    ensures f(k + j * n) == f(k)
  {
    if j > 0 {
      Repeats(n, f, k, j - 1);
      assert k + j * n == (k + (j - 1) * n) + n;
    }
  }

  lemma Mirror(n: nat, k: int, j: nat)
    ensures j * (n - k) == -(j * k) + j * n
  {}

  lemma TwiddlesMirror(n: nat, cos: int -> real, sin: int -> real, k: int, j: nat)
    requires Twiddles(n, cos, sin)
    ensures cos(j * (n - k)) == cos(j * k) && sin(j * (n - k)) == -sin(j * k)
  {
    Mirror(n, k, j);
    Repeats(n, cos, -(j * k), j);
    Repeats(n, sin, -(j * k), j);
  }

  lemma Negated(a: real, b: real, sum: real)
    ensures -sum + a * -b == -(sum + a * b)
  {}

  lemma {:induction false} SumMirrors(x: seq<real>, cos: int -> real, sin: int -> real, n: nat, k: int, m: nat)
    requires Twiddles(n, cos, sin) && m <= |x|
    ensures WeightedSum(x, cos, n - k, m) == WeightedSum(x, cos, k, m)
    ensures WeightedSum(x, sin, n - k, m) == -WeightedSum(x, sin, k, m)
  {
    hide Twiddles;
    if m > 0 {
      var j := m - 1;
      SumMirrors(x, cos, sin, n, k, j);
      TwiddlesMirror(n, cos, sin, k, j);
      Negated(x[j], sin(j * k), WeightedSum(x, sin, k, j));
    }
  }

  /** The transform of real samples is conjugate symmetric, for every size and all samples. */
  method TransformIsSymmetric(x: seq<real>, cos: int -> real, sin: int -> real)
    returns (re: array<real>, im: array<real>)
    requires Twiddles(|x|, cos, sin)
    ensures re.Length == im.Length == |x|
    ensures forall k | 0 < k < |x| :: re[|x| - k] == re[k] && im[|x| - k] == -im[k]
  {
    re, im := new real[|x|], new real[|x|];
    CalculateDFT(x, cos, sin, re, im);
    forall k | 0 < k < |x| ensures re[|x| - k] == re[k] && im[|x| - k] == -im[k] {
      SumMirrors(x, cos, sin, |x|, k, |x|);
    }
  }
}
