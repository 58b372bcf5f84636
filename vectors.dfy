/** Real-valued vector arithmetic standing in for the numpy operations of the
    teleoperation pipeline: componentwise add/subtract, scaling, `clip`, and an
    abstract Euclidean norm characterised by its square. */
module Vectors {

  type Vec = seq<real>
  type Vec3 = v: Vec | |v| == 3 witness [0.0, 0.0, 0.0]
  type Quat = v: Vec | |v| == 4 witness [0.0, 0.0, 0.0, 1.0]

  function Abs(x: real): real { if x < 0.0 then -x else x }

  function Add(a: Vec, b: Vec): (r: Vec)
    requires |a| == |b|
    ensures |r| == |a|
  {
    seq(|a|, i requires 0 <= i < |a| => a[i] + b[i])
  }

  function Sub(a: Vec, b: Vec): (r: Vec)
    requires |a| == |b|
    ensures |r| == |a|
  {
    seq(|a|, i requires 0 <= i < |a| => a[i] - b[i])
  }

  function Scale(v: Vec, k: real): (r: Vec)
    ensures |r| == |v|
  {
    seq(|v|, i requires 0 <= i < |v| => v[i] * k)
  }

  lemma ScaleScale(v: Vec, a: real, b: real)
    ensures Scale(Scale(v, a), b) == Scale(v, a * b)
  {
    var l, r := Scale(Scale(v, a), b), Scale(v, a * b);
    assert |l| == |r|;
    forall i | 0 <= i < |v| ensures l[i] == r[i] {
      assert l[i] == (v[i] * a) * b;
    }
  }

  lemma ScaleOne(v: Vec)
    ensures Scale(v, 1.0) == v
  {
  }

  function Zeros(n: nat): (r: Vec)
    ensures |r| == n
  {
    seq(n, i => 0.0)
  }

  /** numpy `clip(x, lo, hi)`, that is `min(max(x, lo), hi)`. */
  function Clip(x: real, lo: real, hi: real): real
  {
    if x > hi then hi else if x < lo then lo else x
  }

  function ClipVec(v: Vec, lo: real, hi: real): (r: Vec)
    ensures |r| == |v|
  {
    seq(|v|, i requires 0 <= i < |v| => Clip(v[i], lo, hi))
  }

  predicate InRange(v: Vec, lo: real, hi: real)
  {
    forall i :: 0 <= i < |v| ==> lo <= v[i] <= hi
  }

  lemma ClipVecInRange(v: Vec, lo: real, hi: real)
    requires lo <= hi
    ensures InRange(ClipVec(v, lo, hi), lo, hi)
    ensures InRange(v, lo, hi) ==> ClipVec(v, lo, hi) == v
  {
  }

  function SumSq(v: Vec): (r: real)
    ensures r >= 0.0
  {
    if v == [] then 0.0 else v[0] * v[0] + SumSq(v[1..])
  }

  /** `norm` is the Euclidean norm: non-negative with square equal to the sum
      of squares. numpy's `linalg.norm` is the model's instance of this. */
  ghost predicate IsNorm(norm: Vec -> real)
  {
    forall v :: 0.0 <= norm(v) && norm(v) * norm(v) == SumSq(v)
  }

  lemma {:induction false} SumSqScale(v: Vec, k: real)
    ensures SumSq(Scale(v, k)) == k * k * SumSq(v)
  {
    if v != [] {
      SumSqScale(v[1..], k);
      var rest := SumSq(Scale(v[1..], k));
      assert rest == k * k * SumSq(v[1..]);
      assert Scale(v, k)[1..] == Scale(v[1..], k) by {
        forall i | 0 <= i < |v| - 1 ensures Scale(v, k)[1..][i] == Scale(v[1..], k)[i] { }
      }
      calc {
        SumSq(Scale(v, k));
        Scale(v, k)[0] * Scale(v, k)[0] + SumSq(Scale(v, k)[1..]);
        (v[0] * k) * (v[0] * k) + SumSq(Scale(v[1..], k));
        (v[0] * k) * (v[0] * k) + k * k * SumSq(v[1..]);
        k * k * (v[0] * v[0] + SumSq(v[1..]));
        k * k * SumSq(v);
      }
    }
  }

  /** Two non-negative reals with equal squares are equal. */
  lemma SquareRootUnique(x: real, y: real)
    requires 0.0 <= x && 0.0 <= y && x * x == y * y
    ensures x == y
  {
    assert (x - y) * (x + y) == 0.0;
    if x + y != 0.0 {
      assert x - y == ((x - y) * (x + y)) / (x + y);
    }
  }

  lemma ScaledRoot(a: real, n: real, k: real, s: real)
    requires 0.0 <= a && 0.0 <= n && n * n == s && a * a == k * k * s
    ensures a == Abs(k) * n
  {
    var t := Abs(k);
    assert t * t == k * k;
    assert (t * n) * (t * n) == (t * t) * (n * n);
    SquareRootUnique(a, t * n);
  }

  /** The norm is absolutely homogeneous: |k v| = |k| |v|. */
  lemma NormScale(norm: Vec -> real, v: Vec, k: real)
    requires IsNorm(norm)
    ensures norm(Scale(v, k)) == Abs(k) * norm(v)
  {
    SumSqScale(v, k);
    ScaledRoot(norm(Scale(v, k)), norm(v), k, SumSq(v));
  }

  lemma DivBelowOne(a: real, b: real)
    requires 0.0 < a < b
    ensures 0.0 < a / b < 1.0
  {
    var q := a / b;
    assert q * b == a;
    assert (1.0 - q) * b == b - a;
    PositiveFactor(1.0 - q, b);
  }

  lemma PositiveFactor(x: real, b: real)
    requires 0.0 < b && 0.0 < x * b
    ensures 0.0 < x
  {
  }

  /** Rescales `v` to norm `max` when its norm exceeds `max`, keeping its
      direction; otherwise returns it unchanged. */
  function LimitNorm(norm: Vec -> real, v: Vec, max: real): (r: Vec)
    requires 0.0 <= max
    ensures |r| == |v|
  {
    if norm(v) > max then Scale(v, max / norm(v)) else v
  }

  lemma LimitNormSpec(norm: Vec -> real, v: Vec, max: real)
    requires IsNorm(norm) && 0.0 <= max
    ensures norm(LimitNorm(norm, v, max)) <= max
    ensures norm(v) <= max ==> LimitNorm(norm, v, max) == v
    ensures norm(v) > max ==> norm(LimitNorm(norm, v, max)) == max
    ensures norm(v) > max && max > 0.0 ==>
      exists c: real :: 0.0 < c < 1.0 && LimitNorm(norm, v, max) == Scale(v, c)
  {
    if norm(v) > max {
      var c := max / norm(v);
      NormScale(norm, v, c);
      assert Abs(c) * norm(v) == max;
      if max > 0.0 {
        DivBelowOne(max, norm(v));
        assert LimitNorm(norm, v, max) == Scale(v, c);
      }
    }
  }
}
