/** `_percentile`: linear interpolation at rank (n - 1) * pct / 100 over sorted values. */
module Percentiles {

  function Ceil(r: real): int {
    -((-r).Floor)
  }

  /** Interpolation at a fractional index. */
  function At(v: seq<real>, r: real): real
    requires v != [] && 0.0 <= r <= (|v| - 1) as real
  {
    var lo, hi := r.Floor, Ceil(r);
    if lo == hi then v[lo] else v[lo] + (v[hi] - v[lo]) * (r - lo as real)
  }

  function Rank(n: nat, pct: real): real {
    pct / 100.0 * (n as real - 1.0)
  }

  lemma RankInRange(n: nat, pct: real)
    requires n >= 1 && 0.0 <= pct <= 100.0
    ensures 0.0 <= Rank(n, pct) <= n as real - 1.0
  {
    var m := n as real - 1.0;
    Scale(m, 0.0, pct);
    Scale(m, pct, 100.0);
    assert Rank(n, pct) == pct * m / 100.0;
  }

  lemma RankMonotone(n: nat, p: real, q: real)
    requires n >= 1 && p <= q
    ensures Rank(n, p) <= Rank(n, q)
  {
    var m := n as real - 1.0;
    Scale(m, p, q);
    assert Rank(n, p) == p * m / 100.0 && Rank(n, q) == q * m / 100.0;
  }

  function Percentile(v: seq<real>, pct: real): real
    requires 0.0 <= pct <= 100.0
  {
    if v == [] then 0.0
    else if |v| == 1 then v[0]
    else
      RankInRange(|v|, pct);
      At(v, Rank(|v|, pct))
  }

  lemma PercentileIsAt(v: seq<real>, pct: real)
    requires v != [] && 0.0 <= pct <= 100.0
    ensures 0.0 <= Rank(|v|, pct) <= (|v| - 1) as real
    ensures Percentile(v, pct) == At(v, Rank(|v|, pct))
  {
    RankInRange(|v|, pct);
  }

  predicate Sorted(v: seq<real>) {
    forall i, j :: 0 <= i <= j < |v| ==> v[i] <= v[j]
  }

  // ---------------------------------------------------------------- arithmetic

  lemma Scale(a: real, x: real, y: real)
    requires a >= 0.0 && x <= y
    ensures x * a <= y * a
  {
  }

  /** The neighbours of a fractional index. */
  lemma Neighbours(n: nat, r: real)
    requires n >= 1 && 0.0 <= r <= (n - 1) as real
    ensures 0 <= r.Floor <= Ceil(r) < n
    ensures Ceil(r) == r.Floor || Ceil(r) == r.Floor + 1
    ensures Ceil(r) == r.Floor <==> r == r.Floor as real
    ensures 0.0 <= r - r.Floor as real < 1.0
  {
  }

  /** An interpolated value as a weighted mean of the neighbours; at a whole index it is the value. */
  function Mix(a: real, b: real, f: real): real {
    a + (b - a) * f
  }

  lemma MixBetween(a: real, b: real, f: real)
    requires a <= b && 0.0 <= f <= 1.0
    ensures a <= Mix(a, b, f) <= b
  {
    Scale(b - a, 0.0, f);
    Scale(b - a, f, 1.0);
  }

  lemma MixInWeight(a: real, b: real, f: real, g: real)
    requires a <= b && f <= g
    ensures Mix(a, b, f) <= Mix(a, b, g)
  {
    Scale(b - a, f, g);
    assert (b - a) * f == f * (b - a) && (b - a) * g == g * (b - a);
  }

  lemma RaiseRight(a: real, b: real, b': real, f: real)
    requires b <= b' && 0.0 <= f
    ensures Mix(a, b, f) <= Mix(a, b', f)
  {
    Scale(f, b - a, b' - a);
  }

  lemma RaiseLeft(a: real, a': real, b: real, f: real)
    requires a <= a' && f <= 1.0
    ensures Mix(a, b, f) <= Mix(a', b, f)
  {
    var d := a' - a;
    Scale(d, f, 1.0);
    Split(b - a', d, f);
  }

  lemma Split(x: real, y: real, f: real)
    ensures (x + y) * f == x * f + f * y
  {
  }

  lemma MixMonotone(a: real, b: real, a': real, b': real, f: real)
    requires a <= a' && b <= b' && 0.0 <= f <= 1.0
    ensures Mix(a, b, f) <= Mix(a', b', f)
  {
    RaiseRight(a, b, b', f);
    RaiseLeft(a, a', b', f);
  }

  lemma AtIsMix(v: seq<real>, r: real)
    requires v != [] && 0.0 <= r <= (|v| - 1) as real
    ensures
      var lo, hi := r.Floor, Ceil(r);
      && 0 <= lo <= hi < |v|
      && At(v, r) == Mix(v[lo], v[hi], r - lo as real)
  {
    Neighbours(|v|, r);
  }

  // ---------------------------------------------------------------- bounds and monotonicity

  lemma AtBetween(v: seq<real>, r: real)
    requires v != [] && Sorted(v) && 0.0 <= r <= (|v| - 1) as real
    ensures
      var lo, hi := r.Floor, Ceil(r);
      0 <= lo <= hi < |v| && v[lo] <= At(v, r) <= v[hi]
  {
    Neighbours(|v|, r);
    AtIsMix(v, r);
    MixBetween(v[r.Floor], v[Ceil(r)], r - r.Floor as real);
  }

  lemma AtMonotone(v: seq<real>, r: real, q: real)
    requires v != [] && Sorted(v) && 0.0 <= r <= q <= (|v| - 1) as real
    ensures At(v, r) <= At(v, q)
  {
    AtBetween(v, r);
    AtBetween(v, q);
    Neighbours(|v|, r);
    Neighbours(|v|, q);
    if r.Floor == q.Floor {
      AtIsMix(v, r);
      AtIsMix(v, q);
      var lo := r.Floor;
      if Ceil(r) == lo {
        assert At(v, r) == v[lo];
      } else {
        assert Ceil(q) == Ceil(r);
        MixInWeight(v[lo], v[Ceil(r)], r - lo as real, q - lo as real);
      }
    } else {
      assert Ceil(r) <= q.Floor;
    }
  }

  /** The percentile of sorted values is monotone in pct over its whole range, across the
      intervals between samples. */
  lemma PercentileMonotone(v: seq<real>, p: real, q: real)
    requires Sorted(v) && 0.0 <= p <= q <= 100.0
    ensures Percentile(v, p) <= Percentile(v, q)
  {
    if v != [] {
      PercentileIsAt(v, p);
      PercentileIsAt(v, q);
      RankMonotone(|v|, p, q);
      AtMonotone(v, Rank(|v|, p), Rank(|v|, q));
    }
  }

  lemma PercentileBetween(v: seq<real>, p: real)
    requires v != [] && Sorted(v) && 0.0 <= p <= 100.0
    ensures v[0] <= Percentile(v, p) <= v[|v| - 1]
  {
    PercentileIsAt(v, p);
    AtBetween(v, Rank(|v|, p));
  }

  lemma PercentileEnds(v: seq<real>)
    requires v != []
    ensures Percentile(v, 0.0) == v[0] && Percentile(v, 100.0) == v[|v| - 1]
  {
    if |v| > 1 {
      var m := (|v| - 1) as real;
      PercentileAtSample(v, 0);
      PercentileAtSample(v, |v| - 1);
      TimesOver(100.0, m);
      assert 100.0 * 0.0 / m == 0.0;
    }
  }

  /** Without samples it is 0; of one sample it is that sample. */
  lemma PercentileFew(x: real, p: real)
    requires 0.0 <= p <= 100.0
    ensures Percentile([], p) == 0.0 && Percentile([x], p) == x
  {
  }

  /** It lies between the minimum and the maximum, and is them at 0 and 100. */
  lemma PercentileBounds(v: seq<real>, p: real)
    requires v != [] && Sorted(v) && 0.0 <= p <= 100.0
    ensures v[0] <= Percentile(v, p) <= v[|v| - 1]
    ensures Percentile(v, 0.0) == v[0] && Percentile(v, 100.0) == v[|v| - 1]
  {
    hide Percentile, Sorted;
    PercentileBetween(v, p);
    PercentileEnds(v);
  }

  /** It passes through every sample: sample k is the percentile at 100 k / (n - 1). */
  lemma PercentileAtSample(v: seq<real>, k: nat)
    requires k < |v|
    ensures |v| > 1 ==>
      var p := 100.0 * k as real / (|v| - 1) as real;
      0.0 <= p <= 100.0 && Percentile(v, p) == v[k]
  {
    if |v| > 1 {
      var m := (|v| - 1) as real;
      var p := 100.0 * k as real / m;
      SamplePosition(m, k as real);
      assert Rank(|v|, p) == k as real;
    }
  }

  lemma DivideBack(a: real, m: real)
    requires m > 0.0
    ensures a / m * m == a
  {
  }

  lemma TimesOver(c: real, m: real)
    requires m > 0.0
    ensures c * m / m == c
  {
    var a := c * m;
    DivideBack(a, m);
    Cancel(m, a / m, c);
  }

  lemma Cancel(m: real, x: real, z: real)
    requires m > 0.0 && x * m == z * m
    ensures x == z
  {
    assert (x - z) * m == 0.0;
  }

  lemma SamplePosition(m: real, k: real)
    requires m > 0.0 && 0.0 <= k <= m
    ensures 0.0 <= 100.0 * k / m <= 100.0
    ensures 100.0 * k / m / 100.0 * m == k
  {
    var y, x := k / m, 100.0 * k / m;
    DivideBack(k, m);
    DivideBack(100.0 * k, m);
    assert 0.0 <= y <= 1.0;
    assert (100.0 * y) * m == 100.0 * (y * m);
    Cancel(m, x, 100.0 * y);
    assert x / 100.0 == y;
  }

  /** Between two neighbouring samples it is linear: at f of the way from sample k to
      sample k + 1 it is f of the way between their values. */
  lemma PercentileLinear(v: seq<real>, k: nat, f: real)
    requires k + 1 < |v| && 0.0 <= f <= 1.0
    ensures
      var p := 100.0 * (k as real + f) / (|v| - 1) as real;
      0.0 <= p <= 100.0 && Percentile(v, p) == v[k] + (v[k + 1] - v[k]) * f
  {
    var m, r := (|v| - 1) as real, k as real + f;
    SamplePosition(m, r);
    var p := 100.0 * r / m;
    PercentileIsAt(v, p);
    assert Rank(|v|, p) == r;
    AtIsMix(v, r);
    if f == 1.0 {
      assert r.Floor == Ceil(r) == k + 1;
    } else {
      assert r.Floor == k;
      if f > 0.0 {
        assert Ceil(r) == k + 1;
      }
    }
  }

  /** Raising samples raises the percentile. */
  lemma PercentilePointwise(v: seq<real>, w: seq<real>, p: real)
    requires |v| == |w| && 0.0 <= p <= 100.0 && forall i :: 0 <= i < |v| ==> v[i] <= w[i]
    ensures Percentile(v, p) <= Percentile(w, p)
  {
    if v != [] {
      var r := Rank(|v|, p);
      PercentileIsAt(v, p);
      PercentileIsAt(w, p);
      Neighbours(|v|, r);
      AtIsMix(v, r);
      AtIsMix(w, r);
      MixMonotone(v[r.Floor], v[Ceil(r)], w[r.Floor], w[Ceil(r)], r - r.Floor as real);
    }
  }

  // ---------------------------------------------------------------- change of scale

  function Affine(v: seq<real>, a: real, b: real): (w: seq<real>)
    ensures |w| == |v| && forall i :: 0 <= i < |v| ==> w[i] == a * v[i] + b
  {
    seq(|v|, i requires 0 <= i < |v| => a * v[i] + b)
  }

  lemma AffineSorted(v: seq<real>, a: real, b: real)
    requires a >= 0.0 && Sorted(v)
    ensures Sorted(Affine(v, a, b))
  {
    var w := Affine(v, a, b);
    forall i, j | 0 <= i <= j < |w| ensures w[i] <= w[j] {
      Scale(a, v[i], v[j]);
      assert a * v[i] == v[i] * a && a * v[j] == v[j] * a;
    }
  }

  lemma MixAffine(x: real, y: real, a: real, b: real, f: real)
    ensures Mix(a * x + b, a * y + b, f) == a * Mix(x, y, f) + b
  {
    assert (a * y + b) - (a * x + b) == a * (y - x);
    assert a * (y - x) * f == a * ((y - x) * f);
  }

  /** It commutes with a change of scale, and a scale that does not turn the order around
      keeps the values sorted. */
  lemma PercentileAffine(v: seq<real>, p: real, a: real, b: real)
    requires v != [] && 0.0 <= p <= 100.0
    ensures Percentile(Affine(v, a, b), p) == a * Percentile(v, p) + b
    ensures a >= 0.0 && Sorted(v) ==> Sorted(Affine(v, a, b))
  {
    var w, r := Affine(v, a, b), Rank(|v|, p);
    PercentileIsAt(v, p);
    PercentileIsAt(w, p);
    Neighbours(|v|, r);
    AtIsMix(v, r);
    AtIsMix(w, r);
    MixAffine(v[r.Floor], v[Ceil(r)], a, b, r - r.Floor as real);
    assert w[r.Floor] == a * v[r.Floor] + b && w[Ceil(r)] == a * v[Ceil(r)] + b;
    if a >= 0.0 && Sorted(v) {
      AffineSorted(v, a, b);
    }
  }

  function Mirror(v: seq<real>): (w: seq<real>)
    ensures |w| == |v| && forall i :: 0 <= i < |v| ==> w[i] == -v[|v| - 1 - i]
  {
    seq(|v|, i requires 0 <= i < |v| => -v[|v| - 1 - i])
  }

  lemma MirrorRank(n: nat, r: real)
    requires n >= 1 && 0.0 <= r <= (n - 1) as real
    ensures
      var r' := (n - 1) as real - r;
      && r'.Floor == n - 1 - Ceil(r)
      && Ceil(r') == n - 1 - r.Floor
  {
    var r' := (n - 1) as real - r;
    Neighbours(n, r);
    Neighbours(n, r');
  }

  lemma MixMirror(x: real, y: real, f: real)
    ensures Mix(-y, -x, 1.0 - f) == -Mix(x, y, f)
  {
    assert (-x - -y) * (1.0 - f) == (y - x) - (y - x) * f;
  }

  /** Reflection: negating and reversing the values negates the percentile at 100 - pct. */
  lemma PercentileReflection(v: seq<real>, p: real)
    requires 0.0 <= p <= 100.0
    ensures Percentile(Mirror(v), 100.0 - p) == -Percentile(v, p)
    ensures Sorted(v) ==> Sorted(Mirror(v))
  {
    if v != [] {
      var n, w := |v|, Mirror(v);
      var r, r' := Rank(n, p), Rank(n, 100.0 - p);
      RankMirror(n, p);
      PercentileIsAt(v, p);
      PercentileIsAt(w, 100.0 - p);
      MirrorRank(n, r);
      Neighbours(n, r);
      AtIsMix(v, r);
      AtIsMix(w, r');
      var lo, hi := r.Floor, Ceil(r);
      assert w[r'.Floor] == -v[hi] && w[Ceil(r')] == -v[lo];
      if lo != hi {
        assert r' - r'.Floor as real == 1.0 - (r - lo as real);
        MixMirror(v[lo], v[hi], r - lo as real);
      }
    }
  }

  lemma RankMirror(n: nat, p: real)
    ensures Rank(n, 100.0 - p) == n as real - 1.0 - Rank(n, p)
  {
    var m := n as real - 1.0;
    assert (100.0 - p) / 100.0 == 1.0 - p / 100.0;
    assert (1.0 - p / 100.0) * m == m - p / 100.0 * m;
  }

  // ---------------------------------------------------------------- rounding

  /** To the nearest integer, ties to even. */
  function RoundHalfEven(x: real): int {
    var f := x.Floor;
    var d := x - f as real;
    if d < 0.5 then f else if d > 0.5 then f + 1 else if f % 2 == 0 then f else f + 1
  }

  /** `round(x, 3)` on exact reals. */
  function Round3(x: real): real {
    RoundHalfEven(x * 1000.0) as real / 1000.0
  }

  lemma RoundHalfEvenMonotone(x: real, y: real)
    requires x <= y
    ensures RoundHalfEven(x) <= RoundHalfEven(y)
  {
  }

  lemma RoundHalfEvenTies(x: real)
    ensures
      var k := RoundHalfEven(x);
      k as real - x == 0.5 || k as real - x == -0.5 ==> k % 2 == 0
  {
  }

  /** A rounded figure is a whole number of thousandths, the nearest one to the figure; where two are
      equally near it is the even one. Rounding keeps order. */
  lemma Round3Facts(x: real, y: real)
    requires x <= y
    ensures Round3(x) <= Round3(y)
    ensures -0.0005 <= Round3(x) - x <= 0.0005
    ensures exists k: int :: Round3(x) == k as real / 1000.0 && (Round3(x) - x == 0.0005 || Round3(x) - x == -0.0005 ==> k % 2 == 0)
  {
    RoundHalfEvenMonotone(x * 1000.0, y * 1000.0);
    var k := RoundHalfEven(x * 1000.0) as real;
    assert -0.5 <= k - x * 1000.0 <= 0.5;
    assert Round3(x) - x == (k - x * 1000.0) / 1000.0;
    RoundHalfEvenTies(x * 1000.0);
    assert Round3(x) == RoundHalfEven(x * 1000.0) as real / 1000.0;
  }
}
