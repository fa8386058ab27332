/**
  Linear interpolation to an exact length (crates/audio-timeline/src/resample.rs), over the reals.
*/
module Resampling {

  // ---- One output sample ------------------------------------------------------------

  /** How far apart two output samples are, in input samples. */
  function Scale(m: nat, n: nat): real
    requires n > 1
  {
    (m - 1) as real / (n - 1) as real
  }

  function Position(i: nat, scale: real): real {
    i as real * scale
  }

  function Index(pos: real, m: nat): int {
    if pos.Floor <= m - 2 then pos.Floor else m - 2
  }

  function Blend(a: real, b: real, frac: real): real {
    a + Times(b - a, frac)
  }

  function Times(d: real, f: real): real {
    d * f
  }

  /** The input, read between its samples. */
  function ReadAt(input: seq<real>, pos: real): real
    requires |input| > 1 && 0.0 <= pos
  {
    var idx := Index(pos, |input|);
    Blend(input[idx], input[idx + 1], pos - idx as real)
  }

  function Sample(input: seq<real>, n: nat, i: nat): real
    requires |input| > 0 && i < n
  {
    if |input| == 1 || n == 1 then input[0]
    else
      PositionRange(|input|, n, i);
      ReadAt(input, Position(i, Scale(|input|, n)))
  }

  function Resampled(input: seq<real>, n: nat): (out: seq<real>)
    ensures |out| == n
  {
    if input == [] then seq(n, i => 0.0) else seq(n, i requires 0 <= i < n => Sample(input, n, i))
  }

  method LinearResample(input: seq<real>, outputLen: nat) returns (out: seq<real>)
    ensures out == Resampled(input, outputLen)
  {
    hide Blend, Scale, Position;
    if outputLen == 0 {
      return [];
    }
    if |input| == 0 {
      return seq(outputLen, i => 0.0);
    }
    if |input| == 1 || outputLen == 1 {
      return seq(outputLen, i => input[0]);
    }
    out := [];
    var scale := Scale(|input|, outputLen);
    for i := 0 to outputLen
      invariant out == Resampled(input, outputLen)[..i]
    {
      var pos := Position(i, scale);
      PositionRange(|input|, outputLen, i);
      var idx := if pos.Floor <= |input| - 2 then pos.Floor else |input| - 2;
      var frac := pos - idx as real;
      out := out + [Blend(input[idx], input[idx + 1], frac)];
    }
  }

  // ---- Positions --------------------------------------------------------------------

  lemma MulMonotone(a: real, b: real, c: real)
    requires c >= 0.0
    ensures a <= b ==> a * c <= b * c
  {
  }

  lemma PositionMonotone(i: nat, j: nat, m: nat, n: nat)
    requires m >= 1 && n > 1 && i <= j
    ensures 0.0 <= Position(i, Scale(m, n)) <= Position(j, Scale(m, n))
  {
    MulMonotone(0.0, i as real, Scale(m, n));
    MulMonotone(i as real, j as real, Scale(m, n));
  }

  lemma PositionRange(m: nat, n: nat, i: nat)
    requires m >= 1 && n > 1 && i < n
    ensures 0.0 <= Position(i, Scale(m, n)) <= (m - 1) as real
    ensures Position(n - 1, Scale(m, n)) == (m - 1) as real
  {
    PositionMonotone(i, n - 1, m, n);
  }

  lemma IndexRange(pos: real, m: nat)
    requires m > 1 && 0.0 <= pos <= (m - 1) as real
    ensures 0 <= Index(pos, m) <= m - 2
    ensures 0.0 <= pos - Index(pos, m) as real <= 1.0
  {
  }

  lemma BlendRange(a: real, b: real, frac: real)
    requires 0.0 <= frac <= 1.0
    ensures a <= b ==> a <= Blend(a, b, frac) <= b
    ensures b <= a ==> b <= Blend(a, b, frac) <= a
  {
    hide Blend;
    if a <= b {
      BlendUp(a, b, frac);
    }
    if b <= a {
      BlendDown(a, b, frac);
    }
  }

  lemma BlendUp(a: real, b: real, frac: real)
    requires 0.0 <= frac <= 1.0 && a <= b
    ensures a <= Blend(a, b, frac) <= b
  {
    hide Times;
    UnitProduct(b - a, frac);
  }

  lemma BlendDown(a: real, b: real, frac: real)
    requires 0.0 <= frac <= 1.0 && b <= a
    ensures b <= Blend(a, b, frac) <= a
  {
    hide Times;
    UnitProduct(a - b, frac);
    Negates(b - a, a - b, frac);
  }

  lemma UnitProduct(d: real, f: real)
    requires d >= 0.0 && 0.0 <= f <= 1.0
    ensures 0.0 <= Times(d, f) <= d
  {
    assert d * (1.0 - f) >= 0.0;
    assert d * (1.0 - f) == d - d * f;
  }

  lemma Negates(x: real, y: real, f: real)
    requires x == -y
    ensures Times(x, f) == -Times(y, f)
  {
  }

  lemma BlendEnds(a: real, b: real)
    ensures Blend(a, b, 0.0) == a && Blend(a, b, 1.0) == b
  {
  }

  lemma BlendMonotone(a: real, b: real, f: real, g: real)
    requires a <= b && f <= g
    ensures Blend(a, b, f) <= Blend(a, b, g)
  {
    MulMonotone(f, g, b - a);
  }

  // ---- What interpolation gives -----------------------------------------------------

  function Min(a: real, b: real): real { if a <= b then a else b }

  function Max(a: real, b: real): real { if a <= b then b else a }

  /** Every output lies between two neighbouring inputs. */
  lemma BetweenNeighbours(input: seq<real>, n: nat, i: nat)
    requires |input| > 1 && n > 1 && i < n
    ensures var j := Index(Position(i, Scale(|input|, n)), |input|);
            && 0 <= j < |input| - 1
            && Min(input[j], input[j + 1]) <= Resampled(input, n)[i] <= Max(input[j], input[j + 1])
  {
    hide Blend, Scale, Position, Index;
    PositionRange(|input|, n, i);
    var pos := Position(i, Scale(|input|, n));
    IndexRange(pos, |input|);
    var j := Index(pos, |input|);
    BlendRange(input[j], input[j + 1], pos - j as real);
  }

  /** At a whole position the reading is the sample there. */
  lemma ReadAtWhole(input: seq<real>, k: nat)
    requires |input| > 1 && k < |input|
    ensures ReadAt(input, k as real) == input[k]
  {
    hide Blend;
    assert (k as real).Floor == k;
    if k < |input| - 1 {
      BlendEnds(input[k], input[k + 1]);
    } else {
      BlendEnds(input[k - 1], input[k]);
      assert Index(k as real, |input|) == k - 1;
    }
  }

  /** Same length: the identity. */
  lemma Identity(input: seq<real>)
    ensures Resampled(input, |input|) == input
  {
    hide Blend, ReadAt;
    forall i | 0 <= i < |input| ensures Resampled(input, |input|)[i] == input[i] {
      if |input| > 1 {
        UnitScale(|input|, i);
        ReadAtWhole(input, i);
      }
    }
  }

  lemma UnitScale(m: nat, i: nat)
    requires m > 1
    ensures Position(i, Scale(m, m)) == i as real
  {
  }

  /** Both ends are kept. */
  lemma EndsKept(input: seq<real>, n: nat)
    requires |input| > 1 && n > 1
    ensures Resampled(input, n)[0] == input[0] && Resampled(input, n)[n - 1] == input[|input| - 1]
  {
    ZeroPosition(Scale(|input|, n));
    hide Blend, ReadAt, Scale, Position;
    PositionRange(|input|, n, n - 1);
    ReadAtWhole(input, 0);
    ReadAtWhole(input, |input| - 1);
  }

  lemma ZeroPosition(scale: real)
    ensures Position(0, scale) == 0.0
  {
  }

  ghost predicate NonDecreasing(xs: seq<real>) {
    forall i, j :: 0 <= i <= j < |xs| ==> xs[i] <= xs[j]
  }

  /** Reading a non-decreasing input later reads no less. */
  lemma ReadMonotone(input: seq<real>, p: real, q: real)
    requires |input| > 1 && 0.0 <= p <= q <= (|input| - 1) as real && NonDecreasing(input)
    ensures ReadAt(input, p) <= ReadAt(input, q)
  {
    hide Blend;
    IndexRange(p, |input|);
    IndexRange(q, |input|);
    var j, k := Index(p, |input|), Index(q, |input|);
    assert j <= k;
    if j == k {
      BlendMonotone(input[j], input[j + 1], p - j as real, q - j as real);
    } else {
      BlendRange(input[j], input[j + 1], p - j as real);
      BlendRange(input[k], input[k + 1], q - k as real);
      assert input[j + 1] <= input[k];
    }
  }

  /** A non-decreasing input gives a non-decreasing output. */
  lemma OrderKept(input: seq<real>, n: nat)
    requires NonDecreasing(input)
    ensures NonDecreasing(Resampled(input, n))
  {
    hide ReadAt, Scale, Position;
    forall i, j | 0 <= i <= j < n ensures Resampled(input, n)[i] <= Resampled(input, n)[j] {
      if |input| > 1 && n > 1 {
        PositionRange(|input|, n, i);
        PositionRange(|input|, n, j);
        PositionMonotone(i, j, |input|, n);
        ReadMonotone(input, Position(i, Scale(|input|, n)), Position(j, Scale(|input|, n)));
      }
    }
  }

  function Line(offset: real, slope: real, x: real): real {
    offset + slope * x
  }

  lemma LineBlends(offset: real, slope: real, j: real, pos: real)
    ensures Blend(Line(offset, slope, j), Line(offset, slope, j + 1.0), pos - j) == Line(offset, slope, pos)
  {
    assert Line(offset, slope, j + 1.0) - Line(offset, slope, j) == slope;
    assert slope * (pos - j) == slope * pos - slope * j;
  }

  /** A straight line is met exactly, at any length. */
  lemma LinesAreExact(input: seq<real>, n: nat, i: nat, offset: real, slope: real)
    requires |input| > 1 && n > 1 && i < n
    requires forall k :: 0 <= k < |input| ==> input[k] == Line(offset, slope, k as real)
    ensures Resampled(input, n)[i] == Line(offset, slope, Position(i, Scale(|input|, n)))
  {
    hide Blend, Scale, Position, Line, Index;
    PositionRange(|input|, n, i);
    var pos := Position(i, Scale(|input|, n));
    IndexRange(pos, |input|);
    var j := Index(pos, |input|);
    LineBlends(offset, slope, j as real, pos);
  }
}
