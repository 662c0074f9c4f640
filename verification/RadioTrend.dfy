/**
  The radio trend of the bitrate controller fits its samples
  (helper/src/wivrn/bitrate_controller.cpp): of all lines through the means of time and
  level, the one with the slope it computes has the smallest sum of squared errors, and
  no other has the same.
 */
module RadioTrend {
  import opened Prelude
  import opened BitrateLaw

  function Error(p: RadioSample, t0: int, mt: real, my: real, slope: real): real {
    (p.rssi - my) - slope * (Seconds(p.when - t0) - mt)
  }

  // The squared errors of the line of a slope through the point (mt, my).
  function Errors(w: seq<RadioSample>, t0: int, mt: real, my: real, slope: real): real {
    if w == [] then 0.0
    else
      var e := Error(w[|w| - 1], t0, mt, my, slope);
      Errors(w[..|w| - 1], t0, mt, my, slope) + e * e
  }

  // The errors as a polynomial in the slope.
  function Quadratic(s: real, c: real, v: real, m: real): real { s - 2.0 * m * c + m * m * v }

  lemma QuadraticOfNothing(m: real)
    ensures Quadratic(0.0, 0.0, 0.0, m) == 0.0
  {
  }

  lemma QuadraticGrows(s: real, c: real, v: real, m: real, a: real, b: real)
    ensures Quadratic(s, c, v, m) + (a - m * b) * (a - m * b) == Quadratic(s + a * a, c + b * a, v + b * b, m)
  {
    assert (a - m * b) * (a - m * b) == a * a - 2.0 * m * (b * a) + m * m * (b * b);
    assert 2.0 * m * (c + b * a) == 2.0 * m * c + 2.0 * m * (b * a);
    assert m * m * (v + b * b) == m * m * v + m * m * (b * b);
  }

  // What the last sample adds to the squared errors of a slope.
  lemma LastError(w: seq<RadioSample>, t0: int, mt: real, my: real, m: real, a: real, b: real)
    requires w != [] && a == w[|w| - 1].rssi - my && b == Seconds(w[|w| - 1].when - t0) - mt
    ensures Errors(w, t0, mt, my, m) == Errors(w[..|w| - 1], t0, mt, my, m) + (a - m * b) * (a - m * b)
  {
    assert Error(w[|w| - 1], t0, mt, my, m) == a - m * b;
  }

  lemma LevelLine(a: real, b: real)
    ensures (a - 0.0 * b) * (a - 0.0 * b) == a * a
  {
    assert a - 0.0 * b == a;
  }

  // What the last sample adds to the sums behind the slope.
  lemma LastProduct(w: seq<RadioSample>, t0: int, mt: real, my: real, a: real, b: real)
    requires w != [] && a == w[|w| - 1].rssi - my && b == Seconds(w[|w| - 1].when - t0) - mt
    ensures Covariance(w, t0, mt, my) == Covariance(w[..|w| - 1], t0, mt, my) + b * a
  {
  }

  lemma LastSquare(w: seq<RadioSample>, t0: int, mt: real, b: real)
    ensures w != [] && b == Seconds(w[|w| - 1].when - t0) - mt ==>
              Variance(w, t0, mt) == Variance(w[..|w| - 1], t0, mt) + b * b
  {
  }

  // One more sample leaves the errors a polynomial in the slope.
  lemma SampleJoins(e: real, s: real, c: real, v: real, m: real, a: real, b: real,
                    e': real, s': real, c': real, v': real)
    requires e == Quadratic(s, c, v, m) && c' == c + b * a && v' == v + b * b
    requires e' == e + (a - m * b) * (a - m * b) && s' == s + (a - 0.0 * b) * (a - 0.0 * b)
    ensures e' == Quadratic(s', c', v', m)
  {
    LevelLine(a, b);
    QuadraticGrows(s, c, v, m, a, b);
  }

  lemma {:induction false} ErrorsAreQuadratic(w: seq<RadioSample>, t0: int, mt: real, my: real, m: real)
    ensures Errors(w, t0, mt, my, m)
            == Quadratic(Errors(w, t0, mt, my, 0.0), Covariance(w, t0, mt, my), Variance(w, t0, mt), m)
  {
    if w == [] {
      QuadraticOfNothing(m);
    } else {
      var front, a, b := w[..|w| - 1], w[|w| - 1].rssi - my, Seconds(w[|w| - 1].when - t0) - mt;
      ErrorsAreQuadratic(front, t0, mt, my, m);
      LastError(w, t0, mt, my, m, a, b);
      LastError(w, t0, mt, my, 0.0, a, b);
      LastProduct(w, t0, mt, my, a, b);
      LastSquare(w, t0, mt, b);
      SampleJoins(Errors(front, t0, mt, my, m), Errors(front, t0, mt, my, 0.0), Covariance(front, t0, mt, my),
                  Variance(front, t0, mt), m, a, b, Errors(w, t0, mt, my, m), Errors(w, t0, mt, my, 0.0),
                  Covariance(w, t0, mt, my), Variance(w, t0, mt));
    }
  }

  // The minimum of a quadratic that opens upwards is at c / v, and only there.
  lemma AboveTheVertex(s: real, c: real, v: real, k: real, d: real)
    requires c == k * v
    ensures Quadratic(s, c, v, k + d) == Quadratic(s, c, v, k) + v * (d * d)
  {
    assert (k + d) * (k + d) == k * k + 2.0 * k * d + d * d;
    assert (k * k + 2.0 * k * d + d * d) * v == k * k * v + 2.0 * d * (k * v) + v * (d * d);
    assert 2.0 * (k + d) * c == 2.0 * k * c + 2.0 * d * c;
  }

  lemma VertexIsLowest(s: real, c: real, v: real, k: real, m: real)
    requires v > 0.0 && k == c / v
    ensures Quadratic(s, c, v, k) <= Quadratic(s, c, v, m)
    ensures m != k ==> Quadratic(s, c, v, k) < Quadratic(s, c, v, m)
  {
    var d := m - k;
    AboveTheVertex(s, c, v, k, d);
    assert k + d == m;
    if d != 0.0 { var rise := SquareIsPositive(v, d); }
  }

  lemma PositiveProduct(a: real, b: real) returns (p: real)
    requires a > 0.0 && b > 0.0
    ensures p == a * b && p > 0.0
  {
    p := a * b;
  }

  lemma SquareIsPositive(v: real, d: real) returns (p: real)
    requires v > 0.0 && d != 0.0
    ensures p == v * (d * d)
    ensures p > 0.0
  {
    if d > 0.0 {
      p := PositiveProduct(d, d);
    } else {
      p := PositiveProduct(-d, -d);
      assert (-d) * (-d) == d * d;
    }
    p := PositiveProduct(v, p);
  }

  // A usable trend has the slope of least squares.
  lemma TrendFitsBest(w: seq<RadioSample>, slope: real)
    requires TrendOf(w).Some?
    ensures var t0 := w[0].when;
            var mt, my, best := SumT(w, t0) / |w| as real, SumY(w) / |w| as real, TrendOf(w).value.slope;
            && Errors(w, t0, mt, my, best) <= Errors(w, t0, mt, my, slope)
            && (slope != best ==> Errors(w, t0, mt, my, best) < Errors(w, t0, mt, my, slope))
  {
    var t0 := w[0].when;
    var mt, my := SumT(w, t0) / |w| as real, SumY(w) / |w| as real;
    var c, v := Covariance(w, t0, mt, my), Variance(w, t0, mt);
    ErrorsAreQuadratic(w, t0, mt, my, slope);
    ErrorsAreQuadratic(w, t0, mt, my, c / v);
    VertexIsLowest(Errors(w, t0, mt, my, 0.0), c, v, c / v, slope);
  }
}
