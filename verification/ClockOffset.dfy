/**
  The clock offset between headset and server (helper/src/wivrn/clock_offset.cpp): a
  window of a hundred round trips, a mean of midpoints, and a stability flag kept in
  the least significant bit of the estimate. Doubles are reals; times are nanoseconds.
 */
module ClockOffset {
  import opened Prelude

  datatype Sample = Sample(query: int, response: int, received: int)

  const WINDOW := 100
  const STABLE_WITHIN := 20_000_000.0

  datatype State = State(samples: seq<Sample>, index: nat, b: int)

  const INITIAL := State([], 0, 0)

  function RoundTrip(s: Sample): int { s.received - s.query }

  function Midpoint(s: Sample): real { (s.query + s.received) as real * 0.5 }

  function SumTrips(w: seq<Sample>): int { if w == [] then 0 else SumTrips(w[..|w| - 1]) + RoundTrip(w[|w| - 1]) }

  function SumMid(w: seq<Sample>): real { if w == [] then 0.0 else SumMid(w[..|w| - 1]) + Midpoint(w[|w| - 1]) }

  function SumResponse(w: seq<Sample>): real {
    if w == [] then 0.0 else SumResponse(w[..|w| - 1]) + w[|w| - 1].response as real
  }

  // The mean over the window of what each round trip says the offset is.
  function MeanOffset(w: seq<Sample>): real
    requires w != []
  {
    SumResponse(w) / |w| as real - SumMid(w) / |w| as real
  }

  // A conversion to an integer drops the fraction.
  function Truncated(x: real): int { if x >= 0.0 then x.Floor else -((-x).Floor) }

  // The flag is the least significant bit of the two's complement value.
  function FlagCleared(b: int): int { b - b % 2 }

  function FlagSet(b: int): int { if b % 2 == 0 then b + 1 else b }

  predicate Flagged(b: int) { b % 2 == 1 }

  function AbsReal(x: real): real { if x < 0.0 then -x else x }

  // A full window refuses a round trip more than three times its mean.
  predicate Admits(s: State, x: Sample) {
    |s.samples| < WINDOW || RoundTrip(x) <= 3 * TruncDiv(SumTrips(s.samples), |s.samples|)
  }

  ghost predicate Shaped(s: State) {
    |s.samples| <= WINDOW && s.index < WINDOW && (|s.samples| < WINDOW ==> s.index == 0)
  }

  function Estimate(w: seq<Sample>, previous: int): int
    requires w != []
  {
    var b := MeanOffset(w);
    if |w| < WINDOW then FlagCleared(Truncated(b))
    else if AbsReal(b - previous as real) < STABLE_WITHIN then FlagSet(Truncated(b))
    else FlagCleared(Truncated(b))
  }

  function Added(s: State, x: Sample): (t: State)
    requires Shaped(s)
    ensures Shaped(t)
  {
    if !Admits(s, x) then s
    else if |s.samples| < WINDOW then
      var w := s.samples + [x];
      State(w, s.index, Estimate(w, s.b))
    else
      var w := s.samples[s.index := x];
      State(w, (s.index + 1) % WINDOW, Estimate(w, s.b))
  }

  // --- The window ------------------------------------------------------------------

  // The window in the order its samples were admitted.
  function InOrder(s: State): seq<Sample>
    requires s.index <= |s.samples|
  {
    s.samples[s.index..] + s.samples[..s.index]
  }

  function After(xs: seq<Sample>): (s: State)
    ensures Shaped(s)
  {
    if xs == [] then INITIAL else Added(After(xs[..|xs| - 1]), xs[|xs| - 1])
  }

  function AdmittedOf(xs: seq<Sample>): seq<Sample> {
    if xs == [] then []
    else AdmittedOf(xs[..|xs| - 1]) + if Admits(After(xs[..|xs| - 1]), xs[|xs| - 1]) then [xs[|xs| - 1]] else []
  }

  function LastOf(a: seq<Sample>, n: nat): seq<Sample> { if |a| <= n then a else a[|a| - n..] }

  // A sequence cut around position |a|, with the element there replaced.
  lemma CutAround(w: seq<Sample>, i: nat, x: Sample)
    requires i < |w|
    ensures w[i := x][i + 1..] == w[i + 1..] && w[i := x][..i + 1] == w[..i] + [x]
    ensures (w[i..] + w[..i])[1..] == w[i + 1..] + w[..i]
  {
  }

  lemma ShiftedInside(w: seq<Sample>, i: nat, x: Sample)
    requires i + 1 < |w|
    ensures var v := w[i := x]; v[i + 1..] + v[..i + 1] == (w[i..] + w[..i])[1..] + [x]
  {
    CutAround(w, i, x);
    Regroup(w[i + 1..], w[..i], [x]);
  }

  lemma ShiftedAtEnd(w: seq<Sample>, i: nat, x: Sample)
    requires i + 1 == |w|
    ensures var v := w[i := x]; v[0..] + v[..0] == (w[i..] + w[..i])[1..] + [x]
  {
    CutAround(w, i, x);
    var v := w[i := x];
    assert v[..i + 1] == v && v[0..] == v && v[..0] == [] && w[i + 1..] == [];
  }

  lemma ReplacingShifts(s: State, x: Sample)
    requires Shaped(s) && |s.samples| == WINDOW
    ensures InOrder(State(s.samples[s.index := x], (s.index + 1) % WINDOW, 0)) == InOrder(s)[1..] + [x]
  {
    if s.index + 1 == WINDOW {
      ShiftedAtEnd(s.samples, s.index, x);
    } else {
      ShiftedInside(s.samples, s.index, x);
    }
  }

  lemma InOrderFromZero(s: State)
    requires s.index == 0
    ensures InOrder(s) == s.samples
  {
  }

  lemma LastOfGrows(a: seq<Sample>, x: Sample)
    ensures LastOf(a + [x], WINDOW) == if |a| < WINDOW then a + [x] else LastOf(a, WINDOW)[1..] + [x]
  {
  }

  lemma WindowMoves(s: State, x: Sample, a: seq<Sample>)
    requires Shaped(s) && s.index <= |s.samples| && Admits(s, x)
    requires InOrder(s) == LastOf(a, WINDOW) && |s.samples| == Min(WINDOW, |a|)
    ensures var t := Added(s, x);
            && t.index <= |t.samples| && |t.samples| == Min(WINDOW, |a + [x]|)
            && InOrder(t) == LastOf(a + [x], WINDOW)
  {
    LastOfGrows(a, x);
    if |s.samples| < WINDOW {
      InOrderFromZero(s);
      InOrderFromZero(Added(s, x));
    } else {
      ReplacingShifts(s, x);
    }
  }

  // After any samples, the window is exactly the last hundred admitted ones.
  lemma {:induction false} WindowIsLastAdmitted(xs: seq<Sample>)
    ensures After(xs).index <= |After(xs).samples|
    ensures InOrder(After(xs)) == LastOf(AdmittedOf(xs), WINDOW)
    ensures |After(xs).samples| == Min(WINDOW, |AdmittedOf(xs)|)
    decreases |xs|
  {
    if xs != [] {
      var front, x := xs[..|xs| - 1], xs[|xs| - 1];
      WindowIsLastAdmitted(front);
      if Admits(After(front), x) { WindowMoves(After(front), x, AdmittedOf(front)); }
    }
  }

  // --- The error ------------------------------------------------------------------------

  // The headset answered between the query and its receipt, on a clock `theta` ahead.
  ghost predicate Honest(x: Sample, theta: real) {
    x.query as real <= x.response as real - theta <= x.received as real
  }

  // n copies of x.
  function Times(n: nat, x: real): real { if n == 0 then 0.0 else Times(n - 1, x) + x }

  lemma OneMore(a: real, x: real)
    ensures (a + 1.0) * x == a * x + x
  {
  }

  lemma {:induction false} TimesMultiplies(n: nat, x: real)
    ensures Times(n, x) == n as real * x
  {
    if n == 0 {
      assert 0.0 * x == 0.0;
    } else {
      TimesMultiplies(n - 1, x);
      OneMore((n - 1) as real, x);
    }
  }

  lemma OneIsClose(x: Sample, theta: real)
    ensures Honest(x, theta) ==> AbsReal(x.response as real - Midpoint(x) - theta) <= RoundTrip(x) as real * 0.5
  {
  }

  lemma {:induction false} SumsAreClose(w: seq<Sample>, theta: real)
    requires forall i :: 0 <= i < |w| ==> Honest(w[i], theta)
    ensures AbsReal(SumResponse(w) - SumMid(w) - Times(|w|, theta)) <= SumTrips(w) as real * 0.5
  {
    if w != [] {
      var front, x := w[..|w| - 1], w[|w| - 1];
      SumsAreClose(front, theta);
      OneIsClose(x, theta);
    }
  }

  lemma MeanError(sum: real, n: real, theta: real, half: real)
    requires n > 0.0 && AbsReal(sum - n * theta) <= half
    ensures AbsReal(sum / n - theta) <= half / n
  {
    assert sum / n - theta == (sum - n * theta) / n by { assert n * theta / n == theta; }
    if sum - n * theta >= 0.0 {
      DivMono(sum - n * theta, half, n);
    } else {
      DivMono(n * theta - sum, half, n);
      assert (n * theta - sum) / n == -((sum - n * theta) / n);
    }
  }

  lemma DivMono(a: real, b: real, n: real)
    requires a <= b && n > 0.0
    ensures a / n <= b / n
  {
    assert b / n - a / n == (b - a) / n;
  }

  function HalfMeanTrip(w: seq<Sample>): real
    requires w != []
  {
    SumTrips(w) as real * 0.5 / |w| as real
  }

  // The mean differs from the true offset by at most half the mean round trip.
  lemma MeanOffsetError(w: seq<Sample>, theta: real)
    requires w != [] && forall i :: 0 <= i < |w| ==> Honest(w[i], theta)
    ensures AbsReal(MeanOffset(w) - theta) <= HalfMeanTrip(w)
  {
    SumsAreClose(w, theta);
    MeansError(SumResponse(w), SumMid(w), |w|, theta, SumTrips(w) as real * 0.5);
  }

  lemma MeansError(a: real, b: real, n: nat, theta: real, half: real)
    requires n > 0 && AbsReal(a - b - Times(n, theta)) <= half
    ensures AbsReal(a / n as real - b / n as real - theta) <= half / n as real
  {
    TimesMultiplies(n, theta);
    DivSubtracts(a, b, n as real);
    MeanError(a - b, n as real, theta, half);
  }

  lemma DivSubtracts(a: real, b: real, n: real)
    ensures n > 0.0 ==> a / n - b / n == (a - b) / n
  {
  }

  // Truncation and the flag cost less than two nanoseconds, whichever way the flag goes.
  lemma FlagError(x: real)
    ensures AbsReal(FlagCleared(Truncated(x)) as real - x) <= 2.0 && AbsReal(FlagSet(Truncated(x)) as real - x) <= 2.0
  {
  }

  // After any samples all of which were honest, the estimate is within half the mean
  // round trip of the retained window, plus two nanoseconds, of the true offset.
  lemma EstimateError(xs: seq<Sample>, theta: real)
    requires xs != [] && forall i :: 0 <= i < |xs| ==> Honest(xs[i], theta)
    ensures var s := After(xs);
            && s.samples != []
            && AbsReal(s.b as real - theta) <= HalfMeanTrip(s.samples) + 2.0
  {
    EstimateIsFlagged(xs);
    SamplesAreFed(xs);
    var w := After(xs).samples;
    forall i | 0 <= i < |w| ensures Honest(w[i], theta) { assert w[i] in xs; }
    MeanOffsetError(w, theta);
    FlagError(MeanOffset(w));
  }

  // The estimate is the flagged mean of the present window.
  lemma {:induction false} EstimateIsFlagged(xs: seq<Sample>)
    requires xs != []
    ensures var s := After(xs);
            s.samples != [] && (s.b == FlagCleared(Truncated(MeanOffset(s.samples)))
                                || s.b == FlagSet(Truncated(MeanOffset(s.samples))))
    decreases |xs|
  {
    if |xs| > 1 {
      EstimateIsFlagged(xs[..|xs| - 1]);
    } else {
      assert xs[..0] == [];
    }
  }

  lemma {:induction false} SamplesAreFed(xs: seq<Sample>)
    ensures forall x :: x in After(xs).samples ==> x in xs
    decreases |xs|
  {
    if xs != [] {
      SamplesAreFed(xs[..|xs| - 1]);
      assert xs == xs[..|xs| - 1] + [xs[|xs| - 1]];
    }
  }

  // --- The flag ----------------------------------------------------------------------------

  // Reading the flag back: stable exactly when the window is full and the mean moved
  // less than twenty milliseconds from the estimate before.
  lemma FlagReadsBack(s: State, x: Sample)
    requires Shaped(s) && Admits(s, x)
    ensures var t := Added(s, x);
            Flagged(t.b) <==> |t.samples| == WINDOW && AbsReal(MeanOffset(t.samples) - s.b as real) < STABLE_WITHIN
  {
  }

  // --- What the history says ------------------------------------------------------------------

  // The hundred samples admitted last.
  function Window(xs: seq<Sample>): seq<Sample> { LastOf(AdmittedOf(xs), WINDOW) }

  ghost predicate AdmittedAt(xs: seq<Sample>, k: nat)
    requires k < |xs|
  {
    Admits(After(xs[..k]), xs[k])
  }

  // The last of the samples that was admitted is the one at k.
  ghost predicate LastAdmitted(xs: seq<Sample>, k: nat) {
    && k < |xs|
    && AdmittedAt(xs, k)
    && forall j :: k < j < |xs| ==> !AdmittedAt(xs, j)
  }

  // The window is full and its mean is near the estimate before the last admitted sample.
  ghost predicate Steady(xs: seq<Sample>) {
    && |Window(xs)| == WINDOW
    && exists k: nat ::
         LastAdmitted(xs, k) && AbsReal(MeanOffset(Window(xs)) - After(xs[..k]).b as real) < STABLE_WITHIN
  }

  ghost predicate AllHonest(xs: seq<Sample>, theta: real) { forall i :: 0 <= i < |xs| ==> Honest(xs[i], theta) }

  lemma {:induction false} SumsSplit(a: seq<Sample>, b: seq<Sample>)
    ensures SumTrips(a + b) == SumTrips(a) + SumTrips(b)
    ensures SumMid(a + b) == SumMid(a) + SumMid(b)
    ensures SumResponse(a + b) == SumResponse(a) + SumResponse(b)
    decreases |b|
  {
    if b == [] {
      assert a + b == a;
    } else {
      SumsSplit(a, b[..|b| - 1]);
      assert (a + b)[..|a + b| - 1] == a + b[..|b| - 1];
    }
  }

  lemma RotationKeepsSums(w: seq<Sample>, i: nat, v: seq<Sample>)
    requires i <= |w| && v == w[i..] + w[..i]
    ensures |v| == |w|
    ensures SumTrips(v) == SumTrips(w)
    ensures SumMid(v) == SumMid(w)
    ensures SumResponse(v) == SumResponse(w)
  {
    SumsSplit(w[i..], w[..i]);
    SumsSplit(w[..i], w[i..]);
    assert w[..i] + w[i..] == w;
  }

  // The sums do not mind where the circular buffer begins.
  lemma OrderDoesNotMatter(xs: seq<Sample>)
    ensures var w := After(xs).samples;
            && |Window(xs)| == |w|
            && SumTrips(Window(xs)) == SumTrips(w)
            && SumMid(Window(xs)) == SumMid(w) && SumResponse(Window(xs)) == SumResponse(w)
  {
    WindowIsLastAdmitted(xs);
    RotationKeepsSums(After(xs).samples, After(xs).index, Window(xs));
  }

  lemma AdmittedEarlier(xs: seq<Sample>, n: nat, k: nat)
    requires k < n <= |xs|
    ensures AdmittedAt(xs[..n], k) <==> AdmittedAt(xs, k)
  {
    assert xs[..n][..k] == xs[..k];
  }

  lemma {:induction false} SomeAdmissionIsLast(xs: seq<Sample>) returns (k: nat)
    requires xs != []
    ensures LastAdmitted(xs, k)
    decreases |xs|
  {
    var n := |xs| - 1;
    if AdmittedAt(xs, n) {
      k := n;
    } else {
      NothingIsRefusedFirst(xs);
      k := SomeAdmissionIsLast(xs[..n]);
      forall j | 0 <= j < n ensures AdmittedAt(xs[..n], j) <==> AdmittedAt(xs, j) { AdmittedEarlier(xs, n, j); }
    }
  }

  lemma NothingIsRefusedFirst(xs: seq<Sample>)
    requires xs != []
    ensures AdmittedAt(xs, 0)
  {
  }

  // What is refused changes nothing.
  lemma RefusedChangesNothing(xs: seq<Sample>, j: nat)
    requires j < |xs| && !AdmittedAt(xs, j)
    ensures After(xs[..j + 1]) == After(xs[..j])
  {
    assert xs[..j + 1][..j] == xs[..j];
  }

  lemma AdmittedIsAdded(xs: seq<Sample>, k: nat)
    requires k < |xs|
    ensures After(xs[..k + 1]) == Added(After(xs[..k]), xs[k])
  {
    assert xs[..k + 1][..k] == xs[..k];
  }

  lemma {:induction false} NothingSinceChanged(xs: seq<Sample>, k: nat, n: nat)
    requires k < n <= |xs| && forall j :: k < j < n ==> !AdmittedAt(xs, j)
    ensures After(xs[..n]) == After(xs[..k + 1])
  {
    if k + 1 < n {
      NothingSinceChanged(xs, k, n - 1);
      RefusedChangesNothing(xs, n - 1);
    }
  }

  lemma StateOfLastAdmitted(xs: seq<Sample>, k: nat)
    requires LastAdmitted(xs, k)
    ensures After(xs) == Added(After(xs[..k]), xs[k])
  {
    NothingSinceChanged(xs, k, |xs|);
    AdmittedIsAdded(xs, k);
    assert xs[..|xs|] == xs;
  }

  lemma OneAdmissionIsLast(xs: seq<Sample>, k: nat, j: nat)
    ensures LastAdmitted(xs, k) && LastAdmitted(xs, j) ==> k == j
  {
  }

  lemma SameMeanOffset(v: seq<Sample>, w: seq<Sample>)
    ensures v != [] && |v| == |w| && SumMid(v) == SumMid(w) && SumResponse(v) == SumResponse(w) ==>
              MeanOffset(v) == MeanOffset(w)
  {
  }

  lemma SteadySince(xs: seq<Sample>, k: nat)
    requires LastAdmitted(xs, k)
    ensures Steady(xs) <==> |Window(xs)| == WINDOW
                            && AbsReal(MeanOffset(Window(xs)) - After(xs[..k]).b as real) < STABLE_WITHIN
  {
    forall j: nat | LastAdmitted(xs, j) ensures j == k { OneAdmissionIsLast(xs, j, k); }
  }

  lemma FlagOfLastAdmitted(xs: seq<Sample>, k: nat)
    requires LastAdmitted(xs, k)
    ensures var w := After(xs).samples;
            Flagged(After(xs).b) <==>
              |w| == WINDOW && AbsReal(MeanOffset(w) - After(xs[..k]).b as real) < STABLE_WITHIN
  {
    StateOfLastAdmitted(xs, k);
    FlagReadsBack(After(xs[..k]), xs[k]);
  }

  // The flag says whether the history is steady, and nothing the estimator refuses
  // afterwards changes it.
  lemma FlagFollowsHistory(xs: seq<Sample>)
    ensures Flagged(After(xs).b) <==> Steady(xs)
  {
    if xs != [] {
      var k := SomeAdmissionIsLast(xs);
      SteadySince(xs, k);
      FlagOfLastAdmitted(xs, k);
      OrderDoesNotMatter(xs);
      if Window(xs) != [] { SameMeanOffset(Window(xs), After(xs).samples); }
    }
  }

  lemma SameHalfMeanTrip(v: seq<Sample>, w: seq<Sample>)
    ensures v != [] && |v| == |w| && SumTrips(v) == SumTrips(w) ==> HalfMeanTrip(v) == HalfMeanTrip(w)
  {
  }

  // The estimate is near the true offset of every clock the history is honest about.
  lemma EstimateFollowsHistory(xs: seq<Sample>, theta: real)
    requires xs != [] && AllHonest(xs, theta)
    ensures Window(xs) != [] && AbsReal(After(xs).b as real - theta) <= HalfMeanTrip(Window(xs)) + 2.0
  {
    EstimateError(xs, theta);
    OrderDoesNotMatter(xs);
    SameHalfMeanTrip(Window(xs), After(xs).samples);
  }

  lemma MeanTimes(n: nat, sum: real, mean: real)
    requires n > 0 && mean == sum / n as real
    ensures Times(n, mean) == sum
  {
    TimesMultiplies(n, mean);
  }

  lemma FedOneMore(xs: seq<Sample>, x: Sample)
    ensures After(xs + [x]) == Added(After(xs), x)
  {
    assert (xs + [x])[..|xs|] == xs;
  }

  // --- The class ------------------------------------------------------------------------------

  class Estimator {
    var samples: seq<Sample>
    var index: nat
    var b: int
    // Every sample since the last reset.
    ghost var fed: seq<Sample>

    ghost predicate Valid()
      reads this
    {
      View() == After(fed)
    }

    ghost function View(): State
      reads this
    {
      State(samples, index, b)
    }

    constructor ()
      ensures Valid() && fed == [] && View() == INITIAL
    {
      samples, index, b, fed := [], 0, 0, [];
    }

    method Reset()
      modifies this
      ensures Valid() && fed == [] && View() == INITIAL
    {
      samples, index, b, fed := [], 0, 0, [];
    }

    method AddSample(x: Sample)
      requires Valid()
      modifies this
      ensures Valid() && fed == old(fed) + [x] && View() == Added(old(View()), x)
    {
      FedOneMore(fed, x);
      Admit(x);
      fed := fed + [x];
    }

    method Admit(x: Sample)
      requires Shaped(View())
      modifies `samples, `index, `b
      ensures View() == Added(old(View()), x)
    {
      if |samples| < WINDOW {
        samples := samples + [x];
      } else {
        var latency := TotalTrips(samples);
        latency := TruncDiv(latency, |samples|);
        if x.received - x.query > 3 * latency { return; }
        samples := samples[index := x];
        index := (index + 1) % WINDOW;
      }
      var x0, y0 := Means(samples);
      if |samples| < WINDOW {
        b := FlagCleared(Truncated(y0 - x0));
        return;
      }
      var meanX, meanY := Recentred(samples, x0, y0);
      var mean := y0 + (meanY - meanX) - x0;
      var stable := AbsReal(mean - b as real) < STABLE_WITHIN;
      b := if stable then FlagSet(Truncated(mean)) else FlagCleared(Truncated(mean));
    }

    static method TotalTrips(w: seq<Sample>) returns (sum: int)
      ensures sum == SumTrips(w)
    {
      sum := 0;
      for i := 0 to |w|
        invariant sum == SumTrips(w[..i])
      {
        assert w[..i + 1][..i] == w[..i];
        sum := sum + (w[i].received - w[i].query);
      }
      assert w[..|w|] == w;
    }

    static method Means(w: seq<Sample>) returns (x0: real, y0: real)
      requires w != []
      ensures x0 == SumMid(w) / |w| as real && y0 == SumResponse(w) / |w| as real
    {
      x0, y0 := 0.0, 0.0;
      for i := 0 to |w|
        invariant x0 == SumMid(w[..i]) && y0 == SumResponse(w[..i])
      {
        assert w[..i + 1][..i] == w[..i];
        x0 := x0 + (w[i].query + w[i].received) as real * 0.5;
        y0 := y0 + w[i].response as real;
      }
      assert w[..|w|] == w;
      x0 := x0 / |w| as real;
      y0 := y0 / |w| as real;
    }

    // Recentred about their means the sums vanish, so the second pass over a full window
    // adds nothing to the plain mean of the warm-up.
    static method Recentred(w: seq<Sample>, x0: real, y0: real) returns (meanX: real, meanY: real)
      requires w != [] && x0 == SumMid(w) / |w| as real && y0 == SumResponse(w) / |w| as real
      ensures meanX == 0.0 && meanY == 0.0
    {
      var sumX, sumY := 0.0, 0.0;
      for i := 0 to |w|
        invariant sumX == SumMid(w[..i]) - Times(i, x0) && sumY == SumResponse(w[..i]) - Times(i, y0)
      {
        assert w[..i + 1][..i] == w[..i];
        sumX := sumX + ((w[i].query + w[i].received) as real * 0.5 - x0);
        sumY := sumY + (w[i].response as real - y0);
      }
      assert w[..|w|] == w;
      MeanTimes(|w|, SumMid(w), x0);
      MeanTimes(|w|, SumResponse(w), y0);
      meanX, meanY := sumX / |w| as real, sumY / |w| as real;
    }

    // Stable exactly when the samples fed so far say so, and near the offset of every
    // clock they are honest about.
    method GetOffset() returns (offset: int, stable: bool)
      requires Valid()
      ensures fed == [] ==> offset == 0
      ensures stable <==> Steady(fed)
      ensures fed != [] ==> Window(fed) != [] && forall theta: real :: AllHonest(fed, theta) ==>
                AbsReal(offset as real - theta) <= HalfMeanTrip(Window(fed)) + 2.0
    {
      offset, stable := b, b % 2 == 1;
      FlagFollowsHistory(fed);
      OrderDoesNotMatter(fed);
      if fed != [] { EstimateIsFlagged(fed); }
      forall theta: real | fed != [] && AllHonest(fed, theta)
        ensures AbsReal(offset as real - theta) <= HalfMeanTrip(Window(fed)) + 2.0
      {
        EstimateFollowsHistory(fed, theta);
      }
    }
  }
}
