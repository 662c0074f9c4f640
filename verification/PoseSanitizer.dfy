/**
  The filter every headset and controller pose goes through
  (helper/src/wivrn/pose_sanitize.h): samples with a value that is not a finite number
  are rejected whole, samples that lost tracking are held back while the freeze is on.
  Floats are reals or not finite; scaling a quaternion to unit length is a parameter.
 */
module PoseSanitizer {

  datatype Num = Finite(value: real) | NotFinite
  datatype Vec = Vec(x: Num, y: Num, z: Num)
  datatype Quat = Quat(x: Num, y: Num, z: Num, w: Num)

  const ZERO := Vec(Finite(0.0), Finite(0.0), Finite(0.0))
  const IDENTITY := Quat(Finite(0.0), Finite(0.0), Finite(0.0), Finite(1.0))

  datatype Sample = Sample(orientation: Quat, position: Vec, linear: Vec, angular: Vec,
                           orientationValid: bool, positionValid: bool, linearValid: bool, angularValid: bool,
                           orientationTracked: bool, positionTracked: bool)

  predicate FiniteVec(v: Vec) {
    && v.x.Finite?
    && v.y.Finite?
    && v.z.Finite?
  }

  predicate FiniteQuat(q: Quat) {
    && q.x.Finite?
    && q.y.Finite?
    && q.z.Finite?
    && q.w.Finite?
  }

  // The squared length of a quaternion.
  function Norm2(q: Quat): real
    requires FiniteQuat(q)
  {
    q.x.value * q.x.value + q.y.value * q.y.value + q.z.value * q.z.value + q.w.value * q.w.value
  }

  // The same, of any quaternion.
  function Length2(q: Quat): Num { if FiniteQuat(q) then Finite(Norm2(q)) else NotFinite }

  predicate ValidOrientation(q: Quat) {
    && FiniteQuat(q)
    && 0.1 < Norm2(q) < 10.0
  }

  predicate Sane(s: Sample) {
    && (s.orientationValid ==> ValidOrientation(s.orientation))
    && (s.positionValid ==> FiniteVec(s.position))
    && (s.linearValid ==> FiniteVec(s.linear))
    && (s.angularValid ==> FiniteVec(s.angular))
  }

  // --- The sanitizer as a value ----------------------------------------------------

  datatype Tracked = Tracked(ever: bool, currently: bool, stamp: int)

  const NEVER := Tracked(false, false, -0x8000_0000_0000_0000)

  datatype State = State(orientationState: Tracked, positionState: Tracked, orientation: Quat, position: Vec,
                         haveOrientation: bool, havePosition: bool, rejected: nat, frozen: nat)

  const INITIAL := State(NEVER, NEVER, IDENTITY, ZERO, false, false, 0, 0)

  datatype Result = Result(orientation: Quat, position: Vec, linear: Vec, angular: Vec, usable: bool, clean: bool)

  datatype Input = Input(sample: Sample, stamp: int, freeze: bool)

  function Updated(t: Tracked, stamp: int, valid: bool, tracked: bool): Tracked {
    if !valid then t
    else
      var e := t.(ever := t.ever || tracked);
      if stamp >= t.stamp then e.(currently := tracked, stamp := stamp) else e
  }

  // Whether a component of the sample is to be used, given the state before it.
  predicate Takes(t: Tracked, valid: bool, tracked: bool, freeze: bool) {
    !valid || tracked || !freeze || !t.ever
  }

  function Sanitized(s: State, i: Input, unit: Quat -> Quat): (State, Result) {
    var p := i.sample;
    if !Sane(p) then
      (s.(rejected := s.rejected + 1),
       Result(s.orientation, s.position, ZERO, ZERO, s.haveOrientation && s.havePosition, false))
    else
      var takeO := Takes(s.orientationState, p.orientationValid, p.orientationTracked, i.freeze);
      var takeP := Takes(s.positionState, p.positionValid, p.positionTracked, i.freeze);
      var held := !takeO || !takeP;
      var t := State(Updated(s.orientationState, i.stamp, p.orientationValid, p.orientationTracked),
                     Updated(s.positionState, i.stamp, p.positionValid, p.positionTracked),
                     if p.orientationValid && takeO then unit(p.orientation) else s.orientation,
                     if p.positionValid && takeP then p.position else s.position,
                     s.haveOrientation || (p.orientationValid && takeO), s.havePosition || (p.positionValid && takeP),
                     s.rejected, if held then s.frozen + 1 else s.frozen);
      (t, Result(t.orientation, t.position,
                 if !held && p.linearValid then p.linear else ZERO, if !held && p.angularValid then p.angular else ZERO,
                 t.haveOrientation && t.havePosition, !held && p.orientationValid && p.positionValid))
  }

  function After(h: seq<Input>, unit: Quat -> Quat): State {
    if h == [] then INITIAL else Sanitized(After(h[..|h| - 1], unit), h[|h| - 1], unit).0
  }

  // --- The specification over the whole history ---------------------------------------

  datatype Part = Orientation | Position

  predicate ValidIn(i: Input, part: Part) {
    && Sane(i.sample)
    && match part case Orientation => i.sample.orientationValid case Position => i.sample.positionValid
  }

  predicate TrackedIn(i: Input, part: Part) {
    && ValidIn(i, part)
    && match part case Orientation => i.sample.orientationTracked case Position => i.sample.positionTracked
  }

  // Sample k supplies a component: it is sane and valid, and tracked, or let through by
  // the setting, or no tracked one came before it.
  ghost predicate Supplies(h: seq<Input>, k: nat, part: Part)
    requires k < |h|
  {
    && ValidIn(h[k], part)
    && (TrackedIn(h[k], part) || !h[k].freeze || forall j :: 0 <= j < k ==> !TrackedIn(h[j], part))
  }

  // The last sample that supplied the component, if any did.
  ghost predicate LastSupply(h: seq<Input>, k: nat, part: Part) {
    && k < |h|
    && Supplies(h, k, part)
    && forall j :: k < j < |h| ==> !Supplies(h, j, part)
  }

  ghost predicate AnySupply(h: seq<Input>, part: Part) { exists k :: 0 <= k < |h| && Supplies(h, k, part) }

  ghost predicate AnyTracked(h: seq<Input>, part: Part) { exists j :: 0 <= j < |h| && TrackedIn(h[j], part) }

  // A sane sample holds something back.
  ghost predicate Held(h: seq<Input>, k: nat)
    requires k < |h|
  {
    Sane(h[k].sample) && exists part :: ValidIn(h[k], part) && !Supplies(h, k, part)
  }

  // What a state remembers about one component.
  ghost predicate Remembers(s: State, h: seq<Input>, unit: Quat -> Quat) {
    && (s.orientationState.ever <==> AnyTracked(h, Orientation))
    && (s.positionState.ever <==> AnyTracked(h, Position))
    && (s.haveOrientation <==> AnySupply(h, Orientation))
    && (s.havePosition <==> AnySupply(h, Position))
    && (forall k: nat :: LastSupply(h, k, Orientation) ==> s.orientation == unit(h[k].sample.orientation))
    && (forall k: nat :: LastSupply(h, k, Position) ==> s.position == h[k].sample.position)
    && (!s.haveOrientation ==> s.orientation == IDENTITY)
    && (!s.havePosition ==> s.position == ZERO)
  }

  // A longer history says the same about its earlier samples.
  lemma SuppliesEarlier(h: seq<Input>, n: nat, k: nat, part: Part)
    ensures k < n <= |h| ==> (Supplies(h, k, part) <==> Supplies(h[..n], k, part))
  {
  }

  lemma LastSupplyMoves(h: seq<Input>, k: nat, part: Part)
    requires h != [] && LastSupply(h, k, part)
    ensures if Supplies(h, |h| - 1, part) then k == |h| - 1 else k < |h| - 1 && LastSupply(h[..|h| - 1], k, part)
  {
    var n := |h| - 1;
    if !Supplies(h, n, part) {
      SuppliesEarlier(h, n, k, part);
      forall j | k < j < n ensures !Supplies(h[..n], j, part) { SuppliesEarlier(h, n, j, part); }
    }
  }

  lemma SupplyExists(h: seq<Input>, part: Part)
    requires h != []
    ensures AnySupply(h, part) <==> Supplies(h, |h| - 1, part) || AnySupply(h[..|h| - 1], part)
  {
    var n, front := |h| - 1, h[..|h| - 1];
    forall k | 0 <= k < n ensures Supplies(h, k, part) <==> Supplies(front, k, part) { SuppliesEarlier(h, n, k, part); }
    if AnySupply(front, part) {
      var k :| 0 <= k < n && Supplies(front, k, part);
      assert Supplies(h, k, part);
    }
  }

  lemma {:induction false} SomeSupplyIsLast(h: seq<Input>, part: Part)
    requires AnySupply(h, part)
    ensures exists k: nat :: LastSupply(h, k, part)
    decreases |h|
  {
    var n := |h| - 1;
    if Supplies(h, n, part) {
      assert LastSupply(h, n, part);
    } else {
      SupplyExists(h, part);
      SomeSupplyIsLast(h[..n], part);
      var k: nat :| LastSupply(h[..n], k, part);
      forall j | k <= j < n ensures Supplies(h, j, part) <==> Supplies(h[..n], j, part) {
        SuppliesEarlier(h, n, j, part);
      }
      assert LastSupply(h, k, part);
    }
  }

  // Whether the next sample supplies a component is what the code decides.
  lemma SupplyIsTaken(s: State, h: seq<Input>, unit: Quat -> Quat)
    requires h != [] && Remembers(s, h[..|h| - 1], unit) && Sane(h[|h| - 1].sample)
    ensures var i := h[|h| - 1];
            && (Supplies(h, |h| - 1, Orientation) <==>
                  i.sample.orientationValid && Takes(s.orientationState, true, i.sample.orientationTracked, i.freeze))
            && (Supplies(h, |h| - 1, Position) <==>
                  i.sample.positionValid && Takes(s.positionState, true, i.sample.positionTracked, i.freeze))
  {
    var n, front := |h| - 1, h[..|h| - 1];
    assert forall j :: 0 <= j < n ==> h[j] == front[j];
  }

  lemma TrackedExists(h: seq<Input>, part: Part)
    requires h != []
    ensures AnyTracked(h, part) <==> TrackedIn(h[|h| - 1], part) || AnyTracked(h[..|h| - 1], part)
  {
    var n, front := |h| - 1, h[..|h| - 1];
    assert forall j :: 0 <= j < n ==> front[j] == h[j];
    if AnyTracked(front, part) {
      var j :| 0 <= j < n && TrackedIn(front[j], part);
      assert TrackedIn(h[j], part);
    }
    if AnyTracked(h, part) {
      var j :| 0 <= j < |h| && TrackedIn(h[j], part);
      if j < n { assert TrackedIn(front[j], part); }
    }
  }

  lemma StepRemembers(s: State, h: seq<Input>, unit: Quat -> Quat)
    requires h != [] && Remembers(s, h[..|h| - 1], unit)
    ensures Remembers(Sanitized(s, h[|h| - 1], unit).0, h, unit)
  {
    var n := |h| - 1;
    var t := Sanitized(s, h[n], unit).0;
    TrackedExists(h, Orientation);
    TrackedExists(h, Position);
    SupplyExists(h, Orientation);
    SupplyExists(h, Position);
    if Sane(h[n].sample) { SupplyIsTaken(s, h, unit); }
    forall k: nat | LastSupply(h, k, Orientation) ensures t.orientation == unit(h[k].sample.orientation) {
      LastSupplyMoves(h, k, Orientation);
    }
    forall k: nat | LastSupply(h, k, Position) ensures t.position == h[k].sample.position {
      LastSupplyMoves(h, k, Position);
    }
  }

  lemma {:induction false} HistoryIsRemembered(h: seq<Input>, unit: Quat -> Quat)
    ensures Remembers(After(h, unit), h, unit)
    decreases |h|
  {
    if h != [] {
      HistoryIsRemembered(h[..|h| - 1], unit);
      StepRemembers(After(h[..|h| - 1], unit), h, unit);
    }
  }

  // What the sanitizer reports for the last sample of any history: for each component
  // the last sample that supplied it, and usable once both have been supplied.
  lemma PoseFollowsHistory(h: seq<Input>, unit: Quat -> Quat)
    requires h != []
    ensures var r := Sanitized(After(h[..|h| - 1], unit), h[|h| - 1], unit).1;
            && (forall k: nat :: LastSupply(h, k, Orientation) ==> r.orientation == unit(h[k].sample.orientation))
            && (forall k: nat :: LastSupply(h, k, Position) ==> r.position == h[k].sample.position)
            && (r.usable <==> AnySupply(h, Orientation) && AnySupply(h, Position))
            && (!AnySupply(h, Orientation) ==> r.orientation == IDENTITY)
            && (!AnySupply(h, Position) ==> r.position == ZERO)
  {
    HistoryIsRemembered(h, unit);
    ReportIsState(After(h[..|h| - 1], unit), h[|h| - 1], unit);
  }

  // The reported pose is the remembered one.
  lemma ReportIsState(s: State, i: Input, unit: Quat -> Quat)
    ensures var (t, r) := Sanitized(s, i, unit);
            && r.orientation == t.orientation && r.position == t.position
            && r.usable == (t.haveOrientation && t.havePosition)
  {
  }

  // The velocities are those of this very sample exactly when it was sane and nothing of
  // it was held back; the report is clean exactly when it supplied both components.
  lemma VelocityFollowsHistory(h: seq<Input>, unit: Quat -> Quat)
    requires h != []
    ensures var n := |h| - 1;
            var r, moving := Sanitized(After(h[..n], unit), h[n], unit).1, Sane(h[n].sample) && !Held(h, n);
            && r.linear == (if moving && h[n].sample.linearValid then h[n].sample.linear else ZERO)
            && r.angular == (if moving && h[n].sample.angularValid then h[n].sample.angular else ZERO)
            && (r.clean <==> Supplies(h, n, Orientation) && Supplies(h, n, Position))
  {
    var n := |h| - 1;
    HistoryIsRemembered(h[..n], unit);
    if Sane(h[n].sample) {
      SupplyIsTaken(After(h[..n], unit), h, unit);
      assert Held(h, n) <==>
             || (ValidIn(h[n], Orientation) && !Supplies(h, n, Orientation))
             || (ValidIn(h[n], Position) && !Supplies(h, n, Position));
    }
  }

  // A rejected or held sample never reports a velocity.
  lemma NoVelocityWhenHeld(h: seq<Input>, unit: Quat -> Quat)
    requires h != [] && (!Sane(h[|h| - 1].sample) || Held(h, |h| - 1))
    ensures var r := Sanitized(After(h[..|h| - 1], unit), h[|h| - 1], unit).1;
            && r.linear == ZERO
            && r.angular == ZERO
            && !r.clean
  {
    VelocityFollowsHistory(h, unit);
  }

  // --- Unit length --------------------------------------------------------------------

  function Scaled(q: Quat, inv: real): Quat
    requires FiniteQuat(q)
  {
    Quat(Finite(q.x.value * inv), Finite(q.y.value * inv), Finite(q.z.value * inv), Finite(q.w.value * inv))
  }

  // Quaternions are scaled by the inverse of a square root of their squared length.
  ghost predicate Normalizes(unit: Quat -> Quat, root: real -> real) {
    forall q :: ValidOrientation(q) ==>
                  && root(Norm2(q)) > 0.0 && root(Norm2(q)) * root(Norm2(q)) == Norm2(q)
                  && unit(q) == Scaled(q, 1.0 / root(Norm2(q)))
  }

  lemma ScaledSquare(x: real, inv: real)
    ensures (x * inv) * (x * inv) == x * x * (inv * inv)
  {
  }

  lemma FourSquares(a: real, b: real, c: real, d: real, f: real)
    ensures a * f + b * f + c * f + d * f == (a + b + c + d) * f
  {
  }

  lemma ScalingScales(q: Quat, inv: real)
    requires FiniteQuat(q)
    ensures Norm2(Scaled(q, inv)) == Norm2(q) * (inv * inv)
  {
    var x, y, z, w := q.x.value, q.y.value, q.z.value, q.w.value;
    ScaledSquare(x, inv);
    ScaledSquare(y, inv);
    ScaledSquare(z, inv);
    ScaledSquare(w, inv);
    FourSquares(x * x, y * y, z * z, w * w, inv * inv);
  }

  lemma InverseRoot(n: real, r: real)
    requires r > 0.0 && r * r == n
    ensures n * ((1.0 / r) * (1.0 / r)) == 1.0
  {
    var inv := 1.0 / r;
    assert r * inv == 1.0;
    assert r * r * (inv * inv) == (r * inv) * (r * inv);
  }

  lemma UnitIsUnit(q: Quat, unit: Quat -> Quat, root: real -> real)
    requires Normalizes(unit, root) && ValidOrientation(q)
    ensures Length2(unit(q)) == Finite(1.0)
  {
    var r := root(Norm2(q));
    ScalingScales(q, 1.0 / r);
    InverseRoot(Norm2(q), r);
  }

  // Whatever arrives, what is reported is finite, and the orientation has unit length.
  lemma OnlyFiniteGetsThrough(h: seq<Input>, i: Input, unit: Quat -> Quat, root: real -> real)
    requires Normalizes(unit, root)
    ensures var r := Sanitized(After(h, unit), i, unit).1;
            && Length2(r.orientation) == Finite(1.0)
            && FiniteVec(r.position)
            && FiniteVec(r.linear)
            && FiniteVec(r.angular)
  {
    StateIsFinite(h, unit, root);
    if ValidOrientation(i.sample.orientation) { UnitIsUnit(i.sample.orientation, unit, root); }
  }

  lemma {:induction false} StateIsFinite(h: seq<Input>, unit: Quat -> Quat, root: real -> real)
    requires Normalizes(unit, root)
    ensures var s := After(h, unit);
            && Length2(s.orientation) == Finite(1.0)
            && FiniteVec(s.position)
    decreases |h|
  {
    if h == [] {
      assert 0.0 * 0.0 + 0.0 * 0.0 + 0.0 * 0.0 + 1.0 * 1.0 == 1.0;
    } else {
      StateIsFinite(h[..|h| - 1], unit, root);
      var q := h[|h| - 1].sample.orientation;
      if ValidOrientation(q) { UnitIsUnit(q, unit, root); }
    }
  }

  // --- The class ------------------------------------------------------------------------

  class Sanitizer {
    var state: State
    const unit: Quat -> Quat

    constructor (u: Quat -> Quat)
      ensures state == INITIAL && unit == u
    {
      state, unit := INITIAL, u;
    }

    static method UpdateTrackedState(t: Tracked, stamp: int, valid: bool, tracked: bool, freeze: bool)
      returns (after: Tracked, take: bool)
      ensures after == Updated(t, stamp, valid, tracked) && take == Takes(t, valid, tracked, freeze)
    {
      after := t;
      if !valid { return after, true; }
      var upToDate := stamp >= t.stamp;
      if tracked {
        after := after.(ever := true);
        if upToDate { after := after.(currently := true, stamp := stamp); }
        return after, true;
      }
      if upToDate { after := after.(currently := false, stamp := stamp); }
      take := !freeze || !after.ever;
    }

    method Sanitize(i: Input) returns (r: Result)
      modifies `state
      ensures (state, r) == Sanitized(old(state), i, unit)
    {
      var p := i.sample;
      if !Sane(p) {
        state := state.(rejected := state.rejected + 1);
        return Result(state.orientation, state.position, ZERO, ZERO, state.haveOrientation && state.havePosition,
                      false);
      }
      var os, takeO := UpdateTrackedState(state.orientationState, i.stamp, p.orientationValid, p.orientationTracked,
                                          i.freeze);
      var ps, takeP := UpdateTrackedState(state.positionState, i.stamp, p.positionValid, p.positionTracked, i.freeze);
      state := state.(orientationState := os, positionState := ps);
      var held := false;
      if p.orientationValid && takeO {
        state := state.(orientation := unit(p.orientation), haveOrientation := true);
      } else if p.orientationValid {
        held := true;
      }
      if p.positionValid && takeP {
        state := state.(position := p.position, havePosition := true);
      } else if p.positionValid {
        held := true;
      }
      var moving := !held && takeO && takeP;
      if held { state := state.(frozen := state.frozen + 1); }
      r := Result(state.orientation, state.position, if moving && p.linearValid then p.linear else ZERO,
                  if moving && p.angularValid then p.angular else ZERO, state.haveOrientation && state.havePosition,
                  !held && p.orientationValid && p.positionValid);
    }
  }
}
