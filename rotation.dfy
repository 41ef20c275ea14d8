/**
 * The rotation accumulator: the closure variable `currentRotation` and the
 * tail of the scroll `onUpdate` handler that turns progress into a target
 * yaw and applies only the difference to the model.
 */
module Rotation {
  import opened Units

  /** Rotation starts at this progress. */
  const RotationStart: real := 0.05

  /** Differences of at most this many radians are not applied. */
  const Epsilon: real := 0.001

  /** Three turns, four times over: `Math.PI * 3 * 4`. */
  const MaxRotation: real := Pi * 3.0 * 4.0

  /** The target yaw for progress `p` (meaningful for `p >= RotationStart`). */
  function TargetRotation(p: real): (t: real)
    ensures p == RotationStart ==> t == 0.0
    ensures p == 1.0 ==> t == MaxRotation
    ensures RotationStart <= p <= 1.0 ==> 0.0 <= t <= MaxRotation
  {
    var rotationProgress := (p - RotationStart) / 0.95;
    MaxRotation * rotationProgress
  }

  lemma TargetMonotone(p1: real, p2: real)
    requires p1 <= p2
    ensures TargetRotation(p1) <= TargetRotation(p2)
  {
  }

  /** `Math.abs` */
  function Abs(x: real): (r: real)
    ensures r >= 0.0 && (r == x || r == -x)
  {
    if x < 0.0 then -x else x
  }

  /** The outcome of one update: the new `currentRotation` and the yaw
      actually handed to `rotateOnAxis` (0 when no call is made). */
  datatype Step = Step(rotation: real, delta: real)

  /** One update of the accumulator from `current`, for progress `p`, when
      a model is (`hasModel`) or is not present. */
  function Update(current: real, hasModel: bool, p: real): (s: Step)
    // the applied delta always moves the accumulator by exactly itself
    ensures s.rotation == current + s.delta
    // below the start, or without a model, nothing moves (no reset)
    ensures !hasModel || p < RotationStart ==> s == Step(current, 0.0)
    // otherwise the accumulator ends within Epsilon of the target ...
    ensures hasModel && p >= RotationStart ==> Abs(s.rotation - TargetRotation(p)) <= Epsilon
    // ... landing on it exactly whenever the gap exceeded Epsilon
    ensures hasModel && p >= RotationStart && Abs(TargetRotation(p) - current) > Epsilon ==>
              s.rotation == TargetRotation(p) && s.delta != 0.0
    // a small gap is left alone
    ensures Abs(TargetRotation(p) - current) <= Epsilon ==> s == Step(current, 0.0)
  {
    if hasModel && p >= RotationStart then
      var rotationDiff := TargetRotation(p) - current;
      if Abs(rotationDiff) > Epsilon then Step(TargetRotation(p), rotationDiff)
      else Step(current, 0.0)
    else
      Step(current, 0.0)
  }

  /** `currentRotation` after a run of updates over `ps`, starting from `start`. */
  function Replay(start: real, hasModel: bool, ps: seq<real>): real
  {
    if ps == [] then start
    else Update(Replay(start, hasModel, ps[..|ps| - 1]), hasModel, ps[|ps| - 1]).rotation
  }

  /** The sum of all yaws handed to `rotateOnAxis` during that run. */
  function AppliedSum(start: real, hasModel: bool, ps: seq<real>): real
  {
    if ps == [] then 0.0
    else
      AppliedSum(start, hasModel, ps[..|ps| - 1])
      + Update(Replay(start, hasModel, ps[..|ps| - 1]), hasModel, ps[|ps| - 1]).delta
  }

  /** The applied deltas telescope: whatever the path, the yaw given to the
      model is the accumulator's total movement. */
  lemma {:induction false} AppliedSumTelescopes(start: real, hasModel: bool, ps: seq<real>)
    ensures start + AppliedSum(start, hasModel, ps) == Replay(start, hasModel, ps)
  {
    if ps != [] {
      AppliedSumTelescopes(start, hasModel, ps[..|ps| - 1]);
    }
  }

  /** Path independence: after any run whose last progress is at or past the
      start, the accumulator is within Epsilon of that progress's target, and
      so is the total yaw applied from a zero start. */
  lemma {:induction false} ReplayTracksTarget(hasModel: bool, ps: seq<real>)
    requires hasModel && ps != [] && ps[|ps| - 1] >= RotationStart
    ensures Abs(Replay(0.0, hasModel, ps) - TargetRotation(ps[|ps| - 1])) <= Epsilon
    ensures Abs(AppliedSum(0.0, hasModel, ps) - TargetRotation(ps[|ps| - 1])) <= Epsilon
  {
    AppliedSumTelescopes(0.0, hasModel, ps);
  }

  /** The scripted run 0 -> 0.05 -> 0.5 -> 1.0 ends at the full rotation, and
      the yaw applied along the way sums to it exactly. */
  lemma ScriptedRunReachesMaxRotation()
    ensures Replay(0.0, true, [0.0, 0.05, 0.5, 1.0]) == MaxRotation
    ensures AppliedSum(0.0, true, [0.0, 0.05, 0.5, 1.0]) == MaxRotation
  {
    var ps := [0.0, 0.05, 0.5, 1.0];
    assert ps[..3] == [0.0, 0.05, 0.5];
    assert ps[..3][..2] == [0.0, 0.05];
    assert ps[..3][..2][..1] == [0.0];
    assert ps[..3][..2][..1][..0] == [];
    AppliedSumTelescopes(0.0, true, ps);
  }

  /**
   * The closure variable `currentRotation` with, beside it, the total yaw
   * handed to `rotateOnAxis` over the page's lifetime.
   */
  class RotationAccumulator {
    var currentRotation: real
    ghost var totalApplied: real

    ghost predicate Valid()
      reads this
    {
      totalApplied == currentRotation
    }

    /** `currentRotation = 0` */
    constructor ()
      ensures Valid() && currentRotation == 0.0
    {
      currentRotation := 0.0;
      totalApplied := 0.0;
    }

    /** The rotation block of `onUpdate`. `applied` says whether
        `rotateOnAxis` is called, `delta` is the yaw it is called with. */
    method Apply(hasModel: bool, p: real) returns (applied: bool, delta: real)
      requires Valid()
      modifies this
      ensures Valid()
      ensures Step(currentRotation, delta) == Update(old(currentRotation), hasModel, p)
      ensures applied <==> delta != 0.0
      ensures totalApplied == old(totalApplied) + delta
    {
      applied, delta := false, 0.0;
      if hasModel && p >= RotationStart {
        var rotationProgress := (p - RotationStart) / 0.95;
        var targetRotation := Pi * 3.0 * 4.0 * rotationProgress;
        var rotationDiff := targetRotation - currentRotation;
        if Abs(rotationDiff) > Epsilon {
          applied, delta := true, rotationDiff;
          totalApplied := totalApplied + rotationDiff;
          currentRotation := targetRotation;
        }
      }
    }
  }
}
