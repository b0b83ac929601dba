/** The heat-localisation decision: column maxima to one of five wire tags. */
module Classifier {
  import opened Thermal

  /** Thresholds of the decision; every comparison against them is a strict `>`. */
  const FrontHeatLaunch: real := 33.0
  const FrontHeatForward: real := 29.0
  const LeftRightHeatThreshold: real := 26.0

  /** Columns 2..5 face forward, columns 0..1 lie to the right, columns 6..7 to the left. */
  const FrontLo: nat := 2
  const FrontHi: nat := 6
  const RightLo: nat := 0
  const RightHi: nat := 2
  const LeftLo: nat := 6
  const LeftHi: nat := 8

  datatype Decision = Launch | MoveForward | TurnRight | TurnLeft | Idle

  /** The string published on the heat-location topic for each decision. */
  function Tag(d: Decision): string {
    match d
    case Launch => "ok"
    case MoveForward => "forward"
    case TurnRight => "right"
    case TurnLeft => "left"
    case Idle => "null"
  }

  /** Python's max over a non-empty list. */
  function MaxOf(s: seq<real>): (r: real)
    requires |s| > 0
    ensures exists i :: 0 <= i < |s| && s[i] == r
    ensures forall i :: 0 <= i < |s| ==> s[i] <= r
  {
    if |s| == 1 then s[0] else Max(s[0], MaxOf(s[1..]))
  }

  function FrontMax(cm: seq<real>): real
    requires |cm| == Cols
  {
    MaxOf(cm[FrontLo..FrontHi])
  }

  function RightMax(cm: seq<real>): real
    requires |cm| == Cols
  {
    MaxOf(cm[RightLo..RightHi])
  }

  function LeftMax(cm: seq<real>): real
    requires |cm| == Cols
  {
    MaxOf(cm[LeftLo..LeftHi])
  }

  /** The if/elif chain over the column maxima, in its fixed priority order. */
  function Classify(cm: seq<real>): Decision
    requires |cm| == Cols
  {
    if FrontMax(cm) > FrontHeatLaunch then Launch
    else if FrontMax(cm) > FrontHeatForward then MoveForward
    else if RightMax(cm) > LeftRightHeatThreshold then TurnRight
    else if LeftMax(cm) > LeftRightHeatThreshold then TurnLeft
    else Idle
  }

  /** The decision taken for one sensor frame. */
  function ClassifyFrame(pixels: Frame): Decision
    requires IsFrame(pixels)
  {
    Classify(ColumnMaxes(pixels))
  }

  /** Some column in [lo, hi) is strictly above t: the column-wise reading of a zone test. */
  ghost predicate ZoneAbove(cm: seq<real>, lo: nat, hi: nat, t: real)
    requires lo <= hi <= |cm|
  {
    exists c :: lo <= c < hi && cm[c] > t
  }

  /** The maximum of a slice exceeds t exactly when one of its columns does. */
  lemma MaxOfAbove(cm: seq<real>, lo: nat, hi: nat, t: real)
    requires lo < hi <= |cm|
    ensures MaxOf(cm[lo..hi]) > t <==> ZoneAbove(cm, lo, hi, t)
  {
    var m := MaxOf(cm[lo..hi]);
    if m > t {
      var i :| 0 <= i < hi - lo && cm[lo..hi][i] == m;
      assert cm[lo + i] == m;
    }
    if ZoneAbove(cm, lo, hi, t) {
      var c :| lo <= c < hi && cm[c] > t;
      assert cm[lo..hi][c - lo] == cm[c];
    }
  }

  /** The decision stated column by column: each tag is produced exactly when its own test
      passes and every higher-priority test fails, and "null" exactly when all four fail. */
  lemma ClassifyPriority(cm: seq<real>)
    requires |cm| == Cols
    ensures Classify(cm) == Launch <==> ZoneAbove(cm, FrontLo, FrontHi, FrontHeatLaunch)
    ensures Classify(cm) == MoveForward <==>
              !ZoneAbove(cm, FrontLo, FrontHi, FrontHeatLaunch)
              && ZoneAbove(cm, FrontLo, FrontHi, FrontHeatForward)
    ensures Classify(cm) == TurnRight <==>
              !ZoneAbove(cm, FrontLo, FrontHi, FrontHeatForward)
              && ZoneAbove(cm, RightLo, RightHi, LeftRightHeatThreshold)
    ensures Classify(cm) == TurnLeft <==>
              !ZoneAbove(cm, FrontLo, FrontHi, FrontHeatForward)
              && !ZoneAbove(cm, RightLo, RightHi, LeftRightHeatThreshold)
              && ZoneAbove(cm, LeftLo, LeftHi, LeftRightHeatThreshold)
    ensures Classify(cm) == Idle <==>
              !ZoneAbove(cm, FrontLo, FrontHi, FrontHeatLaunch)
              && !ZoneAbove(cm, FrontLo, FrontHi, FrontHeatForward)
              && !ZoneAbove(cm, RightLo, RightHi, LeftRightHeatThreshold)
              && !ZoneAbove(cm, LeftLo, LeftHi, LeftRightHeatThreshold)
  {
    MaxOfAbove(cm, FrontLo, FrontHi, FrontHeatLaunch);
    MaxOfAbove(cm, FrontLo, FrontHi, FrontHeatForward);
    MaxOfAbove(cm, RightLo, RightHi, LeftRightHeatThreshold);
    MaxOfAbove(cm, LeftLo, LeftHi, LeftRightHeatThreshold);
  }

  /** A single front pixel hotter than 33 launches, whatever the rest of the frame holds. */
  lemma HotFrontPixelLaunches(pixels: Frame, r: nat, c: nat)
    requires IsFrame(pixels) && r < Rows && FrontLo <= c < FrontHi
    requires pixels[r][c] > FrontHeatLaunch
    ensures ClassifyFrame(pixels) == Launch && Tag(ClassifyFrame(pixels)) == "ok"
  {
    var cm := ColumnMaxes(pixels);
    ColumnMaxesBounds(pixels);
    assert cm[c] >= pixels[r][c];
    assert ZoneAbove(cm, FrontLo, FrontHi, FrontHeatLaunch);
    ClassifyPriority(cm);
  }

  /** The launch threshold is strict: a front maximum of exactly 33 moves forward instead. */
  lemma LaunchThresholdIsStrict(cm: seq<real>)
    requires |cm| == Cols
    requires forall c :: FrontLo <= c < FrontHi ==> cm[c] <= FrontHeatLaunch
    requires exists c :: FrontLo <= c < FrontHi && cm[c] == FrontHeatLaunch
    ensures Classify(cm) == MoveForward && Tag(Classify(cm)) == "forward"
  {
  }

  /** The forward threshold is strict: a front maximum of at most 29 neither launches
      nor moves forward, whatever the side columns hold. */
  lemma ForwardThresholdIsStrict(cm: seq<real>)
    requires |cm| == Cols
    requires forall c :: FrontLo <= c < FrontHi ==> cm[c] <= FrontHeatForward
    ensures Classify(cm) in {TurnRight, TurnLeft, Idle}
  {
  }

  /** A frame with no pixel above the side threshold publishes "null". */
  lemma ColdFrameIsIdle(pixels: Frame)
    requires IsFrame(pixels)
    requires forall r, c :: 0 <= r < Rows && 0 <= c < Cols ==> pixels[r][c] <= LeftRightHeatThreshold
    ensures ClassifyFrame(pixels) == Idle && Tag(ClassifyFrame(pixels)) == "null"
  {
    var cm := ColumnMaxes(pixels);
    ColumnMaxesBounds(pixels);
    forall c | 0 <= c < Cols
      ensures cm[c] <= LeftRightHeatThreshold
    {
      if cm[c] != Floor {
        var r :| 0 <= r < Rows && pixels[r][c] == cm[c];
      }
    }
    ClassifyPriority(cm);
  }

  /** Every decision goes out as one of the five wire tags, and distinct decisions as distinct
      tags, so a consumer can always tell them apart. */
  lemma TagWireVocabulary(d1: Decision, d2: Decision)
    ensures Tag(d1) in {"ok", "forward", "right", "left", "null"}
    ensures Tag(d1) == Tag(d2) <==> d1 == d2
  {
  }

  /** The reference scenarios for the thresholds 33, 29 and 26. */
  lemma Scenarios()
    ensures Tag(Classify([10.0, 10.0, 35.0, 35.0, 35.0, 35.0, 10.0, 10.0])) == "ok"
    ensures Tag(Classify([10.0, 10.0, 30.0, 30.0, 30.0, 30.0, 10.0, 10.0])) == "forward"
    ensures Tag(Classify([28.0, 28.0, 10.0, 10.0, 10.0, 10.0, 5.0, 5.0])) == "right"
    ensures Tag(Classify([5.0, 5.0, 10.0, 10.0, 10.0, 10.0, 27.0, 27.0])) == "left"
    ensures Tag(Classify([15.0, 15.0, 15.0, 15.0, 15.0, 15.0, 15.0, 15.0])) == "null"
  {
  }
}
