/** The motor and servo outputs, and the log of writes that drives them. */
module Actuation {

  /** BCM pins of the motor driver's direction inputs, in the order the node lists them. */
  const MotorPins: seq<int> := [22, 23, 25, 24]
  /** BCM pins of the two motor enables (motor A, motor B), driven as 50 Hz PWM channels. */
  const EnablePins: seq<int> := [13, 19]

  /** Duty cycle, in percent, written to both enables when spinning up. */
  const SpinDuty: real := 30.0
  /** Servo duty cycles, in percent: deployed (one ball released) and neutral. */
  const ServoDeployed: real := 10.0
  const ServoNeutral: real := 2.5
  /** Every pause in the sequences lasts one second. */
  const Pause: real := 1.0

  /** One hardware write, or a pause between writes. */
  datatype Event =
    | PinWrite(pin: int, level: bool)
    | EnableDuty(channel: nat, duty: real)
    | ServoDuty(duty: real)
    | Sleep(seconds: real)

  /** What the outputs hold: the last level written to each GPIO pin, the duty of each
      enable channel and the duty of the servo channel. */
  datatype Actuators = Actuators(pins: map<int, bool>, enableDuty: seq<real>, servoDuty: real)

  /** The outputs before anything is written: no pin driven, every PWM channel at duty 0. */
  function Boot(): Actuators {
    Actuators(map[], seq(|EnablePins|, _ => 0.0), 0.0)
  }

  /** The effect of one event on the outputs. */
  function Step(a: Actuators, e: Event): Actuators {
    match e
    case PinWrite(p, level) => a.(pins := a.pins[p := level])
    case EnableDuty(ch, d) =>
      if ch < |a.enableDuty| then a.(enableDuty := a.enableDuty[ch := d]) else a
    case ServoDuty(d) => a.(servoDuty := d)
    case Sleep(_) => a
  }

  /** The outputs after the events of t have been applied to a, in order. */
  function Replay(a: Actuators, t: seq<Event>): Actuators
    decreases |t|
  {
    if |t| == 0 then a else Step(Replay(a, t[..|t| - 1]), t[|t| - 1])
  }

  /** Appending one event to the log applies that event to the replayed outputs. */
  lemma ReplaySnoc(a: Actuators, t: seq<Event>, e: Event)
    ensures Replay(a, t + [e]) == Step(Replay(a, t), e)
  {
  }

  /** Replaying a log in two pieces gives the same outputs as replaying it whole. */
  lemma {:induction false} ReplayAppend(a: Actuators, s: seq<Event>, t: seq<Event>)
    ensures Replay(a, s + t) == Replay(Replay(a, s), t)
    decreases |t|
  {
    if t == [] {
      assert s + t == s;
    } else {
      var init, last := t[..|t| - 1], t[|t| - 1];
      assert t == init + [last];
      assert s + t == (s + init) + [last];
      ReplaySnoc(a, s + init, last);
      ReplaySnoc(Replay(a, s), init, last);
      ReplayAppend(a, s, init);
    }
  }

  /** The pin map after the four motor pins 22, 23, 25, 24 are written with the given levels. */
  function MotorLevels(m: map<int, bool>, levels: seq<bool>): map<int, bool>
    requires |levels| == |MotorPins|
  {
    m[22 := levels[0]][23 := levels[1]][25 := levels[2]][24 := levels[3]]
  }

  /** The pin map after the first n motor pins have been driven low, in the order of MotorPins. */
  function LowPrefix(m: map<int, bool>, n: nat): map<int, bool>
    requires n <= |MotorPins|
  {
    if n == 0 then m else LowPrefix(m, n - 1)[MotorPins[n - 1] := false]
  }

  /** Driving all four motor pins low one by one gives the same map as spin_stop's four writes. */
  lemma LowPrefixAll(m: map<int, bool>)
    ensures LowPrefix(m, |MotorPins|) == MotorLevels(m, [false, false, false, false])
  {
    assert LowPrefix(m, 1) == m[22 := false];
    assert LowPrefix(m, 2) == m[22 := false][23 := false];
    assert LowPrefix(m, 3) == m[22 := false][23 := false][25 := false];
  }

  /** After the four motor-pin writes, each motor pin holds its own level and every other pin
      keeps the level it had. */
  lemma MotorLevelsAt(m: map<int, bool>, levels: seq<bool>, p: int)
    requires |levels| == |MotorPins|
    ensures p in MotorLevels(m, levels) <==> p in m || p in MotorPins
    ensures forall i :: 0 <= i < |MotorPins| && MotorPins[i] == p ==> MotorLevels(m, levels)[p] == levels[i]
    ensures p !in MotorPins && p in m ==> MotorLevels(m, levels)[p] == m[p]
  {
  }

  /** A second write of all four motor pins overrides the first: only the last levels remain. */
  lemma MotorLevelsOverride(m: map<int, bool>, first: seq<bool>, second: seq<bool>)
    requires |first| == |second| == |MotorPins|
    ensures MotorLevels(MotorLevels(m, first), second) == MotorLevels(m, second)
  {
  }

  /** The number of servo deployments (balls launched) in a log. */
  function Deploys(t: seq<Event>): nat {
    multiset(t)[ServoDuty(ServoDeployed)]
  }

  /** The four GPIO.output calls on the motor pins, in the order of MotorPins. */
  function MotorWrites(levels: seq<bool>): seq<Event>
    requires |levels| == |MotorPins|
  {
    [PinWrite(22, levels[0]), PinWrite(23, levels[1]), PinWrite(25, levels[2]), PinWrite(24, levels[3])]
  }

  /** The two enable channels set to the same duty, channel 0 then channel 1. */
  function EnableWrites(duty: real): seq<Event> {
    [EnableDuty(0, duty), EnableDuty(1, duty)]
  }

  /** spin_start: both motors one way, a pause, then the spin pattern and 30% duty on both enables. */
  const SpinStartTrace: seq<Event> :=
    MotorWrites([true, false, true, false]) + [Sleep(Pause)]
    + MotorWrites([true, true, false, false]) + EnableWrites(SpinDuty)

  /** The node's constructor: both motor enables driven high, then the servo PWM started at neutral. */
  const InitTrace: seq<Event> := [PinWrite(13, true), PinWrite(19, true), ServoDuty(ServoNeutral)]

  /** activate_servo: deploy, pause, back to neutral, pause. */
  const ServoCycleTrace: seq<Event> :=
    [ServoDuty(ServoDeployed), Sleep(Pause), ServoDuty(ServoNeutral), Sleep(Pause)]

  /** spin_stop: every motor pin low, in the order of MotorPins. */
  const SpinStopTrace: seq<Event> := MotorWrites([false, false, false, false])

  /** The launch branch: spin up, three servo cycles separated by pauses, spin down. */
  const LaunchTrace: seq<Event> :=
    SpinStartTrace + [Sleep(Pause)]
    + ServoCycleTrace + [Sleep(Pause)]
    + ServoCycleTrace + [Sleep(Pause)]
    + ServoCycleTrace + [Sleep(Pause)]
    + SpinStopTrace

  /** The launch branch releases exactly three balls: one deployment per servo cycle and
      none while the motors spin up or down. */
  lemma LaunchDeploysThree()
    ensures Deploys(ServoCycleTrace) == 1
    ensures Deploys(LaunchTrace) == 3
  {
  }

  /** Replaying a prefix one event longer applies that event. */
  lemma ReplayPrefix(a: Actuators, t: seq<Event>, n: nat)
    requires 0 < n <= |t|
    ensures Replay(a, t[..n]) == Step(Replay(a, t[..n - 1]), t[n - 1])
  {
    assert t[..n][..n - 1] == t[..n - 1];
  }

  /** Four motor-pin writes set exactly those four pins and nothing else. */
  lemma ReplayMotorWrites(a: Actuators, levels: seq<bool>)
    requires |levels| == |MotorPins|
    ensures Replay(a, MotorWrites(levels)) == a.(pins := MotorLevels(a.pins, levels))
  {
    var w := MotorWrites(levels);
    assert w[..0] == [];
    ReplayPrefix(a, w, 1);
    ReplayPrefix(a, w, 2);
    ReplayPrefix(a, w, 3);
    ReplayPrefix(a, w, 4);
    assert w[..4] == w;
  }

  /** Setting both enables to one duty replaces both channel duties and nothing else. */
  lemma ReplayEnableWrites(a: Actuators, duty: real)
    requires |a.enableDuty| == |EnablePins|
    ensures Replay(a, EnableWrites(duty)) == a.(enableDuty := [duty, duty])
  {
    var w := EnableWrites(duty);
    assert w[..0] == [];
    ReplayPrefix(a, w, 1);
    ReplayPrefix(a, w, 2);
    assert w[..2] == w;
  }

  /** A pause changes no output. */
  lemma ReplayPause(a: Actuators)
    ensures Replay(a, [Sleep(Pause)]) == a
  {
  }

  /** One servo cycle leaves the servo at neutral and touches nothing else. */
  lemma ReplayServoCycle(a: Actuators)
    ensures Replay(a, ServoCycleTrace) == a.(servoDuty := ServoNeutral)
  {
    var w := ServoCycleTrace;
    assert w[..0] == [];
    ReplayPrefix(a, w, 1);
    ReplayPrefix(a, w, 2);
    ReplayPrefix(a, w, 3);
    ReplayPrefix(a, w, 4);
    assert w[..4] == w;
  }

  /** spin_start's writes leave pins 22 and 23 high, 25 and 24 low and both enables at 30%. */
  lemma ReplaySpinStart(a: Actuators)
    requires |a.enableDuty| == |EnablePins|
    ensures Replay(a, SpinStartTrace)
         == a.(pins := MotorLevels(a.pins, [true, true, false, false]), enableDuty := [SpinDuty, SpinDuty])
  {
    var first, second := MotorWrites([true, false, true, false]), MotorWrites([true, true, false, false]);
    var pause := [Sleep(Pause)];
    ReplayAppend(a, first + pause + second, EnableWrites(SpinDuty));
    ReplayAppend(a, first + pause, second);
    ReplayAppend(a, first, pause);
    ReplayMotorWrites(a, [true, false, true, false]);
    ReplayPause(Replay(a, first));
    ReplayMotorWrites(Replay(a, first + pause), [true, true, false, false]);
    MotorLevelsOverride(a.pins, [true, false, true, false], [true, true, false, false]);
    ReplayEnableWrites(Replay(a, first + pause + second), SpinDuty);
  }

  /** Replaying the launch writes from any outputs leaves every motor pin low, both enables at
      30% and the servo at neutral; no other pin is touched. */
  lemma ReplayLaunch(a: Actuators)
    requires |a.enableDuty| == |EnablePins|
    ensures Replay(a, LaunchTrace)
         == Actuators(MotorLevels(a.pins, [false, false, false, false]), [SpinDuty, SpinDuty], ServoNeutral)
  {
    var p, c := [Sleep(Pause)], ServoCycleTrace;
    var s1 := SpinStartTrace;
    var s2 := s1 + p;
    var s3 := s2 + c;
    var s4 := s3 + p;
    var s5 := s4 + c;
    var s6 := s5 + p;
    var s7 := s6 + c;
    var s8 := s7 + p;
    assert LaunchTrace == s8 + SpinStopTrace;
    ReplaySpinStart(a);
    ReplayAppend(a, s1, p);
    ReplayPause(Replay(a, s1));
    ReplayAppend(a, s2, c);
    ReplayServoCycle(Replay(a, s2));
    ReplayAppend(a, s3, p);
    ReplayPause(Replay(a, s3));
    ReplayAppend(a, s4, c);
    ReplayServoCycle(Replay(a, s4));
    ReplayAppend(a, s5, p);
    ReplayPause(Replay(a, s5));
    ReplayAppend(a, s6, c);
    ReplayServoCycle(Replay(a, s6));
    ReplayAppend(a, s7, p);
    ReplayPause(Replay(a, s7));
    ReplayAppend(a, s8, SpinStopTrace);
    ReplayMotorWrites(Replay(a, s8), [false, false, false, false]);
    MotorLevelsOverride(a.pins, [true, true, false, false], [false, false, false, false]);
  }

  /** The constructor's writes, replayed from the boot state, give its documented outputs. */
  lemma ReplayInit()
    ensures Replay(Boot(), InitTrace) == Actuators(map[13 := true, 19 := true], [0.0, 0.0], ServoNeutral)
  {
    var w := InitTrace;
    assert w[..0] == [];
    ReplayPrefix(Boot(), w, 1);
    ReplayPrefix(Boot(), w, 2);
    ReplayPrefix(Boot(), w, 3);
    assert w[..3] == w;
  }
}
