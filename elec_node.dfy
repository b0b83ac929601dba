/** The AMG8833 node: each tick aggregates the frame, classifies it, publishes the tag and,
    on a launch, runs the spin-up / three-ball / spin-down sequence on the GPIO outputs. */
module ElecNode {
  import opened Thermal
  import opened Classifier
  import opened Actuation

  class HeatNode {
    /** Last level written to each GPIO output pin. */
    var pins: map<int, bool>
    /** Duty cycles of the two enable PWM channels, motor A (pin 13) then motor B (pin 19). */
    const enableDuty: array<real>
    /** Duty cycle of the servo PWM channel on pin 5. */
    var servoDuty: real
    /** Every write made to the outputs so far, and the pauses between them, in order. */
    var trace: seq<Event>
    /** Every tag published on the heat-location topic, in order. */
    var published: seq<string>

    function State(): Actuators
      reads this, enableDuty
    {
      Actuators(pins, enableDuty[..], servoDuty)
    }

    /** One duty per enable channel. */
    ghost predicate Valid()
      reads this
    {
      enableDuty.Length == |EnablePins|
    }

    /** Drives both motor enables high and starts the servo PWM at neutral. */
    constructor ()
      ensures Valid() && fresh(enableDuty)
      ensures pins == map[13 := true, 19 := true]
      ensures enableDuty[..] == [0.0, 0.0]
      ensures servoDuty == ServoNeutral
      ensures trace == InitTrace && State() == Replay(Boot(), trace)
      ensures published == []
    {
      enableDuty := new real[|EnablePins|](_ => 0.0);
      pins, servoDuty, trace, published := map[], 0.0, [], [];
      new;
      for i := 0 to |EnablePins|
        invariant Valid() && enableDuty[..] == [0.0, 0.0]
        invariant pins == map p | p in EnablePins[..i] :: true
        invariant servoDuty == 0.0 && published == []
        invariant trace == seq(i, k requires 0 <= k < i => PinWrite(EnablePins[k], true))
      {
        WritePin(EnablePins[i], true);
      }
      assert EnablePins[..|EnablePins|] == EnablePins;
      SetServoDuty(ServoNeutral);
      ReplayInit();
    }

    /** GPIO.output: one pin level. */
    method WritePin(pin: int, level: bool)
      requires Valid()
      modifies this
      ensures Valid()
      ensures pins == old(pins)[pin := level]
      ensures servoDuty == old(servoDuty) && published == old(published)
      ensures trace == old(trace) + [PinWrite(pin, level)]
    {
      pins := pins[pin := level];
      trace := trace + [PinWrite(pin, level)];
    }

    /** ChangeDutyCycle on one of the two enable channels. */
    method SetEnableDuty(channel: nat, duty: real)
      requires Valid() && channel < enableDuty.Length
      modifies this, enableDuty
      ensures Valid()
      ensures enableDuty[..] == old(enableDuty[..])[channel := duty]
      ensures pins == old(pins) && servoDuty == old(servoDuty) && published == old(published)
      ensures trace == old(trace) + [EnableDuty(channel, duty)]
    {
      enableDuty[channel] := duty;
      trace := trace + [EnableDuty(channel, duty)];
    }

    /** ChangeDutyCycle on the servo channel. */
    method SetServoDuty(duty: real)
      requires Valid()
      modifies this
      ensures Valid()
      ensures servoDuty == duty
      ensures pins == old(pins) && published == old(published)
      ensures trace == old(trace) + [ServoDuty(duty)]
    {
      servoDuty := duty;
      trace := trace + [ServoDuty(duty)];
    }

    /** time.sleep: logged, changes no output. */
    method Wait(seconds: real)
      requires Valid()
      modifies this
      ensures Valid()
      ensures pins == old(pins) && servoDuty == old(servoDuty) && published == old(published)
      ensures trace == old(trace) + [Sleep(seconds)]
    {
      trace := trace + [Sleep(seconds)];
    }

    /** Four consecutive GPIO.output calls on the motor pins 22, 23, 25, 24, in that order. */
    method WriteMotorPins(levels: seq<bool>)
      requires Valid() && |levels| == |MotorPins|
      modifies this
      ensures Valid()
      ensures pins == MotorLevels(old(pins), levels)
      ensures servoDuty == old(servoDuty) && published == old(published)
      ensures trace == old(trace) + MotorWrites(levels)
    {
      WritePin(22, levels[0]);
      WritePin(23, levels[1]);
      WritePin(25, levels[2]);
      WritePin(24, levels[3]);
    }

    /** spin_start: ends with pins 22 and 23 high, 25 and 24 low, and both enables at 30%. */
    method SpinStart()
      requires Valid()
      modifies this, enableDuty
      ensures Valid()
      ensures pins == MotorLevels(old(pins), [true, true, false, false])
      ensures enableDuty[..] == [SpinDuty, SpinDuty]
      ensures servoDuty == old(servoDuty) && published == old(published)
      ensures trace == old(trace) + SpinStartTrace
    {
      WriteMotorPins([true, false, true, false]);
      Wait(Pause);
      WriteMotorPins([true, true, false, false]);
      MotorLevelsOverride(old(pins), [true, false, true, false], [true, true, false, false]);
      SetEnableDuties(SpinDuty);
    }

    /** The loop over the enable PWM channels: the same duty on each, in order. */
    method SetEnableDuties(duty: real)
      requires Valid()
      modifies this, enableDuty
      ensures Valid()
      ensures enableDuty[..] == seq(|EnablePins|, _ => duty)
      ensures pins == old(pins) && servoDuty == old(servoDuty) && published == old(published)
      ensures trace == old(trace) + EnableWrites(duty)
    {
      for ch := 0 to enableDuty.Length
        invariant Valid()
        invariant pins == old(pins) && servoDuty == old(servoDuty) && published == old(published)
        invariant forall k :: 0 <= k < ch ==> enableDuty[k] == duty
        invariant trace == old(trace) + EnableWrites(duty)[..ch]
      {
        SetEnableDuty(ch, duty);
      }
    }

    /** spin_stop: drives every motor pin low and touches nothing else. */
    method SpinStop()
      requires Valid()
      modifies this
      ensures Valid()
      ensures pins == MotorLevels(old(pins), [false, false, false, false])
      ensures servoDuty == old(servoDuty) && published == old(published)
      ensures trace == old(trace) + SpinStopTrace
    {
      for i := 0 to |MotorPins|
        invariant Valid()
        invariant pins == LowPrefix(old(pins), i)
        invariant servoDuty == old(servoDuty) && published == old(published)
        invariant trace == old(trace) + SpinStopTrace[..i]
      {
        assert SpinStopTrace[..i + 1] == SpinStopTrace[..i] + [PinWrite(MotorPins[i], false)];
        WritePin(MotorPins[i], false);
      }
      LowPrefixAll(old(pins));
    }

    /** activate_servo: deploys the servo once and leaves it back at neutral. */
    method ActivateServo()
      requires Valid()
      modifies this
      ensures Valid()
      ensures servoDuty == ServoNeutral
      ensures pins == old(pins) && published == old(published)
      ensures trace == old(trace) + ServoCycleTrace
    {
      SetServoDuty(ServoDeployed);
      Wait(Pause);
      SetServoDuty(ServoNeutral);
      Wait(Pause);
    }

    /** The launch branch: spin up, three servo cycles each followed by a pause, spin down.
        Every motor pin ends low, both enables stay at 30% and the servo ends at neutral. */
    method LaunchSequence()
      requires Valid()
      modifies this, enableDuty
      ensures Valid()
      ensures pins == MotorLevels(old(pins), [false, false, false, false])
      ensures enableDuty[..] == [SpinDuty, SpinDuty]
      ensures servoDuty == ServoNeutral && published == old(published)
      ensures trace == old(trace) + LaunchTrace
    {
      SpinStart();
      Wait(Pause);
      ActivateServo();
      Wait(Pause);
      ActivateServo();
      Wait(Pause);
      ActivateServo();
      Wait(Pause);
      SpinStop();
      MotorLevelsOverride(old(pins), [true, true, false, false], [false, false, false, false]);
    }

    /** One timer tick for the given frame: publishes exactly one tag and actuates only on "ok". */
    method ReadPublishTemperature(pixels: Frame)
      requires Valid() && IsFrame(pixels)
      modifies this, enableDuty
      ensures Valid()
      ensures published == old(published) + [Tag(ClassifyFrame(pixels))]
      ensures ClassifyFrame(pixels) == Launch ==>
                pins == MotorLevels(old(pins), [false, false, false, false])
                && enableDuty[..] == [SpinDuty, SpinDuty]
                && servoDuty == ServoNeutral
                && trace == old(trace) + LaunchTrace
      ensures ClassifyFrame(pixels) != Launch ==>
                pins == old(pins) && enableDuty[..] == old(enableDuty[..])
                && servoDuty == old(servoDuty) && trace == old(trace)
      ensures State() == Replay(old(State()), trace[|old(trace)|..])
      ensures Deploys(trace[|old(trace)|..]) == if ClassifyFrame(pixels) == Launch then 3 else 0
    {
      ghost var before, outputs := trace, State();
      var maxes := ColumnMaxima(pixels);
      var decision := Classify(maxes);
      published := published + [Tag(decision)];
      if decision == Launch {
        LaunchSequence();
        LaunchDeploysThree();
        ReplayLaunch(outputs);
        assert trace[|before|..] == LaunchTrace;
      } else {
        assert trace[|before|..] == [];
      }
    }
  }
}
