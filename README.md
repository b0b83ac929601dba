# Heat-localisation node, modelled in Dafny

`elec_nodes.py` is a ROS2 node on a mobile robot. Once a second it reads an 8×8 frame from an
AMG8833 infrared sensor. It reduces the frame to the maximum temperature of each column. It
compares the front columns (2–5), the right columns (0–1) and the left columns (6–7) against
three fixed thresholds (33, 29 and 26, all strict `>`). It publishes one tag: `"ok"`, `"forward"`,
`"right"`, `"left"` or `"null"`. On `"ok"` only, it runs the launch sequence. The sequence spins
the two drive motors up, cycles the ball-release servo three times and drives every motor pin
low again.

The project has four modules:

- `Thermal` (`thermal.dfy`): the frame as `seq<seq<real>>`, and the running column maximum
  that starts at -1. The nested aggregation loop is the method `ColumnMaxima`, proved equal to
  the function `ColumnMaxes`.
- `Classifier` (`classifier.dfy`): the five decisions, their wire tags, Python's `max` over a
  slice (`MaxOf`) and the if/elif chain (`Classify`). The lemmas restate the chain column by
  column and prove its priority order, its strict thresholds and the reference scenarios.
- `Actuation` (`actuation.dfy`): the output state (a pin-level map, the two enable duties and
  the servo duty) as a value. It also holds the log of writes and pauses, `Replay` (what a log
  does to the outputs), the write sequences of `spin_start`, `activate_servo` and `spin_stop`,
  and lemmas that replay each of them.
- `ElecNode` (`elec_node.dfy`): the class `HeatNode`. It holds the outputs, the write log and
  the published tags as fields. `spin_start`, `spin_stop`, `activate_servo` and the timer
  callback `read_publish_temperature` are methods that update these fields step by step.

Temperatures are `real`. The code only compares and maxes them, and the sensor reports
fractions of a degree, so `int` would lose a reading such as 33.5 > 33. Publishing appends the
tag to the `published` field. Each `time.sleep` is logged as a `Sleep` event and has no other
effect.

## Model

| member | source | states |
|---|---|---|
| `Thermal.RunningMaxBounds` | elec_nodes.py:99-101 | the running maximum over the first n rows of a column is at least -1, at least each of those pixels, and is -1 or one of them |
| `Thermal.ColumnMaxesBounds` | elec_nodes.py:97-103 | there are exactly 8 column maxima; entry c is at least -1 and at least every pixel of column c, and it equals -1 or some pixel of column c |
| `Thermal.ColumnMaxima` | elec_nodes.py:97-103 | the nested loop returns exactly the 8 column maxima, each folded over the rows from -1 |
| `Classifier.MaxOf` | elec_nodes.py:108 | `max` of a non-empty slice is one of its elements and no element exceeds it |
| `Classifier.MaxOfAbove` | elec_nodes.py:108-126 | the maximum of a column slice is strictly above a threshold exactly when some column in the slice is |
| `Classifier.ClassifyPriority` | elec_nodes.py:108-131 | the tag, column by column, in the order ok > forward > right > left > null: "ok" exactly when a front column exceeds 33; "forward" exactly when none exceeds 33 and one exceeds 29; "right" exactly when no front column exceeds 29 and a right column exceeds 26; "left" exactly when in addition no right column exceeds 26 and a left column does; "null" exactly when all four tests fail |
| `Classifier.HotFrontPixelLaunches` | elec_nodes.py:97-110 | one pixel above 33 in columns 2–5 makes the frame's tag "ok", whatever the other pixels hold |
| `Classifier.LaunchThresholdIsStrict` | elec_nodes.py:108-122 | a front maximum of exactly 33 does not launch; it yields "forward" |
| `Classifier.ForwardThresholdIsStrict` | elec_nodes.py:120-131 | when no front column exceeds 29 (so also at exactly 29) the tag is neither "ok" nor "forward" |
| `Classifier.ColdFrameIsIdle` | elec_nodes.py:97-131 | a frame with no pixel above 26 publishes "null" |
| `Classifier.TagWireVocabulary` | elec_nodes.py:108-131 | every decision is published as one of "ok", "forward", "right", "left", "null", and distinct decisions get distinct tags |
| `Classifier.Scenarios` | elec_nodes.py:108-131 | column maxima [10,10,35,35,35,35,10,10] give "ok", [10,10,30,30,30,30,10,10] "forward", [28,28,10,10,10,10,5,5] "right", [5,5,10,10,10,10,27,27] "left", all 15 give "null" |
| `Actuation.ReplaySnoc` | elec_nodes.py:51-75 | appending one write to the log applies that write to the outputs the log produced |
| `Actuation.ReplayAppend` | elec_nodes.py:51-75 | replaying a log in two consecutive pieces gives the same outputs as replaying it whole |
| `Actuation.MotorLevelsAt` | elec_nodes.py:52-60 | after the four motor-pin writes, pins 22, 23, 25, 24 hold the written levels and every other pin keeps its level |
| `Actuation.MotorLevelsOverride` | elec_nodes.py:52-60 | writing all four motor pins a second time leaves only the second levels |
| `Actuation.LowPrefixAll` | elec_nodes.py:66-68 | driving the motor pins low one by one over the pin list gives the same map as writing all four low |
| `Actuation.ReplayMotorWrites` | elec_nodes.py:52-55 | the four motor-pin writes change those four pins and no other output |
| `Actuation.ReplayEnableWrites` | elec_nodes.py:63-64 | setting both enable channels to one duty changes those two duties and no other output |
| `Actuation.ReplayPause` | elec_nodes.py:56 | a pause changes no output |
| `Actuation.ReplayServoCycle` | elec_nodes.py:70-75 | one servo cycle leaves the servo at 2.5 and changes no other output |
| `Actuation.ReplaySpinStart` | elec_nodes.py:51-64 | spin_start's writes leave pins 22, 23 high and 25, 24 low, both enables at 30, and the servo untouched |
| `Actuation.ReplayLaunch` | elec_nodes.py:111-119 | from any outputs, the launch writes leave all four motor pins low, both enables at 30 (spin_stop never resets them) and the servo at 2.5; no other pin changes |
| `Actuation.ReplayInit` | elec_nodes.py:34-49 | the constructor's writes leave pins 13 and 19 high, both enable duties 0 and the servo at 2.5 |
| `Actuation.LaunchDeploysThree` | elec_nodes.py:111-119 | a servo cycle deploys once, and the launch branch deploys exactly three times |
| `ElecNode.HeatNode.constructor` | elec_nodes.py:27-49 | enables 13 and 19 are driven high, the servo starts at 2.5, nothing is published, and the state equals the replay of the constructor's writes |
| `ElecNode.HeatNode.WritePin` | elec_nodes.py:52 | GPIO.output sets one pin's level and logs the write |
| `ElecNode.HeatNode.SetEnableDuty` | elec_nodes.py:64 | ChangeDutyCycle on one enable channel changes only that channel's duty |
| `ElecNode.HeatNode.SetServoDuty` | elec_nodes.py:72 | ChangeDutyCycle on the servo sets the servo duty |
| `ElecNode.HeatNode.Wait` | elec_nodes.py:73 | a sleep is logged and changes no output |
| `ElecNode.HeatNode.WriteMotorPins` | elec_nodes.py:52-60 | four consecutive writes to pins 22, 23, 25, 24 set exactly those pins |
| `ElecNode.HeatNode.SetEnableDuties` | elec_nodes.py:63-64 | the loop over the enable PWMs gives both channels the same duty, in channel order |
| `ElecNode.HeatNode.SpinStart` | elec_nodes.py:51-64 | the motor pins end at 22, 23 high and 25, 24 low, both enables at 30, the servo unchanged, and the log grows by spin_start's writes |
| `ElecNode.HeatNode.SpinStop` | elec_nodes.py:66-68 | all four motor pins end low; no duty changes |
| `ElecNode.HeatNode.ActivateServo` | elec_nodes.py:70-75 | the servo goes to 10 and back, ending at the neutral 2.5; no pin changes |
| `ElecNode.HeatNode.LaunchSequence` | elec_nodes.py:111-119 | all four motor pins end low, both enables stay at 30, the servo ends at 2.5, and the log grows by exactly the launch writes |
| `ElecNode.HeatNode.ReadPublishTemperature` | elec_nodes.py:78-131 | one tick publishes exactly one tag, that of the frame's decision. On "ok" the outputs end as after the launch sequence and exactly three deployments are logged. On any other tag no pin, duty, servo position or log entry changes. The new outputs are the old outputs with this tick's logged writes replayed |

## Left out

- The I2C bus and the AMG8833 driver (elec_nodes.py:19-20). The frame is a parameter of the tick, and `IsFrame` requires it to be 8×8, as the driver always delivers it.
- The ROS2 publisher, the 1-second timer and the `rclpy` lifecycle (elec_nodes.py:24-25, 138-150). Publishing appends to a list, and the timer's repeated calls are the caller's repeated calls of `ReadPublishTemperature`.
- `GPIO.setup`, `GPIO.PWM` construction, `servo_pwm.stop()`, `GPIO.cleanup()` and `destroy_node` (elec_nodes.py:30-48, 133-136). These are foreign library calls. The model keeps only the pin and duty writes they precede.
- The enable PWM objects (elec_nodes.py:39-42) are never started in the code. The model records the duty values written to them and does not model whether a PWM signal is produced.
- Timing: every `time.sleep` becomes a `Sleep` event in the log. Its duration is recorded but has no semantics.
- The debug prints and the unused `Float32MultiArray` flattening (elec_nodes.py:80-87, 96, 102, 104).
- Floating point: temperatures are exact reals, so NaN and infinite readings are not modelled.
- Behaviour the code does not have is not modelled: stopping the motors on a "null" decision, a stop-all operation, aborting a sequence on a failed write, and coalescing overlapping launches. The model follows elec_nodes.py, where only "ok" actuates and every other tag only publishes.
- The tick calls the `Classify` function once. The code evaluates `max(max_element_per_col[2:6])` in two branch conditions. Both readings give the same decision, because the expression has no side effects.
