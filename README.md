# Strawberry harvester control: a Dafny model

The harvester has three parts, and this project models the decision logic and
data paths between them:

- **Vision console** (`XLA/realtime_detect.py`). It detects strawberries in
  camera frames and gates them against a vertical target zone. When a target
  enters the zone while a test drive is armed, it stops the carriage with `D#`.
  One second later it sends the harvesting arm a saved `G<z>,<y>#` coordinate.
- **Motor console** (`test_uart_control.py`). It drives the two wheel motors
  with `L_dir,L_rpm,R_dir,R_rpm#` set-point records and plots the telemetry the
  controller echoes back.
- **Firmware** (`temp/Code_test/Read_RX.h`, `Code_test/control_motor.h`). It
  decodes those records on an Arduino, clamps them, and runs the per-motor
  direction / PID-reset state machine with its H-bridge pin pattern and clamp
  arithmetic.

The project has seven modules:

- `Text` (`text.dfy`): Python `str.strip`, `str.split`, `str(int)`,
  `f"{v:.1f}"` and Arduino `String.indexOf`, on `seq<char>`.
- `Geometry` (`geometry.dfy`): `calculate_distance`,
  `calculate_3d_coordinates`, the calibration formula and the box centre.
- `Detector` (`detector.dfy`):
  - the zone gate over the boxes of a frame;
  - the auto-stop / delayed-coordinate sequencer, as pure transitions;
  - a trace semantics over whole event sequences;
  - the `DetectorApp` class, whose methods update the console's fields and
    append every write to an `outbox`.
- `UartControl` (`uart_control.dfy`):
  - the set-point record;
  - the telemetry parser;
  - the 200-entry bounded histories;
  - the `MotorControlApp` class (connection and sending flags, sends, history
    appends).
- `ReadRx` (`read_rx.dfy`):
  - Arduino `toInt` and `constrain`;
  - the frame parser and the byte-accumulation scan;
  - the 32-bit timeout test;
  - the `RxReceiver` class, whose `ReadRx` loop consumes a receive queue in place.
- `SetpointLink` (`link.dfy`): the end-to-end round trip from the motor
  console's record to the firmware's decoded set-point.
- `ControlMotor` (`control_motor.dfy`):
  - the `control()` transition of one channel, as a pure function;
  - the ramp, integral and PWM clamps;
  - the classes `MotorChannel` and `DualMotor`, proved against those functions.

How values are modelled:

- Floating point is `real`, with no rounding.
- Coordinates printed with `.1f` are carried as integer tenths, so their
  formatting is exact.
- Times and clocks are parameters (`now`).
- Number parsing by Python (`float()`, `int()`) is an input: an `Option` value
  for entry fields, or a function parameter `parseFloat` for telemetry tokens.
- Serial writes are appended to a `seq<string>` outbox.

## Model

| member | source | states |
|---|---|---|
| Text.Strip | test_uart_control.py:285 | the result is the input minus its maximal leading and trailing whitespace; it is empty iff the input is all whitespace |
| Text.SplitTokens | test_uart_control.py:288 | every word `split()` returns is non-empty and holds no whitespace |
| Text.Split | test_uart_control.py:288 | `str.split()` with no separator; the word list is empty iff the text is all whitespace and never longer than the text; its word structure is stated by `Text.SplitTokens`, `Text.SplitAtSpace`, `Text.LeadingToken` and `Text.SplitJoin` |
| Text.SplitAtSpace | test_uart_control.py:288 | the words are the maximal runs: a whitespace character splits the input into the words before it followed by the words after it |
| Text.LeadingToken | test_uart_control.py:288 | a run of non-whitespace followed by whitespace or the end is the first word, and the rest splits on its own |
| Text.StripPadded | test_uart_control.py:285 | `strip()` of a text padded with whitespace on both sides, itself starting and ending with non-whitespace, is that text |
| Text.SplitJoin | test_uart_control.py:288 | splitting tokens joined by single spaces gives back exactly those tokens |
| Text.NatToString | test_uart_control.py:242 | `str(n)` of a natural is a non-empty digit string without a leading zero |
| Text.IntToString | test_uart_control.py:242 | `str(i)` never contains `,`, `#`, `\n` or `\r`, and is the digit string for `i >= 0` |
| Text.DigitsRoundTrip | test_uart_control.py:242 | the decimal value of `str(n)` is `n` |
| Text.IndexOfFrom | temp/Code_test/Read_RX.h:53-55 | `indexOf(c, from)` is the first position at or after `from` holding `c`; it is -1 iff there is none |
| Text.FormatTenths | XLA/realtime_detect.py:794 | `{v:.1f}` contains neither `,` nor `#`; its last character is a digit and the one before it is a point |
| Text.TenthsRoundTrip | XLA/realtime_detect.py:794 | reading a `.1f` rendering back yields the same tenths value |
| Geometry.Distance | XLA/realtime_detect.py:849-854 | 0 when the pixel width or the focal length is not positive; otherwise `d * pixelWidth == realWidth * focalLength`, and positive iff the real width is |
| Geometry.Position3D | XLA/realtime_detect.py:856-880 | `calculate_3d_coordinates`: the origin without a positive distance and focal length; otherwise Z is the distance and X, Y satisfy the pinhole relation `X * f == offsetX * d`, `Y * f == -(offsetY * d)` with the row axis flipped; its consequences are `Geometry.Position3DSigns`, `Geometry.Position3DOnAxis` and `Geometry.Position3DProjectsBack` |
| Geometry.InZone | XLA/realtime_detect.py:1025 | the inclusive zone test `left <= center_x <= right`: nothing is in an inverted zone, and a one-column zone holds exactly that column |
| Geometry.DistanceDecreasesWithWidth | XLA/realtime_detect.py:849-854 | a wider box gives a strictly smaller positive distance |
| Geometry.CalibratedFocal | XLA/realtime_detect.py:837-839 | `f * realWidth == pixelWidth * calibrationDistance` |
| Geometry.CalibrationRoundTrip | XLA/realtime_detect.py:834-854 | the box used for calibration reads back at the calibration distance (or 0 when that is not positive) |
| Geometry.Position3DInvalid | XLA/realtime_detect.py:863-880 | the position is the origin when the distance or the focal length is not positive |
| Geometry.Position3DOnAxis | XLA/realtime_detect.py:863-880 | the image centre maps to (0, 0, distance) |
| Geometry.Position3DSigns | XLA/realtime_detect.py:869-877 | X has the sign of the column offset, Y the opposite sign of the row offset, and Z is the distance |
| Geometry.Position3DProjectsBack | XLA/realtime_detect.py:869-877 | projecting (X, Y, Z) back through the pinhole recovers the pixel centre |
| Geometry.BoxCentre | XLA/realtime_detect.py:1021-1022 | `int((lo + hi) / 2)`: half the sum truncated toward zero, as bounds on both signs |
| Geometry.BoxCentreInside | XLA/realtime_detect.py:1021 | the centre of a well-formed extent lies inside it |
| Detector.ClassColour | XLA/realtime_detect.py:1018 | class 0 is green, class 1 red, any other white; never orange |
| Detector.Annotate | XLA/realtime_detect.py:1017-1050 | one box: in the zone iff its truncated centre passes `Geometry.InZone`; orange exactly when in the zone, its class colour otherwise; the centre lies within the box's extent |
| Detector.ScanBoxes | XLA/realtime_detect.py:999-1029 | one annotation per box; a box is in the zone iff `left <= centreX <= right` (both ends included) and is orange iff in the zone; `target_in_zone` holds iff some box is in the zone |
| Detector.CoordCommand | XLA/realtime_detect.py:794 | the command starts with `G` and ends with `#` |
| Detector.CoordCommandRoundTrip | XLA/realtime_detect.py:1126 | parsing the `G{z:.1f},{y:.1f}#` command recovers both coordinates |
| Detector.CommandParts | XLA/realtime_detect.py:794 | a `G<a>,<b>#` command whose first part holds no comma reads back part by part |
| Detector.Send | XLA/realtime_detect.py:714-724 | `send_command` writes the command when connected and nothing otherwise |
| Detector.StopRule | XLA/realtime_detect.py:1087-1099 | the auto-stop check writes nothing or exactly `D#`, and writes iff all five conditions hold; then the guard is set, test mode disarmed and the timer set to `now`; otherwise nothing changes; the saved coordinate is never touched (the whole frame: `Detector.FrameStop`) |
| Detector.CoordRule | XLA/realtime_detect.py:1122-1133 | the coordinate check writes nothing or the saved coordinate's `G` command, and only when connected, with the timer set and a second elapsed; it only ever clears the timer and changes nothing else (the whole frame: `Detector.FrameCoord`) |
| Detector.FrameRules | XLA/realtime_detect.py:1087-1133 | one frame's sequencer step never arms test mode, never clears the guard and never changes the saved coordinate; its writes are characterised by `Detector.FrameStop`, `Detector.FrameCoord` and `Detector.FrameWritesAtMostOne` |
| Detector.StartTestStep | XLA/realtime_detect.py:801-820 | `start_test_mode` writes iff connected, and then writes `T#`, arms test mode and clears the guard; disconnected it changes nothing; the timer and the saved coordinate are kept (see `Detector.StartRearms`) |
| Detector.StopTestStep | XLA/realtime_detect.py:822-832 | `stop_test_mode` always disarms, writes `D#` iff the port is open, and keeps the guard, the timer and the saved coordinate |
| Detector.SaveCoord | XLA/realtime_detect.py:771-782 | `save_coord_for_auto` stores the coordinate iff both entries parse, and otherwise changes nothing; the arming, the guard and the timer are kept |
| Detector.OnLine | XLA/realtime_detect.py:732-745 | a received line changes the state or writes only when it strips to `STOP` while armed; it writes nothing or `D#`, can only disarm, and keeps the guard, the timer and the saved coordinate (see `Detector.LineEffect`) |
| Detector.Apply | XLA/realtime_detect.py:714-832 | one console event: it writes at most one command; every write but a manual coordinate send is the sequencer's, and a manual send leaves the state alone |
| Detector.Run | XLA/realtime_detect.py:714-1133 | a run of events writes at most one command per event, and the sequencer's writes are among them; the run-level properties are `Detector.StopAtMostOncePerArming`, `Detector.CoordAtMostOncePerStop` and `Detector.CoordSentOnceAfterSettle` |
| Detector.ClassifyLine | XLA/realtime_detect.py:732-745 | a line is blank iff all whitespace, an emergency stop iff it strips to `STOP`, and a harvest report iff it strips to `HARVEST_DONE#` |
| Detector.FrameStop | XLA/realtime_detect.py:1087-1099 | `D#` is written iff the auto-stop is enabled, a target is in the zone, test mode is active, the guard is clear and the link is up; then the guard is set, test mode disarmed and the timer set to `now`; otherwise the guard and the arming are unchanged |
| Detector.FrameWritesAtMostOne | XLA/realtime_detect.py:1087-1133 | one frame writes at most one command |
| Detector.FrameCoord | XLA/realtime_detect.py:1122-1133 | a `G` command is written iff the stop did not fire this frame, a coordinate is saved, the timer is set, a second has passed, and the link is up; when due, the timer clears |
| Detector.CoordDroppedWhenDisconnected | XLA/realtime_detect.py:1122-1133 | a coordinate due while disconnected is lost: the timer clears and nothing is written |
| Detector.StartRearms | XLA/realtime_detect.py:803-815 | when connected, test mode is armed, the guard cleared and `T#` written, with the timer and the saved coordinate kept; when not connected, nothing changes |
| Detector.LineEffect | XLA/realtime_detect.py:732-745 | only `STOP` while armed has an effect: it disarms and sends `D#` when the port is open, and leaves the guard and the timer alone |
| Detector.GuardConsistentPreserved | XLA/realtime_detect.py:1087-1093 | every event sequence keeps "guard set implies disarmed" |
| Detector.StopAtMostOncePerArming | XLA/realtime_detect.py:1087-1099 | without operator start/stop, at most one `D#` follows one arming, and none if unarmed |
| Detector.CoordAtMostOncePerStop | XLA/realtime_detect.py:1122-1133 | without operator start/stop, the number of `G` commands the sequencer writes is bounded by the pending timer plus the arming; manual sends are counted apart |
| Detector.NoCoordBeforeSettle | XLA/realtime_detect.py:1122-1123 | the sequencer writes no `G` command before one second after the stop, and the timer stays set |
| Detector.QuietAfterCoord | XLA/realtime_detect.py:1122-1133 | with no timer pending and test mode disarmed, frames write nothing |
| Detector.CoordSentOnceAfterSettle | XLA/realtime_detect.py:1122-1133 | after a stop, frames that reach the one-second mark write exactly one `G` command, the saved coordinate |
| Detector.ParkedWithoutCoord | XLA/realtime_detect.py:1122 | with no coordinate saved, the sequencer never writes a `G` command (manual sends are counted apart) |
| Detector.ParkedKeepsTimer | XLA/realtime_detect.py:1122 | with no coordinate saved, test mode disarmed and no operator start, stop or coordinate entry, the pending timer is never cleared or set |
| Detector.ManualCoordWrites | XLA/realtime_detect.py:784-799 | a manual send writes a command iff both entries parse and the link is up, and that command is the entered coordinate's `G` command |
| Detector.ManualCoordOnly | XLA/realtime_detect.py:784-799 | a manual send changes no console state and none of its writes are the sequencer's |
| Detector.SentIsAutoWithoutManual | XLA/realtime_detect.py:784-799 | without manual sends, every command written comes from the sequencer |
| Detector.GuardClearedOnlyByStart | XLA/realtime_detect.py:808 | every event other than `start_test_mode` leaves a set `auto_stop_sent` set |
| Detector.GuardKeptWithoutStart | XLA/realtime_detect.py:808 | over any run without `start_test_mode`, a set `auto_stop_sent` stays set |
| Detector.DetectorApp.constructor | XLA/realtime_detect.py:45-73 | the defaults: focal 615, width 3 cm, calibration distance 30 cm, 640x480, zone [250, 390], idle sequencer, disconnected |
| Detector.DetectorApp.ConnectSerial | XLA/realtime_detect.py:672-695 | with a port chosen, the link state becomes whether the open succeeded; without one it is unchanged |
| Detector.DetectorApp.DisconnectSerial | XLA/realtime_detect.py:697-712 | the link is down afterwards |
| Detector.DetectorApp.SendCommand | XLA/realtime_detect.py:714-724 | the outbox grows by the command iff connected |
| Detector.DetectorApp.StartTestMode | XLA/realtime_detect.py:801-820 | the new sequencer state and writes are the start transition's; the guard invariant is kept |
| Detector.DetectorApp.StopTestMode | XLA/realtime_detect.py:822-832 | the new state and writes are the stop transition's |
| Detector.DetectorApp.SaveCoordForAuto | XLA/realtime_detect.py:771-782 | the coordinate is saved iff both entries parse; otherwise nothing changes |
| Detector.DetectorApp.SendManualCoord | XLA/realtime_detect.py:784-799 | the outbox grows by the manual send's writes |
| Detector.DetectorApp.UpdateTargetZone | XLA/realtime_detect.py:369-385 | each bound is stored as soon as it parses, even when the pair is then rejected; it reports saved iff both parse and left < right |
| Detector.DetectorApp.CalibrateCamera | XLA/realtime_detect.py:834-847 | nothing changes unless a positive last pixel width exists; a parsed width is stored; the focal length changes iff it is non-zero, and then the calibration box reads back at the calibration distance |
| Detector.DetectorApp.FrameTick | XLA/realtime_detect.py:999-1133 | the annotations are the gate's; the last pixel width becomes the width of the frame's last box (kept on an empty frame); the sequencer runs the stop rule, then the coordinate rule, on the zone flag |
| Detector.DetectorApp.ApplyFrameRules | XLA/realtime_detect.py:1087-1133 | the state and writes of the stop rule followed by the coordinate rule |
| Detector.DetectorApp.ApplyStopRule | XLA/realtime_detect.py:1087-1109 | the state and writes of the stop rule |
| Detector.DetectorApp.ApplyCoordRule | XLA/realtime_detect.py:1122-1133 | the state and writes of the coordinate rule |
| Detector.DetectorApp.HandleLine | XLA/realtime_detect.py:728-749 | the state and writes of one received line's transition |
| UartControl.SetpointFields | test_uart_control.py:242 | the four comma-separated numbers are at least 7 characters and hold no `#`, `\n` or `\r` |
| UartControl.SetpointRecord | test_uart_control.py:242 | the record is at least 9 characters long, ends in `#\n`, and has no `#`, `\n` or `\r` before that |
| UartControl.StripJoined | test_uart_control.py:285 | a space-joined token list is already stripped |
| UartControl.TelemetryOfWords | test_uart_control.py:285-293 | for a line of space-joined words with any whitespace around it, such as the `\r\n` that `readline` keeps: fewer than 3 words are rejected; otherwise the line is accepted iff words 1 and 2 parse, and yields those two numbers (word 0 and extra words are ignored) |
| UartControl.PrintedTelemetry | Code_test/control_motor.h:202 | a line the firmware ends with `println` (`\r\n`) reads as its words 1 and 2 |
| UartControl.BlankTelemetry | test_uart_control.py:286 | an all-whitespace line is rejected |
| UartControl.ParseTelemetry | test_uart_control.py:285-293 | a sample is read iff the stripped line splits into at least three words whose words 1 and 2 both parse, and the sample is those two values; see `UartControl.TelemetryOfWords` and `UartControl.PrintedTelemetry` |
| UartControl.Window | test_uart_control.py:24-28 | a `deque(maxlen=200)` holds the last min(n, 200) values in order |
| UartControl.Keep | test_uart_control.py:24-28 | `deque.append` with `maxlen=200`: the history stays non-empty and within 200 values |
| UartControl.KeepAppends | test_uart_control.py:301-305 | the appended value is the newest kept, the length grows by one up to 200, and below the bound nothing is dropped |
| UartControl.KeepAllIsWindow | test_uart_control.py:301-305 | appending values one at a time to a bounded history equals keeping the last 200 of the whole sequence |
| UartControl.WindowOfAppend | test_uart_control.py:24-28 | trimming before appending does not change what a bounded history keeps |
| UartControl.MotorControlApp.constructor | test_uart_control.py:18-29 | disconnected, not reading or sending, set-point zero, empty histories |
| UartControl.MotorControlApp.SetControls | test_uart_control.py:64-88 | widget values within direction {0,1,2} and rpm [0,250] become the set-point |
| UartControl.MotorControlApp.Connect | test_uart_control.py:173-195 | a chosen port that opens makes the console connected and reading; otherwise nothing changes |
| UartControl.MotorControlApp.Disconnect | test_uart_control.py:197-206 | not connected, not reading, not sending, port closed |
| UartControl.MotorControlApp.ToggleConnection | test_uart_control.py:167-171 | when connected, disconnects (not connected, reading or sending, port closed); otherwise connects as `connect` does: connected iff a chosen port opens, reading iff connected, the port open when connected, sending unchanged |
| UartControl.MotorControlApp.StartSending | test_uart_control.py:213-224 | sending starts only if connected |
| UartControl.MotorControlApp.StopSending | test_uart_control.py:226-230 | sending stops |
| UartControl.MotorControlApp.SendTick | test_uart_control.py:232-250 | one pass of the send loop writes the record iff sending with the port open, and reports whether the loop continues |
| UartControl.MotorControlApp.SendControl | test_uart_control.py:314-335 | the record is written iff connected with the port open |
| UartControl.MotorControlApp.HandleTelemetryLine | test_uart_control.py:281-308 | while reading, an accepted line appends one entry to each of the five histories (elapsed time, the slider targets, the two parsed speeds); a rejected line appends nothing; the histories stay equal-length and at most 200 |
| UartControl.MotorControlApp.AppendSample | test_uart_control.py:300-305 | each history keeps its last 200 entries after one append |
| UartControl.MotorControlApp.ExitApp | test_uart_control.py:252-279 | sending and reading stop and the port is closed |
| ReadRx.ToIntOfNumeral | temp/Code_test/Read_RX.h:58-61 | `toInt` reads back every decimal integer rendering |
| ReadRx.ToInt | temp/Code_test/Read_RX.h:58-61 | `toInt` (`atol`): a non-zero value needs a sign or a digit after the leading white space, and a negative one needs a minus sign; on numerals see `ReadRx.ToIntOfNumeral` |
| ReadRx.ReadDigitsOfNumeral | temp/Code_test/Read_RX.h:58-61 | the digit accumulator over a digit string yields its decimal value |
| ReadRx.Constrain | temp/Code_test/Read_RX.h:64-67 | the result is within [lo, hi]; it is the value itself when the value is in range, and the nearer end otherwise |
| ReadRx.Int16 | temp/Code_test/Read_RX.h:7-10 | storing into a 16-bit `int` gives a value in [-32768, 32767] congruent to the original modulo 65536, and the value itself when it fits |
| ReadRx.Field | temp/Code_test/Read_RX.h:58-67 | one stored field is within [0, hi] |
| ReadRx.FieldOfNumeral | temp/Code_test/Read_RX.h:58-67 | a numeral that fits 16 bits is read back and clamped; the speed 40000 wraps to -25536 and is clamped to 0 |
| ReadRx.ParseFrame | temp/Code_test/Read_RX.h:53-67 | an accepted frame has directions in [0,2] and rpms in [0,500] |
| ReadRx.ParseFrameAccepts | temp/Code_test/Read_RX.h:53-57 | a frame is accepted iff the first field is non-empty and there are three commas |
| ReadRx.Commas | temp/Code_test/Read_RX.h:53-55 | the three `indexOf` positions: each is -1 or holds a comma, and the ones found are strictly increasing |
| ReadRx.CommasFirst | temp/Code_test/Read_RX.h:53-55 | the positions are the first three commas: none is skipped, and a position is -1 exactly when no further comma exists |
| ReadRx.CommasFound | temp/Code_test/Read_RX.h:53-57 | three commas after the first character mean the three positions are found, no later than those commas |
| ReadRx.FrameOfFields | temp/Code_test/Read_RX.h:57-67 | four comma-free fields, the first non-empty, decode field by field: `toInt`, narrowed to the 16-bit `int` global, then clamped |
| ReadRx.FieldsFrame | temp/Code_test/Read_RX.h:58-67 | the four fields around commas at i < j < k, each read as `Field`, give directions in [0,2] and rpms in [0,500] |
| ReadRx.FrameAt | temp/Code_test/Read_RX.h:53-67 | with the first three commas at i < j < k and the first field non-empty, the frame is accepted and is read from exactly the substrings between those commas |
| ReadRx.Scan | temp/Code_test/Read_RX.h:32-49 | the accumulation loop keeps the buffer at most 25 characters with no line breaks, consumes no more than the queue, and empties the queue unless a `#` ended it |
| ReadRx.ScanStopsAtTerminator | temp/Code_test/Read_RX.h:35-37 | the first `#` completes the frame, and everything after it stays queued |
| ReadRx.ScanChunks | temp/Code_test/Read_RX.h:31-49 | without a `#` the input is fully consumed, and the partial buffer carries over unchanged to the next call |
| ReadRx.ScanSkipsLineBreak | temp/Code_test/Read_RX.h:38-40 | `\n` and `\r` are skipped |
| ReadRx.ScanAppends | temp/Code_test/Read_RX.h:42-47 | plain characters that fit in 25 are appended in order |
| ReadRx.TimeoutMeasuresElapsed | temp/Code_test/Read_RX.h:80-82 | for elapsed time below 2^32 ms, the wrapped 32-bit test is true iff more than 1000 ms passed, across a counter wrap too |
| ReadRx.IsDataTimeout | temp/Code_test/Read_RX.h:80-82 | `is_data_timeout` on 32-bit readings: without a wrap the difference is `now - last`; across a wrap it is `now + 2^32 - last`; the result is whether that exceeds 1000 ms |
| ReadRx.TrueTimes | temp/Code_test/Read_RX.h:80-82 | any two 32-bit readings belong to true times less than 2^32 ms apart, so the true-time view of the timeout covers every call |
| ReadRx.RxReceiver.constructor | temp/Code_test/Read_RX.h:7-25 | outputs zero, empty buffer, `lastDataTime` the boot time |
| ReadRx.RxReceiver.Receive | temp/Code_test/Read_RX.h:32-33 | bytes arriving on the serial line join the queue |
| ReadRx.RxReceiver.ReadRx | temp/Code_test/Read_RX.h:31-77 | the queue, buffer, outputs and `lastDataTime` become exactly what the scan and the parse determine; an unaccepted frame leaves the outputs and time unchanged; the buffer is emptied after a complete frame |
| ReadRx.RxReceiver.CompleteFrame | temp/Code_test/Read_RX.h:51-76 | a completed buffer is parsed; an accepted frame sets the outputs and the time, and the buffer and flag are cleared either way |
| ReadRx.RxReceiver.ReceiveLoop | temp/Code_test/Read_RX.h:32-49 | the in-place loop computes the scan |
| ReadRx.RxReceiver.StoreFrame | temp/Code_test/Read_RX.h:57-71 | an accepted frame sets the four outputs and the time; otherwise nothing changes |
| ReadRx.RxReceiver.DataTimeout | temp/Code_test/Read_RX.h:80-82 | given the true times whose 32-bit readings are `lastDataTime` and `now`, less than 2^32 ms apart, the result is true iff more than 1000 ms really passed |
| SetpointLink.SetpointFieldsPlain | test_uart_control.py:242 | a widget-range record body fits the 25-character buffer and holds no terminator or line break |
| SetpointLink.RecordScan | temp/Code_test/Read_RX.h:31-49 | the firmware's scan of a record accumulates exactly its body, completes at `#`, and leaves `\n` queued |
| SetpointLink.FieldsParse | temp/Code_test/Read_RX.h:53-67 | the body decodes to exactly the four set-point values |
| SetpointLink.SetpointRoundTrip | test_uart_control.py:242 | a record sent by the console is decoded by the firmware to the same four values, and the trailing `\n` is skipped on the next call |
| ControlMotor.Ramp | Code_test/control_motor.h:92-98 | for a non-negative step the smoothed target moves toward the target by at most the step, never past it, and reaches it when within one step |
| ControlMotor.RampReachesTarget | Code_test/control_motor.h:92-98 | n steps of size m reach a steady target whenever n * m covers the gap |
| ControlMotor.ClampIntegral | Code_test/control_motor.h:119 | `constrain(x, -100, 100)`: the result is within [-100, 100]; it is `x` when in range, -100 below and 100 above |
| ControlMotor.IntegralStep | Code_test/control_motor.h:114-119 | when abs(e) < 100 the result is the clamp of `eIntegral + e * deltaT`, otherwise the clamp of `eIntegral`; always within [-100, 100] |
| ControlMotor.MotorStep | Code_test/control_motor.h:70-132 | the clamp arithmetic of `M1`: the integral stays within [-100, 100] and the PWM within [0, 254]; `e_prev` is this step's error against the ramped target; with a non-negative period the ramp moves at most 40 RPM per second; direction memory and pins are not touched |
| ControlMotor.PidReset | Code_test/control_motor.h:252 | the PID memory is cleared on a direction change or on a target jump of more than 50 either way; a repeated direction with a target change of at most 50 keeps it |
| ControlMotor.ControlSpec | Code_test/control_motor.h:250-281 | one channel of `control()`: a drive command (1 or 2) is remembered as the previous direction and target, any other direction forgets them (0, 0) and writes PWM 0; the other properties are `ControlMotor.EnablePattern`, `ControlMotor.StopResets`, `ControlMotor.DriveStep` and `ControlMotor.ControlKeepsSafe` |
| ControlMotor.PwmClamp | Code_test/control_motor.h:128-131 | the PWM is within [0, 254]; it is the integer part of abs(u) below 254, and 254 from there on |
| ControlMotor.ControlKeepsSafe | Code_test/control_motor.h:250-315 | every call leaves the integral within its clamp, the PWM within [0, 254] and the enables never both HIGH |
| ControlMotor.EnablePattern | Code_test/control_motor.h:256-281 | direction 1 gives EN1 LOW / EN2 HIGH, direction 2 gives EN1 HIGH / EN2 LOW, any other direction gives both LOW, each iff |
| ControlMotor.StopResets | Code_test/control_motor.h:272-281 | any other direction sets the PWM to 0, both enables LOW, and clears the integral, the last error and the remembered direction and target |
| ControlMotor.DriveStep | Code_test/control_motor.h:250-271 | with direction 1 or 2 the step accumulates from 0 iff the direction changed or the target jumped by more than 50, and otherwise from the old integral; afterwards the direction and target are remembered |
| ControlMotor.RepeatedCommandKeepsMemory | Code_test/control_motor.h:252 | repeating a drive command never resets the PID memory |
| ControlMotor.RampBound | Code_test/control_motor.h:92-98 | within a call, the smoothed target moves at most 40 RPM/s times the period, without overshoot |
| ControlMotor.MotorChannel.constructor | Code_test/control_motor.h:244-247 | all statics zero and both enables LOW |
| ControlMotor.MotorChannel.Step | Code_test/control_motor.h:70-137 | the in-place motor step computes the ramp, the integral and the PWM |
| ControlMotor.MotorChannel.Control | Code_test/control_motor.h:250-281 | the channel's new state is the `control()` transition of its old state |
| ControlMotor.DualMotor.constructor | Code_test/control_motor.h:244-247 | two distinct channels in their initial state |
| ControlMotor.DualMotor.Control | Code_test/control_motor.h:242-316 | the left channel's new state depends only on the left command and the right's only on the right command |

## Left out

- The user interfaces are left out, because they are not decision logic: Tkinter widgets, `log_message`, matplotlib plotting and animation, drawing and overlays.
- Camera and detector libraries are left out because they are external code. OpenCV capture, flipping and brightness, YOLO `track` / `predict`, FPS and resizing are not modelled. The detections of a frame are an input, a sequence of integer boxes.
- Serial I/O and threads are left out because they are I/O and concurrency:
  - pySerial open, close and port listing; `readline`; and the read and send threads with their sleeps.
  - A write is an outbox append and never fails; the `except` branch of `send_command`, which only logs, is not modelled. A received line is a method call.
  - The threads are not modelled as running concurrently with the callbacks.
  - `root.after(0, stop_test_mode)` is modelled as an immediate call.
  - The vision console's `serial_connected and serial_port` and `serial_port.is_open` are a single `connected` flag.
- JSON configuration (`load_config`, `save_config`, `save_all_config`) and `save_frame` are left out as file I/O. `UpdateTargetZone` and `CalibrateCamera` report only whether a save happens.
- `refresh_ports` and `update_plot` are left out: they are UI and hardware listing.
- Number parsing and formatting details are left out:
  - Python `float()` and `int()` are inputs (an `Option`, or the `parseFloat` parameter).
  - Saved and manual coordinates are integer tenths, so `.1f` rounding of other floats is not modelled.
- The two `time.time()` reads of a frame use the one `now` of that frame.
- ReadRx.ToInt: does not model what `atol` does once a field leaves the range of the 32-bit `long` (ten or more digits). The model reads the unbounded value, and the 16-bit narrowing (`ReadRx.Int16`) then keeps its low 16 bits, as a wrapping `long` would.
- In `control_motor.h`, these parts are left out as interrupts, signal processing and hardware:
  - encoder ISRs, `ATOMIC_BLOCK` and `micros()`;
  - the velocity estimate and the low-pass filter (the filtered speed is the input `vFilt`);
  - the PID output `u`, which is the input `u`;
  - `analogWrite` / `digitalWrite` (the pin pattern is a `Level` pair);
  - `setup_motor`, `stopMotor`, and the telemetry `Serial.print`s.
- ControlMotor.PwmClamp: treats `(int)fabs(u)` as the exact integer part, which holds only for |u| < 32768. Beyond that, C leaves converting a float to the 16-bit `int` of the AVR target undefined, and the `pwr > 254` guard may then see a negative value. The model gives 254 there.
- ControlMotor.ControlKeepsSafe: its PWM bound of [0, 254] rests on `ControlMotor.PwmClamp`, so it too assumes |u| < 32768.
- ControlMotor.Ramp: its movement bound is stated for a non-negative step only. `deltaT` comes from `micros()` differences, and the wrap of those differences is not modelled.
- ControlMotor.RampBound: requires `deltaT >= 0` for the same reason.
- ControlMotor.DriveStep: it does not show the effect of clearing `e_prev`. That value feeds only the derivative term of `u`, and `u` is an input here.
- Auto-stop is single-shot per arming. A `STOP` line from the controller disarms test mode but leaves `auto_stop_sent` set and `coord_send_time` as it was (`Detector.LineEffect`). Only `start_test_mode` clears the guard (`Detector.GuardClearedOnlyByStart`).
- Detector.StartTestStep: writes are assumed to succeed. In the source a failed `T#` write (the `except` branch of `start_test_mode`) sets `test_mode_active` back to False, so test mode stays disarmed; the model, `Detector.DetectorApp.StartTestMode` and `Detector.StartRearms` always arm when connected.
