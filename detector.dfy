/** The detection-to-actuation controller of the operator console: the
    target-zone gate over one frame's boxes, the auto-stop / delayed-coordinate
    sequencer, the discrete command protocol (`T#`, `D#`, `G<z>,<y>#`) and the
    classification of lines the harvesting controller sends back.

    The sequencer's transitions are given first as functions on a `Sequencer`
    value, with their safety properties (a single stop per arming, one
    coordinate per stop, sent only after a settle delay) proved about them,
    alone and over whole runs of events; the class `DetectorApp` then holds the
    console's fields and its methods are proved to follow those functions. */
module Detector {
  import opened Text
  import opened Geometry

  // ---------------------------------------------------------------------------
  // Boxes, colours and the per-frame gate
  // ---------------------------------------------------------------------------

  /** One detector box, its corners already truncated to int, and its class id. */
  datatype Box = Box(x1: int, y1: int, x2: int, y2: int, cls: int)

  /** A drawing colour in OpenCV's blue-green-red order. */
  datatype Colour = Bgr(b: int, g: int, r: int)

  const Green := Bgr(0, 255, 0)
  const Red := Bgr(0, 0, 255)
  const White := Bgr(255, 255, 255)
  const Orange := Bgr(0, 165, 255)

  /** The class colour: green for class 0 (Ripe), red for class 1 (Unripe),
      white for any other class; never the in-zone highlight. */
  function ClassColour(cls: int): (c: Colour)
    ensures c != Orange
    ensures cls == 0 ==> c == Green
    ensures cls == 1 ==> c == Red
    ensures cls != 0 && cls != 1 ==> c == White
  {
    if cls == 0 then Green else if cls == 1 then Red else White
  }

  /** The camera parameters the per-box estimates use. */
  datatype Calibration = Calibration(focalLength: real, realWidth: real, imageWidth: int, imageHeight: int)

  /** What the frame loop works out for one box. */
  datatype Annotation = Annotation(centreX: int, centreY: int, inZone: bool, colour: Colour,
                                   distance: real, position: Position)

  function CentreX(b: Box): (x: int) { BoxCentre(b.x1, b.x2) }

  /** One box of the frame loop: its truncated centre, the zone test, the
      colour (orange exactly when in the zone), its range and its 3D estimate. */
  function Annotate(b: Box, left: int, right: int, cal: Calibration): (a: Annotation)
    ensures a.inZone <==> InZone(CentreX(b), left, right)
    ensures a.colour == Orange <==> a.inZone
    ensures !a.inZone ==> a.colour == ClassColour(b.cls)
    ensures b.x1 <= b.x2 ==> b.x1 <= a.centreX <= b.x2
    ensures b.y1 <= b.y2 ==> b.y1 <= a.centreY <= b.y2
  {
    var cx := CentreX(b);
    var cy := BoxCentre(b.y1, b.y2);
    var inZone := InZone(cx, left, right);
    var d := Distance(b.x2 - b.x1, cal.realWidth, cal.focalLength);
    Annotation(cx, cy, inZone, if inZone then Orange else ClassColour(b.cls), d,
               Position3D(cx, cy, d, cal.focalLength, cal.imageWidth, cal.imageHeight))
  }

  /** The frame holds a target when at least one box centre is inside the zone. */
  predicate AnyInZone(boxes: seq<Box>, left: int, right: int) {
    exists i :: 0 <= i < |boxes| && InZone(CentreX(boxes[i]), left, right)
  }

  /** The box loop of `update_frame`: per box, the truncated centre, the
      inclusive zone test, the colour (orange exactly for boxes in the zone),
      the range and the 3D estimate; and the accumulated target-in-zone flag,
      which holds exactly when some box is in the zone. */
  method ScanBoxes(boxes: seq<Box>, left: int, right: int, cal: Calibration)
    returns (annotations: seq<Annotation>, targetInZone: bool)
    ensures |annotations| == |boxes|
    ensures forall i :: 0 <= i < |boxes| ==> annotations[i] == Annotate(boxes[i], left, right, cal)
    ensures forall i :: 0 <= i < |boxes| ==>
              annotations[i].inZone == (left <= CentreX(boxes[i]) <= right)
              && (annotations[i].colour == Orange <==> annotations[i].inZone)
    ensures targetInZone <==> AnyInZone(boxes, left, right)
  {
    annotations := [];
    targetInZone := false;
    var i := 0;
    while i < |boxes|
      invariant 0 <= i <= |boxes|
      invariant |annotations| == i
      invariant forall j :: 0 <= j < i ==> annotations[j] == Annotate(boxes[j], left, right, cal)
      invariant targetInZone <==> exists j :: 0 <= j < i && InZone(CentreX(boxes[j]), left, right)
    {
      var a := Annotate(boxes[i], left, right, cal);
      if a.inZone {
        targetInZone := true;
      }
      annotations := annotations + [a];
      i := i + 1;
    }
  }

  // ---------------------------------------------------------------------------
  // The discrete command protocol
  // ---------------------------------------------------------------------------

  const StartCommand := "T#"
  const StopCommand := "D#"

  /** A pick coordinate, depth z and height y, in tenths of a centimetre. */
  datatype Coord = Coord(z10: int, y10: int)

  /** `f"G{z:.1f},{y:.1f}#"`. */
  function CoordCommand(c: Coord): (s: string)
    ensures |s| >= 2 && s[0] == 'G' && s[|s| - 1] == '#'
  {
    "G" + FormatTenths(c.z10) + "," + FormatTenths(c.y10) + "#"
  }

  predicate IsCoordCommand(s: string) { |s| > 0 && s[0] == 'G' }

  /** Reads a `G<z>,<y>#` command back into a coordinate. */
  function ParseCoordCommand(s: string): (r: Option<Coord>) {
    if |s| < 2 || s[0] != 'G' || s[|s| - 1] != '#' then None
    else
      var body := s[1..|s| - 1];
      var k := IndexOfFrom(body, ',', 0);
      if k < 0 then None
      else
        match (ParseTenths(body[..k]), ParseTenths(body[k + 1..]))
        case (Some(z), Some(y)) => Some(Coord(z, y))
        case _ => None
  }

  /** The coordinate command carries exactly the coordinate it was made from. */
  lemma {:induction false} CoordCommandRoundTrip(c: Coord)
    ensures ParseCoordCommand(CoordCommand(c)) == Some(c)
  {
    CommandParts(FormatTenths(c.z10), FormatTenths(c.y10));
    TenthsRoundTrip(c.z10);
    TenthsRoundTrip(c.y10);
  }

  /** A command whose first part holds no comma splits at the comma after it. */
  lemma CommandParts(a: string, b: string)
    requires ',' !in a
    ensures ParseCoordCommand("G" + a + "," + b + "#")
      == if ParseTenths(a).Some? && ParseTenths(b).Some?
         then Some(Coord(ParseTenths(a).value, ParseTenths(b).value)) else None
  {
    var s := "G" + a + "," + b + "#";
    var body := s[1..|s| - 1];
    assert body == a + "," + b;
    assert body[|a|] == ',';
    assert forall i :: 0 <= i < |a| ==> body[i] == a[i];
    var k := IndexOfFrom(body, ',', 0);
    assert k == |a|;
    assert body[..k] == a;
    assert body[k + 1..] == b;
  }

  /** What `send_command` puts on the wire: the command when connected, nothing otherwise. */
  function Send(connected: bool, cmd: string): (out: seq<string>)
    ensures out == [] || out == [cmd]
    ensures out != [] <==> connected
  {
    if connected then [cmd] else []
  }

  // ---------------------------------------------------------------------------
  // The sequencer
  // ---------------------------------------------------------------------------

  /** `test_mode_active`, `auto_stop_sent`, `coord_send_time` (0 when no
      coordinate is pending) and `saved_coord_for_auto`. */
  datatype Sequencer = Sequencer(testModeActive: bool, autoStopSent: bool,
                                 coordSendTime: real, saved: Option<Coord>)

  const Initial := Sequencer(false, false, 0.0, None)

  /** A transition: the new state and the commands it wrote, in order. */
  datatype Step = Step(next: Sequencer, sent: seq<string>)

  /** The auto-stop rule of one frame. */
  function StopRule(s: Sequencer, autoStopEnabled: bool, targetInZone: bool, connected: bool, now: real): (st: Step)
    ensures st.sent == [] || st.sent == [StopCommand]
    ensures st.sent != [] <==> autoStopEnabled && targetInZone && s.testModeActive && !s.autoStopSent && connected
    ensures st.sent != [] ==> st.next.autoStopSent && !st.next.testModeActive && st.next.coordSendTime == now
    ensures st.sent == [] ==> st.next == s
    ensures st.next.saved == s.saved
  {
    if autoStopEnabled && targetInZone && s.testModeActive && !s.autoStopSent && connected then
      Step(s.(autoStopSent := true, testModeActive := false, coordSendTime := now), [StopCommand])
    else Step(s, [])
  }

  /** The delayed-coordinate rule of one frame: once a saved coordinate exists
      and at least one second has passed since the stop, the coordinate goes
      through `send_command` (lost when not connected) and the timer clears. */
  function CoordRule(s: Sequencer, connected: bool, now: real): (st: Step)
    ensures st.sent == [] || (connected && s.saved.Some? && st.sent == [CoordCommand(s.saved.value)])
    ensures st.sent != [] ==> s.coordSendTime > 0.0 && now - s.coordSendTime >= 1.0
    ensures st.next.coordSendTime == s.coordSendTime || st.next.coordSendTime == 0.0
    ensures st.next.testModeActive == s.testModeActive && st.next.autoStopSent == s.autoStopSent
    ensures st.next.saved == s.saved
  {
    if s.saved.Some? && s.coordSendTime > 0.0 && now - s.coordSendTime >= 1.0 then
      Step(s.(coordSendTime := 0.0), Send(connected, CoordCommand(s.saved.value)))
    else Step(s, [])
  }

  /** The sequencer part of one `update_frame`: the stop rule, then the coordinate rule. */
  function FrameRules(s: Sequencer, autoStopEnabled: bool, targetInZone: bool, connected: bool, now: real): (st: Step)
    ensures st.next.testModeActive ==> s.testModeActive
    ensures s.autoStopSent ==> st.next.autoStopSent
    ensures st.next.saved == s.saved
  {
    var a := StopRule(s, autoStopEnabled, targetInZone, connected, now);
    var b := CoordRule(a.next, connected, now);
    Step(b.next, a.sent + b.sent)
  }

  /** `start_test_mode`: needs a connection; arms the sequencer, clears the
      single-shot guard and sends `T#`. */
  function StartTestStep(s: Sequencer, connected: bool): (st: Step)
    ensures st.sent != [] <==> connected
    ensures st.sent != [] ==> st.sent == [StartCommand] && st.next.testModeActive && !st.next.autoStopSent
    ensures st.sent == [] ==> st.next == s
    ensures st.next.coordSendTime == s.coordSendTime && st.next.saved == s.saved
  {
    if !connected then Step(s, [])
    else Step(s.(testModeActive := true, autoStopSent := false), [StartCommand])
  }

  /** `stop_test_mode`: disarms and sends `D#` when the port is open. */
  function StopTestStep(s: Sequencer, portOpen: bool): (st: Step)
    ensures !st.next.testModeActive
    ensures st.next.autoStopSent == s.autoStopSent && st.next.coordSendTime == s.coordSendTime
    ensures st.next.saved == s.saved
    ensures st.sent != [] <==> portOpen
    ensures st.sent == [] || st.sent == [StopCommand]
  {
    Step(s.(testModeActive := false), Send(portOpen, StopCommand))
  }

  /** `save_coord_for_auto`: both entries must parse. */
  function SaveCoord(s: Sequencer, z: Option<int>, y: Option<int>): (r: Sequencer)
    ensures z.Some? && y.Some? ==> r.saved == Some(Coord(z.value, y.value))
    ensures !(z.Some? && y.Some?) ==> r == s
    ensures r.testModeActive == s.testModeActive && r.autoStopSent == s.autoStopSent
    ensures r.coordSendTime == s.coordSendTime
  {
    if z.Some? && y.Some? then s.(saved := Some(Coord(z.value, y.value))) else s
  }

  /** `send_manual_coord`: the entered coordinate goes straight out, whatever
      the sequencer is doing, when both entries parse and the link is up. */
  function ManualCoordWrites(z: Option<int>, y: Option<int>, connected: bool): (out: seq<string>)
    ensures out != [] <==> z.Some? && y.Some? && connected
    ensures out != [] ==> out == [CoordCommand(Coord(z.value, y.value))]
  {
    if z.Some? && y.Some? then Send(connected, CoordCommand(Coord(z.value, y.value))) else []
  }

  datatype LineKind = Blank | EmergencyStop | HarvestDone | Chatter

  /** How the read loop classifies one received line, after stripping it. */
  function ClassifyLine(raw: string): (k: LineKind)
    ensures k == Blank <==> forall i :: 0 <= i < |raw| ==> IsPySpace(raw[i])
    ensures k == EmergencyStop <==> Strip(raw) == "STOP"
    ensures k == HarvestDone <==> Strip(raw) == "HARVEST_DONE#"
  {
    var data := Strip(raw);
    if data == [] then Blank
    else if data == "STOP" then EmergencyStop
    else if data == "HARVEST_DONE#" then HarvestDone
    else Chatter
  }

  /** The effect of one received line: only `STOP` while armed does anything. */
  function OnLine(s: Sequencer, raw: string, connected: bool): (st: Step)
    ensures st.next != s || st.sent != [] ==> Strip(raw) == "STOP" && s.testModeActive
    ensures st.sent == [] || st.sent == [StopCommand]
    ensures !st.next.testModeActive || st.next == s
    ensures st.next.autoStopSent == s.autoStopSent && st.next.coordSendTime == s.coordSendTime
    ensures st.next.saved == s.saved
  {
    if ClassifyLine(raw) == EmergencyStop && s.testModeActive then StopTestStep(s, connected)
    else Step(s, [])
  }

  // Properties of single transitions

  /** The auto-stop fires exactly under its five conditions; when it fires the
      frame writes `D#` and nothing else, marks the guard, disarms and starts
      the settle timer at `now`; when it does not fire, the guard and arming are
      untouched. In particular a disconnected link changes neither. */
  lemma FrameStop(s: Sequencer, autoStopEnabled: bool, targetInZone: bool, connected: bool, now: real)
    ensures var st := FrameRules(s, autoStopEnabled, targetInZone, connected, now);
      var fires := autoStopEnabled && targetInZone && s.testModeActive && !s.autoStopSent && connected;
      (StopCommand in st.sent <==> fires)
      && (fires ==> st.sent == [StopCommand] && st.next == s.(autoStopSent := true, testModeActive := false, coordSendTime := now))
      && (!fires ==> st.next.autoStopSent == s.autoStopSent && st.next.testModeActive == s.testModeActive)
  {
    var fires := autoStopEnabled && targetInZone && s.testModeActive && !s.autoStopSent && connected;
    if !fires {
      var b := CoordRule(s, connected, now);
      if b.sent != [] {
        assert b.sent[0][0] == 'G';
      }
    }
  }

  /** A frame writes at most one command, so a stop and a coordinate never go
      out in the same frame: the timer the stop starts reads zero elapsed time. */
  lemma FrameWritesAtMostOne(s: Sequencer, autoStopEnabled: bool, targetInZone: bool, connected: bool, now: real)
    ensures |FrameRules(s, autoStopEnabled, targetInZone, connected, now).sent| <= 1
  {
  }

  /** A coordinate goes out of a frame exactly when one is saved, a stop is
      pending, a full second has passed, the frame did not itself stop, and the
      link is up; it is the saved coordinate, and the timer is cleared. */
  lemma FrameCoord(s: Sequencer, autoStopEnabled: bool, targetInZone: bool, connected: bool, now: real)
    ensures var st := FrameRules(s, autoStopEnabled, targetInZone, connected, now);
      var stops := autoStopEnabled && targetInZone && s.testModeActive && !s.autoStopSent && connected;
      var due := s.saved.Some? && s.coordSendTime > 0.0 && now - s.coordSendTime >= 1.0;
      ((exists i :: 0 <= i < |st.sent| && IsCoordCommand(st.sent[i])) <==> !stops && due && connected)
      && (!stops && due ==> st.next.coordSendTime == 0.0
                            && st.sent == Send(connected, CoordCommand(s.saved.value)))
  {
    var st := FrameRules(s, autoStopEnabled, targetInZone, connected, now);
    var stops := autoStopEnabled && targetInZone && s.testModeActive && !s.autoStopSent && connected;
    var due := s.saved.Some? && s.coordSendTime > 0.0 && now - s.coordSendTime >= 1.0;
    if stops {
      assert st.sent == [StopCommand];
      assert !IsCoordCommand(st.sent[0]);
    } else if due && connected {
      assert st.sent == [CoordCommand(s.saved.value)];
      assert IsCoordCommand(st.sent[0]);
    } else {
      assert st.sent == [];
    }
  }

  /** A coordinate that falls due while the link is down is dropped: nothing is
      written and the pending timer is cleared all the same. */
  lemma CoordDroppedWhenDisconnected(s: Sequencer, now: real)
    requires s.saved.Some? && s.coordSendTime > 0.0 && now - s.coordSendTime >= 1.0
    ensures CoordRule(s, false, now) == Step(s.(coordSendTime := 0.0), [])
  {
  }

  /** `start_test_mode` is then the only transition that re-arms the guard. */
  lemma StartRearms(s: Sequencer, connected: bool)
    ensures var st := StartTestStep(s, connected);
      (connected ==> st.next.testModeActive && !st.next.autoStopSent && st.sent == [StartCommand]
                     && st.next.coordSendTime == s.coordSendTime && st.next.saved == s.saved)
      && (!connected ==> st == Step(s, []))
  {
  }

  /** A `STOP` line (after stripping) while armed disarms and writes `D#` when
      connected, but leaves the single-shot guard, the settle timer and the
      saved coordinate as they were; every other line changes nothing. */
  lemma LineEffect(s: Sequencer, raw: string, connected: bool)
    ensures var st := OnLine(s, raw, connected);
      (Strip(raw) == "STOP" && s.testModeActive ==>
         st.next == s.(testModeActive := false) && st.sent == Send(connected, StopCommand))
      && (Strip(raw) != "STOP" || !s.testModeActive ==> st == Step(s, []))
  {
  }

  // ---------------------------------------------------------------------------
  // Runs of events
  // ---------------------------------------------------------------------------

  /** What can happen to the console between two looks at it. */
  datatype Event =
    | Frame(autoStopEnabled: bool, targetInZone: bool, now: real)
    | Line(raw: string)
    | SaveCoordEntries(z: Option<int>, y: Option<int>)
    | ManualCoord(z: Option<int>, y: Option<int>)
    | Connect(succeeded: bool)
    | Disconnect
    | StartTest
    | StopTest

  datatype Console = Console(seqr: Sequencer, connected: bool)

  /** The end state, every command written (`sent`, in order), and the part of
      those written by the sequencer itself (`auto`): all of them except the
      operator's manual coordinate sends. */
  datatype Outcome = Outcome(final: Console, sent: seq<string>, auto: seq<string>)

  /** The sequencer's own step: its writes are both on the wire and its own. */
  function Seqr(c: Console, st: Step): (o: Outcome) {
    Outcome(c.(seqr := st.next), st.sent, st.sent)
  }

  /** One event: the console's new state, its writes, and the sequencer's share
      of them (everything but a manual send). */
  function Apply(c: Console, e: Event): (o: Outcome)
    ensures !e.ManualCoord? ==> o.auto == o.sent
    ensures e.ManualCoord? ==> o.auto == [] && o.final == c
    ensures |o.sent| <= 1
  {
    match e
    case Frame(enabled, inZone, now) => Seqr(c, FrameRules(c.seqr, enabled, inZone, c.connected, now))
    case Line(raw) => Seqr(c, OnLine(c.seqr, raw, c.connected))
    case SaveCoordEntries(z, y) => Outcome(c.(seqr := SaveCoord(c.seqr, z, y)), [], [])
    case ManualCoord(z, y) => Outcome(c, ManualCoordWrites(z, y, c.connected), [])
    case Connect(succeeded) => Outcome(c.(connected := succeeded), [], [])
    case Disconnect => Outcome(c.(connected := false), [], [])
    case StartTest => Seqr(c, StartTestStep(c.seqr, c.connected))
    case StopTest => Seqr(c, StopTestStep(c.seqr, c.connected))
  }

  /** A run of events, applied in order from `c`. */
  function Run(c: Console, events: seq<Event>): (o: Outcome)
    ensures |o.sent| <= |events|
    ensures |o.auto| <= |o.sent|
    decreases |events|
  {
    if events == [] then Outcome(c, [], [])
    else
      var first := Apply(c, events[0]);
      var rest := Run(first.final, events[1..]);
      Outcome(rest.final, first.sent + rest.sent, first.auto + rest.auto)
  }

  function CountOf(out: seq<string>, cmd: string): (n: nat) {
    if out == [] then 0 else (if out[0] == cmd then 1 else 0) + CountOf(out[1..], cmd)
  }

  function CountCoords(out: seq<string>): (n: nat) {
    if out == [] then 0 else (if IsCoordCommand(out[0]) then 1 else 0) + CountCoords(out[1..])
  }

  lemma {:induction false} CountsAdd(a: seq<string>, b: seq<string>)
    ensures CountOf(a + b, StopCommand) == CountOf(a, StopCommand) + CountOf(b, StopCommand)
    ensures CountCoords(a + b) == CountCoords(a) + CountCoords(b)
  {
    if a == [] {
      assert a + b == b;
    } else {
      assert (a + b)[1..] == a[1..] + b;
      CountsAdd(a[1..], b);
    }
  }

  predicate NoOperatorStartStop(events: seq<Event>) {
    forall i :: 0 <= i < |events| ==> !events[i].StartTest? && !events[i].StopTest?
  }

  function Armed(s: Sequencer): (n: nat) { if s.testModeActive then 1 else 0 }
  function Pending(s: Sequencer): (n: nat) { if s.coordSendTime > 0.0 then 1 else 0 }

  /** The guard invariant: once the stop has been sent the sequencer is disarmed. */
  predicate GuardConsistent(s: Sequencer) { s.autoStopSent ==> !s.testModeActive }

  /** Every event keeps the guard invariant. */
  lemma {:induction false} GuardConsistentPreserved(c: Console, events: seq<Event>)
    requires GuardConsistent(c.seqr)
    ensures GuardConsistent(Run(c, events).final.seqr)
    decreases |events|
  {
    if events != [] {
      GuardConsistentPreserved(Apply(c, events[0]).final, events[1..]);
    }
  }

  lemma ApplyStopCount(c: Console, e: Event)
    requires !e.StartTest? && !e.StopTest?
    ensures var o := Apply(c, e);
      CountOf(o.sent, StopCommand) + Armed(o.final.seqr) <= Armed(c.seqr)
      && CountCoords(o.auto) + Pending(o.final.seqr) + Armed(o.final.seqr) <= Pending(c.seqr) + Armed(c.seqr)
  {
    var o := Apply(c, e);
    match e
    case Frame(enabled, inZone, now) =>
      FrameWritesAtMostOne(c.seqr, enabled, inZone, c.connected, now);
      FrameStop(c.seqr, enabled, inZone, c.connected, now);
      if o.sent != [] && IsCoordCommand(o.sent[0]) {
        assert o.sent[0] != StopCommand;
      }
      assert o.sent == [] || o.sent == [o.sent[0]];
    case Line(raw) =>
    case SaveCoordEntries(z, y) =>
    case ManualCoord(z, y) =>
      if o.sent != [] {
        assert o.sent[0][0] == 'G';
      }
    case Connect(succeeded) =>
    case Disconnect =>
  }

  /** Auto-stop is single-shot per arming: without an operator start or stop in
      between, frames and controller lines write `D#` at most once in all, and
      only if the sequencer was armed at the outset; writing it disarms. */
  lemma {:induction false} StopAtMostOncePerArming(c: Console, events: seq<Event>)
    requires NoOperatorStartStop(events)
    ensures var o := Run(c, events);
      CountOf(o.sent, StopCommand) + Armed(o.final.seqr) <= Armed(c.seqr)
    decreases |events|
  {
    if events != [] {
      var first := Apply(c, events[0]);
      ApplyStopCount(c, events[0]);
      StopAtMostOncePerArming(first.final, events[1..]);
      CountsAdd(first.sent, Run(first.final, events[1..]).sent);
    }
  }

  /** The coordinate goes out at most once per stop: without an operator start
      or stop, the number of coordinates the sequencer writes is bounded by the
      stop already pending plus the one stop the arming still allows (manual
      coordinate sends come on top of these). */
  lemma {:induction false} CoordAtMostOncePerStop(c: Console, events: seq<Event>)
    requires NoOperatorStartStop(events)
    ensures var o := Run(c, events);
      CountCoords(o.auto) + Pending(o.final.seqr) + Armed(o.final.seqr) <= Pending(c.seqr) + Armed(c.seqr)
    decreases |events|
  {
    if events != [] {
      var first := Apply(c, events[0]);
      ApplyStopCount(c, events[0]);
      CoordAtMostOncePerStop(first.final, events[1..]);
      CountsAdd(first.auto, Run(first.final, events[1..]).auto);
    }
  }

  predicate FramesBefore(events: seq<Event>, deadline: real) {
    forall i :: 0 <= i < |events| && events[i].Frame? ==> events[i].now < deadline
  }

  /** The settle delay: after a stop at time `t0`, the sequencer writes no
      coordinate while every frame is earlier than `t0 + 1`, and the timer
      stays as the stop set it. */
  lemma {:induction false} NoCoordBeforeSettle(c: Console, events: seq<Event>, t0: real)
    requires c.seqr.coordSendTime == t0 && t0 > 0.0 && !c.seqr.testModeActive
    requires forall i :: 0 <= i < |events| ==> !events[i].StartTest?
    requires FramesBefore(events, t0 + 1.0)
    ensures var o := Run(c, events);
      CountCoords(o.auto) == 0 && o.final.seqr.coordSendTime == t0 && !o.final.seqr.testModeActive
    decreases |events|
  {
    if events != [] {
      var first := Apply(c, events[0]);
      assert first.auto == [] || first.auto == [StopCommand];
      assert CountCoords(first.auto) == 0;
      NoCoordBeforeSettle(first.final, events[1..], t0);
      CountsAdd(first.auto, Run(first.final, events[1..]).auto);
    }
  }

  predicate FramesOnly(events: seq<Event>) {
    forall i :: 0 <= i < |events| ==> events[i].Frame?
  }

  /** Once nothing is pending and the sequencer is disarmed, frames write nothing. */
  lemma {:induction false} QuietAfterCoord(c: Console, events: seq<Event>)
    requires c.seqr.coordSendTime <= 0.0 && !c.seqr.testModeActive
    requires FramesOnly(events)
    ensures Run(c, events).sent == []
    decreases |events|
  {
    if events != [] {
      QuietAfterCoord(Apply(c, events[0]).final, events[1..]);
    }
  }

  /** With a coordinate saved and the link up, a stop at `t0` is followed by
      exactly one coordinate command once some frame comes at or after
      `t0 + 1`, and it is the saved coordinate's. */
  lemma {:induction false} CoordSentOnceAfterSettle(c: Console, events: seq<Event>, t0: real)
    requires c.seqr.coordSendTime == t0 && t0 > 0.0 && !c.seqr.testModeActive
    requires c.seqr.saved.Some? && c.connected
    requires FramesOnly(events)
    requires exists i :: 0 <= i < |events| && events[i].now >= t0 + 1.0
    ensures var o := Run(c, events);
      CountCoords(o.sent) == 1 && o.sent == [CoordCommand(c.seqr.saved.value)]
    decreases |events|
  {
    var e := events[0];
    var first := Apply(c, e);
    if e.now >= t0 + 1.0 {
      assert first.sent == [CoordCommand(c.seqr.saved.value)];
      QuietAfterCoord(first.final, events[1..]);
    } else {
      assert first.final == c && first.sent == [];
      var i :| 0 <= i < |events| && events[i].now >= t0 + 1.0;
      assert events[1..][i - 1] == events[i];
      CoordSentOnceAfterSettle(first.final, events[1..], t0);
    }
  }

  predicate NoSaveEntries(events: seq<Event>) {
    forall i :: 0 <= i < |events| ==> !events[i].SaveCoordEntries?
  }

  /** One event other than a coordinate entry, with nothing saved, makes the
      sequencer write no coordinate, and saves none. */
  lemma ApplyParked(c: Console, e: Event)
    requires c.seqr.saved.None? && !e.SaveCoordEntries?
    ensures CountCoords(Apply(c, e).auto) == 0 && Apply(c, e).final.seqr.saved.None?
  {
    var o := Apply(c, e);
    assert o.auto == [] || o.auto == [StopCommand] || o.auto == [StartCommand];
  }

  /** Parking: with no coordinate saved, the sequencer never writes a
      coordinate. */
  lemma {:induction false} ParkedWithoutCoord(c: Console, events: seq<Event>)
    requires c.seqr.saved.None? && NoSaveEntries(events)
    ensures var o := Run(c, events);
      CountCoords(o.auto) == 0 && o.final.seqr.saved.None?
    decreases |events|
  {
    if events != [] {
      var first := Apply(c, events[0]);
      ApplyParked(c, events[0]);
      ParkedWithoutCoord(first.final, events[1..]);
      CountsAdd(first.auto, Run(first.final, events[1..]).auto);
    }
  }

  /** A stop already made (disarmed, timer set) with no coordinate saved keeps
      its timer for good while the operator neither starts nor stops a test. */
  lemma {:induction false} ParkedKeepsTimer(c: Console, events: seq<Event>)
    requires c.seqr.saved.None? && NoSaveEntries(events)
    requires NoOperatorStartStop(events) && !c.seqr.testModeActive
    ensures Run(c, events).final.seqr.coordSendTime == c.seqr.coordSendTime
    decreases |events|
  {
    if events != [] {
      var first := Apply(c, events[0]);
      ApplyParked(c, events[0]);
      assert first.final.seqr.coordSendTime == c.seqr.coordSendTime && !first.final.seqr.testModeActive;
      ParkedKeepsTimer(first.final, events[1..]);
    }
  }

  /** Only `start_test_mode` clears the single-shot guard: once `D#` has gone
      out, every other event leaves `auto_stop_sent` set. */
  lemma GuardClearedOnlyByStart(c: Console, e: Event)
    requires c.seqr.autoStopSent && !e.StartTest?
    ensures Apply(c, e).final.seqr.autoStopSent
  {
  }

  /** Over a run: without an operator start, a set guard stays set. */
  lemma {:induction false} GuardKeptWithoutStart(c: Console, events: seq<Event>)
    requires c.seqr.autoStopSent
    requires forall i :: 0 <= i < |events| ==> !events[i].StartTest?
    ensures Run(c, events).final.seqr.autoStopSent
    decreases |events|
  {
    if events != [] {
      GuardClearedOnlyByStart(c, events[0]);
      GuardKeptWithoutStart(Apply(c, events[0]).final, events[1..]);
    }
  }

  /** Without manual coordinate sends, everything written comes from the
      sequencer. */
  lemma {:induction false} SentIsAutoWithoutManual(c: Console, events: seq<Event>)
    requires forall i :: 0 <= i < |events| ==> !events[i].ManualCoord?
    ensures Run(c, events).sent == Run(c, events).auto
    decreases |events|
  {
    if events != [] {
      SentIsAutoWithoutManual(Apply(c, events[0]).final, events[1..]);
    }
  }

  /** A manual send changes no state and is all its event writes. */
  lemma ManualCoordOnly(c: Console, z: Option<int>, y: Option<int>)
    ensures var o := Apply(c, ManualCoord(z, y));
      o.final == c && o.auto == [] && o.sent == ManualCoordWrites(z, y, c.connected)
  {
  }

  // ---------------------------------------------------------------------------
  // The console object
  // ---------------------------------------------------------------------------

  /** The fields of the detector window that the controller logic reads and writes. */
  class DetectorApp {
    var focalLength: real
    var realWidth: real
    var calibrationDistance: real
    var imageWidth: int
    var imageHeight: int
    var xLineLeft: int
    var xLineRight: int
    /** `last_pixel_width`, absent until the first box is processed. */
    var lastPixelWidth: Option<int>

    var connected: bool
    var testModeActive: bool
    var autoStopSent: bool
    var coordSendTime: real
    var savedCoordForAuto: Option<Coord>
    /** Everything written to the serial port, in order. */
    var outbox: seq<string>

    function SequencerState(): Sequencer
      reads this
    {
      Sequencer(testModeActive, autoStopSent, coordSendTime, savedCoordForAuto)
    }

    function Calib(): Calibration
      reads this
    {
      Calibration(focalLength, realWidth, imageWidth, imageHeight)
    }

    ghost predicate Valid()
      reads this
    {
      GuardConsistent(SequencerState())
    }

    /** The defaults of the constructor. */
    constructor ()
      ensures Valid()
      ensures focalLength == 615.0 && realWidth == 3.0 && calibrationDistance == 30.0
      ensures imageWidth == 640 && imageHeight == 480
      ensures xLineLeft == 250 && xLineRight == 390 && lastPixelWidth.None?
      ensures !connected && SequencerState() == Initial && outbox == []
    {
      focalLength, realWidth, calibrationDistance := 615.0, 3.0, 30.0;
      imageWidth, imageHeight := 640, 480;
      xLineLeft, xLineRight := 250, 390;
      lastPixelWidth := None;
      connected := false;
      testModeActive, autoStopSent, coordSendTime, savedCoordForAuto := false, false, 0.0, None;
      outbox := [];
    }

    /** `connect_serial`: nothing without a chosen port; otherwise the link is up
        exactly when opening the port succeeded. */
    method ConnectSerial(portChosen: bool, succeeded: bool)
      modifies this`connected
      ensures connected == if portChosen then succeeded else old(connected)
    {
      if portChosen {
        connected := succeeded;
      }
    }

    /** `disconnect_serial`. */
    method DisconnectSerial()
      modifies this`connected
      ensures !connected
    {
      connected := false;
    }

    /** `send_command`: writes only when connected. */
    method SendCommand(cmd: string)
      modifies this`outbox
      ensures outbox == old(outbox) + Send(connected, cmd)
    {
      if connected {
        outbox := outbox + [cmd];
      }
    }

    /** `start_test_mode`. */
    method StartTestMode()
      requires Valid()
      modifies this`testModeActive, this`autoStopSent, this`outbox
      ensures Valid()
      ensures var st := StartTestStep(old(SequencerState()), connected);
        SequencerState() == st.next && outbox == old(outbox) + st.sent
    {
      if !connected {
        return;
      }
      testModeActive := true;
      autoStopSent := false;
      outbox := outbox + [StartCommand];
    }

    /** `stop_test_mode`. */
    method StopTestMode()
      requires Valid()
      modifies this`testModeActive, this`outbox
      ensures Valid()
      ensures var st := StopTestStep(old(SequencerState()), connected);
        SequencerState() == st.next && outbox == old(outbox) + st.sent
    {
      testModeActive := false;
      if connected {
        SendCommand(StopCommand);
      }
    }

    /** `save_coord_for_auto`, with the two entries already parsed (None when
        an entry is not a number). */
    method SaveCoordForAuto(z: Option<int>, y: Option<int>)
      modifies this`savedCoordForAuto
      ensures SequencerState() == SaveCoord(old(SequencerState()), z, y)
    {
      if z.Some? && y.Some? {
        savedCoordForAuto := Some(Coord(z.value, y.value));
      }
    }

    /** `send_manual_coord`: writes the coordinate command when connected and
        both entries parse. */
    method SendManualCoord(z: Option<int>, y: Option<int>)
      modifies this`outbox
      ensures outbox == old(outbox) + ManualCoordWrites(z, y, connected)
    {
      if !connected {
        return;
      }
      if z.Some? && y.Some? {
        SendCommand(CoordCommand(Coord(z.value, y.value)));
      }
    }

    /** `update_target_zone`, with the entries already parsed. Each bound is
        stored as soon as it parses, before the order is checked, so a rejected
        pair stays in the fields; the configuration is saved only for
        left < right. */
    method UpdateTargetZone(leftEntry: Option<int>, rightEntry: Option<int>) returns (saved: bool)
      modifies this`xLineLeft, this`xLineRight
      ensures xLineLeft == if leftEntry.Some? then leftEntry.value else old(xLineLeft)
      ensures xLineRight == if leftEntry.Some? && rightEntry.Some? then rightEntry.value else old(xLineRight)
      ensures saved <==> leftEntry.Some? && rightEntry.Some? && leftEntry.value < rightEntry.value
    {
      saved := false;
      if leftEntry.None? {
        return;
      }
      xLineLeft := leftEntry.value;
      if rightEntry.None? {
        return;
      }
      xLineRight := rightEntry.value;
      if xLineLeft >= xLineRight {
        return;
      }
      saved := true;
    }

    /** `calibrate_camera`, with the width entry already parsed. Only with a
        last box of positive width does anything change: the entry becomes the
        real width, and unless it is zero (a division error in the source,
        after the width was stored) the focal length is recalibrated so that
        the last box reads back at the calibration distance. */
    method CalibrateCamera(widthEntry: Option<real>) returns (saved: bool)
      modifies this`realWidth, this`focalLength
      ensures var ready := old(lastPixelWidth).Some? && old(lastPixelWidth).value > 0;
        (!ready || widthEntry.None? ==> realWidth == old(realWidth) && focalLength == old(focalLength) && !saved)
        && (ready && widthEntry.Some? ==> realWidth == widthEntry.value)
        && (saved <==> ready && widthEntry.Some? && widthEntry.value != 0.0)
        && (!saved ==> focalLength == old(focalLength))
        && (saved ==> focalLength == CalibratedFocal(lastPixelWidth.value, calibrationDistance, realWidth))
        && (saved && realWidth > 0.0 ==>
              Distance(lastPixelWidth.value, realWidth, focalLength)
              == if calibrationDistance > 0.0 then calibrationDistance else 0.0)
    {
      saved := false;
      if lastPixelWidth.None? || lastPixelWidth.value <= 0 || widthEntry.None? {
        return;
      }
      realWidth := widthEntry.value;
      if realWidth == 0.0 {
        return;
      }
      focalLength := CalibratedFocal(lastPixelWidth.value, calibrationDistance, realWidth);
      saved := true;
      if realWidth > 0.0 {
        CalibrationRoundTrip(lastPixelWidth.value, calibrationDistance, realWidth);
      }
    }

    /** One processed frame of `update_frame`: the box loop (which also keeps
        the width of the last box for calibration), then the sequencer rules. */
    method FrameTick(boxes: seq<Box>, autoStopEnabled: bool, now: real) returns (annotations: seq<Annotation>)
      requires Valid()
      modifies this`lastPixelWidth, this`testModeActive, this`autoStopSent, this`coordSendTime, this`outbox
      ensures Valid()
      ensures |annotations| == |boxes|
      ensures forall i :: 0 <= i < |boxes| ==> annotations[i] == Annotate(boxes[i], xLineLeft, xLineRight, Calib())
      ensures lastPixelWidth == if boxes == [] then old(lastPixelWidth)
                                else Some(boxes[|boxes| - 1].x2 - boxes[|boxes| - 1].x1)
      ensures var st := FrameRules(old(SequencerState()), autoStopEnabled,
                                   AnyInZone(boxes, xLineLeft, xLineRight), connected, now);
        SequencerState() == st.next && outbox == old(outbox) + st.sent
    {
      var targetInZone;
      annotations, targetInZone := ScanBoxes(boxes, xLineLeft, xLineRight, Calib());
      if |boxes| > 0 {
        lastPixelWidth := Some(boxes[|boxes| - 1].x2 - boxes[|boxes| - 1].x1);
      }
      ApplyFrameRules(autoStopEnabled, targetInZone, now);
    }

    /** The auto-stop rule, then the one-second coordinate rule, both reading
        the same clock `now`. */
    method ApplyFrameRules(autoStopEnabled: bool, targetInZone: bool, now: real)
      requires Valid()
      modifies this`testModeActive, this`autoStopSent, this`coordSendTime, this`outbox
      ensures Valid()
      ensures var st := FrameRules(old(SequencerState()), autoStopEnabled, targetInZone, connected, now);
        SequencerState() == st.next && outbox == old(outbox) + st.sent
    {
      ghost var out0 := outbox;
      ghost var a := StopRule(SequencerState(), autoStopEnabled, targetInZone, connected, now);
      ApplyStopRule(autoStopEnabled, targetInZone, now);
      ApplyCoordRule(now);
      assert outbox == out0 + a.sent + CoordRule(a.next, connected, now).sent;
    }

    /** The auto-stop rule: with auto-stop enabled, a target in the zone, the
        sequencer armed, the guard clear and the link up, send `D#`, mark the
        guard, disarm and start the settle timer. */
    method ApplyStopRule(autoStopEnabled: bool, targetInZone: bool, now: real)
      requires Valid()
      modifies this`testModeActive, this`autoStopSent, this`coordSendTime, this`outbox
      ensures Valid()
      ensures var st := StopRule(old(SequencerState()), autoStopEnabled, targetInZone, connected, now);
        SequencerState() == st.next && outbox == old(outbox) + st.sent
    {
      if autoStopEnabled && targetInZone && testModeActive {
        if !autoStopSent {
          if connected {
            SendCommand(StopCommand);
            autoStopSent := true;
            testModeActive := false;
            coordSendTime := now;
          }
        }
      }
    }

    /** The coordinate rule: a second or more after the stop, send the saved
        coordinate and clear the timer. */
    method ApplyCoordRule(now: real)
      modifies this`coordSendTime, this`outbox
      ensures var st := CoordRule(old(SequencerState()), connected, now);
        SequencerState() == st.next && outbox == old(outbox) + st.sent
    {
      if savedCoordForAuto.Some? && coordSendTime > 0.0 {
        if now - coordSendTime >= 1.0 {
          SendCommand(CoordCommand(savedCoordForAuto.value));
          coordSendTime := 0.0;
        }
      }
    }

    /** One line from the read loop. The `STOP` reaction, scheduled on the UI
        thread in the source, is applied at once. */
    method HandleLine(raw: string)
      requires Valid()
      modifies this`testModeActive, this`outbox
      ensures Valid()
      ensures var st := OnLine(old(SequencerState()), raw, connected);
        SequencerState() == st.next && outbox == old(outbox) + st.sent
    {
      var data := Strip(raw);
      if data == [] {
        return;
      }
      if data == "STOP" {
        if testModeActive {
          StopTestMode();
        }
      }
    }
  }
}
