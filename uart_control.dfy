/** The PC-side motor test console: the four-field setpoint record it streams
    to the motor controller, the parsing of the controller's telemetry lines
    and the five bounded plot histories they feed, and the console's
    connect / send / read state. */
module UartControl {
  import opened Text

  /** Each plot history keeps this many points (`deque(maxlen=200)`). */
  const MaxPoints := 200
  /** The RPM sliders run from 0 to this value. */
  const MaxSliderRpm := 250

  /** The operator's settings: direction radio buttons (0 stop, 1 forward,
      2 backward) and RPM sliders, left and right. */
  datatype Setpoint = Setpoint(lDir: int, lRpm: int, rDir: int, rRpm: int)

  /** The values the widgets can hold. */
  predicate InWidgetRange(p: Setpoint) {
    0 <= p.lDir <= 2 && 0 <= p.rDir <= 2 && 0 <= p.lRpm <= MaxSliderRpm && 0 <= p.rRpm <= MaxSliderRpm
  }

  /** The record `"<L_dir>,<L_rpm>,<R_dir>,<R_rpm>#\n"`: the four integers in
      decimal, separated by commas, terminated by `#` and a newline, with no
      other comma, `#` or line break in it. */
  function SetpointRecord(p: Setpoint): (s: string)
    ensures |s| >= 9 && s[|s| - 2] == '#' && s[|s| - 1] == '\n'
    ensures forall i :: 0 <= i < |s| - 2 ==> s[i] != '#' && s[i] != '\n' && s[i] != '\r'
  {
    var fields := SetpointFields(p);
    assert forall i :: 0 <= i < |fields| ==> fields[i] in fields;
    fields + "#\n"
  }

  /** The four decimal fields of the record, comma-separated; none of them
      holds a terminator or a line break. */
  function SetpointFields(p: Setpoint): (f: string)
    ensures |f| >= 7 && '#' !in f && '\n' !in f && '\r' !in f
  {
    IntToString(p.lDir) + "," + IntToString(p.lRpm) + "," + IntToString(p.rDir) + "," + IntToString(p.rRpm)
  }

  // ---------------------------------------------------------------------------
  // Telemetry
  // ---------------------------------------------------------------------------

  /** A telemetry line `"<target_L> <actual_L> <actual_R>"`, stripped and split
      on whitespace; with at least three words, words 1 and 2 are the measured
      speeds when both parse as numbers. Word 0, the board's own target, is
      not used. `parseFloat` stands for Python's `float()` on one word. */
  function ParseTelemetry(raw: string, parseFloat: string -> Option<real>): (r: Option<(real, real)>)
    ensures var parts := Split(Strip(raw));
      r.Some? <==> |parts| >= 3 && parseFloat(parts[1]).Some? && parseFloat(parts[2]).Some?
    ensures var parts := Split(Strip(raw));
      r.Some? ==> Some(r.value.0) == parseFloat(parts[1]) && Some(r.value.1) == parseFloat(parts[2])
  {
    var line := Strip(raw);
    if line == [] then None
    else
      var parts := Split(line);
      if |parts| < 3 then None
      else
        match (parseFloat(parts[1]), parseFloat(parts[2]))
        case (Some(actualL), Some(actualR)) => Some((actualL, actualR))
        case _ => None
  }

  /** Joining words with single spaces leaves nothing for `strip()` to remove. */
  lemma {:induction false} StripJoined(ws: seq<string>)
    requires ws != [] && forall k :: 0 <= k < |ws| ==> IsToken(ws[k])
    ensures Strip(JoinSpaced(ws)) == JoinSpaced(ws)
    ensures |JoinSpaced(ws)| > 0 && !IsPySpace(JoinSpaced(ws)[0])
            && !IsPySpace(JoinSpaced(ws)[|JoinSpaced(ws)| - 1])
    decreases |ws|
  {
    var s := JoinSpaced(ws);
    if |ws| > 1 {
      StripJoined(ws[1..]);
      var rest := JoinSpaced(ws[1..]);
      assert s == ws[0] + " " + rest;
      assert s[|s| - 1] == rest[|rest| - 1];
    }
    assert s[0] == ws[0][0];
    assert SkipSpaces(s, 0) == 0;
    assert TrimEnd(s, 0, |s|) == |s|;
    assert s[0..|s|] == s;
  }

  /** On a line made of words joined by spaces, with any whitespace before
      and after (a line break included), telemetry reads words 1 and 2
      whatever word 0 is, and a line of fewer than three words yields
      nothing. */
  lemma {:induction false} TelemetryOfWords(pre: string, ws: seq<string>, post: string,
                                            parseFloat: string -> Option<real>)
    requires AllSpace(pre) && AllSpace(post)
    requires forall k :: 0 <= k < |ws| ==> IsToken(ws[k])
    ensures |ws| < 3 ==> ParseTelemetry(pre + JoinSpaced(ws) + post, parseFloat).None?
    ensures |ws| >= 3 ==>
      ParseTelemetry(pre + JoinSpaced(ws) + post, parseFloat)
      == if parseFloat(ws[1]).Some? && parseFloat(ws[2]).Some?
         then Some((parseFloat(ws[1]).value, parseFloat(ws[2]).value)) else None
  {
    var line := pre + JoinSpaced(ws) + post;
    if ws != [] {
      StripJoined(ws);
      StripPadded(pre, JoinSpaced(ws), post);
      SplitJoin(ws);
    } else {
      assert line == pre + post;
      assert forall k :: 0 <= k < |line| ==> IsPySpace(line[k]) by {
        forall k | 0 <= k < |line|
          ensures IsPySpace(line[k])
        {
          if k < |pre| {
            assert line[k] == pre[k];
          } else {
            assert line[k] == post[k - |pre|];
          }
        }
      }
      BlankTelemetry(line, parseFloat);
    }
  }

  /** The firmware's `Serial.println` ends each line in `\r\n`, which
      `readline` keeps; the line still reads as its words. */
  lemma PrintedTelemetry(ws: seq<string>, parseFloat: string -> Option<real>)
    requires |ws| >= 3 && forall k :: 0 <= k < |ws| ==> IsToken(ws[k])
    ensures ParseTelemetry(JoinSpaced(ws) + "\r\n", parseFloat)
      == if parseFloat(ws[1]).Some? && parseFloat(ws[2]).Some?
         then Some((parseFloat(ws[1]).value, parseFloat(ws[2]).value)) else None
  {
    var line := JoinSpaced(ws);
    assert [] + line + "\r\n" == line + "\r\n";
    assert AllSpace("\r\n") by {
      assert IsPySpace('\r') && IsPySpace('\n');
    }
    TelemetryOfWords([], ws, "\r\n", parseFloat);
  }

  /** A line that is all whitespace yields nothing. */
  lemma BlankTelemetry(raw: string, parseFloat: string -> Option<real>)
    requires forall k :: 0 <= k < |raw| ==> IsPySpace(raw[k])
    ensures ParseTelemetry(raw, parseFloat).None?
  {
  }

  // ---------------------------------------------------------------------------
  // Bounded histories
  // ---------------------------------------------------------------------------

  /** The last `MaxPoints` values of `s` (all of it when shorter). */
  function Window(s: seq<real>): (r: seq<real>)
    ensures |r| == if |s| < MaxPoints then |s| else MaxPoints
    ensures forall k :: 0 <= k < |r| ==> r[k] == s[|s| - |r| + k]
  {
    if |s| <= MaxPoints then s else s[|s| - MaxPoints..]
  }

  /** `deque.append` with `maxlen=200`. */
  function Keep(h: seq<real>, x: real): (r: seq<real>)
    ensures 0 < |r| <= MaxPoints
  {
    Window(h + [x])
  }

  /** The appended value is the newest one kept, and below the bound nothing
      is dropped. */
  lemma KeepAppends(h: seq<real>, x: real)
    ensures |Keep(h, x)| == if |h| < MaxPoints then |h| + 1 else MaxPoints
    ensures Keep(h, x)[|Keep(h, x)| - 1] == x
    ensures |h| < MaxPoints ==> Keep(h, x) == h + [x]
  {
  }

  /** Appending values one at a time, in order. */
  function KeepAll(h: seq<real>, xs: seq<real>): (r: seq<real>)
    decreases |xs|
  {
    if xs == [] then h else KeepAll(Keep(h, xs[0]), xs[1..])
  }

  /** Appending one at a time to a bounded history keeps exactly the most
      recent `MaxPoints` values of everything appended so far. */
  lemma {:induction false} KeepAllIsWindow(h: seq<real>, xs: seq<real>)
    requires |h| <= MaxPoints
    ensures KeepAll(h, xs) == Window(h + xs)
    decreases |xs|
  {
    if xs == [] {
      assert h + xs == h;
    } else {
      var x := xs[0];
      var rest := xs[1..];
      var h1 := Keep(h, x);
      assert h + [x] + rest == h + xs by { assert xs == [x] + rest; }
      assert KeepAll(h, xs) == KeepAll(h1, rest);
      KeepAllIsWindow(h1, rest);
      WindowOfAppend(h + [x], rest);
    }
  }

  lemma WindowOfAppend(s: seq<real>, b: seq<real>)
    ensures Window(Window(s) + b) == Window(s + b)
  {
    if |s| > MaxPoints {
      var k := |s| - MaxPoints;
      assert Window(s) + b == (s + b)[k..];
      WindowOfSuffix(s + b, k);
    }
  }

  /** Dropping a prefix that leaves at least `MaxPoints` values changes no window. */
  lemma WindowOfSuffix(t: seq<real>, k: nat)
    requires k + MaxPoints <= |t|
    ensures Window(t[k..]) == Window(t)
  {
    assert t[k..][|t| - k - MaxPoints..] == t[|t| - MaxPoints..];
  }

  // ---------------------------------------------------------------------------
  // The console object
  // ---------------------------------------------------------------------------

  class MotorControlApp {
    var isConnected: bool
    /** `ser` exists and is open. */
    var portOpen: bool
    var isReading: bool
    var isSending: bool
    /** The window has been destroyed by `exit_app`. */
    var closed: bool
    var setpoint: Setpoint
    var startTime: real
    var timeData: seq<real>
    var targetLData: seq<real>
    var actualLData: seq<real>
    var targetRData: seq<real>
    var actualRData: seq<real>
    /** Everything written to the serial port, in order. */
    var outbox: seq<string>

    /** The reader and the sender only run on a connection, the link is up
        exactly while the port is open until the window closes, the widgets
        stay in range, and the five histories stay aligned and bounded. */
    ghost predicate Valid()
      reads this
    {
      (isSending ==> isConnected) && (isReading ==> isConnected)
      && (!closed ==> (isConnected <==> portOpen))
      && InWidgetRange(setpoint)
      && |timeData| <= MaxPoints
      && |targetLData| == |timeData| && |actualLData| == |timeData|
      && |targetRData| == |timeData| && |actualRData| == |timeData|
    }

    constructor (startTime: real)
      ensures Valid()
      ensures !isConnected && !portOpen && !isReading && !isSending && !closed
      ensures setpoint == Setpoint(0, 0, 0, 0) && this.startTime == startTime
      ensures timeData == [] && outbox == []
    {
      isConnected, portOpen, isReading, isSending, closed := false, false, false, false, false;
      setpoint := Setpoint(0, 0, 0, 0);
      this.startTime := startTime;
      timeData, targetLData, actualLData, targetRData, actualRData := [], [], [], [], [];
      outbox := [];
    }

    /** The operator moves a slider or picks a direction. */
    method SetControls(p: Setpoint)
      requires Valid() && InWidgetRange(p)
      modifies this`setpoint
      ensures Valid() && setpoint == p
    {
      setpoint := p;
    }

    /** `connect`: nothing without a chosen port or when opening fails;
        otherwise the link is up and the reader runs. */
    method Connect(portChosen: bool, succeeded: bool)
      requires Valid()
      modifies this`isConnected, this`portOpen, this`isReading
      ensures Valid()
      ensures portChosen && succeeded ==> isConnected && portOpen && isReading
      ensures !(portChosen && succeeded) ==>
        isConnected == old(isConnected) && portOpen == old(portOpen) && isReading == old(isReading)
    {
      if !portChosen || !succeeded {
        return;
      }
      portOpen := true;
      isConnected := true;
      isReading := true;
    }

    /** `disconnect`: stops reading and sending, closes the port. */
    method Disconnect()
      requires Valid()
      modifies this`isConnected, this`portOpen, this`isReading, this`isSending
      ensures Valid()
      ensures !isConnected && !portOpen && !isReading && !isSending
    {
      isReading := false;
      isSending := false;
      portOpen := false;
      isConnected := false;
    }

    /** `toggle_connection`. */
    method ToggleConnection(portChosen: bool, succeeded: bool)
      requires Valid()
      modifies this`isConnected, this`portOpen, this`isReading, this`isSending
      ensures Valid()
      ensures old(isConnected) ==> !isConnected && !isReading && !isSending && !portOpen
      ensures !old(isConnected) ==> isSending == old(isSending)
                                    && (isConnected <==> portChosen && succeeded)
                                    && isReading == isConnected && (isConnected ==> portOpen)
    {
      if !isConnected {
        Connect(portChosen, succeeded);
      } else {
        Disconnect();
      }
    }

    /** `start_sending`: only on a connection. */
    method StartSending()
      requires Valid()
      modifies this`isSending
      ensures Valid()
      ensures isSending == (old(isSending) || isConnected)
    {
      if !isConnected {
        return;
      }
      isSending := true;
    }

    /** `stop_sending`. */
    method StopSending()
      requires Valid()
      modifies this`isSending
      ensures Valid() && !isSending
    {
      isSending := false;
    }

    /** One pass of the 20 Hz `continuous_send` loop: while sending, the
        current setpoint record is written when the port is open. Answers
        whether the loop goes on. */
    method SendTick() returns (running: bool)
      requires Valid()
      modifies this`outbox
      ensures Valid()
      ensures running == isSending
      ensures outbox == old(outbox) + if isSending && portOpen then [SetpointRecord(setpoint)] else []
    {
      running := isSending;
      if isSending && portOpen {
        outbox := outbox + [SetpointRecord(setpoint)];
      }
    }

    /** `send_control`: one record, only on a connection; a write to a port
        closed by `exit_app` fails and writes nothing. */
    method SendControl()
      requires Valid()
      modifies this`outbox
      ensures Valid()
      ensures outbox == old(outbox) + if isConnected && portOpen then [SetpointRecord(setpoint)] else []
    {
      if !isConnected {
        return;
      }
      if portOpen {
        outbox := outbox + [SetpointRecord(setpoint)];
      }
    }

    /** One line read by `read_serial` at clock `now`. While the reader runs,
        an accepted telemetry line appends to all five histories at once: the
        time since start, the two slider targets, and the two measured speeds;
        anything else appends to none. */
    method HandleTelemetryLine(raw: string, now: real, parseFloat: string -> Option<real>)
      requires Valid()
      modifies this`timeData, this`targetLData, this`actualLData, this`targetRData, this`actualRData
      ensures Valid()
      ensures var r := ParseTelemetry(raw, parseFloat);
        if isReading && r.Some? then
          timeData == Keep(old(timeData), now - startTime)
          && targetLData == Keep(old(targetLData), setpoint.lRpm as real)
          && actualLData == Keep(old(actualLData), r.value.0)
          && targetRData == Keep(old(targetRData), setpoint.rRpm as real)
          && actualRData == Keep(old(actualRData), r.value.1)
        else
          timeData == old(timeData) && targetLData == old(targetLData) && actualLData == old(actualLData)
          && targetRData == old(targetRData) && actualRData == old(actualRData)
    {
      var r := ParseTelemetry(raw, parseFloat);
      RecordTelemetry(r, now);
    }

    /** What one parsed telemetry line `r` does to the histories at clock `now`. */
    method RecordTelemetry(r: Option<(real, real)>, now: real)
      requires Valid()
      modifies this`timeData, this`targetLData, this`actualLData, this`targetRData, this`actualRData
      ensures Valid()
      ensures if isReading && r.Some? then
          timeData == Keep(old(timeData), now - startTime)
          && targetLData == Keep(old(targetLData), setpoint.lRpm as real)
          && actualLData == Keep(old(actualLData), r.value.0)
          && targetRData == Keep(old(targetRData), setpoint.rRpm as real)
          && actualRData == Keep(old(actualRData), r.value.1)
        else
          timeData == old(timeData) && targetLData == old(targetLData) && actualLData == old(actualLData)
          && targetRData == old(targetRData) && actualRData == old(actualRData)
    {
      if !isReading {
        return;
      }
      if r.Some? {
        AppendSample(now - startTime, setpoint.lRpm as real, r.value.0, setpoint.rRpm as real, r.value.1);
      }
    }

    /** The five appends of one accepted telemetry line. */
    method AppendSample(t: real, targetL: real, actualL: real, targetR: real, actualR: real)
      requires Valid()
      modifies this`timeData, this`targetLData, this`actualLData, this`targetRData, this`actualRData
      ensures Valid()
      ensures timeData == Keep(old(timeData), t)
      ensures targetLData == Keep(old(targetLData), targetL) && actualLData == Keep(old(actualLData), actualL)
      ensures targetRData == Keep(old(targetRData), targetR) && actualRData == Keep(old(actualRData), actualR)
    {
      timeData := Keep(timeData, t);
      targetLData := Keep(targetLData, targetL);
      actualLData := Keep(actualLData, actualL);
      targetRData := Keep(targetRData, targetR);
      actualRData := Keep(actualRData, actualR);
    }

    /** `exit_app`: stops both loops and closes the port; the window goes away. */
    method ExitApp()
      requires Valid()
      modifies this`isSending, this`isReading, this`portOpen, this`closed
      ensures Valid()
      ensures !isSending && !isReading && !portOpen && closed
    {
      isSending := false;
      isReading := false;
      portOpen := false;
      closed := true;
    }
  }
}
