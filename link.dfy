/** The set-point link end to end: the record the PC console streams, fed to
    the motor controller's receiver, delivers the operator's settings. */
module SetpointLink {
  import opened Text
  import opened UartControl
  import opened ReadRx

  lemma ShortNumeral(n: int)
    requires 0 <= n < 1000
    ensures |IntToString(n)| <= 3
  {
    if n >= 10 {
      assert NatToString(n) == NatToString(n / 10) + [DigitChar(n % 10)];
      if n >= 100 {
        assert NatToString(n / 10) == NatToString(n / 100) + [DigitChar((n / 10) % 10)];
      }
    }
  }

  /** The fields of an in-range record are short and hold no terminator or line break. */
  lemma SetpointFieldsPlain(p: Setpoint)
    requires InWidgetRange(p)
    ensures |SetpointFields(p)| <= MaxBuffer
    ensures forall i :: 0 <= i < |SetpointFields(p)| ==>
      SetpointFields(p)[i] != '#' && SetpointFields(p)[i] != '\n' && SetpointFields(p)[i] != '\r'
  {
    var body := SetpointFields(p);
    ShortNumeral(p.lDir);
    ShortNumeral(p.lRpm);
    ShortNumeral(p.rDir);
    ShortNumeral(p.rRpm);
    assert forall i :: 0 <= i < |body| ==> body[i] in body;
  }

  /** The receive loop collects the fields and stops at the record's `#`. */
  lemma RecordScan(p: Setpoint, more: string)
    requires InWidgetRange(p)
    ensures Scan([], SetpointRecord(p) + more) == ScanResult(SetpointFields(p), "\n" + more, true)
  {
    var body := SetpointFields(p);
    var tail := "#\n" + more;
    SetpointFieldsPlain(p);
    assert SetpointRecord(p) == body + "#\n";
    assert SetpointRecord(p) + more == body + tail;
    ScanAppends([], body, tail);
    assert [] + body == body;
    assert tail[0] == '#' && tail[1..] == "\n" + more;
    assert Scan(body, tail) == ScanResult(body, "\n" + more, true);
  }

  /** The frame parser reads the four settings back from the fields. */
  lemma FieldsParse(p: Setpoint)
    requires InWidgetRange(p)
    ensures ParseFrame(SetpointFields(p)) == Some(Frame(p.lDir, p.lRpm, p.rDir, p.rRpm))
  {
    FrameOfFields(IntToString(p.lDir), IntToString(p.lRpm), IntToString(p.rDir), IntToString(p.rRpm));
    FieldOfNumeral(p.lDir, MaxDir);
    FieldOfNumeral(p.lRpm, MaxRpm);
    FieldOfNumeral(p.rDir, MaxDir);
    FieldOfNumeral(p.rRpm, MaxRpm);
  }

  /** A record from the widgets' range, arriving at an empty buffer, completes
      one frame holding exactly the four settings; only its trailing newline is
      left queued, and the next call skips it. */
  lemma SetpointRoundTrip(p: Setpoint, more: string)
    requires InWidgetRange(p)
    ensures var sc := Scan([], SetpointRecord(p) + more);
      sc.complete && sc.rest == "\n" + more
      && ParseFrame(sc.buffer) == Some(Frame(p.lDir, p.lRpm, p.rDir, p.rRpm))
    ensures forall buf :: Scan(buf, "\n" + more) == Scan(buf, more)
  {
    RecordScan(p, more);
    FieldsParse(p);
    forall buf {
      ScanSkipsLineBreak(buf, '\n', more);
    }
  }
}
