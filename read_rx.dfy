/** The motor controller's set-point receiver: characters from the serial
    receive queue are collected into a bounded line buffer up to a `#`
    terminator, a completed frame `dir_L,rpm_L,dir_R,rpm_R` is split at its
    first three commas, each field is read with `String::toInt` and clamped,
    and a 32-bit millisecond clock stamps the last valid frame for the
    link-loss timeout. */
module ReadRx {
  import opened Text

  /** Longest buffer kept; one more character clears it. */
  const MaxBuffer := 25
  const TimeoutMs := 1000
  /** `unsigned long` arithmetic wraps modulo this. */
  const Word32 := 0x1_0000_0000
  const MaxDir := 2
  const MaxRpm := 500

  // ---------------------------------------------------------------------------
  // Field conversion
  // ---------------------------------------------------------------------------

  /** C `isspace` in the default locale. */
  predicate IsCSpace(c: char) { c == ' ' || '\t' <= c <= '\r' }

  function SkipCSpace(s: string, i: nat): (r: nat)
    requires i <= |s|
    ensures i <= r <= |s| && (r == |s| || !IsCSpace(s[r]))
    decreases |s| - i
  {
    if i == |s| || !IsCSpace(s[i]) then i else SkipCSpace(s, i + 1)
  }

  /** The run of decimal digits starting at `i`, read most significant first
      onto `acc`. */
  function ReadDigits(s: string, i: nat, acc: nat): (v: nat)
    decreases |s| - i
  {
    if i < |s| && IsDigit(s[i]) then ReadDigits(s, i + 1, acc * 10 + DigitValue(s[i])) else acc
  }

  /** `String::toInt`, that is `atol`: leading white space, an optional sign,
      then the longest run of digits; 0 when there are none. */
  function ToInt(s: string): (v: int)
    ensures var i := SkipCSpace(s, 0);
      v != 0 ==> i < |s| && (s[i] == '-' || s[i] == '+' || IsDigit(s[i]))
    ensures var i := SkipCSpace(s, 0); v < 0 ==> s[i] == '-'
  {
    var i := SkipCSpace(s, 0);
    if i < |s| && s[i] == '-' then -(ReadDigits(s, i + 1, 0) as int)
    else if i < |s| && s[i] == '+' then ReadDigits(s, i + 1, 0)
    else ReadDigits(s, i, 0)
  }

  /** On a numeral, reading from `i` with the value of the digits before `i`
      gives the value of the whole numeral. */
  lemma {:induction false} ReadDigitsOfNumeral(s: string, i: nat)
    requires i <= |s| && AllDigits(s)
    ensures ReadDigits(s, i, DigitsValue(s[..i])) == DigitsValue(s)
    decreases |s| - i
  {
    if i == |s| {
      assert s[..i] == s;
    } else {
      assert s[..i + 1][..i] == s[..i];
      assert DigitsValue(s[..i + 1]) == DigitsValue(s[..i]) * 10 + DigitValue(s[i]);
      ReadDigitsOfNumeral(s, i + 1);
    }
  }

  /** `toInt` reads a decimal numeral back to its value, signed or not. */
  lemma {:induction false} ToIntOfNumeral(n: int)
    ensures ToInt(IntToString(n)) == n
  {
    var s := IntToString(n);
    var m := if n < 0 then -n else n;
    var digits := NatToString(m);
    assert !IsCSpace(s[0]);
    assert SkipCSpace(s, 0) == 0;
    ReadDigitsOfNumeral(digits, 0);
    assert digits[..0] == [];
    DigitsRoundTrip(m);
    if n < 0 {
      assert s == "-" + digits;
      ReadDigitsShift("-", digits, 0, 0);
    } else {
      assert s == digits;
      assert s[0] != '-' && s[0] != '+';
    }
  }

  /** Reading digits is unaffected by what comes before them. */
  lemma {:induction false} ReadDigitsShift(p: string, q: string, i: nat, acc: nat)
    requires i <= |q|
    ensures ReadDigits(p + q, |p| + i, acc) == ReadDigits(q, i, acc)
    decreases |q| - i
  {
    if i < |q| {
      assert (p + q)[|p| + i] == q[i];
    }
    if i < |q| && IsDigit(q[i]) {
      ReadDigitsShift(p, q, i + 1, acc * 10 + DigitValue(q[i]));
    }
  }

  /** The set-point globals are `int`, which is 16 bits wide on the AVR
      target: storing the `long` from `toInt` keeps its low 16 bits, read as a
      two's-complement value. */
  function Int16(v: int): (r: int)
    ensures -0x8000 <= r < 0x8000
    ensures (v - r) % 0x1_0000 == 0
    ensures -0x8000 <= v < 0x8000 ==> r == v
  {
    (v + 0x8000) % 0x1_0000 - 0x8000
  }

  /** Arduino `constrain(v, lo, hi)`. */
  function Constrain(v: int, lo: int, hi: int): (r: int)
    requires lo <= hi
    ensures lo <= r <= hi
    ensures lo <= v <= hi ==> r == v
    ensures v < lo ==> r == lo
    ensures v > hi ==> r == hi
  {
    if v < lo then lo else if v > hi then hi else v
  }

  // ---------------------------------------------------------------------------
  // Frames
  // ---------------------------------------------------------------------------

  /** The four set-point outputs `L_dir`, `L_rpm`, `R_dir`, `R_rpm`. */
  datatype Frame = Frame(lDir: int, lRpm: int, rDir: int, rRpm: int)

  predicate InRange(f: Frame) {
    0 <= f.lDir <= MaxDir && 0 <= f.rDir <= MaxDir && 0 <= f.lRpm <= MaxRpm && 0 <= f.rRpm <= MaxRpm
  }

  /** The three comma positions the parser looks for, each searched from just
      after the previous one (a missing comma is -1, so the next search starts
      at 0). */
  function Commas(s: string): (c: (int, int, int))
    ensures -1 <= c.0 < |s| && -1 <= c.1 < |s| && -1 <= c.2 < |s|
    ensures c.0 >= 0 ==> s[c.0] == ','
    ensures c.1 >= 0 ==> c.0 < c.1 && s[c.1] == ','
    ensures c.2 >= 0 ==> c.1 < c.2 && s[c.2] == ','
  {
    var first := IndexOfFrom(s, ',', 0);
    var second := IndexOfFrom(s, ',', first + 1);
    var third := IndexOfFrom(s, ',', second + 1);
    (first, second, third)
  }

  /** The positions found are the first three commas: none is skipped, and a
      position is -1 exactly when no further comma exists. */
  lemma CommasFirst(s: string)
    ensures var c := Commas(s);
      (c.0 == -1 <==> ',' !in s)
      && (forall i :: 0 <= i < c.0 ==> s[i] != ',')
      && (c.0 >= 0 ==> (c.1 == -1 <==> forall i :: c.0 < i < |s| ==> s[i] != ','))
      && (forall i :: c.0 < i < c.1 ==> s[i] != ',')
      && (c.1 >= 0 ==> (c.2 == -1 <==> forall i :: c.1 < i < |s| ==> s[i] != ','))
      && (forall i :: c.1 < i < c.2 ==> s[i] != ',')
  {
  }

  /** One field as the firmware stores it: read with `toInt`, narrowed to the
      16-bit `int` global, then clamped to [0, hi]. */
  function Field(w: string, hi: int): (v: int)
    requires 0 <= hi
    ensures 0 <= v <= hi
  {
    Constrain(Int16(ToInt(w)), 0, hi)
  }

  /** The four fields around commas at `i < j < k` (the last runs to the end),
      directions clamped to [0, 2] and speeds to [0, 500]. */
  function FieldsFrame(s: string, i: nat, j: nat, k: nat): (f: Frame)
    requires i < j < k < |s|
    ensures InRange(f)
  {
    Frame(Field(s[..i], MaxDir), Field(s[i + 1..j], MaxRpm), Field(s[j + 1..k], MaxDir), Field(s[k + 1..], MaxRpm))
  }

  /** The frame part of `read_RX`: the fields between the first three commas;
      nothing unless all three commas are there and the first field is not
      empty. */
  function ParseFrame(s: string): (r: Option<Frame>)
    ensures r.Some? ==> InRange(r.value)
  {
    var (first, second, third) := Commas(s);
    if first > 0 && second > first && third > second then Some(FieldsFrame(s, first, second, third))
    else None
  }

  /** A frame is accepted exactly when it does not start with a comma and holds
      at least three commas. */
  lemma ParseFrameAccepts(s: string)
    ensures ParseFrame(s).Some? <==>
      (|s| > 0 && s[0] != ',' &&
       exists i, j, k :: 0 < i < j < k < |s| && s[i] == ',' && s[j] == ',' && s[k] == ',')
  {
    var (first, second, third) := Commas(s);
    AcceptedByCommas(s, first, second, third);
    if |s| > 0 && s[0] != ',' && exists i, j, k :: 0 < i < j < k < |s| && s[i] == ',' && s[j] == ',' && s[k] == ',' {
      var i, j, k :| 0 < i < j < k < |s| && s[i] == ',' && s[j] == ',' && s[k] == ',';
      CommasFound(s, i, j, k);
    }
    if first > 0 && second > first && third > second {
      assert s[first] == ',' && s[second] == ',' && s[third] == ',';
      assert s[0] != ',';
    }
  }

  /** Three commas at `i < j < k` mean the search finds commas no later than them. */
  lemma CommasFound(s: string, i: int, j: int, k: int)
    requires 0 < i < j < k < |s| && s[i] == ',' && s[j] == ',' && s[k] == ','
    requires s[0] != ','
    ensures var c := Commas(s); 0 < c.0 <= i && c.0 < c.1 <= j && c.1 < c.2 <= k
  {
  }

  lemma AcceptedByCommas(s: string, first: int, second: int, third: int)
    requires Commas(s) == (first, second, third)
    ensures ParseFrame(s).Some? <==> first > 0 && second > first && third > second
  {
  }

  /** A frame of four comma-free fields, the first not empty, is read field by field. */
  lemma {:induction false} FrameOfFields(a: string, b: string, c: string, d: string)
    requires a != [] && ',' !in a && ',' !in b && ',' !in c && ',' !in d
    ensures ParseFrame(a + "," + b + "," + c + "," + d)
            == Some(Frame(Field(a, MaxDir), Field(b, MaxRpm), Field(c, MaxDir), Field(d, MaxRpm)))
  {
    var ab := a + "," + b;
    var abc := ab + "," + c;
    var s := abc + "," + d;
    var i, j, k := |a|, |ab|, |abc|;
    assert s[..i] == a && s[i + 1..j] == b && s[j + 1..k] == c && s[k + 1..] == d;
    forall t | 0 <= t < k && t != i && t != j
      ensures s[t] != ','
    {
      if t < i {
        assert s[t] == a[t] && a[t] in a;
      } else if t < j {
        assert s[t] == b[t - i - 1] && b[t - i - 1] in b;
      } else {
        assert s[t] == c[t - j - 1] && c[t - j - 1] in c;
      }
    }
    FrameAt(s, i, j, k);
    FieldsOfSlices(s, i, j, k, a, b, c, d);
  }

  lemma FieldsOfSlices(s: string, i: nat, j: nat, k: nat, a: string, b: string, c: string, d: string)
    requires i < j < k < |s|
    requires s[..i] == a && s[i + 1..j] == b && s[j + 1..k] == c && s[k + 1..] == d
    ensures FieldsFrame(s, i, j, k) == Frame(Field(a, MaxDir), Field(b, MaxRpm), Field(c, MaxDir), Field(d, MaxRpm))
  {
  }

  /** A field read back in range is the numeral's value; a speed of 40000
      wraps to -25536 in the 16-bit global and is then clamped to 0. */
  lemma FieldOfNumeral(n: int, hi: int)
    requires 0 <= hi
    ensures -0x8000 <= n < 0x8000 ==> Field(IntToString(n), hi) == Constrain(n, 0, hi)
    ensures n == 40000 ==> Field(IntToString(n), hi) == 0
  {
    ToIntOfNumeral(n);
  }

  /** With its first three commas at `i < j < k` and something before `i`, a
      frame is read from the four slices between them. */
  lemma FrameAt(s: string, i: nat, j: nat, k: nat)
    requires 0 < i < j < k < |s| && s[i] == ',' && s[j] == ',' && s[k] == ','
    requires forall t :: 0 <= t < k && t != i && t != j ==> s[t] != ','
    ensures ParseFrame(s) == Some(FieldsFrame(s, i, j, k))
  {
    FirstComma(s, 0, i);
    FirstComma(s, i + 1, j);
    FirstComma(s, j + 1, k);
    assert Commas(s) == (i, j, k);
  }

  /** A comma at `k` with none from `from` up to it is the one `indexOf` finds. */
  lemma FirstComma(s: string, from: nat, k: nat)
    requires from <= k < |s| && s[k] == ','
    requires forall t :: from <= t < k ==> s[t] != ','
    ensures IndexOfFrom(s, ',', from) == k
  {
  }

  // ---------------------------------------------------------------------------
  // Buffer accumulation
  // ---------------------------------------------------------------------------

  /** What the receive loop leaves behind: the buffer, the unread input, and
      whether a `#` ended the loop. */
  datatype ScanResult = ScanResult(buffer: string, rest: string, complete: bool)

  /** A buffer as the loop keeps it: at most 25 characters, with no line break
      and no terminator. */
  predicate CleanBuffer(buf: string) {
    |buf| <= MaxBuffer && forall i :: 0 <= i < |buf| ==> buf[i] != '\n' && buf[i] != '\r' && buf[i] != '#'
  }

  /** The receive loop over the queued input: stop right after the first `#`,
      skip line breaks, append anything else and clear the buffer when it
      grows past 25 characters. */
  function Scan(buf: string, input: string): (r: ScanResult)
    ensures CleanBuffer(buf) ==> CleanBuffer(r.buffer)
    ensures |r.rest| <= |input|
    ensures !r.complete ==> r.rest == []
    decreases |input|
  {
    if input == [] then ScanResult(buf, [], false)
    else
      var c := input[0];
      if c == '#' then ScanResult(buf, input[1..], true)
      else if c == '\n' || c == '\r' then Scan(buf, input[1..])
      else
        var grown := buf + [c];
        Scan(if |grown| > MaxBuffer then [] else grown, input[1..])
  }

  /** `#` completes the frame and nothing after it is consumed. */
  lemma {:induction false} ScanStopsAtTerminator(buf: string, input: string, k: nat)
    requires k < |input| && input[k] == '#' && forall i :: 0 <= i < k ==> input[i] != '#'
    ensures Scan(buf, input).complete && Scan(buf, input).rest == input[k + 1..]
    decreases k
  {
    if k > 0 {
      var c := input[0];
      var next := if c == '\n' || c == '\r' then buf
                  else if |buf + [c]| > MaxBuffer then [] else buf + [c];
      assert Scan(buf, input) == Scan(next, input[1..]);
      assert input[1..][k - 1] == '#';
      ScanStopsAtTerminator(next, input[1..], k - 1);
      assert input[1..][k - 1 + 1..] == input[k + 1..];
    }
  }

  /** Input without a terminator is consumed entirely and leaves only a
      partial buffer, and input split across calls builds the same buffer as
      input read in one go. */
  lemma {:induction false} ScanChunks(buf: string, a: string, b: string)
    requires forall i :: 0 <= i < |a| ==> a[i] != '#'
    ensures !Scan(buf, a).complete && Scan(buf, a).rest == []
    ensures Scan(buf, a + b) == Scan(Scan(buf, a).buffer, b)
    decreases |a|
  {
    if a == [] {
      assert a + b == b;
    } else {
      var c := a[0];
      var next := if c == '\n' || c == '\r' then buf
                  else if |buf + [c]| > MaxBuffer then [] else buf + [c];
      assert (a + b)[0] == c && (a + b)[1..] == a[1..] + b;
      ScanChunks(next, a[1..], b);
    }
  }

  /** Line breaks are skipped wherever they come. */
  lemma ScanSkipsLineBreak(buf: string, c: char, input: string)
    requires c == '\n' || c == '\r'
    ensures Scan(buf, [c] + input) == Scan(buf, input)
  {
    assert ([c] + input)[1..] == input;
  }

  /** Ordinary characters that fit are simply appended. */
  lemma {:induction false} ScanAppends(buf: string, a: string, rest: string)
    requires |buf| + |a| <= MaxBuffer
    requires forall i :: 0 <= i < |a| ==> a[i] != '#' && a[i] != '\n' && a[i] != '\r'
    ensures Scan(buf, a + rest) == Scan(buf + a, rest)
    decreases |a|
  {
    if a == [] {
      assert a + rest == rest && buf + a == buf;
    } else {
      assert (a + rest)[0] == a[0] && (a + rest)[1..] == a[1..] + rest;
      ScanAppends(buf + [a[0]], a[1..], rest);
      assert buf + [a[0]] + a[1..] == buf + a;
    }
  }

  // ---------------------------------------------------------------------------
  // Timeout
  // ---------------------------------------------------------------------------

  /** `is_data_timeout`: `(millis() - lastDataTime) > 1000` in 32-bit unsigned arithmetic. */
  function IsDataTimeout(now: int, last: int): (timedOut: bool)
    requires 0 <= now < Word32 && 0 <= last < Word32
    ensures now >= last ==> (timedOut <==> now - last > TimeoutMs)
    ensures now < last ==> (timedOut <==> now + Word32 - last > TimeoutMs)
  {
    (now - last) % Word32 > TimeoutMs
  }

  /** The wrapping subtraction measures true elapsed time even across a wrap of
      the millisecond counter, as long as less than 2^32 ms have passed. */
  lemma TimeoutMeasuresElapsed(tLast: nat, tNow: nat)
    requires tLast <= tNow < tLast + Word32
    ensures IsDataTimeout(tNow % Word32, tLast % Word32) <==> tNow - tLast > TimeoutMs
  {
    var d := tNow - tLast;
    var q1 := tNow / Word32;
    var q0 := tLast / Word32;
    assert tNow % Word32 - tLast % Word32 == d - (q1 - q0) * Word32;
    assert ((tNow % Word32) - (tLast % Word32)) % Word32 == d % Word32 by {
      ModShift(d, q1 - q0);
    }
  }

  /** Any two 32-bit readings are those of true times less than 2^32 ms
      apart, the later one read second. */
  lemma TrueTimes(last: int, now: int)
    requires 0 <= now < Word32 && 0 <= last < Word32
    ensures var tNow := if now >= last then now else now + Word32;
      last <= tNow < last + Word32 && tNow % Word32 == now && last % Word32 == last
  {
  }

  lemma ModShift(d: int, q: int)
    ensures (d - q * Word32) % Word32 == d % Word32
  {
  }

  // ---------------------------------------------------------------------------
  // The receiver's globals
  // ---------------------------------------------------------------------------

  class RxReceiver {
    var lDir: int
    var lRpm: int
    var rDir: int
    var rRpm: int
    var inputString: string
    var stringComplete: bool
    /** `millis()` at the last valid frame. */
    var lastDataTime: int
    /** The characters waiting in the serial receive buffer. */
    var rxQueue: string

    function Outputs(): Frame
      reads this
    {
      Frame(lDir, lRpm, rDir, rRpm)
    }

    /** Between calls: a clean partial buffer, no completed frame pending,
        outputs in range and a 32-bit time stamp. */
    ghost predicate Valid()
      reads this
    {
      CleanBuffer(inputString) && !stringComplete && InRange(Outputs()) && 0 <= lastDataTime < Word32
    }

    /** The globals' initial values and `setup_RX`'s time stamp. */
    constructor (now: int)
      requires 0 <= now < Word32
      ensures Valid()
      ensures Outputs() == Frame(0, 0, 0, 0) && inputString == [] && lastDataTime == now && rxQueue == []
    {
      lDir, lRpm, rDir, rRpm := 0, 0, 0, 0;
      inputString := [];
      stringComplete := false;
      lastDataTime := now;
      rxQueue := [];
    }

    /** Characters arrive on the serial line. */
    method Receive(chars: string)
      modifies this`rxQueue
      ensures rxQueue == old(rxQueue) + chars
    {
      rxQueue := rxQueue + chars;
    }

    /** `read_RX` at clock `now`. */
    method ReadRx(now: int)
      requires Valid() && 0 <= now < Word32
      modifies this
      ensures Valid()
      ensures var sc := Scan(old(inputString), old(rxQueue));
        rxQueue == sc.rest
        && inputString == (if sc.complete then [] else sc.buffer)
        && (if sc.complete && ParseFrame(sc.buffer).Some?
            then Outputs() == ParseFrame(sc.buffer).value && lastDataTime == now
            else Outputs() == old(Outputs()) && lastDataTime == old(lastDataTime))
    {
      ReceiveLoop();
      if stringComplete {
        CompleteFrame(now);
      }
    }

    /** The `if (stringComplete)` part of `read_RX`: the completed buffer is
        parsed and stored, then the buffer and the flag are cleared. */
    method CompleteFrame(now: int)
      requires InRange(Outputs()) && 0 <= now < Word32 && 0 <= lastDataTime < Word32
      modifies this`lDir, this`lRpm, this`rDir, this`rRpm, this`lastDataTime, this`inputString, this`stringComplete
      ensures InRange(Outputs()) && 0 <= lastDataTime < Word32
      ensures inputString == [] && !stringComplete
      ensures var frame := ParseFrame(old(inputString));
        if frame.Some? then Outputs() == frame.value && lastDataTime == now
        else Outputs() == old(Outputs()) && lastDataTime == old(lastDataTime)
    {
      StoreFrame(ParseFrame(inputString), now);
      inputString := [];
      stringComplete := false;
    }

    /** A valid frame overwrites the four outputs and stamps the time; an
        invalid one leaves all five as they were. */
    method StoreFrame(frame: Option<Frame>, now: int)
      requires frame.Some? ==> InRange(frame.value)
      requires InRange(Outputs()) && 0 <= now < Word32 && 0 <= lastDataTime < Word32
      modifies this`lDir, this`lRpm, this`rDir, this`rRpm, this`lastDataTime
      ensures InRange(Outputs()) && 0 <= lastDataTime < Word32
      ensures if frame.Some? then Outputs() == frame.value && lastDataTime == now
              else Outputs() == old(Outputs()) && lastDataTime == old(lastDataTime)
    {
      if frame.Some? {
        lDir, lRpm, rDir, rRpm := frame.value.lDir, frame.value.lRpm, frame.value.rDir, frame.value.rRpm;
        lastDataTime := now;
      }
    }

    /** The `while (Serial.available() > 0)` loop of `read_RX`. */
    method ReceiveLoop()
      requires CleanBuffer(inputString) && !stringComplete
      modifies this`inputString, this`stringComplete, this`rxQueue
      ensures var sc := Scan(old(inputString), old(rxQueue));
        stringComplete == sc.complete && inputString == sc.buffer && rxQueue == sc.rest
      ensures CleanBuffer(inputString)
    {
      ghost var sc := Scan(inputString, rxQueue);
      while |rxQueue| > 0
        invariant Scan(inputString, rxQueue) == sc && CleanBuffer(inputString) && !stringComplete
        decreases |rxQueue|
      {
        var inChar := rxQueue[0];
        rxQueue := rxQueue[1..];
        if inChar == '#' {
          stringComplete := true;
          break;
        } else if inChar == '\n' || inChar == '\r' {
          continue;
        } else {
          inputString := inputString + [inChar];
          if |inputString| > MaxBuffer {
            inputString := [];
          }
        }
      }
    }

    /** `is_data_timeout` at clock `now`. The ghost `tLast` and `tNow` are the
        true times, in ms since boot, whose 32-bit readings are `lastDataTime`
        and `now` (such times always exist, `TrueTimes`): the result is whether
        more than one second has really passed, across a counter wrap too. */
    method DataTimeout(now: int, ghost tLast: nat, ghost tNow: nat) returns (timedOut: bool)
      requires Valid() && 0 <= now < Word32
      requires tLast <= tNow < tLast + Word32 && tNow % Word32 == now && tLast % Word32 == lastDataTime
      ensures timedOut == IsDataTimeout(now, lastDataTime)
      ensures timedOut <==> tNow - tLast > TimeoutMs
    {
      timedOut := (now - lastDataTime) % Word32 > TimeoutMs;
      TimeoutMeasuresElapsed(tLast, tNow);
    }
  }
}
