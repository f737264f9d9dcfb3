/** The sample buffer of the manual-mode controller is never cleared between reads. These
    lemmas show that what older samples left in it never shows through. */
module SampleBuffer {
  import opened CArithmetic
  import opened Text
  import opened Utilities
  import opened ManualController

  /** A sample as the sketch writes it: "d,p" and a newline, at most the 16 bytes of one read. */
  datatype Line = Line(direction: char, digits: string) {
    predicate WellFormed() {
      (direction == '0' || direction == '1') && AllDigits(digits) && 1 <= |digits| <= 13
    }

    function Text(): string { [direction] + "," + digits }

    function Bytes(): string { Text() + "\n" }
  }

  /** What a well-formed line says, in an empty buffer. */
  function Meaning(line: Line): Option<Sample>
    requires line.WellFormed()
  {
    var v := if LONG_MAX < ParseNat(line.digits) then -1 else Int32(ParseNat(line.digits));
    if 0 <= v <= 1023 then Some(Sample(if line.direction == '0' then Clockwise else CounterClockwise, v * POT_SCALE))
    else None
  }

  /** All that stale bytes can be: no space anywhere, no comma but in second place, and
      nothing past the sixteenth byte. */
  ghost predicate Tidy(buf: seq<char>) {
    && |buf| == BUFFER_SIZE
    && (forall i :: 0 <= i < |buf| ==> buf[i] != ' ' && (buf[i] == ',' ==> i == 1))
    && (forall i :: 16 <= i < |buf| ==> buf[i] == '\0')
  }

  lemma StrLenIs(buf: seq<char>, n: nat)
    requires n <= |buf| && (forall i :: 0 <= i < n ==> buf[i] != '\0') && (n < |buf| ==> buf[n] == '\0')
    ensures StrLen(buf) == n
  {
    if n > 0 { StrLenIs(buf[1..], n - 1); }
  }

  lemma LineChars(line: Line)
    requires line.WellFormed()
    ensures var b := line.Bytes();
      && 4 <= |b| <= 16 && b[|b| - 1] == '\n' && b[1] == ','
      && (forall i :: 0 <= i < |b| ==> b[i] != '\0' && b[i] != ' ' && (b[i] == ',' <==> i == 1))
  {
    var b := line.Bytes();
    assert b[0] == line.direction && b[1] == ',';
    forall i | 2 <= i < |b| - 1 ensures IsDigit(b[i]) {
      assert b[i] == line.digits[i - 2];
    }
  }

  lemma RefillIsTidy(buf: seq<char>, line: Line)
    requires Tidy(buf) && line.WellFormed()
    ensures Tidy(Refill(buf, Got(line.Bytes())))
  {
    LineChars(line);
    var bytes := line.Bytes();
    var o := Overlay(buf, bytes);
    forall i | 0 <= i < |o| ensures o[i] == if i < |bytes| then bytes[i] else buf[i] { }
    assert Tidy(o);
    assert Processed(Got(bytes));
  }

  lemma {:induction false} StrLenAtLeast(buf: seq<char>, n: nat)
    requires n <= |buf| && forall i :: 0 <= i < n ==> buf[i] != '\0'
    ensures n <= StrLen(buf)
  {
    if n > 0 { StrLenAtLeast(buf[1..], n - 1); }
  }

  /** At most the last character goes when the newline is stripped. */
  lemma StrippedString(o: seq<char>, n: nat) returns (m: nat)
    requires 0 < n <= |o| && forall i :: 0 <= i < n ==> o[i] != '\0'
    ensures n - 1 <= m <= |o| && CString(StripNewline(o)) == o[..m]
  {
    StrLenAtLeast(o, n);
    var k := StrLen(o);
    m := if o[k - 1] == '\n' then k - 1 else k;
    var stripped := StripNewline(o);
    assert forall i :: 0 <= i < k ==> o[..k][i] == o[i];
    StrLenIs(stripped, m);
    assert stripped[..m] == o[..m];
  }

  /** The string after a refill: the new sample, then nothing, or a newline and stale bytes
      without commas or spaces. */
  lemma RefilledString(buf: seq<char>, line: Line) returns (tail: string)
    requires Tidy(buf) && line.WellFormed()
    ensures CString(Refill(buf, Got(line.Bytes()))) == line.Text() + tail
    ensures tail != "" ==> tail[0] == '\n'
    ensures ',' !in tail && ' ' !in tail
  {
    LineChars(line);
    var bytes := line.Bytes();
    var o := Overlay(buf, bytes);
    var n := |line.Text()|;
    assert forall i :: 0 <= i < |o| ==> o[i] == if i <= n then bytes[i] else buf[i];
    var m := StrippedString(o, n + 1);
    tail := o[n..m];
    assert o[..m] == o[..n] + tail;
    assert o[..n] == line.Text();
    assert forall i :: 0 <= i < |tail| ==> tail[i] == o[n + i];
  }

  lemma SplitOfTwo(first: string, second: string)
    requires ',' !in first && ',' !in second
    ensures Split(first + "," + second) == [first, second]
  {
    CommaIndexAt(first, second);
    CommaIndexAt(second, "");
    var s := first + "," + second;
    assert s[..|first|] == first && s[|first| + 1..] == second;
  }

  lemma TextWithTail(line: Line, tail: string)
    requires line.WellFormed() && ',' !in tail && ' ' !in tail && (tail != "" ==> tail[0] == '\n')
    ensures Split(line.Text() + tail) == [[line.direction], line.digits + tail]
    ensures ' ' !in line.Text() + tail
  {
    hide Split;
    SplitOfTwo([line.direction], line.digits + tail);
    Associates([line.direction] + ",", line.digits, tail);
  }

  lemma MeaningSurvivesTail(line: Line, tail: string)
    requires line.WellFormed() && ',' !in tail && ' ' !in tail && (tail != "" ==> tail[0] == '\n')
    ensures SampleIn(line.Text() + tail) == Meaning(line)
  {
    TextWithTail(line, tail);
    DigitsRead(line.digits, tail);
    var d := [line.direction];
    DigitsRead(d, "");
    assert d + "" == d;
    assert ParseNat(d) == DigitValue(line.direction) by { assert d[..0] == ""; }
    ScaledRange(ConvertStringToLongInt(line.digits + tail));
  }

  lemma ScaledRange(v: int)
    ensures 0 <= DivTrunc(v * POT_SCALE, POT_SCALE) <= 1023 <==> 0 <= v <= 1023
  {
    assert v >= 0 ==> (v * POT_SCALE) / POT_SCALE == v;
    assert v < 0 ==> (-(v * POT_SCALE)) / POT_SCALE == -v;
  }

  /** Each pass that reads a well-formed line decodes that line, whatever tidy bytes are in
      the buffer. */
  lemma NewestSampleIsDecoded(buf: seq<char>, line: Line)
    requires Tidy(buf) && line.WellFormed()
    ensures Sampled(buf, Got(line.Bytes())) == Meaning(line)
    ensures TokenCount(CString(Refill(buf, Got(line.Bytes())))) == 2
  {
    LineChars(line);
    var tail := RefilledString(buf, line);
    TextWithTail(line, tail);
    MeaningSurvivesTail(line, tail);
  }

  /** After a read that fails the pass goes on with the text it has: the old sample again. */
  lemma FailedReadRepeatsTheSample(buf: seq<char>, line: Line)
    requires Tidy(buf) && line.WellFormed()
    ensures var read := Refill(buf, Got(line.Bytes()));
      Sampled(read, ReadError) == Meaning(line)
  {
    hide SampleIn, Meaning, Refill, StripNewline, Line.Text;
    LineChars(line);
    var tail := RefilledString(buf, line);
    var read := Refill(buf, Got(line.Bytes()));
    EndsInDigit(line);
    var rest := StripsFromTail(read, line.Text(), tail);
    MeaningSurvivesTail(line, rest);
    FailedReadStrips(read);
  }

  lemma EndsInDigit(line: Line)
    requires line.WellFormed()
    ensures line.Text() != "" && line.Text()[|line.Text()| - 1] != '\n'
  {
    assert line.Text()[|line.Text()| - 1] == line.digits[|line.digits| - 1];
  }

  lemma FailedReadStrips(buf: seq<char>)
    requires |buf| == BUFFER_SIZE
    ensures Refill(buf, ReadError) == StripNewline(buf)
    ensures Sampled(buf, ReadError) == SampleIn(CString(StripNewline(buf)))
  {
  }

  /** Stripping a newline takes it from the tail, if there is one there. */
  lemma StripsFromTail(buf: seq<char>, text: string, tail: string) returns (rest: string)
    requires CString(buf) == text + tail && text != "" && text[|text| - 1] != '\n'
    requires (tail != "" ==> tail[0] == '\n') && ',' !in tail && ' ' !in tail
    ensures CString(StripNewline(buf)) == text + rest
    ensures (rest != "" ==> rest[0] == '\n') && ',' !in rest && ' ' !in rest
  {
    var n := StrLen(buf);
    assert buf[n - 1] == (text + tail)[n - 1];
    if buf[n - 1] == '\n' {
      rest := tail[..|tail| - 1];
      StrLenIs(StripNewline(buf), n - 1);
      assert StripNewline(buf)[..n - 1] == buf[..n][..n - 1] == text + rest;
    } else {
      rest := tail;
    }
  }

  /** A missing, unreadable or empty file gives no sample and leaves the buffer alone. */
  lemma NoFileNoSample(buf: seq<char>, look: Look)
    requires |buf| == BUFFER_SIZE && (look.Missing? || look.Unopenable? || look == Got(""))
    ensures Sampled(buf, look) == None && Refill(buf, look) == buf
  {
  }

  /** A file that ends its text with a null byte hides whatever is left in any buffer. */
  lemma TerminatedText(buf: seq<char>, text: string)
    requires |buf| == BUFFER_SIZE && 0 < |text| <= 15 && '\0' !in text && text[|text| - 1] != '\n'
    ensures CString(Refill(buf, Got(text + "\0"))) == text
  {
    var o := Overlay(buf, text + "\0");
    assert forall i :: 0 <= i < |text| ==> o[i] == text[i];
    assert o[|text|] == '\0';
    StrLenIs(o, |text|);
    assert o[..|text|] == text;
  }

  /** Any of four samples can be put before a controller, whatever is in its buffer. */
  lemma SampleAtWill(buf: seq<char>, direction: Direction, fast: bool) returns (look: Look)
    requires |buf| == BUFFER_SIZE && direction != NoDirection
    ensures Sampled(buf, look) == Some(Sample(direction, if fast then 60 else 30))
  {
    var line := Line(if direction == Clockwise then '0' else '1', if fast then "2" else "1");
    var text := line.Text();
    assert text[0] == line.direction && text[1] == ',' && text[2] == line.digits[0] && |text| == 3;
    look := Got(text + "\0");
    TerminatedText(buf, text);
    assert text + "" == text;
    MeaningSurvivesTail(line, "");
    OneDigit(line.digits);
  }

  lemma OneDigit(digits: string)
    requires |digits| == 1 && AllDigits(digits)
    ensures ParseNat(digits) == DigitValue(digits[0])
  {
    assert digits[..0] == "";
  }

  // ---- whole histories ----

  predicate AllWellFormed(lines: seq<Line>) {
    forall i :: 0 <= i < |lines| ==> lines[i].WellFormed()
  }

  function BufferAfter(lines: seq<Line>): (buf: seq<char>)
    requires AllWellFormed(lines)
    ensures |buf| == BUFFER_SIZE
  {
    if lines == [] then seq(BUFFER_SIZE, _ => '\0')
    else
      LineChars(lines[|lines| - 1]);
      Refill(BufferAfter(lines[..|lines| - 1]), Got(lines[|lines| - 1].Bytes()))
  }

  /** The samples a controller sees when it reads these lines one after the other. */
  function SamplesSeen(lines: seq<Line>): (samples: seq<Option<Sample>>)
    requires AllWellFormed(lines)
    ensures |samples| == |lines|
  {
    if lines == [] then []
    else
      var front, last := lines[..|lines| - 1], lines[|lines| - 1];
      LineChars(last);
      SamplesSeen(front) + [Sampled(BufferAfter(front), Got(last.Bytes()))]
  }

  lemma {:induction false} BufferStaysTidy(lines: seq<Line>)
    requires AllWellFormed(lines)
    ensures Tidy(BufferAfter(lines))
  {
    if lines != [] {
      BufferStaysTidy(lines[..|lines| - 1]);
      RefillIsTidy(BufferAfter(lines[..|lines| - 1]), lines[|lines| - 1]);
    }
  }

  /** For every history of well-formed lines, pass i decodes line i. */
  lemma {:induction false} StaleBytesNeverShow(lines: seq<Line>)
    requires AllWellFormed(lines)
    ensures forall i :: 0 <= i < |lines| ==> SamplesSeen(lines)[i] == Meaning(lines[i])
  {
    hide Meaning, Sampled, Tidy, BufferAfter, Line.WellFormed, Line.Bytes;
    if lines != [] {
      var front, last := lines[..|lines| - 1], lines[|lines| - 1];
      StaleBytesNeverShow(front);
      BufferStaysTidy(front);
      NewestSampleIsDecoded(BufferAfter(front), last);
      assert SamplesSeen(lines) == SamplesSeen(front) + [Meaning(last)];
      forall i | 0 <= i < |front| ensures SamplesSeen(lines)[i] == Meaning(lines[i]) {
        assert front[i] == lines[i];
      }
    }
  }

  /** The whole controller, from file contents to motion: after any history of well-formed
      lines and a last one in range, the commands sent amount to the motion of that last line. */
  lemma MotionFollowsTheFile(lines: seq<Line>, last: Line)
    requires AllWellFormed(lines) && last.WellFormed() && ParseNat(last.digits) <= 1023
    ensures AllWellFormed(lines + [last])
    ensures Implied(Follow(SamplesSeen(lines + [last])).1) ==
      if ParseNat(last.digits) == 0 then Still
      else Moving(if last.direction == '0' then Clockwise else CounterClockwise, ParseNat(last.digits) * POT_SCALE)
  {
    hide SamplesSeen, Follow, Implied, Sample.Valid;
    var all := lines + [last];
    var samples := SamplesSeen(all);
    StaleBytesNeverShow(all);
    assert samples[|lines|] == Meaning(last);
    forall i | 0 <= i < |samples| && samples[i].Some? ensures samples[i].value.Valid() {
      MeaningIsValid(all[i]);
    }
    FollowsTheLastValidSample(samples);
  }

  lemma MeaningIsValid(line: Line)
    requires line.WellFormed()
    ensures Meaning(line).Some? ==> Meaning(line).value.Valid()
  {
  }
}
