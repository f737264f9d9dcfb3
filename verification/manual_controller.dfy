/** One manual-mode controller of SMD_Motor_Commands.c: a loop that samples a file, remembers
    the last direction and speed it asked for, and sends commands only when they change. */
module ManualController {
  import opened CArithmetic
  import opened Text
  import opened Utilities
  import MotorCommands

  datatype Direction = NoDirection | Clockwise | CounterClockwise

  const POT_SCALE := 30

  /** A sample that passed the range check; `pot` is already scaled. */
  datatype Sample = Sample(direction: Direction, pot: int) {
    ghost predicate Valid() { direction != NoDirection && 0 <= pot <= 1023 * POT_SCALE }
  }

  datatype Motion = Hold | Jog(direction: Direction, speed: int)

  datatype Memory = Memory(direction: Direction, speed: int)

  const AT_START := Memory(NoDirection, 0)

  // ---- deciding ----

  function Decide(m: Memory, s: Sample): (Memory, seq<Motion>)
  {
    if m.direction == NoDirection then
      (Memory(s.direction, s.pot), if s.pot != 0 then [Jog(s.direction, s.pot)] else [])
    else if s.pot == 0 then
      (Memory(s.direction, 0), if m.speed != 0 then [Hold] else [])
    else if m.speed != s.pot || m.direction != s.direction then
      (Memory(s.direction, s.pot),
       if m.direction != s.direction then [Hold, Jog(s.direction, s.pot)] else [Jog(s.direction, s.pot)])
    else (m, [])
  }

  /** A pass that found no valid sample changes nothing. */
  function React(m: Memory, s: Option<Sample>): (Memory, seq<Motion>)
  {
    match s
    case None => (m, [])
    case Some(v) => Decide(m, v)
  }

  ghost predicate AllValid(samples: seq<Option<Sample>>) {
    forall i :: 0 <= i < |samples| && samples[i].Some? ==> samples[i].value.Valid()
  }

  /** Memory and all commands sent after a sequence of passes. */
  function Follow(samples: seq<Option<Sample>>): (Memory, seq<Motion>)
  {
    if samples == [] then (AT_START, [])
    else
      var (m, sent) := Follow(samples[..|samples| - 1]);
      var (m', now) := React(m, samples[|samples| - 1]);
      (m', sent + now)
  }

  // ---- what the commands amount to ----

  datatype State = Still | Moving(direction: Direction, speed: int)

  /** The motion of a drive that starts at rest and carries out the commands. */
  function Implied(sent: seq<Motion>): State
  {
    if sent == [] then Still
    else match sent[|sent| - 1]
      case Hold => Still
      case Jog(direction, speed) => Moving(direction, speed)
  }

  /** The motion the last valid sample asks for. */
  function Asked(samples: seq<Option<Sample>>): State
  {
    if samples == [] then Still
    else match samples[|samples| - 1]
      case None => Asked(samples[..|samples| - 1])
      case Some(s) => if s.pot == 0 then Still else Moving(s.direction, s.pot)
  }

  /** What the controller remembers is what it has made the drive do. */
  ghost predicate Remembers(m: Memory, sent: seq<Motion>) {
    && (m.direction == NoDirection ==> sent == [] && m.speed == 0)
    && m.speed >= 0
    && Implied(sent) == if m.speed == 0 then Still else Moving(m.direction, m.speed)
  }

  lemma {:induction false} MemoryIsFaithful(samples: seq<Option<Sample>>)
    requires AllValid(samples)
    ensures Remembers(Follow(samples).0, Follow(samples).1)
  {
    if samples != [] { MemoryIsFaithful(samples[..|samples| - 1]); }
  }

  /** The controller with memory does exactly what a memoryless follower of the last valid
      sample would do. */
  lemma {:induction false} FollowsTheLastValidSample(samples: seq<Option<Sample>>)
    requires AllValid(samples)
    ensures Implied(Follow(samples).1) == Asked(samples)
  {
    if samples != [] {
      var front := samples[..|samples| - 1];
      FollowsTheLastValidSample(front);
      MemoryIsFaithful(front);
    }
  }

  /** The direction of the last valid sample. */
  function LastDirection(samples: seq<Option<Sample>>): Direction
  {
    if samples == [] then NoDirection
    else match samples[|samples| - 1]
      case None => LastDirection(samples[..|samples| - 1])
      case Some(s) => s.direction
  }

  lemma {:induction false} DirectionIsRemembered(samples: seq<Option<Sample>>)
    ensures Follow(samples).0.direction == LastDirection(samples)
  {
    if samples != [] { DirectionIsRemembered(samples[..|samples| - 1]); }
  }

  /** What the next sample leads to: a hold to stop, a hold and a jog to turn, a jog alone to
      start or to change speed, and nothing if nothing changes. */
  lemma NextSampleLeadsTo(samples: seq<Option<Sample>>, s: Sample)
    requires AllValid(samples) && s.Valid()
    ensures var sent, now, last := Follow(samples).1, Implied(Follow(samples).1), LastDirection(samples);
      Follow(samples + [Some(s)]).1 == sent +
        (if s.pot == 0 then if now.Moving? then [Hold] else []
         else if last != NoDirection && last != s.direction then [Hold, Jog(s.direction, s.pot)]
         else if now == Moving(s.direction, s.pot) then []
         else [Jog(s.direction, s.pot)])
  {
    MemoryIsFaithful(samples);
    DirectionIsRemembered(samples);
    assert (samples + [Some(s)])[..|samples|] == samples;
  }

  /** Sampling the same values again sends nothing. */
  lemma RepeatedSampleIsSilent(m: Memory, s: Sample)
    requires s.Valid()
    ensures React(Decide(m, s).0, Some(s)) == (Decide(m, s).0, [])
  {
  }

  // ---- reversal safety ----

  ghost predicate NoHoldBetween(sent: seq<Motion>, i: nat, j: nat)
    requires i < j < |sent|
  {
    forall k :: i < k < j ==> sent[k] != Hold
  }

  /** Two jogs with no hold between them have the same direction, and if adjacent, different
      speeds; so opposite jogs always have a hold between them. */
  ghost predicate ReversalSafe(sent: seq<Motion>) {
    forall i, j :: 0 <= i < j < |sent| && sent[i].Jog? && sent[j].Jog? && NoHoldBetween(sent, i, j) ==>
      sent[i].direction == sent[j].direction && (j == i + 1 ==> sent[i].speed != sent[j].speed)
  }

  lemma AppendHold(sent: seq<Motion>)
    requires ReversalSafe(sent)
    ensures ReversalSafe(sent + [Hold])
  {
    var longer := sent + [Hold];
    forall i, j | 0 <= i < j < |longer| && longer[i].Jog? && longer[j].Jog? && NoHoldBetween(longer, i, j)
      ensures longer[i].direction == longer[j].direction && (j == i + 1 ==> longer[i].speed != longer[j].speed)
    {
      assert forall k :: i < k < j ==> sent[k] == longer[k];
      assert NoHoldBetween(sent, i, j);
    }
  }

  /** A jog may follow a hold, the start, or a jog in the same direction at another speed. */
  lemma AppendJog(sent: seq<Motion>, jog: Motion)
    requires ReversalSafe(sent) && jog.Jog?
    requires sent != [] && sent[|sent| - 1].Jog? ==>
      sent[|sent| - 1].direction == jog.direction && sent[|sent| - 1].speed != jog.speed
    ensures ReversalSafe(sent + [jog])
  {
    var longer := sent + [jog];
    var last := |sent| - 1;
    forall i, j | 0 <= i < j < |longer| && longer[i].Jog? && longer[j].Jog? && NoHoldBetween(longer, i, j)
      ensures longer[i].direction == longer[j].direction && (j == i + 1 ==> longer[i].speed != longer[j].speed)
    {
      assert forall k :: i < k < j ==> sent[k] == longer[k];
      if j < |sent| {
        assert NoHoldBetween(sent, i, j);
      } else if i < last {
        assert longer[last] != Hold;
        assert NoHoldBetween(sent, i, last);
      }
    }
  }

  lemma {:induction false} NeverReversesWithoutHold(samples: seq<Option<Sample>>)
    requires AllValid(samples)
    ensures ReversalSafe(Follow(samples).1)
  {
    if samples != [] {
      var front := samples[..|samples| - 1];
      NeverReversesWithoutHold(front);
      MemoryIsFaithful(front);
      var (m, sent) := Follow(front);
      var now := React(m, samples[|samples| - 1]).1;
      if |now| == 2 {
        AppendHold(sent);
        AppendJog(sent + [Hold], now[1]);
        assert sent + now == sent + [Hold] + [now[1]];
      } else if |now| == 1 {
        if now[0] == Hold { AppendHold(sent); } else { AppendJog(sent, now[0]); }
        assert sent + now == sent + [now[0]];
      } else {
        assert sent + now == sent;
      }
    }
  }

  /** A prefix of a safe trace is safe: the property holds at every moment of a run. */
  lemma PrefixIsSafe(sent: seq<Motion>, k: nat)
    requires ReversalSafe(sent) && k <= |sent|
    ensures ReversalSafe(sent[..k])
  {
    forall i, j | 0 <= i < j < k && sent[..k][i].Jog? && sent[..k][j].Jog? && NoHoldBetween(sent[..k], i, j)
      ensures sent[..k][i].direction == sent[..k][j].direction && (j == i + 1 ==>
        sent[..k][i].speed != sent[..k][j].speed)
    {
      assert forall n :: i < n < j ==> sent[n] == sent[..k][n];
      assert NoHoldBetween(sent, i, j);
    }
  }

  // ---- on the wire ----

  /** The SMD_* call behind a command: accelerations 250, no jerk. */
  function CommandOf(m: Motion): MotorCommands.Command
  {
    match m
    case Hold => MotorCommands.HoldMove
    case Jog(direction, speed) => MotorCommands.Jog(if direction == Clockwise then 0 else 1, 250, 250, 0, speed)
  }

  /** The range checks of SMD_jog never reject what a valid sample leads to. */
  lemma ManualCommandsAreAccepted(m: Memory, s: Sample)
    requires s.Valid()
    ensures forall c :: c in Decide(m, s).1 ==> CommandOf(c).Accepted()
  {
  }

  // ---- the sample buffer ----

  const BUFFER_SIZE := 128

  type Chunk = s: string | |s| <= 16

  /** One look at the file. After a read error the pass goes on with the buffer as it is. */
  datatype Look = Missing | Unopenable | Got(bytes: Chunk) | ReadError

  /** strlen */
  function StrLen(buf: seq<char>): (n: nat)
    ensures n <= |buf| && '\0' !in buf[..n] && (n < |buf| ==> buf[n] == '\0')
  {
    if buf == [] || buf[0] == '\0' then 0
    else
      var k := StrLen(buf[1..]);
      assert buf[..1 + k] == [buf[0]] + buf[1..][..k];
      1 + k
  }

  function CString(buf: seq<char>): string { buf[..StrLen(buf)] }

  function Overlay(buf: seq<char>, bytes: string): seq<char>
    requires |bytes| <= |buf|
  {
    bytes + buf[|bytes|..]
  }

  /** Drops one newline at the end of the string. (The source looks at the byte before an
      empty string too; that read is not modelled.) */
  function StripNewline(buf: seq<char>): (stripped: seq<char>)
    ensures |stripped| == |buf|
  {
    var n := StrLen(buf);
    if n > 0 && buf[n - 1] == '\n' then buf[n - 1 := '\0'] else buf
  }

  predicate Processed(look: Look) { look == ReadError || (look.Got? && look.bytes != "") }

  function Refill(buf: seq<char>, look: Look): (next: seq<char>)
    requires |buf| == BUFFER_SIZE
    ensures |next| == BUFFER_SIZE
  {
    if !Processed(look) then buf
    else StripNewline(if look.Got? then Overlay(buf, look.bytes) else buf)
  }

  /** The sample in a string of two tokens, if its value is in range. The product with the
      scale is taken exactly (C leaves its overflow undefined). */
  function SampleIn(s: string): Option<Sample>
  {
    if TokenCount(s) != 2 then None
    else
      var pot := ConvertStringToLongInt(Split(s)[1]) * POT_SCALE;
      var direction := if ConvertStringToLongInt(Split(s)[0]) == 0 then Clockwise else CounterClockwise;
      if 0 <= DivTrunc(pot, POT_SCALE) <= 1023 then Some(Sample(direction, pot)) else None
  }

  function Sampled(buf: seq<char>, look: Look): Option<Sample>
    requires |buf| == BUFFER_SIZE
  {
    if Processed(look) then SampleIn(CString(Refill(buf, look))) else None
  }

  lemma SamplesAreValid(s: string)
    ensures SampleIn(s).Some? ==> SampleIn(s).value.Valid()
  {
    if TokenCount(s) == 2 {
      var v := ConvertStringToLongInt(Split(s)[1]);
      assert v < 0 ==> (-(v * POT_SCALE)) / POT_SCALE == -v;
      assert v >= 0 ==> (v * POT_SCALE) / POT_SCALE == v;
    }
  }

  class Controller {
    const buf: array<char>
    var direction: Direction
    var speed: int

    function Remembered(): Memory
      reads this
    {
      Memory(direction, speed)
    }

    constructor ()
      ensures buf.Length == BUFFER_SIZE && fresh(buf) && Remembered() == AT_START
      ensures forall i :: 0 <= i < BUFFER_SIZE ==> buf[i] == '\0'
    {
      buf := new char[BUFFER_SIZE](_ => '\0');
      direction, speed := NoDirection, 0;
    }

    /** One pass of the loop body. */
    method Pass(look: Look) returns (sent: seq<Motion>)
      requires buf.Length == BUFFER_SIZE
      modifies this, buf
      ensures buf[..] == Refill(old(buf[..]), look)
      ensures (Remembered(), sent) == React(old(Remembered()), Sampled(old(buf[..]), look))
    {
      sent := [];
      if Processed(look) {
        Load(look);
        var sample := ParseSample();
        if sample.Some? {
          SamplesAreValid(CString(buf[..]));
          sent := Update(sample.value.direction, sample.value.pot);
        }
      }
    }

    /** read() over the start of the buffer, then the newline is removed. */
    method Load(look: Look)
      requires buf.Length == BUFFER_SIZE && Processed(look)
      modifies buf
      ensures buf[..] == Refill(old(buf[..]), look)
    {
      if look.Got? {
        FillBuffer(look.bytes);
      }
      var n := StringLength();
      ghost var before := buf[..];
      if n > 0 && buf[n - 1] == '\n' {
        buf[n - 1] := '\0';
        assert buf[..] == before[n - 1 := '\0'];
      }
    }

    method ParseSample() returns (sample: Option<Sample>)
      requires buf.Length == BUFFER_SIZE
      ensures sample == SampleIn(CString(buf[..]))
    {
      var n := StringLength();
      var text := buf[..n];
      assert text == CString(buf[..]);
      var count := NumberOfTokens(text);
      if count != 2 {
        return None;
      }
      var parts := new string[2];
      var rc := TokenizeClientInput(parts, text);
      var pot := ConvertStringToLongInt(parts[1]) * POT_SCALE;
      var jog := if ConvertStringToLongInt(parts[0]) == 0 then Clockwise else CounterClockwise;
      sample := if 0 <= DivTrunc(pot, POT_SCALE) <= 1023 then Some(Sample(jog, pot)) else None;
    }

    method FillBuffer(bytes: Chunk)
      requires buf.Length == BUFFER_SIZE
      modifies buf
      ensures buf[..] == Overlay(old(buf[..]), bytes)
    {
      for i := 0 to |bytes|
        invariant forall j :: 0 <= j < BUFFER_SIZE ==> buf[j] == if j < i then bytes[j] else old(buf[j])
      {
        buf[i] := bytes[i];
      }
    }

    method StringLength() returns (n: nat)
      ensures n == StrLen(buf[..])
    {
      n := 0;
      while n < buf.Length && buf[n] != '\0'
        invariant n <= buf.Length && n + StrLen(buf[n..]) == StrLen(buf[..])
      {
        assert buf[n..][1..] == buf[n + 1..];
        n := n + 1;
      }
    }

    method Update(jog: Direction, pot: int) returns (sent: seq<Motion>)
      requires jog != NoDirection
      modifies this
      ensures (Remembered(), sent) == Decide(old(Remembered()), Sample(jog, pot))
    {
      sent := [];
      if direction == NoDirection {
        direction, speed := jog, pot;
        if pot != 0 {
          sent := [Jog(direction, speed)];
        }
      } else if pot == 0 {
        if speed != 0 {
          speed := 0;
          sent := [Hold];
        }
        direction := jog;
      } else if speed != pot || direction != jog {
        if speed != pot {
          speed := pot;
        }
        if direction != jog {
          direction := jog;
          sent := [Hold];
        }
        sent := sent + [Jog(direction, speed)];
        assert sent == if |sent| == 2 then [Hold, Jog(jog, pot)] else [Jog(jog, pot)];
      }
    }
  }
}
