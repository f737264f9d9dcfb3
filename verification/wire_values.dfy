/** What each command leaves in the registers of the drive, in the drive's own numbers. */
module WireValues {
  import opened CArithmetic
  import opened Utilities
  import opened Drive
  import opened Modbus
  import opened Delivery
  import opened MotorCommands
  import opened Upload

  // ---- from profiles to registers ----

  lemma SignedIsInt16(w: int)
    requires 0 <= w < 0x1_0000
    ensures Signed(w) == Int16(w)
  {
  }

  lemma SignedRegisters(d: State)
    ensures Signed(d.Reg(1026)) == Int16(d.Reg(1026)) && Signed(d.Reg(1027)) == Int16(d.Reg(1027))
    ensures Signed(d.Reg(1028)) == Int16(d.Reg(1028)) && Signed(d.Reg(1029)) == Int16(d.Reg(1029))
    ensures Signed(d.Reg(1030)) == Int16(d.Reg(1030)) && Signed(d.Reg(1031)) == Int16(d.Reg(1031))
    ensures Signed(d.Reg(1033)) == Int16(d.Reg(1033))
  {
    hide Int16, Signed, State.Reg;
    SignedIsInt16(d.Reg(1026)); SignedIsInt16(d.Reg(1027)); SignedIsInt16(d.Reg(1028)); SignedIsInt16(d.Reg(1029));
    SignedIsInt16(d.Reg(1030)); SignedIsInt16(d.Reg(1031)); SignedIsInt16(d.Reg(1033));
  }

  /** What a drive shows, register by register. */
  lemma ShownIsCarried(d: State, bit: int, m: Profile)
    requires Shows(d, bit, m) && 0 <= m.accel && 0 <= m.decel && 0 <= m.jerk
    ensures d.Reg(1024) == bit && Carries(d, m.position, m.speed, m.accel, m.decel, m.jerk)
  {
    hide Int16, State.Reg;
    SignedRegisters(d);
  }

  // ---- motions ----

  /** The bits of the command register, as the drive numbers them. */
  lemma JogOnTheWire(d: State, direction: int, accel: int, decel: int, jerk: int, speed: int, dropped: set<nat>)
    requires var c := Jog(direction, accel, decel, jerk, speed);
      c.Accepted() && MotionKept(c.Writes(), dropped)
    ensures var c := Jog(direction, accel, decel, jerk, speed);
      var after := After(d, c, dropped, |c.Writes()|);
      && after.Reg(1024) == (if direction == 0 then 128 else 256)
      && Carries(after, 0, speed, accel, decel, jerk)
  {
    hide Shows, Carries, MotionKept, Command.Writes, State.Reg;
    var c := Jog(direction, accel, decel, jerk, speed);
    CommandBitComesWithItsParameters(d, c, dropped);
    ShownIsCarried(After(d, c, dropped, |c.Writes()|), c.CommandBit(), c.Intended());
  }

  lemma RelativeMoveOnTheWire(d: State, position: int, accel: int, decel: int, jerk: int, speed: int, dropped: set<nat>)
    requires var c := RelativeMove(position, accel, decel, jerk, speed);
      c.Accepted() && MotionKept(c.Writes(), dropped)
    ensures var c := RelativeMove(position, accel, decel, jerk, speed);
      var after := After(d, c, dropped, |c.Writes()|);
      after.Reg(1024) == 2 && Carries(after, position, speed, accel, decel, jerk)
  {
    hide Shows, Carries, MotionKept, Command.Writes, State.Reg;
    var c := RelativeMove(position, accel, decel, jerk, speed);
    CommandBitComesWithItsParameters(d, c, dropped);
    ShownIsCarried(After(d, c, dropped, |c.Writes()|), c.CommandBit(), c.Intended());
  }

  lemma HomingOnTheWire(d: State, direction: int, speed: int, accel: int, decel: int, jerk: int, dropped: set<nat>)
    requires var c := FindHome(direction, speed, accel, decel, jerk);
      c.Accepted() && MotionKept(c.Writes(), dropped)
    ensures var c := FindHome(direction, speed, accel, decel, jerk);
      var after := After(d, c, dropped, |c.Writes()|);
      && after.Reg(1024) == (if direction == 0 then 32 else 64)
      && Carries(after, Thousands(d.Reg(1026), d.Reg(1027)), speed, accel, decel, jerk)
  {
    hide Shows, Carries, MotionKept, Command.Writes, State.Reg, Int16;
    var c := FindHome(direction, speed, accel, decel, jerk);
    CommandBitComesWithItsParameters(d, c, dropped);
    ShownIsCarried(After(d, c, dropped, |c.Writes()|), c.CommandBit(), Shown(d, c));
    SignedRegisters(d);
  }

  /** Every motion, preset and run raises the enable bit: register 1025 holds 32768, or for a
      run one of its own values. */
  lemma EnabledAfter(d: State, c: Command)
    requires c.IsMotion() || c.PresetMotor? || c.PresetEncoder?
    ensures AfterAll(d, c.Writes()).Reg(1025) == 32768
  {
    hide ConvertIntToWords, SplitInline;
    var ws := c.Writes();
    var i := if c.Jog? || c.RelativeMove? then 1 else 0;
    LastWrite(d, ws, {}, |ws|, i);
  }

  /** Jogs and homing clear register 1032; a configuration sets it. */
  lemma ClearedAfter(d: State, c: Command)
    requires c.Jog? || c.FindHome?
    ensures AfterAll(d, c.Writes()).Reg(1032) == 0
  {
    hide ConvertIntToWords, SplitInline;
    var ws := c.Writes();
    LastWrite(d, ws, {}, |ws|, if c.Jog? then 8 else 6);
  }

  /** A hold and a reset take the command in force back before they set their own bit; an
      immediate stop, enabling and disabling do not. */
  lemma ClearedFirst(d: State, c: Command, k: nat)
    requires c.HoldMove? || c.ResetErrors? || c.ImmediateStop? || c.DriveEnable? || c.DriveDisable?
    requires 1 <= k < |c.Writes()|
    ensures After(d, c, {}, k).Reg(1024) == match c
      case HoldMove => 0
      case ResetErrors => if k == 1 then 0 else 1024
      case _ => d.Reg(1024)
  {
    var ws := c.Writes();
    match c
    case HoldMove => LastWrite(d, ws, {}, k, 0);
    case ResetErrors => LastWrite(d, ws, {}, k, if k == 1 then 0 else 1);
    case _ => Untouched(d, ws, {}, k, 1024);
  }

  /** The upload's programs raise it too. */
  lemma EnabledWhileUploading(d: State, s: Profile)
    ensures AfterAll(d, WritesOf(s)).Reg(1025) == 32768 && AfterAll(d, PREPARE_WRITES).Reg(1025) == 32768
  {
    hide ConvertIntToWords;
    LastWrite(d, WritesOf(s), {}, 9, 0);
    LastWrite(d, PREPARE_WRITES, {}, 2, 0);
  }

  // ---- a command sent whole ----

  /** The next connection comes up and drops nothing. */
  ghost predicate NextWorks(l: LinkState) {
    ConnectsFirst(l.pending) && l.pending[0].dropped == {}
  }

  lemma IssuedWhole(l: LinkState, c: Command)
    requires NextWorks(l) && c.Accepted()
    ensures Issue(l, c).drive == AfterAll(l.drive, c.Writes()) && Issue(l, c).pending == l.pending[1..]
    ensures Issue(l, c).log == l.log + [Frame(c.Name(), c.Writes())]
  {
    hide Command.Accepted, Command.Writes, Command.Name, Delivered;
    assert BusyRun(l.pending) == 0;
  }

  lemma NothingLost(c: Command)
    requires c.IsMotion()
    ensures MotionKept(c.Writes(), {})
  {
    hide ConvertIntToWords, SplitInline;
  }

  // ---- segments ----

  /** A segment with numbers the drive can hold, as its block carries it. */
  lemma BlockOnTheWire(s: Profile)
    requires FitsInt32(s.position) && FitsInt32(s.speed) && Encodable(s.position) && Encodable(s.speed)
    requires FitsInt16(s.accel) && FitsInt16(s.decel) && FitsInt16(s.jerk)
    ensures BlockCarries(BlockOf(s), s.position, s.speed, s.accel % 65536, s.decel % 65536, s.jerk % 65536)
  {
    hide ConvertIntToWords, Int16;
    var p, w := ConvertIntToWords(s.position), ConvertIntToWords(s.speed);
    WordsRoundTrip(s.position);
    WordsRoundTrip(s.speed);
    SignedWord(p.upper); SignedWord(p.lower); SignedWord(w.upper); SignedWord(w.lower);
    hide Uint16, Signed;
  }

  lemma SignedWord(n: int)
    requires FitsInt16(n)
    ensures Signed(Uint16(n)) == n
  {
  }
}
