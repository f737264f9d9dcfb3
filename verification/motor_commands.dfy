/** SMD_Motor_Commands.c: what each SMD_* function accepts and the register writes it sends. */
module MotorCommands {
  import opened CArithmetic
  import opened Utilities
  import opened Drive
  import opened Modbus
  import opened Delivery

  datatype MoveType = Blend | Dwell | NoMove

  /** A call of one of the SMD_* functions with its arguments. `loaded` is the global
      STATUS_TYPE_ASSEMBLED_MOVE at the time of the call. */
  datatype Command =
    | Jog(direction: int, accel: int, decel: int, jerk: int, speed: int)
    | FindHome(direction: int, speed: int, accel: int, decel: int, jerk: int)
    | RelativeMove(position: int, accel: int, decel: int, jerk: int, speed: int)
    | SetConfiguration(controlWord: int, configWord: int, startingSpeed: int, stepsPerTurn: int,
                       encoderPulses: int, idleCurrent: int, motorCurrent: int)
    | PresetEncoder(position: int)
    | PresetMotor(position: int)
    | DriveEnable | DriveDisable | HoldMove | ImmediateStop | ResetErrors | LoadConfiguration
    | RunAssembled(blendDirection: int, dwellTime: int, moveType: MoveType, loaded: MoveType)
  {
    /** The input checks. */
    predicate Accepted() {
      match this
      case Jog(direction, accel, decel, jerk, speed) =>
        0 <= direction <= 1 && MotionInRange(accel, decel, jerk, speed)
      case FindHome(direction, speed, accel, decel, jerk) =>
        0 <= direction <= 1 && MotionInRange(accel, decel, jerk, speed)
      case RelativeMove(position, accel, decel, jerk, speed) =>
        PositionInRange(position) && MotionInRange(accel, decel, jerk, speed)
      case SetConfiguration(_, _, startingSpeed, stepsPerTurn, encoderPulses, idleCurrent, motorCurrent) =>
        1 <= startingSpeed <= 1999999 && 200 <= stepsPerTurn <= 32767 && encoderPulses == 1024
        && 0 <= idleCurrent <= 100 && 10 <= motorCurrent <= 34
      case PresetEncoder(position) => PositionInRange(position)
      case PresetMotor(position) => PositionInRange(position)
      case RunAssembled(_, dwellTime, moveType, loaded) =>
        (moveType == Blend && loaded == Blend) || (moveType == Dwell && loaded == Dwell && dwellTime >= 0)
      case _ => true
    }

    /** The register and value arrays, in order. */
    function Writes(): seq<Write>
    {
      match this
      case Jog(direction, accel, decel, jerk, speed) =>
        JogWrites(Words(0, 0), SplitInline(speed), accel, decel, jerk, CommandBit())
      case RelativeMove(position, accel, decel, jerk, speed) =>
        RelativeMoveWrites(ConvertIntToWords(position), ConvertIntToWords(speed), accel, decel, jerk)
      case FindHome(direction, speed, accel, decel, jerk) =>
        FindHomeWrites(ConvertIntToWords(speed), accel, decel, jerk, CommandBit())
      case SetConfiguration(controlWord, configWord, startingSpeed, stepsPerTurn, encoderPulses, idleCurrent,
        motorCurrent) =>
        var w := SplitInline(startingSpeed);
        [Write(1025, configWord), Write(1024, controlWord), Write(1026, w.upper), Write(1027, w.lower),
         Write(1028, stepsPerTurn), Write(1030, encoderPulses), Write(1031, idleCurrent), Write(1032, motorCurrent)]
      case PresetEncoder(position) =>
        var p := ConvertIntToWords(position);
        [Write(1025, 32768), Write(1026, p.upper), Write(1027, p.lower), Write(1024, 16384)]
      case PresetMotor(position) =>
        var p := ConvertIntToWords(position);
        [Write(1025, 32768), Write(1026, p.upper), Write(1027, p.lower), Write(1024, 512)]
      case DriveEnable => [Write(1025, 32768), Write(1024, 0)]
      case DriveDisable => [Write(1025, 0), Write(1024, 0)]
      case HoldMove => HOLD_WRITES
      case ImmediateStop => STOP_WRITES
      case ResetErrors => [Write(1024, 0), Write(1024, 1024), Write(1025, 32768)]
      case LoadConfiguration =>
        [Write(1025, 34816), Write(1024, 32768), Write(1026, 0), Write(1027, 0), Write(1028, 0), Write(1029, 0),
         Write(1030, 0), Write(1031, 0), Write(1032, 0), Write(1033, 0)]
      case RunAssembled(blendDirection, dwellTime, moveType, _) =>
        [Write(1025, if moveType == Dwell then 33280 else if blendDirection == 0 then 32768 else 32784),
         Write(1033, dwellTime), Write(1024, 8192)]
    }

    function Name(): string
    {
      match this
      case Jog(_, _, _, _, _) => "jog"
      case FindHome(_, _, _, _, _) => "find_home"
      case RelativeMove(_, _, _, _, _) => "relative_move"
      case SetConfiguration(_, _, _, _, _, _, _) => "set_configuration"
      case PresetEncoder(_) => "preset_encoder"
      case PresetMotor(_) => "preset_motor"
      case DriveEnable => "drive_enable"
      case DriveDisable => "drive_disable"
      case HoldMove => HOLD_MOVE_NAME
      case ImmediateStop => IMMEDIATE_STOP_NAME
      case ResetErrors => "reset_errors"
      case LoadConfiguration => "load_configuration"
      case RunAssembled(_, _, _, _) => "run_assembled_move"
    }

    /** The code returned for a send that succeeded, or failed. */
    function Code(sent: Response): Response
    {
      var ok := sent == CommandSuccess;
      match this
      case SetConfiguration(_, _, _, _, _, _, _) => if ok then SaveConfigSuccess else SaveConfigFail
      case PresetEncoder(_) => if ok then PresetEncSuccess else PresetEncFail
      case PresetMotor(_) => if ok then PresetPosSuccess else PresetPosFail
      case DriveEnable => if ok then EnableSuccess else CommandFailed
      case DriveDisable => if ok then DisableSuccess else CommandFailed
      case LoadConfiguration => if ok then ReadyToReadConfig else ReadCurrentConfigFail
      case _ => sent
    }

    predicate IsMotion() { Jog? || RelativeMove? || FindHome? }

    /** The parameters a motion command was called with, as the drive should see them. */
    function Intended(): Profile
      requires IsMotion()
    {
      Profile(if RelativeMove? then position else 0, speed, accel, decel, jerk)
    }

    function CommandBit(): int
      requires IsMotion()
    {
      if RelativeMove? then 2
      else if Jog? then (if direction == 0 then 128 else 256)
      else if direction == 0 then 32 else 64
    }
  }

  /** SMD_jog passes 0 for both words of the position. */
  function JogWrites(p: Words, w: Words, accel: int, decel: int, jerk: int, bit: int): seq<Write>
  {
    [Write(1024, 0), Write(1025, 32768), Write(1026, p.upper), Write(1027, p.lower),
     Write(1028, w.upper), Write(1029, w.lower), Write(1030, accel), Write(1031, decel), Write(1032, 0),
     Write(1033, jerk), Write(1024, bit)]
  }

  function RelativeMoveWrites(p: Words, w: Words, accel: int, decel: int, jerk: int): seq<Write>
  {
    [Write(1024, 0), Write(1025, 32768), Write(1026, p.upper), Write(1027, p.lower), Write(1028, w.upper),
     Write(1029, w.lower), Write(1030, accel), Write(1031, decel), Write(1033, jerk), Write(1024, 2)]
  }

  function FindHomeWrites(w: Words, accel: int, decel: int, jerk: int, bit: int): seq<Write>
  {
    [Write(1025, 32768), Write(1028, w.upper), Write(1029, w.lower), Write(1030, accel), Write(1031, decel),
     Write(1033, jerk), Write(1032, 0), Write(1024, bit)]
  }

  predicate MotionInRange(accel: int, decel: int, jerk: int, speed: int) {
    1 <= accel <= 5000 && 1 <= decel <= 5000 && 0 <= jerk <= 5000 && 0 <= speed <= 2999999
  }

  predicate PositionInRange(position: int) { -8388607 <= position <= 8388607 }

  // ---- issuing a command ----

  function Issue(l: LinkState, c: Command): LinkState
  {
    if c.Accepted() then Send(l, c.Writes(), c.Name()) else l
  }

  function IssueCode(l: LinkState, c: Command): Response
  {
    if c.Accepted() then c.Code(SendCode(l)) else InvalidParameter
  }

  lemma NotAStopName(name: string)
    requires name != "" && name[0] != 'h' && name[0] != 'i'
    ensures !IsStop(name)
  {
    assert HOLD_MOVE_NAME[0] == 'h' && IMMEDIATE_STOP_NAME[0] == 'i';
  }

  lemma CommandsAreSendable(c: Command)
    ensures Sendable(c.Name(), c.Writes())
    ensures IsStop(c.Name()) <==> c.HoldMove? || c.ImmediateStop?
  {
    StopNamesDiffer();
    if !c.HoldMove? && !c.ImmediateStop? {
      NotAStopName(c.Name());
    }
  }

  /** A call out of range is answered as invalid and sends nothing; any other sends one frame,
      in range, exactly when a connection that counts comes up. */
  method IssueCommand(link: Link, c: Command) returns (code: Response)
    modifies link
    ensures code == InvalidParameter <==> !c.Accepted()
    ensures link.log == old(link.log) +
      (if c.Accepted() && Delivers(c.Name(), old(link.pending)) then [Frame(c.Name(), c.Writes())] else [])
    ensures c.Accepted() ==> WireSafe(Frame(c.Name(), c.Writes()))
    ensures link.Value() == Issue(old(link.Value()), c)
    ensures code == IssueCode(old(link.Value()), c)
  {
    hide WireSafe, Command.Accepted, Command.Writes;
    assert link.log + [] == link.log;
    if !c.Accepted() {
      return InvalidParameter;
    }
    CommandsAreSendable(c);
    AcceptedIsWireSafe(c);
    var sent := link.SendModbusCommand(c.Writes(), c.Name());
    code := c.Code(sent);
  }

  /** Every command but the two stops makes exactly one attempt to connect. */
  lemma OneAttempt(l: LinkState, c: Command)
    requires c.Accepted() && !c.HoldMove? && !c.ImmediateStop?
    ensures Issue(l, c).pending == Consume(l).pending
    ensures Issue(l, c).log == if ConnectsFirst(l.pending) then l.log + [Frame(c.Name(), c.Writes())] else l.log
  {
    CommandsAreSendable(c);
  }

  // ---- no torn motion command ----

  /** The drive after k writes of c, less the dropped ones, starting anywhere. */
  function After(d: State, c: Command, dropped: set<nat>, k: nat): State
    requires k <= |c.Writes()|
  {
    Delivered(d, c.Writes(), dropped, k)
  }

  function AfterAll(d: State, writes: seq<Write>): State
  {
    Delivered(d, writes, {}, |writes|)
  }

  /** The command register shows a motion bit, and the motion registers decode to m. */
  predicate Shows(d: State, bit: int, m: Profile) {
    d.Reg(COMMAND) == bit && Decode(d.Motion()) == m
  }

  /** Between the first write and the last, the command register of a jog or a relative move
      reads 0, whatever it held before and wherever the writes stop, exactly if the first write
      is kept; if it is lost, the previous command stays in force. */
  lemma CommandBitStaysClear(d: State, c: Command, dropped: set<nat>, k: nat)
    requires c.Jog? || c.RelativeMove?
    requires 1 <= k < |c.Writes()|
    ensures After(d, c, dropped, k).Reg(COMMAND) == if 0 in dropped then d.Reg(COMMAND) else 0
  {
    if 0 in dropped { Untouched(d, c.Writes(), dropped, k, COMMAND); }
    else { LastWrite(d, c.Writes(), dropped, k, 0); }
  }

  /** No register is written twice from write `from` on. */
  predicate WritesOnce(writes: seq<Write>, from: nat) {
    forall i, j :: from <= i < j < |writes| ==> writes[i].reg != writes[j].reg
  }

  lemma Settled(d: State, writes: seq<Write>, dropped: set<nat>, from: nat, i: nat)
    requires WritesOnce(writes, from) && from <= i < |writes| && i !in dropped
    ensures Delivered(d, writes, dropped, |writes|).Reg(writes[i].reg) == Uint16(writes[i].value)
  {
    LastWrite(d, writes, dropped, |writes|, i);
  }

  /** The writes that carry the parameters of a motion. */
  predicate IsField(w: Write) { 1026 <= w.reg <= 1031 || w.reg == 1033 }

  predicate FieldLost(writes: seq<Write>, dropped: set<nat>) {
    exists i :: 0 <= i < |writes| && IsField(writes[i]) && i in dropped
  }

  predicate BitKept(writes: seq<Write>, dropped: set<nat>)
    requires writes != []
  {
    |writes| - 1 !in dropped
  }

  /** Neither the command bit nor a parameter is lost. */
  predicate MotionKept(writes: seq<Write>, dropped: set<nat>) {
    writes != [] && BitKept(writes, dropped) && !FieldLost(writes, dropped)
  }

  /** Writes i..i+5 go to registers 1026..1031, write j to 1033, and the last one to 1024. */
  predicate LoadsMotion(writes: seq<Write>, i: nat, j: nat) {
    && WritesOnce(writes, 1) && 1 <= i && i + 5 < j < |writes| - 1
    && writes[i].reg == 1026 && writes[i + 1].reg == 1027 && writes[i + 2].reg == 1028
    && writes[i + 3].reg == 1029 && writes[i + 4].reg == 1030 && writes[i + 5].reg == 1031
    && writes[j].reg == 1033 && writes[|writes| - 1].reg == COMMAND
  }

  lemma LoadedMotion(d: State, writes: seq<Write>, dropped: set<nat>, i: nat, j: nat)
    requires LoadsMotion(writes, i, j) && MotionKept(writes, dropped)
    ensures var after := Delivered(d, writes, dropped, |writes|);
      && after.Reg(COMMAND) == Uint16(writes[|writes| - 1].value)
      && after.Motion() == Block(Uint16(writes[i].value), Uint16(writes[i + 1].value), Uint16(writes[i + 2].value),
           Uint16(writes[i + 3].value), Uint16(writes[i + 4].value), Uint16(writes[i + 5].value),
           Uint16(writes[j].value))
  {
    assert forall n :: 0 <= n < |writes| && IsField(writes[n]) ==> n !in dropped;
    Settled(d, writes, dropped, 1, i); Settled(d, writes, dropped, 1, i + 1);
    Settled(d, writes, dropped, 1, i + 2); Settled(d, writes, dropped, 1, i + 3);
    Settled(d, writes, dropped, 1, i + 4); Settled(d, writes, dropped, 1, i + 5); Settled(d, writes, dropped, 1, j);
    Settled(d, writes, dropped, 1, |writes| - 1);
  }

  /** Words stored unsigned decode to the numbers they came from. */
  lemma StoredMotion(p: Words, w: Words, m: Profile)
    requires FitsInt16(p.upper) && FitsInt16(p.lower) && FitsInt16(w.upper) && FitsInt16(w.lower)
    requires FitsInt16(m.accel) && FitsInt16(m.decel) && FitsInt16(m.jerk)
    requires p.Recombined() == m.position && w.Recombined() == m.speed
    ensures Decode(Block(Uint16(p.upper), Uint16(p.lower), Uint16(w.upper), Uint16(w.lower),
                         Uint16(m.accel), Uint16(m.decel), Uint16(m.jerk))) == m
  {
    RegisterKeepsInt16(p.upper); RegisterKeepsInt16(p.lower);
    RegisterKeepsInt16(w.upper); RegisterKeepsInt16(w.lower);
    RegisterKeepsInt16(m.accel); RegisterKeepsInt16(m.decel); RegisterKeepsInt16(m.jerk);
  }

  /** ... with the words and values of one motion command. */
  predicate Loads(writes: seq<Write>, i: nat, j: nat, p: Words, w: Words, m: Profile, bit: int) {
    && LoadsMotion(writes, i, j)
    && writes[i].value == p.upper && writes[i + 1].value == p.lower
    && writes[i + 2].value == w.upper && writes[i + 3].value == w.lower
    && writes[i + 4].value == m.accel && writes[i + 5].value == m.decel
    && writes[j].value == m.jerk && writes[|writes| - 1].value == bit
  }

  /** The words of a motion command that the drive decodes without loss. */
  predicate Exact(p: Words, w: Words, m: Profile) {
    && FitsInt16(p.upper) && FitsInt16(p.lower) && FitsInt16(w.upper) && FitsInt16(w.lower)
    && FitsInt16(m.accel) && FitsInt16(m.decel) && FitsInt16(m.jerk)
    && p.Recombined() == m.position && w.Recombined() == m.speed
  }

  lemma LoadedProfile(d: State, writes: seq<Write>, dropped: set<nat>, i: nat, j: nat,
                      p: Words, w: Words, m: Profile, bit: int)
    requires Loads(writes, i, j, p, w, m, bit) && Exact(p, w, m) && 0 <= bit <= 256 && MotionKept(writes, dropped)
    ensures Shows(Delivered(d, writes, dropped, |writes|), bit, m)
  {
    LoadedMotion(d, writes, dropped, i, j);
    StoredMotion(p, w, m);
  }

  lemma JogLoads(p: Words, w: Words, m: Profile, bit: int)
    ensures Loads(JogWrites(p, w, m.accel, m.decel, m.jerk, bit), 2, 9, p, w, m, bit)
  {
    var ws := JogWrites(p, w, m.accel, m.decel, m.jerk, bit);
    assert forall i :: 1 <= i < 10 ==> ws[i].reg == 1024 + i;
  }

  lemma RelativeMoveLoads(p: Words, w: Words, m: Profile)
    ensures Loads(RelativeMoveWrites(p, w, m.accel, m.decel, m.jerk), 2, 8, p, w, m, 2)
  {
    var ws := RelativeMoveWrites(p, w, m.accel, m.decel, m.jerk);
    assert forall i :: 1 <= i < 8 ==> ws[i].reg == 1024 + i;
  }

  lemma FindHomeMotion(d: State, dropped: set<nat>, w: Words, m: Profile, bit: int)
    requires Exact(Words(Int16(d.Reg(1027)), Int16(d.Reg(1026))), w, m) && 0 <= bit <= 256
    requires MotionKept(FindHomeWrites(w, m.accel, m.decel, m.jerk, bit), dropped)
    ensures var ws := FindHomeWrites(w, m.accel, m.decel, m.jerk, bit);
      Shows(Delivered(d, ws, dropped, |ws|), bit, m)
  {
    var ws := FindHomeWrites(w, m.accel, m.decel, m.jerk, bit);
    assert forall n :: 0 <= n < |ws| && IsField(ws[n]) ==> n !in dropped;
    Settled(d, ws, dropped, 0, 1); Settled(d, ws, dropped, 0, 2); Settled(d, ws, dropped, 0, 3);
    Settled(d, ws, dropped, 0, 4); Settled(d, ws, dropped, 0, 5); Settled(d, ws, dropped, 0, 7);
    Untouched(d, ws, dropped, |ws|, 1026);
    Untouched(d, ws, dropped, |ws|, 1027);
    RegisterKeepsInt16(w.upper); RegisterKeepsInt16(w.lower);
    RegisterKeepsInt16(m.accel); RegisterKeepsInt16(m.decel); RegisterKeepsInt16(m.jerk);
  }

  /** Which write of a jog or relative move carries the jerk. */
  function JerkField(c: Command): nat { if c.Jog? then 9 else 8 }

  function PositionWords(c: Command): Words
    requires c.Jog? || c.RelativeMove?
  {
    if c.Jog? then Words(0, 0) else ConvertIntToWords(c.position)
  }

  lemma CommandLoads(c: Command)
    requires (c.Jog? || c.RelativeMove?) && c.Accepted()
    ensures var p, w := PositionWords(c), ConvertIntToWords(c.speed);
      && Loads(c.Writes(), 2, JerkField(c), p, w, c.Intended(), c.CommandBit())
      && Exact(p, w, c.Intended()) && c.Writes()[0] == Write(COMMAND, 0)
  {
    hide ConvertIntToWords, SplitInline, Loads;
    var p, w := PositionWords(c), ConvertIntToWords(c.speed);
    WordsRoundTrip(c.speed);
    if c.Jog? {
      InlineSplitAgrees(c.speed);
      JogLoads(p, w, c.Intended(), c.CommandBit());
    } else {
      WordsRoundTrip(c.position);
      RelativeMoveLoads(p, w, c.Intended());
    }
  }

  /** What the drive shows of a motion that arrived: the parameters of the call (homing leaves
      the position registers as they were). */
  function Shown(d: State, c: Command): Profile
    requires c.IsMotion()
  {
    if c.FindHome? then c.Intended().(position := Decode(d.Motion()).position) else c.Intended()
  }

  /** When the command bit appears, the motion registers hold this command's parameters, as
      long as neither was lost. */
  lemma CommandBitComesWithItsParameters(d: State, c: Command, dropped: set<nat>)
    requires c.IsMotion() && c.Accepted() && MotionKept(c.Writes(), dropped)
    ensures Shows(After(d, c, dropped, |c.Writes()|), c.CommandBit(), Shown(d, c))
  {
    hide ConvertIntToWords, Shows, Uint16, Int16, Loads, Exact, MotionKept;
    if c.FindHome? {
      HomingArrives(d, c, dropped);
    } else {
      CommandLoads(c);
      LoadedProfile(d, c.Writes(), dropped, 2, JerkField(c), PositionWords(c), ConvertIntToWords(c.speed),
                    c.Intended(), c.CommandBit());
    }
  }

  lemma HomingArrives(d: State, c: Command, dropped: set<nat>)
    requires c.FindHome? && c.Accepted() && MotionKept(c.Writes(), dropped)
    ensures Shows(After(d, c, dropped, |c.Writes()|), c.CommandBit(), Shown(d, c))
  {
    hide ConvertIntToWords, Shows, Uint16, Int16, MotionKept;
    WordsRoundTrip(c.speed);
    FindHomeMotion(d, dropped, ConvertIntToWords(c.speed), Shown(d, c), c.CommandBit());
  }

  /** A homing command does not clear the command register first: until its last write, the
      previous command stays in force while the motion registers change under it. */
  lemma HomingKeepsThePreviousCommand(d: State, c: Command, dropped: set<nat>, k: nat)
    requires c.FindHome? && k < |c.Writes()|
    ensures After(d, c, dropped, k).Reg(COMMAND) == d.Reg(COMMAND)
  {
    Untouched(d, c.Writes(), dropped, k, COMMAND);
  }

  // ---- torn commands ----

  /** The command bit appears with other parameters than the command's. */
  ghost predicate TornFrom(d: State, c: Command, dropped: set<nat>)
    requires c.IsMotion()
  {
    var after := After(d, c, dropped, |c.Writes()|);
    d.Reg(COMMAND) != c.CommandBit() && after.Reg(COMMAND) == c.CommandBit() && Decode(after.Motion()) != c.Intended()
  }

  /** A field of a program that writes it once, whether it is kept or not. */
  lemma FieldAfter(d: State, writes: seq<Write>, dropped: set<nat>, i: nat)
    requires WritesOnce(writes, 1) && 1 <= i < |writes| && writes[0].reg != writes[i].reg
    ensures Delivered(d, writes, dropped, |writes|).Reg(writes[i].reg)
      == if i in dropped then d.Reg(writes[i].reg) else Uint16(writes[i].value)
  {
    if i in dropped {
      Untouched(d, writes, dropped, |writes|, writes[i].reg);
    } else {
      LastWrite(d, writes, dropped, |writes|, i);
    }
  }

  /** A drive that holds the block, but for register r, which is off by one. */
  function OffByOne(b: Block, r: int): State
  {
    var regs := map[1026 := b.positionUpper, 1027 := b.positionLower, 1028 := b.speedUpper, 1029 := b.speedLower,
                    1030 := b.accel, 1031 := b.decel, 1033 := b.jerk];
    State(if r in regs then regs[r := Uint16(regs[r] + 1)] else regs, false, false, [])
  }

  lemma OffByOneDecodes(b: Block, r: int)
    requires 1026 <= r <= 1031 || r == 1033
    ensures Decode(OffByOne(b, r).Motion()) != Decode(b) && OffByOne(b, r).Reg(COMMAND) == 0
  {
    if r == 1026 { NextWordDiffers(b.positionUpper); }
    else if r == 1027 { NextWordDiffers(b.positionLower); }
    else if r == 1028 { NextWordDiffers(b.speedUpper); }
    else if r == 1029 { NextWordDiffers(b.speedLower); }
    else if r == 1030 { NextWordDiffers(b.accel); }
    else if r == 1031 { NextWordDiffers(b.decel); }
    else { NextWordDiffers(b.jerk); }
    hide Int16, Uint16;
  }

  lemma NextWordDiffers(w: int)
    requires 0 <= w < 0x1_0000
    ensures Int16(Uint16(w + 1)) != Int16(w)
  {
  }

  /** The block a program puts in place. */
  function BlockAt(writes: seq<Write>, i: nat, j: nat): Block
    requires i + 5 < |writes| && j < |writes|
  {
    Block(Uint16(writes[i].value), Uint16(writes[i + 1].value), Uint16(writes[i + 2].value),
          Uint16(writes[i + 3].value), Uint16(writes[i + 4].value), Uint16(writes[i + 5].value),
          Uint16(writes[j].value))
  }

  /** If only lost fields differ from the block, the drive keeps them different. */
  lemma LostFieldStays(writes: seq<Write>, dropped: set<nat>, i: nat, j: nat, lost: nat)
    requires LoadsMotion(writes, i, j) && writes[0].reg == COMMAND
    requires lost < |writes| && lost in dropped && IsField(writes[lost])
    ensures var d := OffByOne(BlockAt(writes, i, j), writes[lost].reg);
      Delivered(d, writes, dropped, |writes|).Motion() == d.Motion()
  {
    hide Uint16;
    var b := BlockAt(writes, i, j);
    var d := OffByOne(b, writes[lost].reg);
    FieldAfter(d, writes, dropped, i); FieldAfter(d, writes, dropped, i + 1); FieldAfter(d, writes, dropped, i + 2);
    FieldAfter(d, writes, dropped, i + 3); FieldAfter(d, writes, dropped, i + 4); FieldAfter(d, writes, dropped, i + 5);
    FieldAfter(d, writes, dropped, j);
  }

  /** The bit of a command whose last write is lost does not appear. */
  lemma LostBitStaysAway(d: State, c: Command, dropped: set<nat>)
    requires (c.Jog? || c.RelativeMove?) && !BitKept(c.Writes(), dropped) && d.Reg(COMMAND) != c.CommandBit()
    ensures After(d, c, dropped, |c.Writes()|).Reg(COMMAND) != c.CommandBit()
  {
    CommandBitStaysClear(d, c, dropped, |c.Writes()| - 1);
  }

  /** A jog or relative move can be torn exactly when its last write is kept and one that
      carries a parameter is lost. */
  lemma TornExactlyWhen(c: Command, dropped: set<nat>)
    requires (c.Jog? || c.RelativeMove?) && c.Accepted()
    ensures (exists d: State :: TornFrom(d, c, dropped)) <==>
      BitKept(c.Writes(), dropped) && FieldLost(c.Writes(), dropped)
  {
    hide Loads, Exact, ConvertIntToWords, SplitInline, Decode;
    var ws := c.Writes();
    forall d: State | TornFrom(d, c, dropped) ensures BitKept(ws, dropped) && FieldLost(ws, dropped) {
      if !BitKept(ws, dropped) { LostBitStaysAway(d, c, dropped); }
      else if !FieldLost(ws, dropped) { CommandBitComesWithItsParameters(d, c, dropped); }
    }
    if BitKept(ws, dropped) && FieldLost(ws, dropped) {
      var lost :| 0 <= lost < |ws| && IsField(ws[lost]) && lost in dropped;
      TornByALostField(c, dropped, lost);
    }
  }

  lemma TornByALostField(c: Command, dropped: set<nat>, lost: nat)
    requires (c.Jog? || c.RelativeMove?) && c.Accepted() && BitKept(c.Writes(), dropped)
    requires lost < |c.Writes()| && IsField(c.Writes()[lost]) && lost in dropped
    ensures var j := JerkField(c);
      |c.Writes()| > 9 && TornFrom(OffByOne(BlockAt(c.Writes(), 2, j), c.Writes()[lost].reg), c, dropped)
  {
    hide ConvertIntToWords, SplitInline, Decode, Uint16, Words.Recombined;
    var ws, j := c.Writes(), JerkField(c);
    CommandLoads(c);
    var d := OffByOne(BlockAt(ws, 2, j), ws[lost].reg);
    LostFieldStays(ws, dropped, 2, j, lost);
    OffByOneDecodes(BlockAt(ws, 2, j), ws[lost].reg);
    StoredMotion(PositionWords(c), ConvertIntToWords(c.speed), c.Intended());
    LastWrite(d, ws, dropped, |ws|, |ws| - 1);
    SmallUint16(c.CommandBit());
  }

  // ---- presets, configuration, running ----

  /** A preset puts the whole position in place before its command bit appears. */
  lemma PresetArrives(d: State, c: Command, k: nat)
    requires (c.PresetMotor? || c.PresetEncoder?) && c.Accepted() && k < |c.Writes()|
    ensures var after := AfterAll(d, c.Writes());
      && after.Reg(COMMAND) == (if c.PresetMotor? then 512 else 16384)
      && Words(Int16(after.Reg(1027)), Int16(after.Reg(1026))).Recombined() == c.position
    ensures After(d, c, {}, k).Reg(COMMAND) == d.Reg(COMMAND)
  {
    hide ConvertIntToWords, Uint16;
    WordsRoundTrip(c.position);
    var p, ws := ConvertIntToWords(c.position), c.Writes();
    Settled(d, ws, {}, 0, 1); Settled(d, ws, {}, 0, 2); Settled(d, ws, {}, 0, 3);
    RegisterKeepsInt16(p.upper); RegisterKeepsInt16(p.lower);
    SmallUint16(512); SmallUint16(16384);
    Untouched(d, ws, {}, k, COMMAND);
  }

  lemma SmallUint16(n: nat)
    requires n < 0x1_0000
    ensures Uint16(n) == n
  {
  }

  /** What the drive holds after an accepted configuration. */
  ghost predicate Configured(d: State, c: Command)
    requires c.SetConfiguration?
  {
    && d.Reg(COMMAND) == Uint16(c.controlWord) && d.Reg(1025) == Uint16(c.configWord)
    && Words(Int16(d.Reg(1027)), Int16(d.Reg(1026))).Recombined() == c.startingSpeed
    && d.Reg(1028) == c.stepsPerTurn && d.Reg(1030) == c.encoderPulses
    && d.Reg(1031) == c.idleCurrent && d.Reg(1032) == c.motorCurrent
  }

  /** A configuration arrives whole, but its control word comes second: all values that
      follow change under it. */
  lemma ConfigurationArrives(d: State, c: Command, k: nat)
    requires c.SetConfiguration? && c.Accepted() && k <= |c.Writes()|
    ensures Configured(AfterAll(d, c.Writes()), c)
    ensures After(d, c, {}, k).Reg(COMMAND) == if k < 2 then d.Reg(COMMAND) else Uint16(c.controlWord)
  {
    hide SplitInline, ConvertIntToWords, Uint16, Int16;
    InlineSplitAgrees(c.startingSpeed);
    WordsRoundTrip(c.startingSpeed);
    var w, ws := SplitInline(c.startingSpeed), c.Writes();
    Settled(d, ws, {}, 0, 0); Settled(d, ws, {}, 0, 1); Settled(d, ws, {}, 0, 2); Settled(d, ws, {}, 0, 3);
    Settled(d, ws, {}, 0, 4); Settled(d, ws, {}, 0, 5); Settled(d, ws, {}, 0, 6); Settled(d, ws, {}, 0, 7);
    RegisterKeepsInt16(w.upper); RegisterKeepsInt16(w.lower);
    SmallUint16(c.stepsPerTurn); SmallUint16(c.encoderPulses); SmallUint16(c.idleCurrent); SmallUint16(c.motorCurrent);
    if k < 2 { Untouched(d, ws, {}, k, COMMAND); } else { LastWrite(d, ws, {}, k, 1); }
  }

  /** A dwell time up to 65535 is in its register, and the kind of move in its own, when the
      run bit appears; the command register is left alone until then. */
  lemma RunArrives(d: State, c: Command, k: nat)
    requires c.RunAssembled? && c.Accepted() && 0 <= c.dwellTime <= 65535 && k < |c.Writes()|
    ensures var after := AfterAll(d, c.Writes());
      && after.Reg(COMMAND) == 8192 && after.Reg(1033) == c.dwellTime
      && after.Reg(1025) == (if c.moveType == Dwell then 33280 else if c.blendDirection == 0 then 32768 else 32784)
    ensures After(d, c, {}, k).Reg(COMMAND) == d.Reg(COMMAND)
  {
    var ws := c.Writes();
    Settled(d, ws, {}, 0, 0); Settled(d, ws, {}, 0, 1); Settled(d, ws, {}, 0, 2);
    Untouched(d, ws, {}, k, COMMAND);
  }

  /** Stops, enabling, disabling and resetting leave the motion registers as they were (so a
      hold decelerates with the profile in force) and end the program mode; only disabling
      lowers the enable bit. */
  lemma PlainCommandsKeepTheProfile(d: State, c: Command)
    requires c.HoldMove? || c.ImmediateStop? || c.DriveEnable? || c.DriveDisable? || c.ResetErrors?
    ensures var after := AfterAll(d, c.Writes());
      && after.Motion() == d.Motion() && after.program == d.program && !after.programming && !after.ready
      && after.Reg(1025) == (if c.DriveDisable? then 0 else 32768)
      && after.Reg(COMMAND) == match c
           case HoldMove => 4 case ImmediateStop => 16 case ResetErrors => 1024 case _ => 0
  {
    var ws := c.Writes();
    Untouched(d, ws, {}, |ws|, 1026); Untouched(d, ws, {}, |ws|, 1027); Untouched(d, ws, {}, |ws|, 1028);
    Untouched(d, ws, {}, |ws|, 1029);
    Untouched(d, ws, {}, |ws|, 1030); Untouched(d, ws, {}, |ws|, 1031); Untouched(d, ws, {}, |ws|, 1033);
    assert AfterAll(d, ws) == Delivered(d, ws, {}, |ws| - 1).Written(ws[|ws| - 1]);
    if |ws| == 3 {
      assert Delivered(d, ws, {}, 2) == Delivered(d, ws, {}, 1).Written(ws[1]);
    }
    assert Delivered(d, ws, {}, 1) == d.Written(ws[0]);
  }

  /** Loading the configuration clears the whole motion profile. */
  lemma LoadingClearsTheProfile(d: State)
    ensures var after := AfterAll(d, LoadConfiguration.Writes());
      after.Motion() == Block(0, 0, 0, 0, 0, 0, 0) && after.Reg(COMMAND) == 32768 && after.Reg(1025) == 34816
  {
    var ws := LoadConfiguration.Writes();
    assert forall i :: 2 <= i < 10 ==> ws[i].reg == 1024 + i && ws[i].value == 0;
    Settled(d, ws, {}, 0, 0); Settled(d, ws, {}, 0, 1); Settled(d, ws, {}, 0, 2); Settled(d, ws, {}, 0, 3);
    Settled(d, ws, {}, 0, 4);
    Settled(d, ws, {}, 0, 5); Settled(d, ws, {}, 0, 6); Settled(d, ws, {}, 0, 7); Settled(d, ws, {}, 0, 9);
  }

  // ---- range safety ----

  /** The last value a program writes to a register, before it is cut to 16 bits. */
  function Field(writes: seq<Write>, r: int): int
  {
    if writes == [] then 0
    else if writes[|writes| - 1].reg == r then writes[|writes| - 1].value
    else Field(writes[..|writes| - 1], r)
  }

  /** What may go out under the name of a motion command. */
  predicate WireSafe(f: Frame) {
    f.name == "jog" || f.name == "relative_move" || f.name == "find_home" ==>
      && 1 <= Field(f.writes, 1030) <= 5000
      && 1 <= Field(f.writes, 1031) <= 5000
      && 0 <= Field(f.writes, 1033) <= 5000
      && 0 <= 1000 * Field(f.writes, 1028) + Field(f.writes, 1029) <= 2999999
      && -8388607 <= 1000 * Field(f.writes, 1026) + Field(f.writes, 1027) <= 8388607
  }

  lemma {:induction false} FieldIs(writes: seq<Write>, i: nat)
    requires i < |writes|
    requires forall j :: i < j < |writes| ==> writes[j].reg != writes[i].reg
    ensures Field(writes, writes[i].reg) == writes[i].value
    decreases |writes|
  {
    if i < |writes| - 1 { FieldIs(writes[..|writes| - 1], i); }
  }

  lemma {:induction false} FieldAbsent(writes: seq<Write>, r: int)
    requires forall j :: 0 <= j < |writes| ==> writes[j].reg != r
    ensures Field(writes, r) == 0
    decreases |writes|
  {
    if writes != [] { FieldAbsent(writes[..|writes| - 1], r); }
  }

  lemma JogFields(p: Words, w: Words, accel: int, decel: int, jerk: int, bit: int)
    ensures var ws := JogWrites(p, w, accel, decel, jerk, bit);
      && Field(ws, 1026) == p.upper && Field(ws, 1027) == p.lower && Field(ws, 1028) == w.upper
           && Field(ws, 1029) == w.lower
      && Field(ws, 1030) == accel && Field(ws, 1031) == decel && Field(ws, 1033) == jerk
  {
    var ws := JogWrites(p, w, accel, decel, jerk, bit);
    FieldIs(ws, 2); FieldIs(ws, 3); FieldIs(ws, 4); FieldIs(ws, 5); FieldIs(ws, 6); FieldIs(ws, 7); FieldIs(ws, 9);
  }

  lemma RelativeMoveFields(p: Words, w: Words, accel: int, decel: int, jerk: int)
    ensures var ws := RelativeMoveWrites(p, w, accel, decel, jerk);
      && Field(ws, 1026) == p.upper && Field(ws, 1027) == p.lower && Field(ws, 1028) == w.upper
      && Field(ws, 1029) == w.lower && Field(ws, 1030) == accel && Field(ws, 1031) == decel && Field(ws, 1033) == jerk
  {
    var ws := RelativeMoveWrites(p, w, accel, decel, jerk);
    FieldIs(ws, 2); FieldIs(ws, 3); FieldIs(ws, 4); FieldIs(ws, 5); FieldIs(ws, 6); FieldIs(ws, 7); FieldIs(ws, 8);
  }

  lemma FindHomeFields(w: Words, accel: int, decel: int, jerk: int, bit: int)
    ensures var ws := FindHomeWrites(w, accel, decel, jerk, bit);
      && Field(ws, 1026) == 0 && Field(ws, 1027) == 0 && Field(ws, 1028) == w.upper && Field(ws, 1029) == w.lower
      && Field(ws, 1030) == accel && Field(ws, 1031) == decel && Field(ws, 1033) == jerk
  {
    var ws := FindHomeWrites(w, accel, decel, jerk, bit);
    FieldAbsent(ws, 1026); FieldAbsent(ws, 1027);
    FieldIs(ws, 1); FieldIs(ws, 2); FieldIs(ws, 3); FieldIs(ws, 4); FieldIs(ws, 5);
  }

  /** Nothing out of range is ever sent as a motion command. */
  lemma AcceptedIsWireSafe(c: Command)
    requires c.Accepted()
    ensures WireSafe(Frame(c.Name(), c.Writes()))
  {
    match c
    case Jog(direction, accel, decel, jerk, speed) =>
      InlineSplitAgrees(speed);
      WordsRoundTrip(speed);
      JogFields(Words(0, 0), SplitInline(speed), accel, decel, jerk, c.CommandBit());
    case RelativeMove(position, accel, decel, jerk, speed) =>
      WordsRoundTrip(speed);
      WordsRoundTrip(position);
      RelativeMoveFields(ConvertIntToWords(position), ConvertIntToWords(speed), accel, decel, jerk);
    case FindHome(direction, speed, accel, decel, jerk) =>
      WordsRoundTrip(speed);
      FindHomeFields(ConvertIntToWords(speed), accel, decel, jerk, c.CommandBit());
    case _ => MotionNames(c);
  }

  lemma MotionNames(c: Command)
    ensures c.Name() == "jog" <==> c.Jog?
    ensures c.Name() == "relative_move" <==> c.RelativeMove?
    ensures c.Name() == "find_home" <==> c.FindHome?
    ensures c.Name() == "run_assembled_move" <==> c.RunAssembled?
  {
    var n := c.Name();
    assert |n| == match c
      case Jog(_, _, _, _, _) => 3 case FindHome(_, _, _, _, _) => 9 case RelativeMove(_, _, _, _, _) => 13
      case SetConfiguration(_, _, _, _, _, _, _) => 17 case PresetEncoder(_) => 14 case PresetMotor(_) => 12
      case DriveEnable => 12 case DriveDisable => 13 case HoldMove => 9 case ImmediateStop => 14
      case ResetErrors => 12 case LoadConfiguration => 18 case RunAssembled(_, _, _, _) => 18;
    assert n[0] == match c
      case Jog(_, _, _, _, _) => 'j' case FindHome(_, _, _, _, _) => 'f' case RelativeMove(_, _, _, _, _) => 'r'
      case SetConfiguration(_, _, _, _, _, _, _) => 's' case PresetEncoder(_) => 'p' case PresetMotor(_) => 'p'
      case DriveEnable => 'd' case DriveDisable => 'd' case HoldMove => 'h' case ImmediateStop => 'i'
      case ResetErrors => 'r' case LoadConfiguration => 'l' case RunAssembled(_, _, _, _) => 'r';
  }
}
