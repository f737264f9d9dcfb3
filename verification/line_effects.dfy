/** From a client's line to the registers of the drive and the answer: what each command of
    the protocol does, in the protocol's own words and the drive's own numbers. */
module LineEffects {
  import opened CArithmetic
  import opened Text
  import opened Utilities
  import opened Registers
  import opened Readback
  import opened Drive
  import opened Modbus
  import opened Delivery
  import opened MotorCommands
  import opened WireValues
  import opened ProgramMode
  import opened Dispatch
  import opened Recognition
  import opened Session

  /** The words a client sends. */
  function ClientWord(k: Keyword, counterClockwise: bool): string
    requires Arity(k) > 0
  {
    match k
    case JogKey => if counterClockwise then "jogCCW" else "jogCW"
    case HomeKey => if counterClockwise then "homeCCW" else "homeCW"
    case SaveKey => "saveConfig"
    case RelativeKey => "relativeMove"
    case MotorKey => "presetMotorPosition"
    case EncoderKey => "presetEncoderPosition"
    case DwellKey => "runAssembledDwellMove"
    case BlendKey => "runAssembledBlendMove"
  }

  /** Event e is a word and its parameters. */
  ghost predicate Says(e: Event, k: Keyword, counterClockwise: bool, v: seq<int>) {
    && Arity(k) > 0 && (counterClockwise ==> Directed(k))
    && (forall i :: 0 <= i < |v| ==> FitsInt32(v[i]))
    && e.Line? && e.text == CommandLine(ClientWord(k, counterClockwise), v)
  }

  lemma SaidIsParsed(e: Event, k: Keyword, counterClockwise: bool, v: seq<int>)
    requires Says(e, k, counterClockwise, v) && |v| == Arity(k) - 1
    ensures RequestOf(e.text) == Build(k, counterClockwise, v)
  {
    hide RequestOf, Build, CommandLine;
    assert ClientWord(k, counterClockwise) == WordOf(k, counterClockwise);
    CommandLineParsed(k, counterClockwise, v);
  }

  /** A line with another number of parameters is answered as invalid, and does nothing. */
  lemma WrongNumberOfParameters(s: Status, k: Keyword, counterClockwise: bool, v: seq<int>, e: Event)
    requires IsIdle(s) && s.clientOpen && Says(e, k, counterClockwise, v) && v != [] && |v| != Arity(k) - 1
    ensures Served(s, e) == Told(s, [Answer(InvalidParameter)], e.writeOk)
  {
    hide KeywordOf, Contains, CounterClockwiseIn, Build, CommandLine, TokenCount, Parameters, WordOf;
    var word := WordOf(k, counterClockwise);
    assert ClientWord(k, counterClockwise) == word by { SameWord(k, counterClockwise); }
    WordsArePlain(k, counterClockwise);
    CommandLineShape(word, v);
    WordRecognised(k, counterClockwise, Join(Printed(v)) + "\n");
    ParametersRoundTrip(word, v);
  }

  lemma SameWord(k: Keyword, counterClockwise: bool)
    requires Arity(k) > 0
    ensures ClientWord(k, counterClockwise) == WordOf(k, counterClockwise)
  {
  }

  /** Exactly one frame more went out, under this name. */
  ghost predicate OneMore(s: Status, t: Status, name: string) {
    && |t.link.log| == |s.link.log| + 1 && s.link.log <= t.link.log && t.link.log[|s.link.log|].name == name
  }

  // ---- motions ----

  function MotionName(k: Keyword): string {
    match k case JogKey => "jog" case HomeKey => "find_home" case _ => "relative_move"
  }

  /** What a motion line sets, by its word: the command bit. */
  function BitFor(k: Keyword, counterClockwise: bool): int {
    match k
    case JogKey => if counterClockwise then 256 else 128
    case HomeKey => if counterClockwise then 64 else 32
    case _ => 2
  }

  /** ... and the motion registers, from its parameters in the order the client sends them. */
  predicate MotionSet(d: State, before: State, k: Keyword, v: seq<int>)
    requires (k == JogKey || k == HomeKey || k == RelativeKey) && |v| == Arity(k) - 1
  {
    match k
    case JogKey => Carries(d, 0, v[3], v[0] % 65536, v[1] % 65536, v[2] % 65536)
    case HomeKey => Carries(d, Thousands(before.Reg(1026), before.Reg(1027)), v[0],
                            v[1] % 65536, v[2] % 65536, v[3] % 65536)
    case RelativeKey => Carries(d, v[0], v[4], v[1] % 65536, v[2] % 65536, v[3] % 65536)
  }

  /** The writes a motion line can do without: all but those that carry a parameter or the bit. */
  function MotionMeant(k: Keyword, counterClockwise: bool, v: seq<int>): (c: Command)
    requires (k == JogKey || k == HomeKey || k == RelativeKey) && |v| == Arity(k) - 1
    ensures c.IsMotion()
  {
    Build(k, counterClockwise, v).command
  }

  /** A motion line in an idle session, when the next connection comes up. In range after the
      cut, it is sent, and the client told of success whatever becomes of the writes; the drive
      then has its bit and its parameters, unless one of these is lost. Out of range, nothing is
      sent and the client is told the parameter is invalid. */
  ghost predicate Carried(s: Status, k: Keyword, counterClockwise: bool, v: seq<int>, t: Status, ok: bool)
    requires (k == JogKey || k == HomeKey || k == RelativeKey) && |v| == Arity(k) - 1
    requires ConnectsFirst(s.link.pending)
  {
    var dropped := s.link.pending[0].dropped;
    if InRangeAfterCut(k, v) then
      && t == Told(s.(link := t.link), [Answer(CommandSuccess)], ok) && OneMore(s, t, MotionName(k))
      && (MotionKept(MotionMeant(k, counterClockwise, v).Writes(), dropped) ==>
            t.link.drive.Reg(1024) == BitFor(k, counterClockwise) && MotionSet(t.link.drive, s.link.drive, k, v))
      && (dropped == {} ==>
            && t.link.drive.Reg(1024) == BitFor(k, counterClockwise) && MotionSet(t.link.drive, s.link.drive, k, v)
            && t.link.drive.Reg(1025) == 32768)
    else t == Told(s, [Answer(InvalidParameter)], ok)
  }

  lemma MotionOnTheWire(d: State, k: Keyword, counterClockwise: bool, v: seq<int>, dropped: set<nat>)
    requires (k == JogKey || k == HomeKey || k == RelativeKey) && |v| == Arity(k) - 1
    requires counterClockwise ==> Directed(k)
    requires InRangeAfterCut(k, v) && MotionMeant(k, counterClockwise, v).Accepted()
    requires MotionKept(MotionMeant(k, counterClockwise, v).Writes(), dropped)
    ensures var c := MotionMeant(k, counterClockwise, v);
      var after := After(d, c, dropped, |c.Writes()|);
      after.Reg(1024) == BitFor(k, counterClockwise) && MotionSet(after, d, k, v)
  {
    hide Command.Accepted, Command.Writes, MotionKept, Int16, Carries, State.Reg, Thousands;
    var way := if counterClockwise then 1 else 0;
    match k {
      case JogKey =>
        SmallCut(v[0]); SmallCut(v[1]); SmallCut(v[2]);
        JogOnTheWire(d, way, Int16(v[0]), Int16(v[1]), Int16(v[2]), v[3], dropped);
      case HomeKey =>
        SmallCut(v[1]); SmallCut(v[2]); SmallCut(v[3]);
        HomingOnTheWire(d, way, v[0], Int16(v[1]), Int16(v[2]), Int16(v[3]), dropped);
      case RelativeKey =>
        SmallCut(v[1]); SmallCut(v[2]); SmallCut(v[3]);
        RelativeMoveOnTheWire(d, v[0], Int16(v[1]), Int16(v[2]), Int16(v[3]), v[4], dropped);
    }
  }

  lemma SmallCut(n: int)
    ensures n % 65536 <= 5000 ==> Int16(n) == n % 65536
  {
  }

  lemma MotionNamed(k: Keyword, counterClockwise: bool, v: seq<int>)
    requires (k == JogKey || k == HomeKey || k == RelativeKey) && |v| == Arity(k) - 1
    ensures MotionMeant(k, counterClockwise, v).Name() == MotionName(k)
  {
  }

  lemma MotionIssued(s: Status, k: Keyword, counterClockwise: bool, v: seq<int>, ok: bool)
    requires (k == JogKey || k == HomeKey || k == RelativeKey) && |v| == Arity(k) - 1
    requires counterClockwise ==> Directed(k)
    requires ConnectsFirst(s.link.pending)
    requires MotionMeant(k, counterClockwise, v).Accepted() <==> InRangeAfterCut(k, v)
    ensures var (t, code) := Issued(s, MotionMeant(k, counterClockwise, v));
      Carried(s, k, counterClockwise, v, Answered(t, code, ok), ok)
  {
    hide Command.Accepted, Command.Writes, MotionKept, MotionSet, Delivered, InRangeAfterCut, State.Reg, Build,
      Command.Name;
    var c := MotionMeant(k, counterClockwise, v);
    MotionNamed(k, counterClockwise, v);
    if c.Accepted() {
      CommandsAreSendable(c);
      var dropped := s.link.pending[0].dropped;
      NothingLost(c);
      if MotionKept(c.Writes(), dropped) { MotionOnTheWire(s.link.drive, k, counterClockwise, v, dropped); }
      if dropped == {} { EnabledAfter(s.link.drive, c); }
    }
  }

  lemma MotionLineReachesTheDrive(s: Status, k: Keyword, counterClockwise: bool, v: seq<int>, e: Event)
    requires IsIdle(s) && s.clientOpen && ConnectsFirst(s.link.pending)
    requires (k == JogKey || k == HomeKey || k == RelativeKey) && |v| == Arity(k) - 1
    requires Says(e, k, counterClockwise, v)
    ensures Carried(s, k, counterClockwise, v, Served(s, e), e.writeOk)
  {
    hide RequestOf, CommandLine, Carried, Issued, Answered, Int16, InRangeAfterCut, Command.Accepted;
    SaidIsParsed(e, k, counterClockwise, v);
    SaidIsAcceptedInRange(e, k, counterClockwise, v);
    MotionIssued(s, k, counterClockwise, v, e.writeOk);
  }

  lemma SaidIsAcceptedInRange(e: Event, k: Keyword, counterClockwise: bool, v: seq<int>)
    requires Says(e, k, counterClockwise, v) && |v| == Arity(k) - 1 && k != DwellKey && k != BlendKey
    ensures RequestOf(e.text).Direct? && (RequestOf(e.text).command.Accepted() <==> InRangeAfterCut(k, v))
  {
    hide RequestOf, CommandLine, InRangeAfterCut, Command.Accepted, WordOf, ClientWord;
    SameWord(k, counterClockwise);
    AcceptedAfterCut(k, counterClockwise, v);
  }

  // ---- presets and configuration ----

  /** What the registers hold after a preset or a configuration. */
  predicate SettingSet(d: State, k: Keyword, v: seq<int>)
    requires (k == SaveKey || k == MotorKey || k == EncoderKey) && |v| == Arity(k) - 1
  {
    match k
    case SaveKey =>
      && d.Reg(1024) == v[0] % 65536 && d.Reg(1025) == v[1] % 65536
      && Thousands(d.Reg(1026), d.Reg(1027)) == v[2] && d.Reg(1028) == v[3] % 65536
      && d.Reg(1030) == 1024 && d.Reg(1031) == v[5] % 65536 && d.Reg(1032) == v[6] % 65536
    case MotorKey => d.Reg(1024) == 512 && d.Reg(1025) == 32768 && Thousands(d.Reg(1026), d.Reg(1027)) == v[0]
    case EncoderKey => d.Reg(1024) == 16384 && d.Reg(1025) == 32768 && Thousands(d.Reg(1026), d.Reg(1027)) == v[0]
  }

  function SettingName(k: Keyword): string {
    match k case SaveKey => "set_configuration" case MotorKey => "preset_motor" case _ => "preset_encoder"
  }

  /** The two answers: it connected, or not. */
  function SettingAnswer(k: Keyword, connected: bool): Response {
    match k
    case SaveKey => if connected then SaveConfigSuccess else SaveConfigFail
    case MotorKey => if connected then PresetPosSuccess else PresetPosFail
    case _ => if connected then PresetEncSuccess else PresetEncFail
  }

  ghost predicate Set(s: Status, k: Keyword, v: seq<int>, t: Status, ok: bool)
    requires (k == SaveKey || k == MotorKey || k == EncoderKey) && |v| == Arity(k) - 1
  {
    if InRangeAfterCut(k, v) then
      && t == Told(s.(link := t.link), [Answer(SettingAnswer(k, ConnectsFirst(s.link.pending)))], ok)
      && (NextWorks(s.link) ==> SettingSet(t.link.drive, k, v) && OneMore(s, t, SettingName(k)))
    else t == Told(s, [Answer(InvalidParameter)], ok)
  }

  lemma PresetOnTheWire(d: State, c: Command)
    requires (c.PresetMotor? || c.PresetEncoder?) && c.Accepted()
    ensures var after := AfterAll(d, c.Writes());
      && after.Reg(1024) == (if c.PresetMotor? then 512 else 16384) && after.Reg(1025) == 32768
      && Thousands(after.Reg(1026), after.Reg(1027)) == c.position
  {
    hide Int16, State.Reg, Delivered;
    PresetArrives(d, c, 0);
    EnabledAfter(d, c);
    SignedRegisters(AfterAll(d, c.Writes()));
  }

  lemma ConfigurationOnTheWire(d: State, v: seq<int>)
    requires |v| == 7 && Build(SaveKey, false, v).command.Accepted() && InRangeAfterCut(SaveKey, v)
    ensures SettingSet(AfterAll(d, Build(SaveKey, false, v).command.Writes()), SaveKey, v)
  {
    hide State.Reg, Delivered, Command.Writes, Command.Accepted, Int16, AfterAll;
    var c := Build(SaveKey, false, v).command;
    var after := AfterAll(d, c.Writes());
    ConfigurationArrives(d, c, 0);
    SignedRegisters(after);
    CutStays(v[3]); CutStays(v[4]); CutStays(v[5]); CutStays(v[6]);
  }

  lemma CutStays(n: int)
    ensures n % 65536 <= 32767 ==> Int16(n) == n % 65536
  {
  }

  lemma SettingAnswers(k: Keyword, v: seq<int>)
    requires (k == SaveKey || k == MotorKey || k == EncoderKey) && |v| == Arity(k) - 1
    ensures Build(k, false, v).Direct?
    ensures var c := Build(k, false, v).command;
      && c.Name() == SettingName(k)
      && c.Code(CommandSuccess) == SettingAnswer(k, true) && c.Code(CommandFailed) == SettingAnswer(k, false)
    ensures forall up :: !IsSilent(SettingAnswer(k, up)) && SettingAnswer(k, up) != ReadyForAssembledMove
                         && SettingAnswer(k, up) != InvalidInput
  {
  }

  lemma SettingIssued(s: Status, k: Keyword, v: seq<int>, ok: bool)
    requires (k == SaveKey || k == MotorKey || k == EncoderKey) && |v| == Arity(k) - 1
    requires Build(k, false, v).Direct? && (Build(k, false, v).command.Accepted() <==> InRangeAfterCut(k, v))
    ensures var (t, code) := Issued(s, Build(k, false, v).command); Set(s, k, v, Answered(t, code, ok), ok)
  {
    hide Command.Accepted, Command.Writes, Command.Name, Command.Code, Build, SettingName, SettingAnswer, SettingSet,
      Delivered, Send, InRangeAfterCut, State.Reg, IsSilent;
    SettingAnswers(k, v);
    SpokenCodesAreNot();
    var c := Build(k, false, v).command;
    if c.Accepted() && NextWorks(s.link) {
      IssuedWhole(s.link, c);
      SettingOnTheWire(s.link.drive, k, v);
    }
  }

  lemma SpokenCodesAreNot()
    ensures !IsSilent(InvalidParameter)
  {
  }

  lemma SettingOnTheWire(d: State, k: Keyword, v: seq<int>)
    requires (k == SaveKey || k == MotorKey || k == EncoderKey) && |v| == Arity(k) - 1
    requires Build(k, false, v).command.Accepted() && InRangeAfterCut(k, v)
    ensures SettingSet(AfterAll(d, Build(k, false, v).command.Writes()), k, v)
  {
    hide Command.Accepted, Command.Writes, Delivered, AfterAll, State.Reg, Int16, Thousands;
    match k {
      case SaveKey => ConfigurationOnTheWire(d, v);
      case MotorKey => PresetOnTheWire(d, PresetMotor(v[0]));
      case EncoderKey => PresetOnTheWire(d, PresetEncoder(v[0]));
    }
  }

  /** Presets and configurations, whether the drive is reached or not. */
  lemma SettingLineReachesTheDrive(s: Status, k: Keyword, v: seq<int>, e: Event)
    requires IsIdle(s) && s.clientOpen
    requires (k == SaveKey || k == MotorKey || k == EncoderKey) && |v| == Arity(k) - 1
    requires Says(e, k, false, v)
    ensures Set(s, k, v, Served(s, e), e.writeOk)
  {
    hide RequestOf, CommandLine, Set, Issued, Answered, Int16, InRangeAfterCut, Command.Accepted;
    SaidIsParsed(e, k, false, v);
    SaidIsAcceptedInRange(e, k, false, v);
    SettingIssued(s, k, v, e.writeOk);
  }

  // ---- runs of assembled moves ----

  /** A run went out: register 1025 says which, 1033 the dwell time, and 1024 starts it. */
  ghost predicate Ran(s: Status, t: Status, which: int, dwell: int, ok: bool) {
    && t == Told(s.(link := t.link), [Answer(CommandSuccess)], ok) && OneMore(s, t, "run_assembled_move")
    && t.link.drive.Reg(1025) == which && t.link.drive.Reg(1033) == dwell && t.link.drive.Reg(1024) == 8192
  }

  ghost predicate Refused(s: Status, t: Status, ok: bool) { t == Told(s, [Answer(InvalidParameter)], ok) }

  /** A dwell line runs exactly when the latest profile is a dwell and the time is 0..65535; a
      blend line exactly when it is a blend and the direction, modulo 65536, is 0 or 1. */
  lemma RunLineIsGated(s: Status, n: int, dwell: Event, blend: Event)
    requires IsIdle(s) && s.clientOpen && NextWorks(s.link)
    requires Says(dwell, DwellKey, false, [n]) && Says(blend, BlendKey, false, [n])
    ensures if s.moveType == Dwell && 0 <= n <= 65535 then Ran(s, Served(s, dwell), 33280, n, dwell.writeOk)
            else Refused(s, Served(s, dwell), dwell.writeOk)
    ensures if s.moveType == Blend && n % 65536 <= 1 then
              Ran(s, Served(s, blend), if n % 65536 == 0 then 32768 else 32784, 0, blend.writeOk)
            else Refused(s, Served(s, blend), blend.writeOk)
  {
    hide RequestOf, CommandLine, Issued, Ran, Refused, Int16;
    assert FitsInt32([n][0]);
    SaidIsParsed(dwell, DwellKey, false, [n]);
    SaidIsParsed(blend, BlendKey, false, [n]);
    CutBy(n);
    if 0 <= n <= 65535 { DwellIssued(s, n, dwell.writeOk); }
    BlendDirection(n);
    if n % 65536 <= 1 { BlendIssued(s, n % 65536, blend.writeOk); }
    hide Served;
    RefusedIs(s, dwell);
    RefusedIs(s, blend);
  }

  lemma BlendDirection(n: int)
    ensures 0 <= Int16(n) <= 1 <==> n % 65536 <= 1
    ensures 0 <= Int16(n) <= 1 ==> Int16(n) == n % 65536
  {
  }

  lemma RefusedIs(s: Status, e: Event)
    requires IsIdle(s) && s.clientOpen && e.Line?
    ensures RequestOf(e.text) == BadParameter ==> Refused(s, Served(s, e), e.writeOk)
  {
    hide RequestOf;
  }

  lemma DwellIssued(s: Status, n: int, ok: bool)
    requires NextWorks(s.link) && 0 <= n <= 65535
    ensures var (t, code) := Issued(s, RunAssembled(0, n, Dwell, s.moveType));
      var u := Answered(t, code, ok);
      if s.moveType == Dwell then Ran(s, u, 33280, n, ok) else Refused(s, u, ok)
  {
    hide Send, Delivered, Command.Writes;
    var c := RunAssembled(0, n, Dwell, s.moveType);
    if s.moveType == Dwell {
      IssuedWhole(s.link, c);
      DwellOnTheWire(s.link.drive, n);
    }
  }

  lemma DwellOnTheWire(d: State, n: int)
    requires 0 <= n <= 65535
    ensures var after := AfterAll(d, RunAssembled(0, n, Dwell, Dwell).Writes());
      after.Reg(1025) == 33280 && after.Reg(1033) == n && after.Reg(1024) == 8192
  {
    RunArrives(d, RunAssembled(0, n, Dwell, Dwell), 0);
  }

  lemma BlendOnTheWire(d: State, n: int)
    requires 0 <= n <= 1
    ensures var after := AfterAll(d, RunAssembled(n, 0, Blend, Blend).Writes());
      after.Reg(1025) == (if n == 0 then 32768 else 32784) && after.Reg(1033) == 0 && after.Reg(1024) == 8192
  {
    RunArrives(d, RunAssembled(n, 0, Blend, Blend), 0);
  }

  lemma BlendIssued(s: Status, n: int, ok: bool)
    requires NextWorks(s.link) && 0 <= n <= 1
    ensures var (t, code) := Issued(s, RunAssembled(n, 0, Blend, s.moveType));
      var u := Answered(t, code, ok);
      if s.moveType == Blend then Ran(s, u, if n == 0 then 32768 else 32784, 0, ok) else Refused(s, u, ok)
  {
    hide Send, Delivered, Command.Writes;
    var c := RunAssembled(n, 0, Blend, s.moveType);
    if s.moveType == Blend {
      IssuedWhole(s.link, c);
      BlendOnTheWire(s.link.drive, n);
    }
  }

  // ---- bare commands ----

  /** What a bare command does: its name in the log, what it leaves in registers 1024 and 1025,
      and the answers if it connected, or not. */
  datatype Doing = Doing(name: string, command: int, enable: int, good: Response, bad: Response)

  const ENABLING := Doing("drive_enable", 0, 32768, EnableSuccess, CommandFailed)
  const DISABLING := Doing("drive_disable", 0, 0, DisableSuccess, CommandFailed)
  const HOLDING := Doing("hold_move", 4, 32768, CommandSuccess, CommandFailed)
  const STOPPING := Doing("immediate_stop", 16, 32768, CommandSuccess, CommandFailed)
  const RESETTING := Doing("reset_errors", 1024, 32768, CommandSuccess, CommandFailed)
  const LOADING := Doing("load_configuration", 32768, 34816, ReadyToReadConfig, ReadCurrentConfigFail)

  /** A bare command, from one state of the session to the next. It also ends the program mode. */
  ghost predicate Bare(s: Status, t: Status, x: Doing, ok: bool) {
    && t == Told(s.(link := t.link), [Answer(if ConnectsFirst(s.link.pending) then x.good else x.bad)], ok)
    && (NextWorks(s.link) ==>
          && t.link.drive.Reg(1024) == x.command && t.link.drive.Reg(1025) == x.enable
          && !t.link.drive.programming && OneMore(s, t, x.name))
  }

  /** The command behind it. */
  predicate Does(c: Command, x: Doing) {
    match c
    case DriveEnable => x == ENABLING
    case DriveDisable => x == DISABLING
    case HoldMove => x == HOLDING
    case ImmediateStop => x == STOPPING
    case ResetErrors => x == RESETTING
    case LoadConfiguration => x == LOADING
    case _ => false
  }

  lemma LoadEndsProgram(d: State)
    ensures !AfterAll(d, LoadConfiguration.Writes()).programming
  {
    var ws := LoadConfiguration.Writes();
    assert !Delivered(d, ws, {}, 2).programming by {
      assert Delivered(d, ws, {}, 2) == Delivered(d, ws, {}, 1).Written(ws[1]);
    }
    StaysOut(d, ws, 10);
  }

  /** Writes to other registers do not bring the program mode back. */
  lemma {:induction false} StaysOut(d: State, writes: seq<Write>, k: nat)
    requires 2 <= k <= |writes| && !Delivered(d, writes, {}, 2).programming
    requires forall i :: 2 <= i < k ==> writes[i].reg != COMMAND
    ensures !Delivered(d, writes, {}, k).programming
  {
    if k > 2 { StaysOut(d, writes, k - 1); }
  }

  lemma BareLeaves(d: State, c: Command, x: Doing)
    requires Does(c, x)
    ensures var after := AfterAll(d, c.Writes());
      after.Reg(1024) == x.command && after.Reg(1025) == x.enable && !after.programming
  {
    hide AfterAll, State.Reg;
    if c.LoadConfiguration? {
      LoadingClearsTheProfile(d);
      LoadEndsProgram(d);
    } else {
      PlainCommandsKeepTheProfile(d, c);
    }
  }

  lemma BareAnswers(c: Command, x: Doing)
    requires Does(c, x)
    ensures c.Accepted() && c.Name() == x.name && c.Code(CommandSuccess) == x.good && c.Code(CommandFailed) == x.bad
    ensures !IsSilent(x.good) && x.good != ReadyForAssembledMove && x.good != InvalidInput
    ensures !IsSilent(x.bad) && x.bad != ReadyForAssembledMove && x.bad != InvalidInput
  {
  }

  lemma BareIssued(s: Status, c: Command, x: Doing, ok: bool)
    requires Does(c, x)
    ensures var (t, code) := Issued(s, c); Bare(s, Answered(t, code, ok), x, ok)
  {
    hide Does, Send, Delivered, Command.Writes, Command.Accepted, Command.Code, Command.Name, State.Reg, AfterAll;
    BareLeaves(s.link.drive, c, x);
    BareAnswers(c, x);
    if NextWorks(s.link) { IssuedWhole(s.link, c); }
  }

  /** The six bare commands that write registers, from the line. */
  lemma EnableLines(s: Status, e: Event)
    requires IsIdle(s) && s.clientOpen && e.Line? && NoSearchedWord(e.text)
    ensures "driveEnable" <= e.text ==> Bare(s, Served(s, e), ENABLING, e.writeOk)
    ensures "driveDisable" <= e.text ==> Bare(s, Served(s, e), DISABLING, e.writeOk)
  {
    hide RequestOf, NoSearchedWord, Bare, Served;
    if "driveEnable" <= e.text { EnableLine(e.text); BareServed(s, e, DriveEnable, ENABLING); }
    if "driveDisable" <= e.text { DisableLine(e.text); BareServed(s, e, DriveDisable, DISABLING); }
  }

  lemma StopLines(s: Status, e: Event)
    requires IsIdle(s) && s.clientOpen && e.Line? && NoSearchedWord(e.text)
    ensures "holdMove" <= e.text ==> Bare(s, Served(s, e), HOLDING, e.writeOk)
    ensures "immedStop" <= e.text ==> Bare(s, Served(s, e), STOPPING, e.writeOk)
  {
    hide RequestOf, NoSearchedWord, Bare, Served;
    if "holdMove" <= e.text { HoldLine(e.text); BareServed(s, e, HoldMove, HOLDING); }
    if "immedStop" <= e.text { StopLine(e.text); BareServed(s, e, ImmediateStop, STOPPING); }
  }

  lemma ResetAndLoadLines(s: Status, e: Event)
    requires IsIdle(s) && s.clientOpen && e.Line? && NoSearchedWord(e.text)
    ensures "resetErrors" <= e.text ==> Bare(s, Served(s, e), RESETTING, e.writeOk)
    ensures "loadCurrentConfiguration" <= e.text ==> Bare(s, Served(s, e), LOADING, e.writeOk)
  {
    hide RequestOf, NoSearchedWord, Bare, Served;
    if "resetErrors" <= e.text { ResetLine(e.text); BareServed(s, e, ResetErrors, RESETTING); }
    if "loadCurrentConfiguration" <= e.text { LoadLine(e.text); BareServed(s, e, LoadConfiguration, LOADING); }
  }

  lemma BareServed(s: Status, e: Event, c: Command, x: Doing)
    requires IsIdle(s) && s.clientOpen && e.Line? && RequestOf(e.text) == Direct(c) && Does(c, x)
    ensures Bare(s, Served(s, e), x, e.writeOk)
  {
    hide RequestOf, Bare, Issued, Answered;
    BareIssued(s, c, x, e.writeOk);
  }

  /** resetErrors in manual mode does the same, and manual mode goes on. */
  lemma ResetInManualMode(s: Status, e: Event)
    requires IsManual(s) && s.clientOpen && e.Line? && "resetErrors" <= e.text
    ensures Bare(s, Served(s, e), RESETTING, e.writeOk)
  {
    hide Bare, Issued, Answered;
    assert e.text[0] == RESET_ERRORS[0] == 'r' && STOP_MANUAL_MODE[0] == 's';
    BareIssued(s, ResetErrors, RESETTING, e.writeOk);
  }

  /** In manual mode only three words count, and only one of them ends it. */
  lemma ManualWords(s: Status, e: Event)
    requires IsManual(s) && s.clientOpen && e.Line?
    ensures Served(s, e).manual == 0 <==> "stopManualMode" <= e.text
    ensures !("stopManualMode" <= e.text) && !("resetErrors" <= e.text) && !("readInputRegisters" <= e.text) ==>
      Served(s, e) == Told(s, [Answer(InvalidInput)], e.writeOk).(clientOpen := !e.writeOk)
  {
    hide Issue, IssueCode, ReadingOf, RegisterLine;
  }

  // ---- the session's own words ----

  /** disconnect ends the session without an answer; startManualMode turns manual mode on, and
      the answer tells whether a thread could be created. */
  lemma SessionLines(s: Status, e: Event)
    requires IsIdle(s) && s.clientOpen && s.hasConnection && e.Line? && NoSearchedWord(e.text)
    ensures "disconnect" <= e.text ==> Served(s, e) == s.(connected := 0, hasConnection := false)
    ensures "startManualMode" <= e.text ==>
      Served(s, e) == Told(s.(manual := 1), [Answer(if e.threadOk then CommandSuccess else CommandFailed)], e.writeOk)
  {
    hide RequestOf, NoSearchedWord;
    BareWordSelects(e.text);
    assert s.sent + [] == s.sent;
  }

  /** A line is not understood exactly when it has no jog or home word in it and begins with
      none of the other words. */
  lemma UnknownExactlyWhen(line: string)
    ensures RequestOf(line) == BadInput <==>
      && NoSearchedWord(line) && !("disconnect" <= line) && !("saveConfig" <= line) && !("relativeMove" <= line)
      && !("driveEnable" <= line) && !("driveDisable" <= line) && !("holdMove" <= line) && !("immedStop" <= line)
      && !("resetErrors" <= line) && !("readInputRegisters" <= line) && !("loadCurrentConfiguration" <= line)
      && !("readCurrentConfiguration" <= line) && !("presetMotorPosition" <= line)
      && !("presetEncoderPosition" <= line) && !("programAssembledMove" <= line)
      && !("runAssembledDwellMove" <= line) && !("runAssembledBlendMove" <= line) && !("startManualMode" <= line)
  {
    hide Contains, TokenCount, Parameters, CounterClockwiseIn, Int16;
  }

  // ---- connecting ----

  lemma {:induction false} FirstLineOf(ip: string)
    requires '\n' !in ip
    ensures FirstLine(ip) == ip
  {
    if ip != "" {
      FirstLineOf(ip[1..]);
      assert [ip[0]] + ip[1..] == ip;
    }
  }

  /** The address is the text between the comma and the newline. */
  lemma AddressIsTheIp(ip: string)
    requires '\n' !in ip
    ensures Address(ip + "\n") == ip
  {
    FirstLineOf(ip);
    assert (ip + "\n")[..|ip|] == ip;
  }

  /** Connecting takes one attempt, and the answer tells how it went. */
  lemma ConnectLineConnects(s: Status, ip: string, e: Event)
    requires s.connected == 0 && s.clientOpen && e.Line? && e.text == "connect" + "," + (ip + "\n")
    requires ip != "" && ',' !in ip && ' ' !in ip && '\n' !in ip
    ensures var up := ConnectsFirst(s.link.pending);
      Served(s, e) == Told(s.(hasConnection := true, connected := if up then 1 else 0, link := Consume(s.link)),
                           [Answer(if up then ConnectSuccess else NoRouteToHost)], e.writeOk)
  {
    hide Split, Address, FirstLine;
    AddressIsTheIp(ip);
    ConnectSplits(ip);
  }

  lemma ConnectSplits(ip: string)
    requires ',' !in ip && ' ' !in ip
    ensures var line := "connect" + "," + (ip + "\n");
      CONNECT <= line && TokenCount(line) == 2 && Split(line) == ["connect", ip + "\n"]
  {
    hide Split;
    var line := "connect" + "," + (ip + "\n");
    ConnectIsPlain();
    NameInFront("connect", ip + "\n");
    var tokens := ["connect", ip + "\n"];
    assert tokens[1..] == [ip + "\n"] && Join(tokens) == line;
    SplitOfJoin(tokens);
  }

  lemma ConnectIsPlain()
    ensures ',' !in "connect" && ' ' !in "connect"
  {
  }

  /** Any other number of tokens is refused, as is any other line. */
  lemma NotConnecting(s: Status, e: Event)
    requires s.connected == 0 && s.clientOpen && e.Line?
    ensures "connect" <= e.text && TokenCount(e.text) != 2 ==>
      Served(s, e) == Told(s, [Answer(InvalidParameter)], e.writeOk)
    ensures !("connect" <= e.text) ==>
      Served(s, e) == Told(s, [Answer(InvalidInput)], e.writeOk).(clientOpen := !e.writeOk)
  {
    hide Split;
  }

  // ---- reading ----

  /** The words a read finds. */
  function WordsRead(l: LinkState): TenWords
    requires ConnectsFirst(l.pending) && l.pending[0].reply.Registers?
  {
    [l.drive.StatusWord(l.pending[0].reply.noise)] + l.pending[0].reply.others
  }

  /** A status line in which a client finds the two handshake bits of this drive, where the
      server itself looks for them, and all other words. */
  ghost predicate ShowsDrive(line: string, l: LinkState)
    requires ConnectsFirst(l.pending) && l.pending[0].reply.Registers?
  {
    && ReportsStatus(line, WordsRead(l))
    && CharAt(BinString(16, Split(line)[2]), 6) == (if l.drive.ready then '1' else '0')
    && CharAt(BinString(16, Split(line)[2]), 7) == (if l.drive.programming then '1' else '0')
  }

  /** A read line: without a connection the client is told the command failed; a read that fails
      is not answered at all; otherwise the client gets the line, and nothing else happens. */
  ghost predicate ReadsOut(s: Status, t: Status, line: string, ok: bool) {
    if !ConnectsFirst(s.link.pending) then t == Told(s.(link := Consume(s.link)), [Answer(CommandFailed)], ok)
    else if s.link.pending[0].reply.ReadError? then t == s.(link := Consume(s.link))
    else t == Told(s.(link := Consume(s.link)), [RegisterText(line)], ok)
  }

  lemma ReadOutIs(s: Status, prefix: string, ok: bool) returns (line: string)
    ensures var (t, code) := ReadOut(s, prefix, ok); ReadsOut(s, Answered(t, code, ok), line, ok)
    ensures ConnectsFirst(s.link.pending) && s.link.pending[0].reply.Registers? ==>
      line == RegisterLine(prefix, WordsRead(s.link))
  {
    hide RegisterLine;
    line := "";
    if ConnectsFirst(s.link.pending) && s.link.pending[0].reply.Registers? {
      line := RegisterLine(prefix, WordsRead(s.link));
      assert s.sent + [RegisterText(line)] + [] == s.sent + [RegisterText(line)];
    }
    assert s.sent + [] == s.sent;
  }

  lemma ReadLineShowsTheDrive(s: Status, e: Event) returns (line: string)
    requires s.clientOpen && e.Line? && "readInputRegisters" <= e.text
    requires (IsIdle(s) && NoSearchedWord(e.text)) || IsManual(s)
    ensures ReadsOut(s, Served(s, e), line, e.writeOk)
    ensures ConnectsFirst(s.link.pending) && s.link.pending[0].reply.Registers? ==> ShowsDrive(line, s.link)
  {
    hide RequestOf, RegisterLine, BinString, Bit, Hex, ReadOut, NoSearchedWord, ReadsOut, ReportsStatus;
    line := ReadOutIs(s, INPUT_PREFIX, e.writeOk);
    if IsIdle(s) { ReadInputLine(e.text); }
    assert e.text[0] == READ_INPUT_REGISTERS[0] == 'r' && e.text[2] == READ_INPUT_REGISTERS[2] == 'a';
    assert STOP_MANUAL_MODE[0] == 's' && RESET_ERRORS[2] == 's';
    if ConnectsFirst(s.link.pending) && s.link.pending[0].reply.Registers? {
      var words := WordsRead(s.link);
      StatusBits(s.link.drive, s.link.pending[0].reply.noise);
      LineShowsWord(words);
      StatusLineReports(words);
    }
  }

  lemma ConfigLineShowsTheWords(s: Status, e: Event) returns (line: string)
    requires IsIdle(s) && s.clientOpen && e.Line? && "readCurrentConfiguration" <= e.text && NoSearchedWord(e.text)
    ensures ReadsOut(s, Served(s, e), line, e.writeOk)
    ensures ConnectsFirst(s.link.pending) && s.link.pending[0].reply.Registers? ==>
      ReportsConfig(line, WordsRead(s.link))
  {
    hide RequestOf, RegisterLine, ReadOut, NoSearchedWord, ReadsOut, ReportsConfig;
    line := ReadOutIs(s, CONFIG_PREFIX, e.writeOk);
    BareWordSelects(e.text);
    if ConnectsFirst(s.link.pending) && s.link.pending[0].reply.Registers? { ConfigLineReports(WordsRead(s.link)); }
  }

  // ---- stopping ----

  /** stopManualMode always leaves manual mode. The stop reaches the drive exactly when the
      first answer other than errno 9 is a connection; but the session is kept, and success
      reported, only if the very first attempt connected. */
  lemma StopLineStops(s: Status, e: Event)
    requires IsManual(s) && s.clientOpen && s.hasConnection
    requires e.Line? && "stopManualMode" <= e.text
    ensures var t := Served(s, e); var first := ConnectsFirst(s.link.pending);
      && t.manual == 0 && t.waiting == 0
      && t.connected == (if first then 1 else 0) && t.hasConnection == first
      && t.sent == Told(s, [Answer(if first then CommandSuccess else CommandFailed)], e.writeOk).sent
      && t.link.log == s.link.log
           + (if Delivers("immediate_stop", s.link.pending) then [Frame("immediate_stop", STOP_WRITES)] else [])
      && (NextWorks(s.link) ==> t.link.drive.Reg(1024) == 16 && t.link.drive.Reg(1025) == 32768)
  {
    hide Send, SendCode, Delivers;
    var sent := Send(s.link, STOP_WRITES, IMMEDIATE_STOP_NAME);
    StopFrame(s.link);
    assert Issue(s.link, ImmediateStop) == sent && IssueCode(s.link, ImmediateStop) == SendCode(s.link);
    if NextWorks(s.link) {
      IssuedWhole(s.link, ImmediateStop);
      PlainCommandsKeepTheProfile(s.link.drive, ImmediateStop);
    }
    hide AfterAll, State.Reg;
  }

  lemma StopFrame(l: LinkState)
    ensures Send(l, STOP_WRITES, IMMEDIATE_STOP_NAME).log
      == l.log + (if Delivers(IMMEDIATE_STOP_NAME, l.pending) then [Frame(IMMEDIATE_STOP_NAME, STOP_WRITES)] else [])
    ensures SendCode(l) == (if ConnectsFirst(l.pending) then CommandSuccess else CommandFailed)
  {
  }
}
