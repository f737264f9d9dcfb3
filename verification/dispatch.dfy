/** Scenario 1 of parse_socket_input in SMD_SocketOps.c: which handler a client line selects,
    and with which parameters. */
module Dispatch {
  import opened CArithmetic
  import opened Text
  import opened Utilities
  import opened MotorCommands

  const CONNECT := "connect"
  const DISCONNECT := "disconnect"
  const DRIVE_ENABLE := "driveEnable"
  const DRIVE_DISABLE := "driveDisable"
  const JOG_CW := "jogCW"
  const JOG_CCW := "jogCCW"
  const RELATIVE_MOVE := "relativeMove"
  const HOLD_MOVE := "holdMove"
  const IMMED_STOP := "immedStop"
  const RESET_ERRORS := "resetErrors"
  const READ_INPUT_REGISTERS := "readInputRegisters"
  const PRESET_MOTOR_POSITION := "presetMotorPosition"
  const PRESET_ENCODER_POSITION := "presetEncoderPosition"
  const SAVE_CONFIG_TO_DRIVE := "saveConfig"
  const LOAD_CURRENT_CONFIGURATION := "loadCurrentConfiguration"
  const READ_CURRENT_CONFIGURATION := "readCurrentConfiguration"
  const FIND_HOME_CW := "homeCW"
  const FIND_HOME_CCW := "homeCCW"
  const PROGRAM_ASSEMBLED_MOVE := "programAssembledMove"
  const RUN_ASSEMBLED_DWELL_MOVE := "runAssembledDwellMove"
  const RUN_ASSEMBLED_BLEND_MOVE := "runAssembledBlendMove"
  const START_MANUAL_MODE := "startManualMode"
  const STOP_MANUAL_MODE := "stopManualMode"

  /** What a line asks for. `loaded` of a run command is filled in by the session. */
  datatype Request =
    | Direct(command: Command)
    | RunDwell(time: int) | RunBlend(direction: int)
    | Disconnect | ReadInput | ReadConfig | ProgramProfile | StartManual
    | BadParameter | BadInput

  datatype Keyword =
    | JogKey | HomeKey | DisconnectKey | SaveKey | RelativeKey | EnableKey | DisableKey | HoldKey | StopKey
    | ResetKey | ReadInputKey | LoadKey | ReadConfigKey | MotorKey | EncoderKey | ProgramKey | DwellKey | BlendKey
    | ManualKey | UnknownKey

  /** The order of the tests matters: the jog and home commands are searched for anywhere in
      the line (strstr), the others only at its start (strncmp). */
  function KeywordOf(line: string): Keyword
  {
    if Contains(line, JOG_CW) || Contains(line, JOG_CCW) then JogKey
    else if Contains(line, FIND_HOME_CW) || Contains(line, FIND_HOME_CCW) then HomeKey
    else if DISCONNECT <= line then DisconnectKey
    else if SAVE_CONFIG_TO_DRIVE <= line then SaveKey
    else if RELATIVE_MOVE <= line then RelativeKey
    else if DRIVE_ENABLE <= line then EnableKey
    else if DRIVE_DISABLE <= line then DisableKey
    else if HOLD_MOVE <= line then HoldKey
    else if IMMED_STOP <= line then StopKey
    else if RESET_ERRORS <= line then ResetKey
    else if READ_INPUT_REGISTERS <= line then ReadInputKey
    else if LOAD_CURRENT_CONFIGURATION <= line then LoadKey
    else if READ_CURRENT_CONFIGURATION <= line then ReadConfigKey
    else if PRESET_MOTOR_POSITION <= line then MotorKey
    else if PRESET_ENCODER_POSITION <= line then EncoderKey
    else if PROGRAM_ASSEMBLED_MOVE <= line then ProgramKey
    else if RUN_ASSEMBLED_DWELL_MOVE <= line then DwellKey
    else if RUN_ASSEMBLED_BLEND_MOVE <= line then BlendKey
    else if START_MANUAL_MODE <= line then ManualKey
    else UnknownKey
  }

  /** The tokens after the first, as integers. */
  function Parameters(line: string): (values: seq<int>)
    ensures |values| == |Split(line)| - 1
    ensures forall i :: 0 <= i < |values| ==> FitsInt32(values[i])
  {
    seq(|Split(line)| - 1, i requires 0 <= i < |Split(line)| - 1 => ConvertStringToLongInt(Split(line)[i + 1]))
  }

  /** The token count each command insists on. */
  function Arity(k: Keyword): int
  {
    match k
    case JogKey => 5 case HomeKey => 5 case SaveKey => 8 case RelativeKey => 6
    case MotorKey => 2 case EncoderKey => 2 case DwellKey => 2 case BlendKey => 2
    case _ => 0
  }

  /** Accelerations, decelerations, jerks and the other int16_t locals are narrowed before any
      range check. */
  function Build(k: Keyword, counterClockwise: bool, v: seq<int>): Request
    requires Arity(k) > 0 ==> |v| == Arity(k) - 1
  {
    var direction := if counterClockwise then 1 else 0;
    match k
    case JogKey => Direct(Jog(direction, Int16(v[0]), Int16(v[1]), Int16(v[2]), v[3]))
    case HomeKey => Direct(FindHome(direction, v[0], Int16(v[1]), Int16(v[2]), Int16(v[3])))
    case SaveKey => Direct(SetConfiguration(v[0], v[1], v[2], Int16(v[3]), Int16(v[4]), Int16(v[5]), Int16(v[6])))
    case RelativeKey => Direct(RelativeMove(v[0], Int16(v[1]), Int16(v[2]), Int16(v[3]), v[4]))
    case MotorKey => Direct(PresetMotor(v[0]))
    case EncoderKey => Direct(PresetEncoder(v[0]))
    case DwellKey => if 0 <= v[0] <= 65535 then RunDwell(v[0]) else BadParameter
    case BlendKey => if 0 <= Int16(v[0]) <= 1 then RunBlend(Int16(v[0])) else BadParameter
    case DisconnectKey => Disconnect
    case EnableKey => Direct(DriveEnable)
    case DisableKey => Direct(DriveDisable)
    case HoldKey => Direct(HoldMove)
    case StopKey => Direct(ImmediateStop)
    case ResetKey => Direct(ResetErrors)
    case ReadInputKey => ReadInput
    case LoadKey => Direct(LoadConfiguration)
    case ReadConfigKey => ReadConfig
    case ProgramKey => ProgramProfile
    case ManualKey => StartManual
    case UnknownKey => BadInput
  }

  function CounterClockwiseIn(k: Keyword, line: string): bool
  {
    (k == JogKey && Contains(line, JOG_CCW)) || (k == HomeKey && Contains(line, FIND_HOME_CCW))
  }

  function RequestOf(line: string): Request
  {
    var k := KeywordOf(line);
    if Arity(k) == 0 then Build(k, false, [])
    else if TokenCount(line) != Arity(k) then BadParameter
    else Build(k, CounterClockwiseIn(k, line), Parameters(line))
  }

  /** Count, tokenise into an array of exactly that size, convert. The count checked first is
      the count stored, so the tokeniser never reports an overflow here. */
  method ReadParameters(line: string, n: nat) returns (ok: bool, values: seq<int>)
    requires n > 0
    ensures ok <==> TokenCount(line) == n
    ensures ok ==> values == Parameters(line)
  {
    values := [];
    var count := NumberOfTokens(line);
    if count != n {
      return false, [];
    }
    var commands := new string[n];
    var rc := TokenizeClientInput(commands, line);
    assert rc == 0;
    for i := 1 to n
      invariant values == Parameters(line)[..i - 1]
      invariant forall j :: 0 <= j < n ==> commands[j] == Split(line)[j]
    {
      values := values + [ConvertStringToLongInt(commands[i])];
    }
    assert Parameters(line)[..n - 1] == Parameters(line);
    ok := true;
  }

  method ParseRequest(line: string) returns (r: Request)
    ensures r == RequestOf(line)
  {
    var k := KeywordOf(line);
    if Arity(k) == 0 {
      return Build(k, false, []);
    }
    var ok, values := ReadParameters(line, Arity(k));
    if !ok {
      return BadParameter;
    }
    r := Build(k, CounterClockwiseIn(k, line), values);
  }

  // ---- printing a command ----

  function Printed(values: seq<int>): (texts: seq<string>)
    ensures |texts| == |values|
  {
    seq(|values|, i requires 0 <= i < |values| => PrintInt(values[i]))
  }

  /** "name,v1,...,vn" and a newline, as clients send it. */
  function CommandLine(name: string, values: seq<int>): string
  {
    Join([name] + Printed(values)) + "\n"
  }

  predicate Numeric(s: string) {
    forall c :: c in s ==> IsDigit(c) || c == '-' || c == ',' || c == '\n'
  }

  lemma {:induction false} JoinedIsNumeric(texts: seq<string>)
    requires |texts| > 0 && forall i :: 0 <= i < |texts| ==> Numeric(texts[i])
    ensures Numeric(Join(texts))
  {
    if |texts| > 1 { JoinedIsNumeric(texts[1..]); }
  }

  lemma CommandLineShape(name: string, values: seq<int>)
    requires values != []
    ensures Numeric(Join(Printed(values)) + "\n")
    ensures CommandLine(name, values) == name + "," + (Join(Printed(values)) + "\n")
  {
    var texts := Printed(values);
    forall i | 0 <= i < |texts| ensures Numeric(texts[i]) { PrintIntChars(values[i]); }
    JoinedIsNumeric(texts);
    assert ([name] + texts)[1..] == texts;
  }

  /** The tokens of a command line: the name, the printed parameters, and the newline that
      stays on the last one. */
  function LineTokensOf(name: string, values: seq<int>): (tokens: seq<string>)
    requires values != []
    ensures |tokens| == |values| + 1
  {
    [name] + Printed(values)[..|values| - 1] + [PrintInt(values[|values| - 1]) + "\n"]
  }

  lemma CommandLineSplits(name: string, values: seq<int>)
    requires values != [] && ',' !in name
    ensures Split(CommandLine(name, values)) == LineTokensOf(name, values)
  {
    hide PrintInt;
    var texts, tokens := [name] + Printed(values), LineTokensOf(name, values);
    JoinSuffix(texts, "\n");
    assert texts[..|values|] + [texts[|values|] + "\n"] == tokens;
    forall i | 0 <= i < |tokens| ensures ',' !in tokens[i] {
      if i > 0 { PrintIntChars(values[i - 1]); }
    }
    SplitOfJoin(tokens);
  }

  lemma NoSpaceInCommandLine(name: string, values: seq<int>)
    requires values != [] && ' ' !in name
    ensures ' ' !in CommandLine(name, values)
  {
    CommandLineShape(name, values);
    NumericHas(Join(Printed(values)) + "\n", ' ');
  }

  lemma ParameterRoundTrip(name: string, values: seq<int>, i: nat)
    requires i < |values| && FitsInt32(values[i])
    ensures ConvertStringToLongInt(LineTokensOf(name, values)[i + 1]) == values[i]
  {
    hide PrintInt, ConvertStringToLongInt;
    PrintedIntParses(values[i], if i == |values| - 1 then "\n" else "");
    assert PrintInt(values[i]) + "" == PrintInt(values[i]);
  }

  /** Printing the parameters and parsing the line gives them back, and their number. */
  lemma ParametersRoundTrip(name: string, values: seq<int>)
    requires values != [] && ',' !in name && ' ' !in name
    requires forall i :: 0 <= i < |values| ==> FitsInt32(values[i])
    ensures TokenCount(CommandLine(name, values)) == |values| + 1
    ensures Parameters(CommandLine(name, values)) == values
  {
    hide PrintInt, ConvertStringToLongInt, CommandLine, LineTokensOf;
    var line := CommandLine(name, values);
    CommandLineSplits(name, values);
    NoSpaceInCommandLine(name, values);
    forall i | 0 <= i < |values| ensures Parameters(line)[i] == values[i] {
      ParameterRoundTrip(name, values, i);
    }
  }

  // ---- which handler ----

  /** A word that differs from the line somewhere does not begin it. */
  lemma NotThere(word: string, line: string, i: nat)
    requires i < |word| && i < |line| && word[i] != line[i]
    ensures !(word <= line)
  {
  }

  lemma NameInFront(name: string, rest: string)
    ensures name <= name + "," + rest
  {
    assert name + "," + rest == name + ("," + rest);
  }

  lemma NumericHas(rest: string, c: char)
    requires Numeric(rest) && !IsDigit(c) && c != '-' && c != ',' && c != '\n'
    ensures c !in rest
  {
  }

  ghost predicate NoSearchedWord(line: string) {
    && !Contains(line, JOG_CW) && !Contains(line, JOG_CCW)
    && !Contains(line, FIND_HOME_CW) && !Contains(line, FIND_HOME_CCW)
  }

  /** The strstr tests find nothing in a line without a capital W. */
  lemma NoJogWord(line: string)
    requires 'W' !in line
    ensures NoSearchedWord(line)
  {
    assert JOG_CW[4] == 'W' && JOG_CCW[5] == 'W' && FIND_HOME_CW[5] == 'W' && FIND_HOME_CCW[6] == 'W';
    MissingChar(line, JOG_CW, 'W');
    MissingChar(line, JOG_CCW, 'W');
    MissingChar(line, FIND_HOME_CW, 'W');
    MissingChar(line, FIND_HOME_CCW, 'W');
  }

  lemma NoJogNoHome(name: string, rest: string)
    requires 'W' !in name && Numeric(rest)
    ensures NoSearchedWord(name + "," + rest)
  {
    NumericHas(rest, 'W');
    NoJogWord(name + "," + rest);
  }

  lemma SaveRecognised(line: string)
    requires NoSearchedWord(line) && SAVE_CONFIG_TO_DRIVE <= line
    ensures KeywordOf(line) == SaveKey
  {
    assert line[0] == SAVE_CONFIG_TO_DRIVE[0] == 's';
    NotThere(DISCONNECT, line, 0);
  }

  lemma RelativeRecognised(line: string)
    requires NoSearchedWord(line) && RELATIVE_MOVE <= line
    ensures KeywordOf(line) == RelativeKey
  {
    assert line[0] == RELATIVE_MOVE[0] == 'r';
    NotThere(DISCONNECT, line, 0);
    NotThere(SAVE_CONFIG_TO_DRIVE, line, 0);
  }

  /** No command word before the presets starts with a p. */
  lemma NothingBeforeP(line: string)
    requires line != "" && line[0] == 'p'
    ensures !(DISCONNECT <= line) && !(SAVE_CONFIG_TO_DRIVE <= line) && !(RELATIVE_MOVE <= line)
    ensures !(DRIVE_ENABLE <= line) && !(DRIVE_DISABLE <= line) && !(HOLD_MOVE <= line) && !(IMMED_STOP <= line)
    ensures !(RESET_ERRORS <= line) && !(READ_INPUT_REGISTERS <= line) && !(LOAD_CURRENT_CONFIGURATION <= line)
    ensures !(READ_CURRENT_CONFIGURATION <= line)
  {
    NotThere(DISCONNECT, line, 0); NotThere(SAVE_CONFIG_TO_DRIVE, line, 0); NotThere(RELATIVE_MOVE, line, 0);
    NotThere(DRIVE_ENABLE, line, 0); NotThere(DRIVE_DISABLE, line, 0); NotThere(HOLD_MOVE, line, 0);
    NotThere(IMMED_STOP, line, 0); NotThere(RESET_ERRORS, line, 0); NotThere(READ_INPUT_REGISTERS, line, 0);
    NotThere(LOAD_CURRENT_CONFIGURATION, line, 0); NotThere(READ_CURRENT_CONFIGURATION, line, 0);
  }

  lemma PresetsRecognised(line: string)
    requires NoSearchedWord(line)
    ensures PRESET_MOTOR_POSITION <= line ==> KeywordOf(line) == MotorKey
    ensures PRESET_ENCODER_POSITION <= line ==> KeywordOf(line) == EncoderKey
  {
    if PRESET_MOTOR_POSITION <= line {
      assert line[0] == PRESET_MOTOR_POSITION[0] == 'p';
      NothingBeforeP(line);
    } else if PRESET_ENCODER_POSITION <= line {
      assert line[0] == PRESET_ENCODER_POSITION[0] == 'p';
      NothingBeforeP(line);
    }
    if PRESET_ENCODER_POSITION <= line {
      assert line[6] == PRESET_ENCODER_POSITION[6] == 'E';
      assert PRESET_MOTOR_POSITION[6] == 'M';
      NotThere(PRESET_MOTOR_POSITION, line, 6);
    }
  }

  /** No command word before the run commands starts with "ru". */
  lemma NothingBeforeRun(line: string)
    requires |line| > 1 && line[0] == 'r' && line[1] == 'u'
    ensures !(DISCONNECT <= line) && !(SAVE_CONFIG_TO_DRIVE <= line) && !(RELATIVE_MOVE <= line)
    ensures !(DRIVE_ENABLE <= line) && !(DRIVE_DISABLE <= line) && !(HOLD_MOVE <= line) && !(IMMED_STOP <= line)
    ensures !(RESET_ERRORS <= line) && !(READ_INPUT_REGISTERS <= line) && !(LOAD_CURRENT_CONFIGURATION <= line)
    ensures !(READ_CURRENT_CONFIGURATION <= line) && !(PRESET_MOTOR_POSITION <= line)
    ensures !(PRESET_ENCODER_POSITION <= line) && !(PROGRAM_ASSEMBLED_MOVE <= line)
  {
    NotThere(DISCONNECT, line, 0); NotThere(SAVE_CONFIG_TO_DRIVE, line, 0); NotThere(RELATIVE_MOVE, line, 1);
    NotThere(DRIVE_ENABLE, line, 0); NotThere(DRIVE_DISABLE, line, 0); NotThere(HOLD_MOVE, line, 0);
    NotThere(IMMED_STOP, line, 0); NotThere(RESET_ERRORS, line, 1); NotThere(READ_INPUT_REGISTERS, line, 1);
    NotThere(LOAD_CURRENT_CONFIGURATION, line, 0); NotThere(READ_CURRENT_CONFIGURATION, line, 1);
    NotThere(PRESET_MOTOR_POSITION, line, 0); NotThere(PRESET_ENCODER_POSITION, line, 0);
    NotThere(PROGRAM_ASSEMBLED_MOVE, line, 0);
  }

  lemma DwellRecognised(line: string)
    requires NoSearchedWord(line) && RUN_ASSEMBLED_DWELL_MOVE <= line
    ensures KeywordOf(line) == DwellKey
  {
    assert line[0] == RUN_ASSEMBLED_DWELL_MOVE[0] == 'r' && line[1] == RUN_ASSEMBLED_DWELL_MOVE[1] == 'u';
    NothingBeforeRun(line);
  }

  lemma BlendRecognised(line: string)
    requires NoSearchedWord(line) && RUN_ASSEMBLED_BLEND_MOVE <= line
    ensures KeywordOf(line) == BlendKey
  {
    assert line[0] == RUN_ASSEMBLED_BLEND_MOVE[0] == 'r' && line[1] == RUN_ASSEMBLED_BLEND_MOVE[1] == 'u';
    NothingBeforeRun(line);
    assert line[12] == RUN_ASSEMBLED_BLEND_MOVE[12] == 'B' && RUN_ASSEMBLED_DWELL_MOVE[12] == 'D';
    NotThere(RUN_ASSEMBLED_DWELL_MOVE, line, 12);
  }

  /** A jog line is a jog; the direction is read off the word alone. */
  lemma JogRecognised(name: string, rest: string)
    requires (name == JOG_CW || name == JOG_CCW) && Numeric(rest)
    ensures var line := name + "," + rest;
      KeywordOf(line) == JogKey && (Contains(line, JOG_CCW) <==> name == JOG_CCW)
  {
    var line := name + "," + rest;
    NameInFront(name, rest);
    assert OccursAt(line, name, 0);
    if name == JOG_CW {
      SearchedWordInFront(line, JOG_CCW, name, rest);
      assert line[4] == JOG_CW[4] == 'W' && JOG_CCW[4] == 'C';
      NotThere(JOG_CCW, line, 4);
    }
  }

  lemma HomeRecognised(name: string, rest: string)
    requires (name == FIND_HOME_CW || name == FIND_HOME_CCW) && Numeric(rest)
    ensures var line := name + "," + rest;
      KeywordOf(line) == HomeKey && (Contains(line, FIND_HOME_CCW) <==> name == FIND_HOME_CCW)
  {
    var line := name + "," + rest;
    NameInFront(name, rest);
    assert OccursAt(line, name, 0);
    NumericHas(rest, 'j');
    assert 'j' !in line;
    assert JOG_CW[0] == 'j' && JOG_CCW[0] == 'j';
    MissingChar(line, JOG_CW, 'j');
    MissingChar(line, JOG_CCW, 'j');
    if name == FIND_HOME_CW {
      SearchedWordInFront(line, FIND_HOME_CCW, name, rest);
      assert line[5] == FIND_HOME_CW[5] == 'W' && FIND_HOME_CCW[5] == 'C';
      NotThere(FIND_HOME_CCW, line, 5);
    }
  }

  /** A searched word whose first letter occurs only at the front is found only there. */
  lemma SearchedWordInFront(line: string, word: string, name: string, rest: string)
    requires line == name + "," + rest && Numeric(rest) && word != "" && name != ""
    requires 'a' <= word[0] <= 'z' && word[0] !in name[1..]
    ensures Contains(line, word) <==> word <= line
  {
    NumericHas(rest, word[0]);
    assert line[1..] == name[1..] + "," + rest;
    OnlyAtFront(line, word);
  }

  // ---- the round trip ----

  function WordOf(k: Keyword, counterClockwise: bool): string
    requires Arity(k) > 0
  {
    match k
    case JogKey => if counterClockwise then JOG_CCW else JOG_CW
    case HomeKey => if counterClockwise then FIND_HOME_CCW else FIND_HOME_CW
    case SaveKey => SAVE_CONFIG_TO_DRIVE
    case RelativeKey => RELATIVE_MOVE
    case MotorKey => PRESET_MOTOR_POSITION
    case EncoderKey => PRESET_ENCODER_POSITION
    case DwellKey => RUN_ASSEMBLED_DWELL_MOVE
    case BlendKey => RUN_ASSEMBLED_BLEND_MOVE
  }

  lemma DirectedWordsArePlain()
    ensures PlainWord(JOG_CW) && PlainWord(JOG_CCW) && PlainWord(FIND_HOME_CW) && PlainWord(FIND_HOME_CCW)
  {
  }

  lemma ShortWordsArePlain()
    ensures PlainWord(SAVE_CONFIG_TO_DRIVE) && 'W' !in SAVE_CONFIG_TO_DRIVE
    ensures PlainWord(RELATIVE_MOVE) && 'W' !in RELATIVE_MOVE
  {
  }

  lemma PresetWordsArePlain()
    ensures PlainWord(PRESET_MOTOR_POSITION) && 'W' !in PRESET_MOTOR_POSITION
    ensures PlainWord(PRESET_ENCODER_POSITION) && 'W' !in PRESET_ENCODER_POSITION
  {
  }

  lemma RunWordsArePlain()
    ensures PlainWord(RUN_ASSEMBLED_DWELL_MOVE) && 'W' !in RUN_ASSEMBLED_DWELL_MOVE
    ensures PlainWord(RUN_ASSEMBLED_BLEND_MOVE) && 'W' !in RUN_ASSEMBLED_BLEND_MOVE
  {
  }

  predicate PlainWord(word: string) { ',' !in word && ' ' !in word }

  lemma WordsArePlain(k: Keyword, counterClockwise: bool)
    requires Arity(k) > 0
    ensures PlainWord(WordOf(k, counterClockwise))
    ensures !Directed(k) ==> 'W' !in WordOf(k, counterClockwise)
  {
    hide PlainWord;
    match k
    case JogKey => DirectedWordsArePlain();
    case HomeKey => DirectedWordsArePlain();
    case SaveKey => ShortWordsArePlain();
    case RelativeKey => ShortWordsArePlain();
    case MotorKey => PresetWordsArePlain();
    case EncoderKey => PresetWordsArePlain();
    case DwellKey => RunWordsArePlain();
    case BlendKey => RunWordsArePlain();
  }

  predicate Directed(k: Keyword) { k == JogKey || k == HomeKey }

  lemma WordRecognised(k: Keyword, counterClockwise: bool, rest: string)
    requires Arity(k) > 0 && Numeric(rest)
    requires counterClockwise ==> Directed(k)
    ensures var line := WordOf(k, counterClockwise) + "," + rest;
      KeywordOf(line) == k && CounterClockwiseIn(k, line) == counterClockwise
  {
    hide KeywordOf, Contains;
    var word := WordOf(k, counterClockwise);
    var line := word + "," + rest;
    NameInFront(word, rest);
    WordsArePlain(k, counterClockwise);
    if k == JogKey {
      WordsDiffer();
      JogRecognised(word, rest);
    } else if k == HomeKey {
      WordsDiffer();
      HomeRecognised(word, rest);
    } else {
      NoJogNoHome(word, rest);
      match k
      case SaveKey => SaveRecognised(line);
      case RelativeKey => RelativeRecognised(line);
      case MotorKey => PresetsRecognised(line);
      case EncoderKey => PresetsRecognised(line);
      case DwellKey => DwellRecognised(line);
      case BlendKey => BlendRecognised(line);
    }
  }

  lemma WordsDiffer()
    ensures JOG_CW != JOG_CCW && FIND_HOME_CW != FIND_HOME_CCW
  {
    assert |JOG_CW| == 5 && |JOG_CCW| == 6 && |FIND_HOME_CW| == 6 && |FIND_HOME_CCW| == 7;
  }

  /** A printed command line selects its own handler, with its own parameters cut to the
      declared widths, and its own direction. */
  lemma CommandLineParsed(k: Keyword, counterClockwise: bool, values: seq<int>)
    requires Arity(k) > 0 && |values| == Arity(k) - 1
    requires counterClockwise ==> Directed(k)
    requires forall i :: 0 <= i < |values| ==> FitsInt32(values[i])
    ensures RequestOf(CommandLine(WordOf(k, counterClockwise), values)) == Build(k, counterClockwise, values)
  {
    hide KeywordOf, Contains, CounterClockwiseIn, WordOf, Build, CommandLine, TokenCount, Parameters;
    var word := WordOf(k, counterClockwise);
    WordsArePlain(k, counterClockwise);
    CommandLineShape(word, values);
    WordRecognised(k, counterClockwise, Join(Printed(values)) + "\n");
    ParametersRoundTrip(word, values);
  }

  /** The keyword, direction and parameters a client sends for a command. */
  function Spoken(c: Command): (Keyword, bool, seq<int>)
    requires HasParameters(c)
  {
    match c
    case Jog(direction, accel, decel, jerk, speed) => (JogKey, direction == 1, [accel, decel, jerk, speed])
    case FindHome(direction, speed, accel, decel, jerk) => (HomeKey, direction == 1, [speed, accel, decel, jerk])
    case RelativeMove(position, accel, decel, jerk, speed) =>
      (RelativeKey, false, [position, accel, decel, jerk, speed])
    case SetConfiguration(controlWord, configWord, startingSpeed, stepsPerTurn, encoderPulses, idleCurrent,
      motorCurrent) =>
      (SaveKey, false, [controlWord, configWord, startingSpeed, stepsPerTurn, encoderPulses, idleCurrent, motorCurrent])
    case PresetMotor(position) => (MotorKey, false, [position])
    case PresetEncoder(position) => (EncoderKey, false, [position])
  }

  predicate HasParameters(c: Command) {
    c.Jog? || c.FindHome? || c.RelativeMove? || c.SetConfiguration? || c.PresetMotor? || c.PresetEncoder?
  }

  /** The parameters fit the C types they are declared with. Every accepted command does,
      but for the two configuration words, which are not checked. */
  predicate Representable(c: Command) {
    match c
    case Jog(direction, accel, decel, jerk, speed) =>
      0 <= direction <= 1 && FitsInt16(accel) && FitsInt16(decel) && FitsInt16(jerk) && FitsInt32(speed)
    case FindHome(direction, speed, accel, decel, jerk) =>
      0 <= direction <= 1 && FitsInt16(accel) && FitsInt16(decel) && FitsInt16(jerk) && FitsInt32(speed)
    case RelativeMove(position, accel, decel, jerk, speed) =>
      FitsInt32(position) && FitsInt16(accel) && FitsInt16(decel) && FitsInt16(jerk) && FitsInt32(speed)
    case SetConfiguration(controlWord, configWord, startingSpeed, stepsPerTurn, encoderPulses, idleCurrent,
      motorCurrent) =>
      && FitsInt32(controlWord) && FitsInt32(configWord) && FitsInt32(startingSpeed) && FitsInt16(stepsPerTurn)
      && FitsInt16(encoderPulses) && FitsInt16(idleCurrent) && FitsInt16(motorCurrent)
    case PresetMotor(position) => FitsInt32(position)
    case PresetEncoder(position) => FitsInt32(position)
    case _ => true
  }

  function SpokenLine(c: Command): string
    requires HasParameters(c)
  {
    var (k, counterClockwise, values) := Spoken(c);
    CommandLine(WordOf(k, counterClockwise), values)
  }

  lemma Int16Stays(n: int)
    requires FitsInt16(n)
    ensures Int16(n) == n
  {
  }

  lemma SpokenIsBuilt(c: Command)
    requires HasParameters(c) && Representable(c)
    ensures Build(Spoken(c).0, Spoken(c).1, Spoken(c).2) == Direct(c)
  {
    hide Int16;
    match c
    case Jog(_, accel, decel, jerk, _) => Int16Stays(accel); Int16Stays(decel); Int16Stays(jerk);
    case FindHome(_, _, accel, decel, jerk) => Int16Stays(accel); Int16Stays(decel); Int16Stays(jerk);
    case RelativeMove(_, accel, decel, jerk, _) => Int16Stays(accel); Int16Stays(decel); Int16Stays(jerk);
    case SetConfiguration(_, _, _, stepsPerTurn, encoderPulses, idleCurrent, motorCurrent) =>
      Int16Stays(stepsPerTurn); Int16Stays(encoderPulses); Int16Stays(idleCurrent); Int16Stays(motorCurrent);
    case _ =>
  }

  /** Command round trip: printing a command as a client line and parsing that line selects
      its handler with exactly its parameters. */
  lemma CommandRoundTrip(c: Command)
    requires HasParameters(c) && Representable(c)
    ensures RequestOf(SpokenLine(c)) == Direct(c)
  {
    hide RequestOf, Build, CommandLine, WordOf;
    var spoken := Spoken(c);
    assert forall i :: 0 <= i < |spoken.2| ==> FitsInt32(spoken.2[i]);
    CommandLineParsed(spoken.0, spoken.1, spoken.2);
    SpokenIsBuilt(c);
  }

  /** The two run commands: a dwell time is checked at full width; a blend direction is cut
      to 16 bits before it is checked, so any multiple of 65536 counts as 0. */
  lemma RunRoundTrip(n: int)
    requires FitsInt32(n)
    ensures RequestOf(CommandLine(RUN_ASSEMBLED_DWELL_MOVE, [n])) == RunDwell(n) <==> 0 <= n <= 65535
    ensures RequestOf(CommandLine(RUN_ASSEMBLED_DWELL_MOVE, [n])) == BadParameter <==> !(0 <= n <= 65535)
    ensures RequestOf(CommandLine(RUN_ASSEMBLED_BLEND_MOVE, [n])) == RunBlend(0) <==> n % 65536 == 0
    ensures RequestOf(CommandLine(RUN_ASSEMBLED_BLEND_MOVE, [n])) == RunBlend(1) <==> n % 65536 == 1
    ensures RequestOf(CommandLine(RUN_ASSEMBLED_BLEND_MOVE, [n])) == BadParameter <==> n % 65536 > 1
  {
    hide RequestOf, CommandLine;
    CommandLineParsed(DwellKey, false, [n]);
    CommandLineParsed(BlendKey, false, [n]);
  }

  /** The number, cut to an unsigned 16-bit one, lies in the range. */
  predicate CutIn(low: nat, n: int, high: nat) { low <= n % 65536 <= high }

  /** The parameters a client may send, as the range checks see them. */
  predicate InRangeAfterCut(k: Keyword, v: seq<int>)
    requires |v| == Arity(k) - 1
  {
    match k
    case JogKey =>
      CutIn(1, v[0], 5000) && CutIn(1, v[1], 5000) && CutIn(0, v[2], 5000) && 0 <= v[3] <= 2999999
    case HomeKey =>
      0 <= v[0] <= 2999999 && CutIn(1, v[1], 5000) && CutIn(1, v[2], 5000) && CutIn(0, v[3], 5000)
    case RelativeKey =>
      && -8388607 <= v[0] <= 8388607 && CutIn(1, v[1], 5000) && CutIn(1, v[2], 5000) && CutIn(0, v[3], 5000)
      && 0 <= v[4] <= 2999999
    case SaveKey =>
      && 1 <= v[2] <= 1999999 && CutIn(200, v[3], 32767) && CutIn(1024, v[4], 1024)
      && CutIn(0, v[5], 100) && CutIn(10, v[6], 34)
    case MotorKey => -8388607 <= v[0] <= 8388607
    case EncoderKey => -8388607 <= v[0] <= 8388607
    case DwellKey => 0 <= v[0] <= 65535
    case BlendKey => CutIn(0, v[0], 1)
  }

  /** A printed command line passes the range checks exactly when its parameters do after the
      cut to 16 bits; so a large acceleration can pass as a small one. */
  lemma AcceptedAfterCut(k: Keyword, counterClockwise: bool, v: seq<int>)
    requires Arity(k) > 0 && |v| == Arity(k) - 1 && (counterClockwise ==> Directed(k))
    requires k != DwellKey && k != BlendKey
    requires forall i :: 0 <= i < |v| ==> FitsInt32(v[i])
    ensures var r := RequestOf(CommandLine(WordOf(k, counterClockwise), v));
      r.Direct? && HasParameters(r.command) && (r.command.Accepted() <==> InRangeAfterCut(k, v))
  {
    hide RequestOf, CommandLine, WordOf, Int16;
    CommandLineParsed(k, counterClockwise, v);
    forall i | 0 <= i < |v|
      ensures 1 <= Int16(v[i]) <= 5000 <==> CutIn(1, v[i], 5000)
      ensures 0 <= Int16(v[i]) <= 5000 <==> CutIn(0, v[i], 5000)
      ensures 200 <= Int16(v[i]) <= 32767 <==> CutIn(200, v[i], 32767)
      ensures Int16(v[i]) == 1024 <==> CutIn(1024, v[i], 1024)
      ensures 0 <= Int16(v[i]) <= 100 <==> CutIn(0, v[i], 100)
      ensures 10 <= Int16(v[i]) <= 34 <==> CutIn(10, v[i], 34)
    {
      CutRange(1, v[i], 5000); CutRange(0, v[i], 5000); CutRange(200, v[i], 32767);
      CutRange(1024, v[i], 1024); CutRange(0, v[i], 100); CutRange(10, v[i], 34);
    }
  }

  /** An acceleration over ten times the limit is taken for 250. */
  lemma LargeAccelerationPasses()
    ensures RequestOf(CommandLine(JOG_CW, [65786, 250, 0, 1000])) == Direct(Jog(0, 250, 250, 0, 1000))
    ensures Jog(0, 250, 250, 0, 1000).Accepted()
  {
    hide RequestOf, CommandLine;
    CommandLineParsed(JogKey, false, [65786, 250, 0, 1000]);
  }

  lemma CutRange(low: nat, n: int, high: nat)
    requires high <= 32767
    ensures low <= Int16(n) <= high <==> CutIn(low, n, high)
  {
  }

  /** For every line, printed by a client or not: what reaches a motion command is congruent to
      the number written, and equal to it for the 32-bit parameters. */
  lemma MotionParametersAreCut(line: string)
    requires RequestOf(line).Direct? && RequestOf(line).command.IsMotion()
    ensures var c, v := RequestOf(line).command, Parameters(line);
      |v| == (if c.RelativeMove? then 5 else 4) &&
      var first := if c.Jog? then 0 else 1;
      && (c.accel - v[first]) % 65536 == 0 && (c.decel - v[first + 1]) % 65536 == 0
           && (c.jerk - v[first + 2]) % 65536 == 0
      && c.speed == (if c.Jog? then v[3] else if c.FindHome? then v[0] else v[4])
      && (c.RelativeMove? ==> c.position == v[0])
  {
    hide KeywordOf, CounterClockwiseIn, Parameters, Int16;
    var v := Parameters(line);
    forall i | 0 <= i < |v| ensures (Int16(v[i]) - v[i]) % 65536 == 0 { CutBy(v[i]); }
  }

  lemma CutBy(n: int)
    ensures (Int16(n) - n) % 65536 == 0
  {
  }
}
