/** The command words without parameters: a line that begins with one of them, and has no jog
    or home word in it, selects its handler. */
module Recognition {
  import opened CArithmetic
  import opened Text
  import opened Utilities
  import opened MotorCommands
  import opened Dispatch

  lemma DisconnectRecognised(line: string)
    requires NoSearchedWord(line) && DISCONNECT <= line
    ensures KeywordOf(line) == DisconnectKey
  {
    hide Contains;
  }

  lemma EnableRecognised(line: string)
    requires NoSearchedWord(line) && DRIVE_ENABLE <= line
    ensures KeywordOf(line) == EnableKey
  {
    hide Contains;
    assert line[0] == DRIVE_ENABLE[0] == 'd';
    NotThere(SAVE_CONFIG_TO_DRIVE, line, 0); NotThere(RELATIVE_MOVE, line, 0);
    assert line[1] == DRIVE_ENABLE[1] == 'r';
    NotThere(DISCONNECT, line, 1);
  }

  lemma DisableRecognised(line: string)
    requires NoSearchedWord(line) && DRIVE_DISABLE <= line
    ensures KeywordOf(line) == DisableKey
  {
    hide Contains;
    assert line[0] == DRIVE_DISABLE[0] == 'd';
    NotThere(SAVE_CONFIG_TO_DRIVE, line, 0); NotThere(RELATIVE_MOVE, line, 0);
    assert line[1] == DRIVE_DISABLE[1] == 'r';
    NotThere(DISCONNECT, line, 1);
    assert line[5] == DRIVE_DISABLE[5] == 'D';
    NotThere(DRIVE_ENABLE, line, 5);
  }

  lemma HoldRecognised(line: string)
    requires NoSearchedWord(line) && HOLD_MOVE <= line
    ensures KeywordOf(line) == HoldKey
  {
    hide Contains;
    assert line[0] == HOLD_MOVE[0] == 'h';
    NotThere(DISCONNECT, line, 0); NotThere(SAVE_CONFIG_TO_DRIVE, line, 0); NotThere(RELATIVE_MOVE, line, 0);
    NotThere(DRIVE_ENABLE, line, 0); NotThere(DRIVE_DISABLE, line, 0);
  }

  lemma StopRecognised(line: string)
    requires NoSearchedWord(line) && IMMED_STOP <= line
    ensures KeywordOf(line) == StopKey
  {
    hide Contains;
    assert line[0] == IMMED_STOP[0] == 'i';
    NotThere(DISCONNECT, line, 0); NotThere(SAVE_CONFIG_TO_DRIVE, line, 0); NotThere(RELATIVE_MOVE, line, 0);
    NotThere(DRIVE_ENABLE, line, 0); NotThere(DRIVE_DISABLE, line, 0); NotThere(HOLD_MOVE, line, 0);
  }

  lemma ResetRecognised(line: string)
    requires NoSearchedWord(line) && RESET_ERRORS <= line
    ensures KeywordOf(line) == ResetKey
  {
    hide Contains;
    assert line[0] == RESET_ERRORS[0] == 'r';
    NotThere(DISCONNECT, line, 0); NotThere(SAVE_CONFIG_TO_DRIVE, line, 0); NotThere(DRIVE_ENABLE, line, 0);
    NotThere(DRIVE_DISABLE, line, 0); NotThere(HOLD_MOVE, line, 0); NotThere(IMMED_STOP, line, 0);
    assert line[2] == RESET_ERRORS[2] == 's';
    NotThere(RELATIVE_MOVE, line, 2);
  }

  lemma ReadInputRecognised(line: string)
    requires NoSearchedWord(line) && READ_INPUT_REGISTERS <= line
    ensures KeywordOf(line) == ReadInputKey
  {
    hide Contains;
    assert line[0] == READ_INPUT_REGISTERS[0] == 'r';
    NotThere(DISCONNECT, line, 0); NotThere(SAVE_CONFIG_TO_DRIVE, line, 0); NotThere(DRIVE_ENABLE, line, 0);
    NotThere(DRIVE_DISABLE, line, 0); NotThere(HOLD_MOVE, line, 0); NotThere(IMMED_STOP, line, 0);
    assert line[2] == READ_INPUT_REGISTERS[2] == 'a';
    NotThere(RELATIVE_MOVE, line, 2); NotThere(RESET_ERRORS, line, 2);
  }

  lemma LoadRecognised(line: string)
    requires NoSearchedWord(line) && LOAD_CURRENT_CONFIGURATION <= line
    ensures KeywordOf(line) == LoadKey
  {
    hide Contains;
    assert line[0] == LOAD_CURRENT_CONFIGURATION[0] == 'l';
    NotThere(DISCONNECT, line, 0); NotThere(SAVE_CONFIG_TO_DRIVE, line, 0); NotThere(RELATIVE_MOVE, line, 0);
    NotThere(DRIVE_ENABLE, line, 0); NotThere(DRIVE_DISABLE, line, 0); NotThere(HOLD_MOVE, line, 0);
    NotThere(IMMED_STOP, line, 0); NotThere(RESET_ERRORS, line, 0); NotThere(READ_INPUT_REGISTERS, line, 0);
  }

  lemma ReadConfigRecognised(line: string)
    requires NoSearchedWord(line) && READ_CURRENT_CONFIGURATION <= line
    ensures KeywordOf(line) == ReadConfigKey
  {
    hide Contains;
    assert line[0] == READ_CURRENT_CONFIGURATION[0] == 'r';
    NotThere(DISCONNECT, line, 0); NotThere(SAVE_CONFIG_TO_DRIVE, line, 0); NotThere(DRIVE_ENABLE, line, 0);
    NotThere(DRIVE_DISABLE, line, 0); NotThere(HOLD_MOVE, line, 0); NotThere(IMMED_STOP, line, 0);
    NotThere(LOAD_CURRENT_CONFIGURATION, line, 0);
    assert line[2] == READ_CURRENT_CONFIGURATION[2] == 'a';
    NotThere(RELATIVE_MOVE, line, 2); NotThere(RESET_ERRORS, line, 2);
    assert line[4] == READ_CURRENT_CONFIGURATION[4] == 'C';
    NotThere(READ_INPUT_REGISTERS, line, 4);
  }

  lemma ProgramRecognised(line: string)
    requires NoSearchedWord(line) && PROGRAM_ASSEMBLED_MOVE <= line
    ensures KeywordOf(line) == ProgramKey
  {
    hide Contains;
    assert line[0] == PROGRAM_ASSEMBLED_MOVE[0] == 'p';
    NotThere(DISCONNECT, line, 0); NotThere(SAVE_CONFIG_TO_DRIVE, line, 0); NotThere(RELATIVE_MOVE, line, 0);
    NotThere(DRIVE_ENABLE, line, 0); NotThere(DRIVE_DISABLE, line, 0); NotThere(HOLD_MOVE, line, 0);
    NotThere(IMMED_STOP, line, 0); NotThere(RESET_ERRORS, line, 0); NotThere(READ_INPUT_REGISTERS, line, 0);
    NotThere(LOAD_CURRENT_CONFIGURATION, line, 0); NotThere(READ_CURRENT_CONFIGURATION, line, 0);
    assert line[2] == PROGRAM_ASSEMBLED_MOVE[2] == 'o';
    NotThere(PRESET_MOTOR_POSITION, line, 2); NotThere(PRESET_ENCODER_POSITION, line, 2);
  }

  lemma ManualRecognised(line: string)
    requires NoSearchedWord(line) && START_MANUAL_MODE <= line
    ensures KeywordOf(line) == ManualKey
  {
    hide Contains;
    assert line[0] == START_MANUAL_MODE[0] == 's';
    NotThere(DISCONNECT, line, 0); NotThere(RELATIVE_MOVE, line, 0); NotThere(DRIVE_ENABLE, line, 0);
    NotThere(DRIVE_DISABLE, line, 0); NotThere(HOLD_MOVE, line, 0); NotThere(IMMED_STOP, line, 0);
    NotThere(RESET_ERRORS, line, 0); NotThere(READ_INPUT_REGISTERS, line, 0);
    NotThere(LOAD_CURRENT_CONFIGURATION, line, 0); NotThere(READ_CURRENT_CONFIGURATION, line, 0);
    NotThere(PRESET_MOTOR_POSITION, line, 0); NotThere(PRESET_ENCODER_POSITION, line, 0);
    NotThere(PROGRAM_ASSEMBLED_MOVE, line, 0); NotThere(RUN_ASSEMBLED_DWELL_MOVE, line, 0);
    NotThere(RUN_ASSEMBLED_BLEND_MOVE, line, 0);
    assert line[1] == START_MANUAL_MODE[1] == 't';
    NotThere(SAVE_CONFIG_TO_DRIVE, line, 1);
  }

  lemma BareRequest(line: string, k: Keyword)
    requires KeywordOf(line) == k && Arity(k) == 0
    ensures RequestOf(line) == Build(k, false, [])
  {
    hide KeywordOf, TokenCount, Parameters;
  }

  lemma DisconnectLine(line: string)
    requires NoSearchedWord(line) && "disconnect" <= line
    ensures RequestOf(line) == Disconnect
  {
    hide NoSearchedWord, KeywordOf, RequestOf;
    DisconnectRecognised(line);
    BareRequest(line, DisconnectKey);
  }

  lemma EnableLine(line: string)
    requires NoSearchedWord(line) && "driveEnable" <= line
    ensures RequestOf(line) == Direct(DriveEnable)
  {
    hide NoSearchedWord, KeywordOf, RequestOf;
    EnableRecognised(line);
    BareRequest(line, EnableKey);
  }

  lemma DisableLine(line: string)
    requires NoSearchedWord(line) && "driveDisable" <= line
    ensures RequestOf(line) == Direct(DriveDisable)
  {
    hide NoSearchedWord, KeywordOf, RequestOf;
    DisableRecognised(line);
    BareRequest(line, DisableKey);
  }

  lemma HoldLine(line: string)
    requires NoSearchedWord(line) && "holdMove" <= line
    ensures RequestOf(line) == Direct(HoldMove)
  {
    hide NoSearchedWord, KeywordOf, RequestOf;
    HoldRecognised(line);
    BareRequest(line, HoldKey);
  }

  lemma StopLine(line: string)
    requires NoSearchedWord(line) && "immedStop" <= line
    ensures RequestOf(line) == Direct(ImmediateStop)
  {
    hide NoSearchedWord, KeywordOf, RequestOf;
    StopRecognised(line);
    BareRequest(line, StopKey);
  }

  lemma ResetLine(line: string)
    requires NoSearchedWord(line) && "resetErrors" <= line
    ensures RequestOf(line) == Direct(ResetErrors)
  {
    hide NoSearchedWord, KeywordOf, RequestOf;
    ResetRecognised(line);
    BareRequest(line, ResetKey);
  }

  lemma ReadInputLine(line: string)
    requires NoSearchedWord(line) && "readInputRegisters" <= line
    ensures RequestOf(line) == ReadInput
  {
    hide NoSearchedWord, KeywordOf, RequestOf;
    ReadInputRecognised(line);
    BareRequest(line, ReadInputKey);
  }

  lemma LoadLine(line: string)
    requires NoSearchedWord(line) && "loadCurrentConfiguration" <= line
    ensures RequestOf(line) == Direct(LoadConfiguration)
  {
    hide NoSearchedWord, KeywordOf, RequestOf;
    LoadRecognised(line);
    BareRequest(line, LoadKey);
  }

  lemma ReadConfigLine(line: string)
    requires NoSearchedWord(line) && "readCurrentConfiguration" <= line
    ensures RequestOf(line) == ReadConfig
  {
    hide NoSearchedWord, KeywordOf, RequestOf;
    ReadConfigRecognised(line);
    BareRequest(line, ReadConfigKey);
  }

  lemma ProgramLine(line: string)
    requires NoSearchedWord(line) && "programAssembledMove" <= line
    ensures RequestOf(line) == ProgramProfile
  {
    hide NoSearchedWord, KeywordOf, RequestOf;
    ProgramRecognised(line);
    BareRequest(line, ProgramKey);
  }

  lemma ManualLine(line: string)
    requires NoSearchedWord(line) && "startManualMode" <= line
    ensures RequestOf(line) == StartManual
  {
    hide NoSearchedWord, KeywordOf, RequestOf;
    ManualRecognised(line);
    BareRequest(line, ManualKey);
  }

  /** What each bare word asks for. */
  lemma BareWordSelects(line: string)
    requires NoSearchedWord(line)
    ensures "disconnect" <= line ==> RequestOf(line) == Disconnect
    ensures "driveEnable" <= line ==> RequestOf(line) == Direct(DriveEnable)
    ensures "driveDisable" <= line ==> RequestOf(line) == Direct(DriveDisable)
    ensures "holdMove" <= line ==> RequestOf(line) == Direct(HoldMove)
    ensures "immedStop" <= line ==> RequestOf(line) == Direct(ImmediateStop)
    ensures "resetErrors" <= line ==> RequestOf(line) == Direct(ResetErrors)
    ensures "readInputRegisters" <= line ==> RequestOf(line) == ReadInput
    ensures "loadCurrentConfiguration" <= line ==> RequestOf(line) == Direct(LoadConfiguration)
    ensures "readCurrentConfiguration" <= line ==> RequestOf(line) == ReadConfig
    ensures "programAssembledMove" <= line ==> RequestOf(line) == ProgramProfile
    ensures "startManualMode" <= line ==> RequestOf(line) == StartManual
  {
    hide NoSearchedWord, RequestOf;
    if "disconnect" <= line { DisconnectLine(line); }
    if "driveEnable" <= line { EnableLine(line); }
    if "driveDisable" <= line { DisableLine(line); }
    if "holdMove" <= line { HoldLine(line); }
    if "immedStop" <= line { StopLine(line); }
    if "resetErrors" <= line { ResetLine(line); }
    if "readInputRegisters" <= line { ReadInputLine(line); }
    if "loadCurrentConfiguration" <= line { LoadLine(line); }
    if "readCurrentConfiguration" <= line { ReadConfigLine(line); }
    if "programAssembledMove" <= line { ProgramLine(line); }
    if "startManualMode" <= line { ManualLine(line); }
  }

  // ---- words with parameters, on any line ----

  /** A jog word counts wherever it is in the line, and the counter-clockwise one decides the
      direction; a home word counts wherever it is if there is no jog word. */
  lemma SearchedWordSelects(line: string)
    ensures Contains(line, "jogCW") || Contains(line, "jogCCW") ==>
      var r := RequestOf(line);
      if TokenCount(line) != 5 then r == BadParameter
      else r.Direct? && r.command.Jog? && r.command.direction == (if Contains(line, "jogCCW") then 1 else 0)
    ensures (!Contains(line, "jogCW") && !Contains(line, "jogCCW")
             && (Contains(line, "homeCW") || Contains(line, "homeCCW"))) ==>
      var r := RequestOf(line);
      if TokenCount(line) != 5 then r == BadParameter
      else r.Direct? && r.command.FindHome? && r.command.direction == (if Contains(line, "homeCCW") then 1 else 0)
  {
    hide Contains, Parameters, Int16;
    if Contains(line, JOG_CW) || Contains(line, JOG_CCW) { assert KeywordOf(line) == JogKey; }
    else if Contains(line, FIND_HOME_CW) || Contains(line, FIND_HOME_CCW) { assert KeywordOf(line) == HomeKey; }
  }

  /** The other words count at the start of a line without them. */
  lemma ParameterWordSelects(line: string)
    requires NoSearchedWord(line)
    ensures "saveConfig" <= line ==> KeywordOf(line) == SaveKey
    ensures "relativeMove" <= line ==> KeywordOf(line) == RelativeKey
    ensures "presetMotorPosition" <= line ==> KeywordOf(line) == MotorKey
    ensures "presetEncoderPosition" <= line ==> KeywordOf(line) == EncoderKey
    ensures "runAssembledDwellMove" <= line ==> KeywordOf(line) == DwellKey
    ensures "runAssembledBlendMove" <= line ==> KeywordOf(line) == BlendKey
  {
    hide KeywordOf, NoSearchedWord;
    if "saveConfig" <= line { SaveRecognised(line); }
    if "relativeMove" <= line { RelativeRecognised(line); }
    PresetsRecognised(line);
    if "runAssembledDwellMove" <= line { DwellRecognised(line); }
    if "runAssembledBlendMove" <= line { BlendRecognised(line); }
  }
}
