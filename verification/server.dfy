/** The variables behind the session and the functions of SMD_SocketOps.c and
    SMD_Motor_Commands.c that assign them. */
module SocketServer {
  import opened Utilities
  import opened Registers
  import opened Drive
  import opened Modbus
  import opened MotorCommands
  import opened Upload
  import opened Handshake
  import opened Dispatch
  import opened Session
  import opened SessionRuns
  import opened WireSafety

  class Server {
    var connected: int
    var waiting: int
    var manual: int
    var moveType: MoveType
    var hasConnection: bool
    var clientOpen: bool
    var sent: seq<Message>
    const link: Link

    /** What all the variables together keep between any two calls. */
    ghost predicate Valid()
      reads this, link
    {
      Sane(Value())
    }

    constructor (link: Link)
      ensures this.link == link && Value() == Initial(link.Value()) && Valid()
    {
      this.link := link;
      connected, waiting, manual, moveType := 0, 0, 0, NoMove;
      hasConnection, clientOpen, sent := false, true, [];
    }

    function Value(): Status
      reads this, link
    {
      Status(connected, waiting, manual, moveType, hasConnection, clientOpen, link.Value(), sent)
    }

    /** Whatever mode the session was in, it is over; the move type and the client are not. */
    method CloseCommandConnection()
      requires Valid()
      modifies this
      ensures Valid() && connected == 0 && waiting == 0 && manual == 0
      ensures moveType == old(moveType) && clientOpen == old(clientOpen) && sent == old(sent)
      ensures Value() == Closed(old(Value()))
    {
      if hasConnection && connected == 1 {
        hasConnection := false;
        connected := 0;
        manual := 0;
        waiting := 0;
      }
    }

    /** A session is open afterwards exactly when success is reported, with no mode set and
        nothing sent to the drive. */
    method OpenCommandConnection(address: string) returns (code: Response)
      requires Valid() && connected == 0
      modifies this, link
      ensures Valid() && waiting == 0 && manual == 0
      ensures connected == (if code == ConnectSuccess then 1 else 0)
        && (code == ConnectSuccess || code == NoRouteToHost)
      ensures link.drive == old(link.drive) && link.log == old(link.log)
      ensures (Value(), code) == Opened(old(Value()), address)
    {
      hasConnection := true;
      var up := address != "";
      if up {
        var o := link.Connect();
        up := o.Connected?;
      }
      connected := if up then 1 else 0;
      code := if up then ConnectSuccess else NoRouteToHost;
    }

    method Connect(text: string) returns (code: Response)
      requires Valid() && connected == 0
      modifies this, link
      ensures Valid() && (connected == 1 <==> StaysConnected(old(Value()), text))
      ensures (Value(), code) == Connecting(old(Value()), text)
    {
      if !(CONNECT <= text) {
        return InvalidInput;
      }
      var n := NumberOfTokens(text);
      if n != 2 {
        return InvalidParameter;
      }
      var tokens := new string[2];
      var rc := TokenizeClientInput(tokens, text);
      assert rc == 0;
      code := OpenCommandConnection(Address(tokens[1]));
    }

    method WriteToClient(messages: seq<Message>, ok: bool) returns (rc: int)
      modifies this`sent
      ensures Value() == Told(old(Value()), messages, ok) && rc == if ok then 0 else -1
    {
      if !ok {
        return -1;
      }
      sent := sent + messages;
      rc := 0;
    }

    method SendCommand(c: Command) returns (code: Response)
      requires Valid() && (c.RunAssembled? ==> c.loaded == moveType)
      modifies link
      ensures Valid() && Grows(old(link.Value()), link.Value(), Rule(moveType, IsStopCommand(c)))
      ensures (Value(), code) == Issued(old(Value()), c)
    {
      hide Issue, IssueCode, Grows, Safe;
      IssueGrows(link.Value(), c, Rule(moveType, IsStopCommand(c)));
      code := IssueCommand(link, c);
    }

    /** Reading changes nothing but the connections used and what the client has received. */
    method ReadRegisters(prefix: string, ok: bool) returns (code: Response)
      requires prefix == INPUT_PREFIX || prefix == CONFIG_PREFIX
      requires Valid()
      modifies this`sent, link
      ensures Valid() && link.drive == old(link.drive) && link.log == old(link.log)
      ensures (Value(), code) == ReadOut(old(Value()), prefix, ok)
    {
      hide RegisterLine;
      var result, _, line, written := link.ReadModbusRegisters(prefix, None);
      assert sent + [] == sent;
      if result == NoRouteToHost || result == CommandFailed {
        return CommandFailed;
      }
      if written {
        var _ := WriteToClient([RegisterText(line)], ok);
      }
      code := HandledByClient;
    }

    /** Scenario 1: only startManualMode turns manual mode on, only disconnect ends the
        session, and only runs of the loaded type, motions in range and stops asked for reach the
        drive. */
    method Execute(e: Event) returns (code: Response)
      requires e.Line? && Valid() && IsIdle(Value())
      modifies this, link
      ensures Valid() && waiting == 0 && clientOpen == old(clientOpen) && moveType == old(moveType)
      ensures manual == 1 <==> RequestOf(e.text) == StartManual
      ensures connected == 1 <==> RequestOf(e.text) != Disconnect
      ensures Grows(old(link.Value()), link.Value(), RuleFor(old(Value()), e.text))
      ensures (Value(), code) == Executed(old(Value()), RequestOf(e.text), e)
    {
      hide RequestOf, Issue, IssueCode, ReadingOf, RegisterLine, ProgramMove, ProgramMoveCode, Grows, Safe;
      ghost var before := Value();
      ExecutedGrows(before, e);
      ExecutedKeepsType(before, RequestOf(e.text), e);
      LinesNameNoType(e.text);
      var r := ParseRequest(e.text);
      match r {
        case Direct(command) => code := SendCommand(command);
        case RunDwell(time) => code := SendCommand(RunAssembled(0, time, Dwell, moveType));
        case RunBlend(direction) => code := SendCommand(RunAssembled(direction, 0, Blend, moveType));
        case Disconnect =>
          CloseCommandConnection();
          code := DisconnectSuccess;
        case ReadInput => code := ReadRegisters(INPUT_PREFIX, e.writeOk);
        case ReadConfig => code := ReadRegisters(CONFIG_PREFIX, e.writeOk);
        case ProgramProfile => code := ProgramAssembledMove(link);
        case StartManual =>
          manual := 1;
          code := if e.threadOk then CommandSuccess else CommandFailed;
        case BadParameter => code := InvalidParameter;
        case BadInput => code := InvalidInput;
      }
    }

    /** Scenario 2: only stopManualMode ends manual mode, and it always does; the session
        survives it only if the first attempt to stop connected. */
    method ManualMode(e: Event) returns (code: Response)
      requires e.Line? && Valid() && IsManual(Value())
      modifies this, link
      ensures Valid() && waiting == 0 && clientOpen == old(clientOpen) && moveType == old(moveType)
      ensures manual == 0 <==> STOP_MANUAL_MODE <= e.text
      ensures connected == 0 <==> STOP_MANUAL_MODE <= e.text && !ConnectsFirst(old(link.pending))
      ensures Grows(old(link.Value()), link.Value(), RuleFor(old(Value()), e.text))
      ensures (Value(), code) == InManualMode(old(Value()), e)
    {
      hide Issue, ReadingOf, RegisterLine, Grows, Safe;
      ManualGrows(Value(), e);
      if STOP_MANUAL_MODE <= e.text {
        manual := 0;
        code := SendCommand(ImmediateStop);
        if code == CommandFailed {
          CloseCommandConnection();
        } else {
          code := CommandSuccess;
        }
      } else if RESET_ERRORS <= e.text {
        code := SendCommand(ResetErrors);
      } else if READ_INPUT_REGISTERS <= e.text {
        code := ReadRegisters(INPUT_PREFIX, e.writeOk);
      } else {
        code := InvalidInput;
      }
    }

    /** Scenario 3: one document, whatever it is, ends the wait; the move type changes exactly
        when the document names one. */
    method LoadAssembledMove(e: Event) returns (code: Response)
      requires e.Line? && Valid() && IsWaiting(Value())
      modifies this, link
      ensures Valid() && waiting == 0 && manual == 0 && connected == 1 && clientOpen == old(clientOpen)
      ensures moveType == if RecognisedType(e.document) != NoMove then RecognisedType(e.document) else old(moveType)
      ensures Grows(old(link.Value()), link.Value(), RuleFor(old(Value()), e.text))
      ensures (Value(), code) == Loaded(old(Value()), e)
    {
      hide Issue, IssueCode, UploadAll, SegmentsSent, AckTexts, Grows, Safe;
      LoadedGrows(Value(), e);
      var table := new Profile[MAX_SEGMENTS](i requires 0 <= i < MAX_SEGMENTS => e.stack[i]);
      assert table[..] == e.stack;
      var recognised, acks, n;
      code, recognised, acks, n := ParseAndUpload(link, e.document, table);
      if recognised != NoMove {
        moveType := recognised;
        var _ := WriteToClient(AckTexts(acks, n), e.writeOk);
      }
      waiting := 0;
      if code == CommandSuccess {
        return AssembledMoveAccepted;
      }
      var _ := SendCommand(ResetErrors);
      code := CommandFailed;
    }

    /** The scenarios cover every state a run can reach: there is no Scenario 4. */
    method ParseSocketInput(e: Event) returns (code: Response)
      requires e.Line? && Valid()
      modifies this, link
      ensures Valid() && Effect(old(Value()), e, Value(), code)
      ensures Grows(old(link.Value()), link.Value(), RuleFor(old(Value()), e.text))
      ensures (Value(), code) == Dispatched(old(Value()), e)
    {
      hide Connecting, Executed, InManualMode, Loaded, RequestOf, Effect, Grows, Dispatched;
      DispatchEffect(Value(), e);
      DispatchGrows(Value(), e);
      DispatchedCases(Value(), e);
      if connected == 0 {
        code := Connect(e.text);
      } else if connected == 1 && waiting == 0 && manual == 0 {
        code := Execute(e);
      } else if connected == 1 && waiting == 0 && manual == 1 {
        code := ManualMode(e);
      } else if connected == 1 && waiting == 1 {
        code := LoadAssembledMove(e);
      } else {
        assert false;
        code := NoRouteToHost;
      }
    }

    /** What one line can do to each flag and to the client's socket, in any scenario. */
    method Respond(e: Event)
      requires e.Line? && Valid() && clientOpen
      modifies this, link
      ensures Valid()
      ensures waiting == 1 <==>
        old(IsIdle(Value())) && RequestOf(e.text) == ProgramProfile && old(FirstBlockAccepted(link.Value()))
      ensures manual == 1 <==> (old(IsIdle(Value())) && RequestOf(e.text) == StartManual)
                               || (old(IsManual(Value())) && !(STOP_MANUAL_MODE <= e.text))
      ensures connected == 1 <==> StaysConnected(old(Value()), e.text)
      ensures !clientOpen <==> Unknown(old(Value()), e.text) && e.writeOk
      ensures Grows(old(link.Value()), link.Value(), RuleFor(old(Value()), e.text))
      ensures Value() == Served(old(Value()), e)
    {
      hide Dispatched, RequestOf, StaysConnected, Unknown, FirstBlockAccepted, Grows;
      var code := ParseSocketInput(e);
      var rc := -1;
      if !IsSilent(code) {
        rc := WriteToClient([Answer(code)], e.writeOk);
      }
      if code == InvalidInput && rc == 0 {
        clientOpen := false;
      }
      if code == ReadyForAssembledMove {
        waiting := 1;
      }
    }

    /** Over any events the flags stay sane, the move type is that of the latest recognised
        profile, everything sent is in range; and when the last thing that happened is the
        loss of the client, the next one finds no session, no wait and no manual mode. */
    method Loop(events: seq<Event>)
      requires Valid()
      modifies this, link
      ensures Valid() && moveType == LatestType(old(Value()), events)
      ensures old(AllWireSafe(link.log)) ==> AllWireSafe(link.log)
      ensures events != [] && events[|events| - 1].Gone? ==>
        clientOpen && connected == 0 && waiting == 0 && manual == 0
      ensures Value() == Run(old(Value()), events)
    {
      hide Dispatched;
      for i := 0 to |events|
        invariant Valid() && Value() == Run(old(Value()), events[..i])
        invariant i > 0 && events[i - 1].Gone? ==> clientOpen && connected == 0 && waiting == 0 && manual == 0
      {
        assert events[..i + 1][..i] == events[..i];
        if clientOpen && events[i].Line? {
          Respond(events[i]);
        } else {
          CloseCommandConnection();
          clientOpen := true;
        }
      }
      assert events[..|events|] == events;
      TypeIsLatest(old(Value()), events);
      if old(AllWireSafe(link.log)) { EverythingSentIsInRange(old(Value()), events); }
    }
  }

  lemma DispatchedCases(s: Status, e: Event)
    requires e.Line? && Sane(s)
    ensures s.connected == 0 ==> Dispatched(s, e) == Connecting(s, e.text)
    ensures IsIdle(s) ==> Dispatched(s, e) == Executed(s, RequestOf(e.text), e)
    ensures IsManual(s) ==> Dispatched(s, e) == InManualMode(s, e)
    ensures IsWaiting(s) ==> Dispatched(s, e) == Loaded(s, e)
  {
    hide RequestOf, Executed, InManualMode, Loaded, Connecting;
  }
}
