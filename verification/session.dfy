/** SMD_SocketOps.c and the opening and closing of the drive session as functions: how one
    client line, or the loss of the client, moves the process-wide flags. */
module Session {
  import opened Text
  import opened Utilities
  import opened Registers
  import opened Drive
  import opened Modbus
  import opened MotorCommands
  import opened Upload
  import opened Handshake
  import opened Dispatch

  // ---- state and events ----

  /** What a client receives: the text for a code, a register line, or the acknowledgement of
      a segment. */
  datatype Message = Answer(code: Response) | RegisterText(line: string) | SegmentText(text: string)

  /** SMD_CONNECTED, STATUS_WAITING_FOR_ASSEMBLED_MOVE, STATUS_MANUAL_MODE_ENABLE,
      STATUS_TYPE_ASSEMBLED_MOVE, whether smd_command_connection is non-null, whether the
      client socket is open, the line to the drive, and everything clients have received. */
  datatype Status = Status(connected: int, waiting: int, manual: int, moveType: MoveType,
                         hasConnection: bool, clientOpen: bool, link: LinkState, sent: seq<Message>)

  type Table = t: seq<Profile> | |t| == MAX_SEGMENTS
    witness seq(MAX_SEGMENTS, _ => Profile(0, 0, 0, 0, 0))

  /** One read of the socket. `document` is what the JSON parser makes of the text, `stack`
      what the segment array holds before the upload fills it, `writeOk` whether what is
      written to the client gets through, and `threadOk` whether a thread can be created. */
  datatype Event =
    | Line(text: string, document: Option<Document>, stack: Table, writeOk: bool, threadOk: bool)
    | Gone

  function Initial(link: LinkState): Status
  {
    Status(0, 0, 0, NoMove, false, true, link, [])
  }

  // ---- opening and closing the session with the drive ----

  function Closed(s: Status): Status
  {
    if s.hasConnection && s.connected == 1
    then s.(hasConnection := false, connected := 0, manual := 0, waiting := 0)
    else s
  }

  function FirstLine(text: string): string
  {
    if text == "" || text[0] == '\n' then "" else [text[0]] + FirstLine(text[1..])
  }

  /** The token after "connect" loses its last character and whatever follows a newline. */
  function Address(token: string): string
  {
    if token == "" then "" else FirstLine(token[..|token| - 1])
  }

  /** The connection object is set whether or not the connection comes up. */
  function Opened(s: Status, address: string): (Status, Response)
  {
    var up := address != "" && ConnectsFirst(s.link.pending);
    (s.(hasConnection := true, connected := if up then 1 else 0,
        link := if address == "" then s.link else Consume(s.link)),
     if up then ConnectSuccess else NoRouteToHost)
  }

  function Connecting(s: Status, text: string): (Status, Response)
  {
    if !(CONNECT <= text) then (s, InvalidInput)
    else if TokenCount(text) != 2 then (s, InvalidParameter)
    else Opened(s, Address(Split(text)[1]))
  }

  // ---- the scenarios of a connected session ----

  function Issued(s: Status, c: Command): (Status, Response)
  {
    (s.(link := Issue(s.link, c)), IssueCode(s.link, c))
  }

  /** write_to_client */
  function Told(s: Status, messages: seq<Message>, ok: bool): Status
  {
    if ok then s.(sent := s.sent + messages) else s
  }

  /** A register line is written to the client when the registers could be read. */
  function ReadOut(s: Status, prefix: string, ok: bool): (Status, Response)
  {
    var r := ReadingOf(s.link);
    (Told(s.(link := Consume(s.link)), if r.Read? then [RegisterText(RegisterLine(prefix, r.words))] else [], ok),
     if r.NoRoute? then CommandFailed else HandledByClient)
  }

  /** Scenario 1 */
  function Executed(s: Status, r: Request, e: Event): (Status, Response)
    requires e.Line?
  {
    match r
    case Direct(command) => Issued(s, command)
    case RunDwell(time) => Issued(s, RunAssembled(0, time, Dwell, s.moveType))
    case RunBlend(direction) => Issued(s, RunAssembled(direction, 0, Blend, s.moveType))
    case Disconnect => (Closed(s), DisconnectSuccess)
    case ReadInput => ReadOut(s, INPUT_PREFIX, e.writeOk)
    case ReadConfig => ReadOut(s, CONFIG_PREFIX, e.writeOk)
    case ProgramProfile => (s.(link := ProgramMove(s.link)), ProgramMoveCode(s.link))
    case StartManual => (s.(manual := 1), if e.threadOk then CommandSuccess else CommandFailed)
    case BadParameter => (s, InvalidParameter)
    case BadInput => (s, InvalidInput)
  }

  /** Scenario 2 */
  function InManualMode(s: Status, e: Event): (Status, Response)
    requires e.Line?
  {
    if STOP_MANUAL_MODE <= e.text then
      var (stopped, code) := Issued(s.(manual := 0), ImmediateStop);
      if code == CommandFailed then (Closed(stopped), CommandFailed) else (stopped, CommandSuccess)
    else if RESET_ERRORS <= e.text then Issued(s, ResetErrors)
    else if READ_INPUT_REGISTERS <= e.text then ReadOut(s, INPUT_PREFIX, e.writeOk)
    else (s, InvalidInput)
  }

  /** snprintf into a buffer of 32 bytes */
  function AckText(number: nat, total: nat): string
  {
    var text := "MOVE_SEGMENT_ACCEPTED_" + PrintInt(number) + "_OF_" + PrintInt(total) + "\n";
    if |text| < 32 then text else text[..31]
  }

  function AckTexts(acks: seq<nat>, total: nat): seq<Message>
  {
    seq(|acks|, i requires 0 <= i < |acks| => SegmentText(AckText(acks[i], total)))
  }

  /** Scenario 3: the recognised type is kept even when the upload fails. */
  function Loaded(s: Status, e: Event): (Status, Response)
    requires e.Line?
  {
    if RecognisedType(e.document) == NoMove then (s.(waiting := 0, link := Issue(s.link, ResetErrors)), CommandFailed)
    else
      var p := UploadAll(s.link, SegmentsSent(e.document.value, e.stack));
      var acks := AckTexts(p.acks, |SegmentsOf(e.document.value.members)|);
      var t := Told(s.(moveType := RecognisedType(e.document), waiting := 0), acks, e.writeOk);
      if p.failed then (t.(link := Issue(p.link, ResetErrors)), CommandFailed)
      else (t.(link := p.link), AssembledMoveAccepted)
  }

  predicate IsIdle(s: Status) { s.connected == 1 && s.waiting == 0 && s.manual == 0 }
  predicate IsManual(s: Status) { s.connected == 1 && s.waiting == 0 && s.manual == 1 }
  predicate IsWaiting(s: Status) { s.connected == 1 && s.waiting == 1 }

  /** parse_socket_input */
  function Dispatched(s: Status, e: Event): (Status, Response)
    requires e.Line?
  {
    if s.connected == 0 then Connecting(s, e.text)
    else if IsIdle(s) then Executed(s, RequestOf(e.text), e)
    else if IsManual(s) then InManualMode(s, e)
    else if IsWaiting(s) then Loaded(s, e)
    else (s, NoRouteToHost)
  }

  // ---- answering, and the loop ----

  predicate IsSilent(code: Response) {
    code == HandledByClient || code == DisconnectSuccess || code == UnknownError
  }

  /** parse_smd_response_to_client_input after the dispatch */
  function Answered(s: Status, code: Response, writeOk: bool): Status
  {
    var t := Told(s, if IsSilent(code) then [] else [Answer(code)], writeOk);
    if code == ReadyForAssembledMove then t.(waiting := 1)
    else if code == InvalidInput && writeOk then t.(clientOpen := false)
    else t
  }

  /** One pass of the loop: a read that finds no data, or a socket already closed, ends the
      session with the drive and waits for the next client. */
  predicate Releases(s: Status, e: Event) { !s.clientOpen || e.Gone? }

  function Served(s: Status, e: Event): Status
  {
    if Releases(s, e) then Closed(s).(clientOpen := true)
    else
      var (t, code) := Dispatched(s, e);
      Answered(t, code, e.writeOk)
  }

  function Run(s: Status, events: seq<Event>): Status
  {
    if events == [] then s else Served(Run(s, events[..|events| - 1]), events[|events| - 1])
  }
}
