/** The upload protocol itself: what the server does after each answer of the drive, and what
    a positive answer to the client then means. */
module Handshake {
  import opened Text
  import opened Utilities
  import opened Registers
  import opened Readback
  import opened Drive
  import opened Modbus
  import opened MotorCommands
  import opened Upload

  // ---- answers of the drive ----

  /** The text of status word 0 in the caller's array after a read, given what it held. */
  function StatusTextOf(r: Reading, status: Option<string>): string
    requires !r.NoRoute?
  {
    match r
    case Garbage(word0, _) => status.GetOr(word0)
    case Read(words) => Render(0, words[0])
  }

  function LineOf(r: Reading): string
    requires !r.NoRoute?
  {
    match r
    case Garbage(_, line) => line
    case Read(words) => RegisterLine(INPUT_PREFIX, words)
  }

  /** bin_string[6] after expanding the status word into a zeroed 17-byte buffer. */
  function Bit9Char(statusText: string): char
  {
    CharAt(BinString(17, statusText), 6)
  }

  /** The test at the start of an upload goes through the whole line: token 2, expanded into
      16 bytes, must show bits 9 and 8. (Fewer than three tokens are not looked at.) */
  predicate ReadyForSegments(line: string) {
    && ' ' !in line && |Split(line)| > 2
    && var text := Split(line)[2];
       && text != "" && AllHex(WithoutPrefix(text)) && 4 * |WithoutPrefix(text)| <= 16
       && CharAt(BinString(16, text), 6) == '1' && CharAt(BinString(16, text), 7) == '1'
  }

  // ---- entering the program mode ----

  function FirstBlock(l: LinkState): LinkState
  {
    var sent := Send(l, PREPARE_WRITES, FIRST_BLOCK_NAME);
    if SendCode(l) == CommandSuccess then Consume(sent) else sent
  }

  predicate FirstBlockAccepted(l: LinkState) {
    && SendCode(l) == CommandSuccess
    && var r := ReadingOf(Send(l, PREPARE_WRITES, FIRST_BLOCK_NAME));
       !r.NoRoute? && ReadyForSegments(LineOf(r))
  }

  method ProgramFirstBlock(link: Link) returns (code: Response)
    modifies link
    ensures link.Value() == FirstBlock(old(link.Value()))
    ensures code == if FirstBlockAccepted(old(link.Value())) then CommandSuccess else CommandFailed
  {
    UploadNamesSendable();
    code := link.SendModbusCommand(PREPARE_WRITES, FIRST_BLOCK_NAME);
    if code != CommandSuccess {
      return CommandFailed;
    }
    var result, _, line, _ := link.ReadModbusRegisters(INPUT_PREFIX, None);
    if result == NoRouteToHost || result == CommandFailed {
      return CommandFailed;
    }
    var n := NumberOfTokens(line);
    if n <= 2 {
      return CommandFailed;
    }
    var tokens := new string[n];
    var rc := TokenizeClientInput(tokens, line);
    var bits;
    rc, bits := HexStringToBinString(16, tokens[2]);
    code := if rc == 0 && CharAt(bits, 6) == '1' && CharAt(bits, 7) == '1' then CommandSuccess else CommandFailed;
  }

  lemma UploadNamesSendable()
    ensures Sendable(FIRST_BLOCK_NAME, PREPARE_WRITES) && Sendable(PREPARE_NAME, PREPARE_WRITES)
    ensures forall s: Profile :: Sendable(SEGMENT_NAME, WritesOf(s))
    ensures !IsStop(FIRST_BLOCK_NAME) && !IsStop(PREPARE_NAME) && !IsStop(SEGMENT_NAME)
  {
    NotAStopName(FIRST_BLOCK_NAME);
    NotAStopName(PREPARE_NAME);
    NotAStopName(SEGMENT_NAME);
  }

  /** SMD_program_assembled_move */
  function ProgramMove(l: LinkState): LinkState
  {
    if FirstBlockAccepted(l) then FirstBlock(l) else Issue(FirstBlock(l), ResetErrors)
  }

  function ProgramMoveCode(l: LinkState): Response
  {
    if FirstBlockAccepted(l) then ReadyForAssembledMove else CommandFailed
  }

  method ProgramAssembledMove(link: Link) returns (code: Response)
    modifies link
    ensures link.Value() == ProgramMove(old(link.Value()))
    ensures code == ProgramMoveCode(old(link.Value()))
  {
    code := ProgramFirstBlock(link);
    if code == CommandSuccess {
      return ReadyForAssembledMove;
    }
    var _ := IssueCommand(link, ResetErrors);
    code := CommandFailed;
  }

  // ---- one segment ----

  /** How far an upload got: the line to the drive, the numbers acknowledged to the client so
      far, and whether the upload was given up. */
  datatype Progress = Progress(link: LinkState, acks: seq<nat>, failed: bool)

  /** Segment number `number` (from 1) is sent, whatever the send returns; the drive must lower
      bit 9; then it is asked for the next segment; the client hears of it only if bit 9 is
      back. Both reads of a round fill the same array, which is a new one in every round. */
  function UploadOne(p: Progress, writes: seq<Write>, number: nat): Progress
  {
    var sent := Send(p.link, writes, SEGMENT_NAME);
    var first := ReadingOf(sent);
    var l := Consume(sent);
    if first.NoRoute? || Bit9Char(StatusTextOf(first, None)) != '0' then Progress(l, p.acks, true)
    else
      var prepared := Send(l, PREPARE_WRITES, PREPARE_NAME);
      if SendCode(l) != CommandSuccess then Progress(prepared, p.acks, true)
      else
        var second := ReadingOf(prepared);
        var m := Consume(prepared);
        if second.NoRoute? then Progress(m, p.acks, true)
        else if Bit9Char(StatusTextOf(second, Some(StatusTextOf(first, None)))) == '1' then
          Progress(m, p.acks + [number], false)
        else Progress(m, p.acks, false)
  }

  /** After the first k write programs, stopping at the first failure. */
  function UploadRun(l: LinkState, programs: seq<seq<Write>>, k: nat): Progress
    requires k <= |programs|
  {
    if k == 0 then Progress(l, [], false)
    else
      var p := UploadRun(l, programs, k - 1);
      if p.failed then p else UploadOne(p, programs[k - 1], k)
  }

  function ProgramsOf(segments: seq<Profile>): (programs: seq<seq<Write>>)
    ensures |programs| == |segments|
  {
    seq(|segments|, i requires 0 <= i < |segments| => WritesOf(segments[i]))
  }

  /** The upload of a list of segments. */
  function UploadAll(l: LinkState, segments: seq<Profile>): Progress
  {
    UploadRun(l, ProgramsOf(segments), |segments|)
  }

  lemma {:induction false} FailureStays(l: LinkState, programs: seq<seq<Write>>, k: nat, n: nat)
    requires k <= n <= |programs| && UploadRun(l, programs, k).failed
    ensures UploadRun(l, programs, n) == UploadRun(l, programs, k)
  {
    hide UploadOne;
    if k < n { FailureStays(l, programs, k, n - 1); }
  }

  method UploadSegment(link: Link, writes: seq<Write>, number: nat, ghost acks: seq<nat>)
    returns (failed: bool, acknowledged: bool)
    requires Sendable(SEGMENT_NAME, writes)
    modifies link
    ensures var p := UploadOne(Progress(old(link.Value()), acks, false), writes, number);
      p == Progress(link.Value(), if acknowledged then acks + [number] else acks, failed)
  {
    UploadNamesSendable();
    failed, acknowledged := true, false;
    var _ := link.SendModbusCommand(writes, SEGMENT_NAME);
    var result, status, line, written := link.ReadModbusRegisters(INPUT_PREFIX, None);
    if result == NoRouteToHost || result == CommandFailed {
      return;
    }
    var rc, bits := HexStringToBinString(17, status);
    if CharAt(bits, 6) == '0' {
      var code := link.SendModbusCommand(PREPARE_WRITES, PREPARE_NAME);
      if code == CommandSuccess {
        result, status, line, written := link.ReadModbusRegisters(INPUT_PREFIX, Some(status));
        if result == NoRouteToHost || result == CommandFailed {
          return;
        }
        rc, bits := HexStringToBinString(17, status);
        failed, acknowledged := false, CharAt(bits, 6) == '1';
      }
    }
  }

  lemma RunStep(l: LinkState, programs: seq<seq<Write>>, k: nat)
    requires k < |programs| && !UploadRun(l, programs, k).failed
    ensures UploadRun(l, programs, k + 1) == UploadOne(UploadRun(l, programs, k), programs[k], k + 1)
  {
  }

  method UploadSegments(link: Link, programs: seq<seq<Write>>) returns (failed: bool, acks: seq<nat>)
    requires forall i :: 0 <= i < |programs| ==> Sendable(SEGMENT_NAME, programs[i])
    modifies link
    ensures UploadRun(old(link.Value()), programs, |programs|) == Progress(link.Value(), acks, failed)
  {
    hide UploadOne;
    failed, acks := false, [];
    var i := 0;
    while i < |programs| && !failed
      invariant 0 <= i <= |programs|
      invariant UploadRun(old(link.Value()), programs, i) == Progress(link.Value(), acks, failed)
      decreases |programs| - i
    {
      RunStep(old(link.Value()), programs, i);
      var acknowledged;
      failed, acknowledged := UploadSegment(link, programs[i], i + 1, acks);
      if acknowledged {
        acks := acks + [i + 1];
      }
      i := i + 1;
    }
    if failed {
      FailureStays(old(link.Value()), programs, i, |programs|);
    }
  }

  // ---- the whole upload ----

  function TypeOf(name: string): MoveType
  {
    if "dwell" <= name then Dwell else if "blend" <= name then Blend else NoMove
  }

  /** The move type a document sets: NoMove when it is not JSON, has no segments or more than
      sixteen, or names no known type. */
  function RecognisedType(document: Option<Document>): MoveType
  {
    if document.Some? && 1 <= |SegmentsOf(document.value.members)| <= MAX_SEGMENTS
    then TypeOf(document.value.moveType) else NoMove
  }

  /** The segments that go to the drive: the first cells of the stack array. */
  function SegmentsSent(document: Document, initial: seq<Profile>): seq<Profile>
    requires |SegmentsOf(document.members)| <= |initial|
  {
    TableOf(document.members, initial)[..|SegmentsOf(document.members)|]
  }

  /** SMD_parse_and_upload_assembled_move: `table` is the stack array with whatever it holds.
      The recognised type is returned even when the upload then fails. */
  method ParseAndUpload(link: Link, document: Option<Document>, table: array<Profile>)
    returns (code: Response, recognised: MoveType, acks: seq<nat>, n: nat)
    requires table.Length == MAX_SEGMENTS
    modifies link, table
    ensures recognised == RecognisedType(document)
    ensures recognised == NoMove ==> code == CommandFailed && acks == [] && link.Value() == old(link.Value())
    ensures recognised != NoMove ==>
      && n == |SegmentsOf(document.value.members)|
      && UploadAll(old(link.Value()), SegmentsSent(document.value, old(table[..])))
         == Progress(link.Value(), acks, code == CommandFailed)
      && (code == CommandSuccess || code == CommandFailed)
  {
    recognised, acks, n := NoMove, [], 0;
    if document == None {
      return CommandFailed, NoMove, [], 0;
    }
    n := CollectSegments(document.value.members, table);
    if n == 0 || n > MAX_SEGMENTS {
      return CommandFailed, NoMove, [], n;
    }
    if "dwell" <= document.value.moveType {
      recognised := Dwell;
    } else if "blend" <= document.value.moveType {
      recognised := Blend;
    } else {
      return CommandFailed, NoMove, [], n;
    }
    var failed;
    UploadNamesSendable();
    failed, acks := UploadSegments(link, ProgramsOf(table[..n]));
    code := if failed then CommandFailed else CommandSuccess;
  }
}
