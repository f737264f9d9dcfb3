/** SMD_Modbus.c: connections to the drive, the register write loop with its resending of
    stop commands, and the register read. */
module Modbus {
  import opened Utilities
  import opened Registers
  import opened Drive

  datatype Response =
    | CommandSuccess | CommandFailed | ConnectSuccess | DisconnectSuccess | HandledByClient
    | EnableSuccess | DisableSuccess | InvalidInput | NoRouteToHost | InvalidParameter
    | PresetPosSuccess | PresetEncSuccess | PresetPosFail | PresetEncFail
    | SaveConfigSuccess | SaveConfigFail | ReadCurrentConfigFail | ReadyToReadConfig
    | ResetErrorsSuccess | UnknownError | ReadyForAssembledMove | AssembledMoveAccepted

  type NineWords = ws: seq<Word> | |ws| == 9 witness [0, 0, 0, 0, 0, 0, 0, 0, 0]

  /** What a register read finds. A read that fails writes nothing: the caller's array of words
      keeps its text, which for an array never written before may be any (`word0`), and the
      line is fresh memory, any text at all. */
  datatype Reply = Registers(noise: Noise, others: NineWords) | ReadError(word0: string, line: string)

  /** How one attempt to connect goes: `dropped` are the indices of the writes that fail on
      that connection. Busy is errno 9. */
  datatype Outcome = Connected(dropped: set<nat>, reply: Reply) | Busy | Unreachable

  /** One register write program sent over one connection. */
  datatype Frame = Frame(name: string, writes: seq<Write>)

  /** The line to the drive: the connect outcomes still to come (attempts beyond the end of
      this finite list find the drive unreachable), the drive, and every frame sent so far. */
  datatype LinkState = LinkState(pending: seq<Outcome>, drive: State, log: seq<Frame>)

  /** The drive after the first k writes, less the dropped ones. */
  function Delivered(d: State, writes: seq<Write>, dropped: set<nat>, k: nat): State
    requires k <= |writes|
  {
    if k == 0 then d
    else
      var before := Delivered(d, writes, dropped, k - 1);
      if k - 1 in dropped then before else before.Written(writes[k - 1])
  }

  // ---- sending ----

  const HOLD_MOVE_NAME := "hold_move"
  const IMMEDIATE_STOP_NAME := "immediate_stop"
  const HOLD_WRITES := [Write(1024, 0), Write(1025, 32768), Write(1024, 4)]
  const STOP_WRITES := [Write(1025, 32768), Write(1024, 16)]

  /** strncmp(name, full, strlen(name)) == 0 */
  predicate NameMatches(name: string, full: string) { name <= full }

  predicate IsStop(name: string) {
    NameMatches(name, HOLD_MOVE_NAME) || NameMatches(name, IMMEDIATE_STOP_NAME)
  }

  /** The only commands whose names match a stop command are the two stop commands. */
  predicate Sendable(name: string, writes: seq<Write>) {
    && (NameMatches(name, HOLD_MOVE_NAME) ==> name == HOLD_MOVE_NAME && writes == HOLD_WRITES)
    && (NameMatches(name, IMMEDIATE_STOP_NAME) ==> name == IMMEDIATE_STOP_NAME && writes == STOP_WRITES)
  }

  /** The attempts that end in errno 9 before any other answer. */
  function BusyRun(pending: seq<Outcome>): (k: nat)
    ensures k <= |pending|
    ensures forall i :: 0 <= i < k ==> pending[i].Busy?
    ensures k < |pending| ==> !pending[k].Busy?
  {
    if pending == [] || !pending[0].Busy? then 0 else 1 + BusyRun(pending[1..])
  }

  predicate ConnectsFirst(pending: seq<Outcome>) {
    pending != [] && pending[0].Connected?
  }

  /** The answer that decides whether a command is sent: for a stop command the first that
      is not errno 9, for the others the first. */
  function Deciding(name: string, pending: seq<Outcome>): (k: nat)
    ensures k <= |pending|
  {
    if IsStop(name) then BusyRun(pending) else 0
  }

  predicate Delivers(name: string, pending: seq<Outcome>) {
    var k := Deciding(name, pending);
    k < |pending| && pending[k].Connected?
  }

  function Send(l: LinkState, writes: seq<Write>, name: string): LinkState
  {
    var k := Deciding(name, l.pending);
    if !Delivers(name, l.pending) then l.(pending := if k < |l.pending| then l.pending[k + 1..] else [])
    else LinkState(l.pending[k + 1..],
      Delivered(l.drive, writes, l.pending[k].dropped, |writes|), l.log + [Frame(name, writes)])
  }

  /** The code a send returns: it says only whether the first attempt connected. */
  function SendCode(l: LinkState): Response
  {
    if ConnectsFirst(l.pending) then CommandSuccess else CommandFailed
  }

  /** A stop command that got through after errno 9 is still reported as failed; that is the
      only case in which the code is wrong about the frame having been sent. */
  lemma StopReportIsWrongOnlyAfterBusy(l: LinkState, writes: seq<Write>, name: string)
    requires IsStop(name)
    ensures (SendCode(l) == CommandSuccess <==> Send(l, writes, name).log == l.log + [Frame(name, writes)])
        <==> !(l.pending != [] && l.pending[0].Busy? && Delivers(name, l.pending))
    ensures Send(l, writes, name).log == if Delivers(name, l.pending) then l.log + [Frame(name, writes)] else l.log
  {
    if !Delivers(name, l.pending) {
      assert |l.log| < |l.log + [Frame(name, writes)]|;
    }
  }

  // ---- reading ----

  datatype Reading = NoRoute | Garbage(word0: string, line: string) | Read(words: TenWords)

  function Consume(l: LinkState): LinkState
  {
    if l.pending == [] then l else l.(pending := l.pending[1..])
  }

  function ReadingOf(l: LinkState): Reading
  {
    if !ConnectsFirst(l.pending) then NoRoute
    else match l.pending[0].reply
      case ReadError(word0, line) => Garbage(word0, line)
      case Registers(noise, others) => Read([l.drive.StatusWord(noise)] + others)
  }

  class Link {
    var pending: seq<Outcome>
    var drive: State
    var log: seq<Frame>

    constructor (pending: seq<Outcome>, drive: State)
      ensures Value() == LinkState(pending, drive, [])
    {
      this.pending, this.drive, this.log := pending, drive, [];
    }

    function Value(): LinkState
      reads this
    {
      LinkState(pending, drive, log)
    }

    /** modbus_connect */
    method Connect() returns (o: Outcome)
      modifies this`pending
      ensures Value() == Consume(old(Value()))
      ensures o == if old(pending) == [] then Unreachable else old(pending)[0]
    {
      if pending == [] {
        return Unreachable;
      }
      o := pending[0];
      pending := pending[1..];
    }

    /** A failed write is logged and the loop goes on; its failure code is overwritten by the
        success code at the end. After errno 9 the two stop commands are sent again from
        scratch, and the code of the second sending is thrown away. */
    method SendModbusCommand(writes: seq<Write>, name: string) returns (result: Response)
      requires Sendable(name, writes)
      modifies this
      ensures Value() == Send(old(Value()), writes, name)
      ensures result == SendCode(old(Value()))
      decreases |pending|
    {
      ghost var before := pending;
      var o := Connect();
      if !o.Connected? {
        if o == Busy {
          if NameMatches(name, HOLD_MOVE_NAME) {
            var _ := SendModbusCommand(HOLD_WRITES, HOLD_MOVE_NAME);
          }
          if NameMatches(name, IMMEDIATE_STOP_NAME) {
            var _ := SendModbusCommand(STOP_WRITES, IMMEDIATE_STOP_NAME);
          }
        }
        result := CommandFailed;
      } else {
        result := CommandSuccess;
        for i := 0 to |writes|
          invariant drive == Delivered(old(drive), writes, o.dropped, i)
          invariant pending == before[1..] && log == old(log)
        {
          if i in o.dropped {
            result := CommandFailed;
          } else {
            drive := drive.Written(writes[i]);
          }
        }
        log := log + [Frame(name, writes)];
        result := CommandSuccess;
      }
    }

    /** `written` tells whether the line was built (and so can be sent to the client). */
    /** `status` is the text of word 0 in the caller's array, if anything was written there. */
    method ReadModbusRegisters(prefix: string, status: Option<string>)
      returns (result: Response, word0: string, line: string, written: bool)
      requires prefix == INPUT_PREFIX || prefix == CONFIG_PREFIX
      modifies this
      ensures Value() == Consume(old(Value()))
      ensures match ReadingOf(old(Value()))
        case NoRoute => result == NoRouteToHost && !written
        case Garbage(w, l) => result == CommandSuccess && word0 == status.GetOr(w) && line == l && !written
        case Read(words) => result == CommandSuccess && word0 == Render(0, words[0])
                            && line == RegisterLine(prefix, words) && |line| < 128 && written
    {
      var o := Connect();
      word0, line, written := "", "", false;
      match o
      case Connected(_, ReadError(w, l)) =>
        result, word0, line := CommandSuccess, status.GetOr(w), l;
      case Connected(_, Registers(noise, others)) =>
        var texts;
        texts, line := BuildLine(prefix, [drive.StatusWord(noise)] + others);
        result, word0, written := CommandSuccess, texts[0], true;
      case _ =>
        result := NoRouteToHost;
    }
  }

  lemma StopNamesDiffer()
    ensures !NameMatches(HOLD_MOVE_NAME, IMMEDIATE_STOP_NAME) && !NameMatches(IMMEDIATE_STOP_NAME, HOLD_MOVE_NAME)
    ensures Sendable(HOLD_MOVE_NAME, HOLD_WRITES) && Sendable(IMMEDIATE_STOP_NAME, STOP_WRITES)
  {
    assert HOLD_MOVE_NAME[0] == 'h' && IMMEDIATE_STOP_NAME[0] == 'i';
  }
}
