/** What reaches the drive over whole runs of the session: only motion parameters in range,
    assembled moves only of the type last loaded, and stops only when one is asked for. */
module WireSafety {
  import opened Utilities
  import opened Drive
  import opened Modbus
  import opened MotorCommands
  import opened Upload
  import opened Handshake
  import opened Dispatch
  import opened Session

  const RUN_NAME := "run_assembled_move"

  /** A run of an assembled move of type t: which of the two it is shows in register 1025. */
  ghost predicate RunsType(f: Frame, t: MoveType) {
    f.name == RUN_NAME ==>
      && t != NoMove && |f.writes| == 3
      && (if t == Dwell then f.writes[0] == Write(1025, 33280)
          else f.writes[0] == Write(1025, 32768) || f.writes[0] == Write(1025, 32784))
  }

  predicate IsStopFrame(f: Frame) { f.name == HOLD_MOVE_NAME || f.name == IMMEDIATE_STOP_NAME }

  /** Which type of assembled move may run, and whether a stop may go out. */
  datatype Rule = Rule(moveType: MoveType, stops: bool)

  ghost predicate Safe(f: Frame, t: Rule) {
    WireSafe(f) && RunsType(f, t.moveType) && (IsStopFrame(f) ==> t.stops)
  }

  /** From l to m only safe frames were added to the log. */
  ghost predicate Grows(l: LinkState, m: LinkState, t: Rule) {
    l.log <= m.log && forall i :: |l.log| <= i < |m.log| ==> Safe(m.log[i], t)
  }

  lemma GrowsOn(l: LinkState, m: LinkState, n: LinkState, t: Rule)
    requires Grows(l, m, t) && Grows(m, n, t)
    ensures Grows(l, n, t)
  {
  }

  lemma SendGrows(l: LinkState, writes: seq<Write>, name: string, t: Rule)
    requires Safe(Frame(name, writes), t)
    ensures Grows(l, Send(l, writes, name), t)
  {
    hide Safe;
  }

  // ---- single commands ----

  predicate IsStopCommand(c: Command) { c.HoldMove? || c.ImmediateStop? }

  /** The session passes its own move type to the run commands. */
  ghost predicate Current(c: Command, t: Rule) {
    (c.RunAssembled? ==> c.loaded == t.moveType) && (IsStopCommand(c) ==> t.stops)
  }

  lemma AcceptedIsSafe(c: Command, t: Rule)
    requires c.Accepted() && Current(c, t)
    ensures Safe(Frame(c.Name(), c.Writes()), t)
  {
    hide WireSafe;
    AcceptedIsWireSafe(c);
    MotionNames(c);
    CommandsAreSendable(c);
    if IsStopFrame(Frame(c.Name(), c.Writes())) { assert IsStop(c.Name()); }
  }

  lemma IssueGrows(l: LinkState, c: Command, t: Rule)
    requires Current(c, t)
    ensures Grows(l, Issue(l, c), t)
  {
    hide Send, Safe;
    if c.Accepted() {
      AcceptedIsSafe(c, t);
      SendGrows(l, c.Writes(), c.Name(), t);
    }
  }

  // ---- the upload ----

  lemma UploadNamesAreSafe(writes: seq<Write>, t: Rule)
    ensures Safe(Frame(FIRST_BLOCK_NAME, writes), t) && Safe(Frame(PREPARE_NAME, writes), t)
    ensures Safe(Frame(SEGMENT_NAME, writes), t)
  {
    assert FIRST_BLOCK_NAME[0] == 'p' && PREPARE_NAME[0] == 'p' && SEGMENT_NAME[0] == 'p';
    NotAStopName(FIRST_BLOCK_NAME); NotAStopName(PREPARE_NAME); NotAStopName(SEGMENT_NAME);
    assert "jog"[0] == 'j' && "relative_move"[0] == 'r' && "find_home"[0] == 'f' && RUN_NAME[0] == 'r';
  }

  lemma ProgramMoveGrows(l: LinkState, t: Rule)
    ensures Grows(l, ProgramMove(l), t)
  {
    hide Send, Issue, Safe, FirstBlockAccepted;
    UploadNamesAreSafe(PREPARE_WRITES, t);
    SendGrows(l, PREPARE_WRITES, FIRST_BLOCK_NAME, t);
    GrowsOn(l, Send(l, PREPARE_WRITES, FIRST_BLOCK_NAME), FirstBlock(l), t);
    IssueGrows(FirstBlock(l), ResetErrors, t);
    if !FirstBlockAccepted(l) { GrowsOn(l, FirstBlock(l), ProgramMove(l), t); }
  }

  lemma UploadOneGrows(p: Progress, writes: seq<Write>, number: nat, t: Rule)
    ensures Grows(p.link, UploadOne(p, writes, number).link, t)
  {
    hide Send, Safe, Bit9Char, StatusTextOf, ReadingOf;
    UploadNamesAreSafe(writes, t);
    UploadNamesAreSafe(PREPARE_WRITES, t);
    var sent := Send(p.link, writes, SEGMENT_NAME);
    SendGrows(p.link, writes, SEGMENT_NAME, t);
    SendGrows(Consume(sent), PREPARE_WRITES, PREPARE_NAME, t);
  }

  lemma {:induction false} UploadGrows(l: LinkState, programs: seq<seq<Write>>, k: nat, t: Rule)
    requires k <= |programs|
    ensures Grows(l, UploadRun(l, programs, k).link, t)
  {
    hide UploadOne, Safe;
    if k > 0 {
      UploadGrows(l, programs, k - 1, t);
      var p := UploadRun(l, programs, k - 1);
      if !p.failed { UploadOneGrows(p, programs[k - 1], k, t); }
    }
  }

  // ---- one pass of the loop ----

  /** The line asks for a stop: holdMove or immedStop in Scenario 1, stopManualMode in 2. */
  predicate AsksStop(s: Status, text: string) {
    || (IsIdle(s) && (RequestOf(text) == Direct(HoldMove) || RequestOf(text) == Direct(ImmediateStop)))
    || (IsManual(s) && STOP_MANUAL_MODE <= text)
  }

  predicate StopAsked(s: Status, e: Event) { !Releases(s, e) && AsksStop(s, e.text) }

  function RuleFor(s: Status, text: string): Rule { Rule(s.moveType, AsksStop(s, text)) }

  /** No client line names a run command with a type of its own choosing. */
  lemma LinesNameNoType(text: string)
    ensures RequestOf(text).Direct? ==> !RequestOf(text).command.RunAssembled?
  {
    hide KeywordOf, TokenCount, CounterClockwiseIn, Parameters;
  }

  lemma ExecutedGrows(s: Status, e: Event)
    requires e.Line? && IsIdle(s)
    ensures Grows(s.link, Executed(s, RequestOf(e.text), e).0.link, RuleFor(s, e.text))
  {
    var t := RuleFor(s, e.text);
    hide RequestOf, Issue, IssueCode, ProgramMove, Safe;
    LinesNameNoType(e.text);
    match RequestOf(e.text)
    case Direct(c) => IssueGrows(s.link, c, t);
    case RunDwell(time) => IssueGrows(s.link, RunAssembled(0, time, Dwell, s.moveType), t);
    case RunBlend(direction) => IssueGrows(s.link, RunAssembled(direction, 0, Blend, s.moveType), t);
    case ProgramProfile => ProgramMoveGrows(s.link, t);
    case _ =>
  }

  lemma ManualGrows(s: Status, e: Event)
    requires e.Line? && IsManual(s)
    ensures Grows(s.link, InManualMode(s, e).0.link, RuleFor(s, e.text))
  {
    hide Issue, IssueCode, Safe;
    if STOP_MANUAL_MODE <= e.text { IssueGrows(s.link, ImmediateStop, RuleFor(s, e.text)); }
    IssueGrows(s.link, ResetErrors, RuleFor(s, e.text));
  }

  lemma LoadedGrows(s: Status, e: Event)
    requires e.Line?
    ensures Grows(s.link, Loaded(s, e).0.link, RuleFor(s, e.text))
  {
    hide Issue, Safe, UploadRun, SegmentsSent, AckTexts, ProgramsOf;
    var t := RuleFor(s, e.text);
    IssueGrows(s.link, ResetErrors, t);
    if RecognisedType(e.document) != NoMove {
      var segments := SegmentsSent(e.document.value, e.stack);
      UploadGrows(s.link, ProgramsOf(segments), |segments|, t);
      var p := UploadAll(s.link, segments);
      IssueGrows(p.link, ResetErrors, t);
      GrowsOn(s.link, p.link, Issue(p.link, ResetErrors), t);
    }
  }

  lemma DispatchGrows(s: Status, e: Event)
    requires e.Line?
    ensures Grows(s.link, Dispatched(s, e).0.link, RuleFor(s, e.text))
  {
    hide RequestOf, Executed, InManualMode, Loaded, Safe;
    if IsIdle(s) { ExecutedGrows(s, e); }
    else if IsManual(s) { ManualGrows(s, e); }
    else if IsWaiting(s) { LoadedGrows(s, e); }
  }

  lemma ServedGrows(s: Status, e: Event)
    ensures Grows(s.link, Served(s, e).link, Rule(s.moveType, StopAsked(s, e)))
  {
    hide Dispatched, Safe;
    if !Releases(s, e) { DispatchGrows(s, e); }
  }

  // ---- over whole runs ----

  /** The type of the latest profile uploaded by any client whose type was recognised. */
  function LatestType(s: Status, events: seq<Event>): MoveType
  {
    if events == [] then s.moveType
    else
      var front, e := events[..|events| - 1], events[|events| - 1];
      var before := Run(s, front);
      if !Releases(before, e) && IsWaiting(before) && RecognisedType(e.document) != NoMove
      then RecognisedType(e.document) else LatestType(s, front)
  }

  lemma {:induction false} TypeIsLatest(s: Status, events: seq<Event>)
    ensures Run(s, events).moveType == LatestType(s, events)
    decreases |events|
  {
    hide RequestOf, Issue, ProgramMove, UploadAll, RecognisedType, ReadOut;
    if events != [] {
      var front, e := events[..|events| - 1], events[|events| - 1];
      TypeIsLatest(s, front);
      TypeAfter(Run(s, front), e);
    }
  }

  lemma TypeAfter(s: Status, e: Event)
    ensures Served(s, e).moveType ==
      if !Releases(s, e) && IsWaiting(s) && RecognisedType(e.document) != NoMove
      then RecognisedType(e.document) else s.moveType
  {
    hide RequestOf, Executed, InManualMode, Loaded, RecognisedType;
    if !Releases(s, e) {
      if IsIdle(s) { ExecutedKeepsType(s, RequestOf(e.text), e); }
      else if IsManual(s) { ManualKeepsType(s, e); }
      else if IsWaiting(s) { LoadedType(s, e); }
    }
  }

  lemma ExecutedKeepsType(s: Status, r: Request, e: Event)
    requires e.Line?
    ensures Executed(s, r, e).0.moveType == s.moveType
  {
    hide Issue, IssueCode, ProgramMove;
  }

  lemma ManualKeepsType(s: Status, e: Event)
    requires e.Line?
    ensures InManualMode(s, e).0.moveType == s.moveType
  {
    hide Issue, IssueCode;
  }

  lemma LoadedType(s: Status, e: Event)
    requires e.Line?
    ensures Loaded(s, e).0.moveType
      == if RecognisedType(e.document) != NoMove then RecognisedType(e.document) else s.moveType
  {
    hide Issue, UploadAll, RecognisedType, AckTexts, SegmentsSent;
  }

  /** Run gating: in every run, across clients, failed uploads and lost connections, the frames
      an event adds run an assembled move only of the type of the latest recognised profile,
      and none before the first; every motion frame is within range; and a stop goes out only
      if the event asks for one. */
  lemma RunsOnlyTheLatestProfile(s: Status, events: seq<Event>, e: Event)
    ensures Grows(Run(s, events).link, Run(s, events + [e]).link,
                  Rule(LatestType(s, events), StopAsked(Run(s, events), e)))
  {
    hide Served, Safe;
    TypeIsLatest(s, events);
    ServedGrows(Run(s, events), e);
    assert (events + [e])[..|events|] == events;
  }

  /** Before any client has uploaded a profile of a known type, no line runs one. */
  lemma NothingRunsBeforeAProfile(link: LinkState, events: seq<Event>, e: Event)
    requires forall i :: 0 <= i < |events| && events[i].Line? ==> RecognisedType(events[i].document) == NoMove
    ensures var l, m := Run(Initial(link), events).link.log, Run(Initial(link), events + [e]).link.log;
      l <= m && forall i :: |l| <= i < |m| ==> m[i].name != "run_assembled_move"
  {
    hide Served, WireSafe;
    NoTypeYet(link, events);
    RunsOnlyTheLatestProfile(Initial(link), events, e);
  }

  lemma {:induction false} NoTypeYet(link: LinkState, events: seq<Event>)
    requires forall i :: 0 <= i < |events| && events[i].Line? ==> RecognisedType(events[i].document) == NoMove
    ensures LatestType(Initial(link), events) == NoMove
    decreases |events|
  {
    hide Served, RecognisedType;
    if events != [] { NoTypeYet(link, events[..|events| - 1]); }
  }

  ghost predicate AllWireSafe(log: seq<Frame>) {
    forall i :: 0 <= i < |log| ==> WireSafe(log[i])
  }

  lemma {:induction false} EverythingSentIsInRange(s: Status, events: seq<Event>)
    requires AllWireSafe(s.link.log)
    ensures AllWireSafe(Run(s, events).link.log)
    decreases |events|
  {
    hide Served, WireSafe;
    if events != [] {
      var before := Run(s, events[..|events| - 1]);
      EverythingSentIsInRange(s, events[..|events| - 1]);
      ServedGrows(before, events[|events| - 1]);
    }
  }
}
