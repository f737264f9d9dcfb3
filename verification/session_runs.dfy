/** What holds of the session over every run, whatever clients send and however the drive
    answers. */
module SessionRuns {
  import opened Text
  import opened Utilities
  import opened Modbus
  import opened MotorCommands
  import opened Handshake
  import opened Dispatch
  import opened Session

  // ---- the invariant ----

  ghost predicate Sane(s: Status) {
    && (s.connected == 0 || s.connected == 1) && (s.waiting == 0 || s.waiting == 1) && (s.manual == 0 || s.manual == 1)
    && (s.connected == 0 ==> s.waiting == 0 && s.manual == 0)
    && !(s.waiting == 1 && s.manual == 1)
    && (s.connected == 1 ==> s.hasConnection)
  }

  /** The code a command returns never asks for more than a message. */
  lemma CommandCodes(l: LinkState, c: Command)
    ensures var code := IssueCode(l, c);
      code != ReadyForAssembledMove && code != InvalidInput && code != AssembledMoveAccepted && !IsSilent(code)
  {
  }

  /** The flags after a line, in every scenario at once. */
  ghost predicate Effect(s: Status, e: Event, t: Status, code: Response)
    requires e.Line?
  {
    && Sane(t) && t.clientOpen == s.clientOpen
    && t.waiting == 0
    && (code == ReadyForAssembledMove <==>
          IsIdle(s) && RequestOf(e.text) == ProgramProfile && FirstBlockAccepted(s.link))
    && (code == ReadyForAssembledMove ==> t.connected == 1 && t.manual == 0)
    && (t.manual == 1 <==> (IsIdle(s) && RequestOf(e.text) == StartManual)
                           || (IsManual(s) && !(STOP_MANUAL_MODE <= e.text)))
    && (t.connected == 1 <==> StaysConnected(s, e.text))
    && (code == InvalidInput <==> Unknown(s, e.text))
    && (code == InvalidInput ==> t == s)
    && (code == AssembledMoveAccepted ==> IsWaiting(s))
  }

  /** When the session with the drive is up after a line. */
  ghost predicate StaysConnected(s: Status, text: string) {
    if s.connected == 0 then
      CONNECT <= text && TokenCount(text) == 2 && Address(Split(text)[1]) != "" && ConnectsFirst(s.link.pending)
    else
      && !(IsIdle(s) && RequestOf(text) == Disconnect)
      && !(IsManual(s) && STOP_MANUAL_MODE <= text && !ConnectsFirst(s.link.pending))
  }

  /** The lines a session does not understand in its present scenario. */
  ghost predicate Unknown(s: Status, text: string) {
    if s.connected == 0 then !(CONNECT <= text)
    else if IsIdle(s) then RequestOf(text) == BadInput
    else IsManual(s) && !(STOP_MANUAL_MODE <= text) && !(RESET_ERRORS <= text) && !(READ_INPUT_REGISTERS <= text)
  }

  lemma IdleEffect(s: Status, e: Event)
    requires Sane(s) && e.Line? && IsIdle(s)
    ensures var (t, code) := Executed(s, RequestOf(e.text), e); Effect(s, e, t, code)
  {
    hide RequestOf, Issue, IssueCode, FirstBlockAccepted, ProgramMove;
    match RequestOf(e.text)
    case Direct(c) => CommandCodes(s.link, c);
    case RunDwell(time) => CommandCodes(s.link, RunAssembled(0, time, Dwell, s.moveType));
    case RunBlend(direction) => CommandCodes(s.link, RunAssembled(direction, 0, Blend, s.moveType));
    case _ =>
  }

  lemma ManualEffect(s: Status, e: Event)
    requires Sane(s) && e.Line? && IsManual(s)
    ensures var (t, code) := InManualMode(s, e); Effect(s, e, t, code)
  {
    hide RequestOf, Issue, FirstBlockAccepted;
    CommandCodes(s.link, ImmediateStop);
    CommandCodes(s.link, ResetErrors);
    assert IssueCode(s.link, ImmediateStop) == SendCode(s.link);
  }

  lemma DispatchEffect(s: Status, e: Event)
    requires Sane(s) && e.Line?
    ensures var (t, code) := Dispatched(s, e); Effect(s, e, t, code)
  {
    if IsIdle(s) {
      IdleEffect(s, e);
    } else if IsManual(s) {
      ManualEffect(s, e);
    } else {
      hide RequestOf, Issue, FirstBlockAccepted, UploadAll, SegmentsSent, AckTexts, RecognisedType;
    }
  }

  /** One pass of the loop keeps the flags sane. */
  lemma ServedIsSane(s: Status, e: Event)
    requires Sane(s)
    ensures Sane(Served(s, e))
  {
    hide Dispatched, RequestOf, FirstBlockAccepted;
    if !Releases(s, e) { DispatchEffect(s, e); }
  }

  /** Scenario 4 */
  ghost predicate FallsThrough(s: Status) {
    s.connected != 0 && !IsIdle(s) && !IsManual(s) && !IsWaiting(s)
  }

  lemma {:induction false} RunIsSane(s: Status, events: seq<Event>)
    requires Sane(s)
    ensures Sane(Run(s, events)) && !FallsThrough(Run(s, events))
    decreases |events|
  {
    if events != [] {
      RunIsSane(s, events[..|events| - 1]);
      ServedIsSane(Run(s, events[..|events| - 1]), events[|events| - 1]);
    }
  }

  // ---- what moves each flag ----

  /** Only an accepted programAssembledMove makes the session wait, so a waiting session never
      waits again after the next event: each waiting phase takes at most one line. */
  lemma WaitsExactlyWhen(s: Status, e: Event)
    requires Sane(s)
    ensures Served(s, e).waiting == 1 <==>
      !Releases(s, e) && IsIdle(s) && RequestOf(e.text) == ProgramProfile && FirstBlockAccepted(s.link)
    ensures s.waiting == 1 ==> Served(s, e).waiting == 0
  {
    hide Dispatched, RequestOf, FirstBlockAccepted;
    ServedIsSane(s, e);
    if !Releases(s, e) { DispatchEffect(s, e); }
  }

  lemma ManualExactlyWhen(s: Status, e: Event)
    requires Sane(s)
    ensures Served(s, e).manual == 1 <==>
      !Releases(s, e) && ((IsIdle(s) && RequestOf(e.text) == StartManual)
                          || (IsManual(s) && !(STOP_MANUAL_MODE <= e.text)))
  {
    hide Dispatched, RequestOf, FirstBlockAccepted;
    if !Releases(s, e) { DispatchEffect(s, e); }
  }

  lemma ConnectedExactlyWhen(s: Status, e: Event)
    requires Sane(s)
    ensures Served(s, e).connected == 1 <==> !Releases(s, e) && StaysConnected(s, e.text)
  {
    hide Dispatched, RequestOf, FirstBlockAccepted;
    if !Releases(s, e) { DispatchEffect(s, e); }
  }

  // ---- clean hand-over ----

  /** The next client finds no session with the drive, no upload awaited, no manual mode. */
  lemma HandOverIsClean(s: Status, e: Event)
    requires Sane(s) && Releases(s, e)
    ensures var t := Served(s, e);
      && t.clientOpen && t.connected == 0 && t.waiting == 0 && t.manual == 0
      && t.link == s.link && t.sent == s.sent && t.moveType == s.moveType
  {
  }

  /** A client is hung up on exactly for a line not understood whose answer got through; such
      a line has sent nothing to the drive, and the next pass releases the session whatever
      was still to be read. */
  lemma HangsUpExactlyWhen(s: Status, e: Event, next: Event)
    requires Sane(s) && !Releases(s, e)
    ensures !Served(s, e).clientOpen <==> Unknown(s, e.text) && e.writeOk
    ensures !Served(s, e).clientOpen ==>
      && Served(s, e).link == s.link && Served(s, e).sent == s.sent + [Answer(InvalidInput)]
      && Served(Served(s, e), next) == Closed(s).(sent := s.sent + [Answer(InvalidInput)])
      && Served(Served(s, e), next).connected == 0
  {
    hide Dispatched, RequestOf, FirstBlockAccepted, Unknown;
    DispatchEffect(s, e);
    if !Served(s, e).clientOpen { HandOverIsClean(Served(s, e), next); }
  }
}
