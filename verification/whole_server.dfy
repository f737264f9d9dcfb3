/** The session and the manual-mode controllers together: client events and controller steps
    in any order, sharing the manual-mode flag and the line to the drive. */
module WholeServer {
  import opened ManualController
  import opened ManualThreads
  import opened SingleController
  import opened Modbus
  import MotorCommands
  import Dispatch
  import Session
  import opened SessionRuns
  import opened WireSafety

  datatype Whole = Whole(session: Session.Status, controllers: System)

  /** One event of the client, or one small step of controller k. */
  datatype Happening = Client(event: Session.Event) | Controller(k: nat, look: Look)

  /** What an event of the client does to the flag the controllers test. */
  function FlagSteps(s: Session.Status, e: Session.Event): seq<Step>
  {
    if Session.Releases(s, e) then if s.hasConnection && s.connected == 1 then [Clear] else []
    else if Session.IsIdle(s) then
      match Dispatch.RequestOf(e.text)
      case StartManual => [Start(e.threadOk)]
      case Disconnect => [Clear]
      case _ => []
    else if Session.IsManual(s) && Dispatch.STOP_MANUAL_MODE <= e.text then [Clear]
    else []
  }

  function StepsOfOne(w: Whole, h: Happening): seq<Step>
  {
    match h
    case Client(e) => FlagSteps(w.session, e)
    case Controller(k, look) => [Turn(k, look)]
  }

  /** The commands of the controllers go out over the same line. */
  function SendAll(l: LinkState, events: seq<Event>): LinkState
    decreases |events|
  {
    if events == [] then l else SendAll(MotorCommands.Issue(l, CommandOf(events[0].motion)), events[1..])
  }

  function Proceed(w: Whole, h: Happening): (next: (Whole, seq<Event>))
    requires Sized(w.controllers)
    ensures Sized(next.0.controllers)
  {
    var moved := ManualThreads.Run(w.controllers, StepsOfOne(w, h));
    RunKeepsSize(w.controllers, StepsOfOne(w, h));
    match h
    case Client(e) => (Whole(Session.Served(w.session, e), moved.0), moved.1)
    case Controller(_, _) => (Whole(w.session.(link := SendAll(w.session.link, moved.1)), moved.0), moved.1)
  }

  /** Where a run ends, and all the commands of the controllers on the way. */
  function RunAll(w: Whole, hs: seq<Happening>): (Whole, seq<Event>)
    requires Sized(w.controllers)
    decreases |hs|
  {
    if hs == [] then (w, [])
    else
      var now := Proceed(w, hs[0]);
      var later := RunAll(now.0, hs[1..]);
      (later.0, now.1 + later.1)
  }

  // ---- one flag ----

  ghost predicate Agree(w: Whole) {
    Sane(w.session) && AllWell(w.controllers) && w.controllers.enabled == w.session.manual
  }

  lemma FlagMoves(s: Session.Status, c: System, e: Session.Event)
    requires Agree(Whole(s, c))
    ensures Agree(Whole(Session.Served(s, e), ManualThreads.Run(c, FlagSteps(s, e)).0))
    ensures ManualThreads.Run(c, FlagSteps(s, e)).1 == []
  {
    hide Dispatch.RequestOf, Session.Served;
    var steps := FlagSteps(s, e);
    assert |steps| <= 1;
    if steps != [] {
      assert steps == [steps[0]];
      AdvanceKeepsShape(c, steps[0]);
      RunOne(c, steps[0]);
    }
    ServedIsSane(s, e);
    ManualExactlyWhen(s, e);
    ConnectedExactlyWhen(s, e);
  }

  /** The session's flag and the flag the controllers see never come apart. */
  lemma ProceedAgrees(w: Whole, h: Happening)
    requires Agree(w)
    ensures Agree(Proceed(w, h).0)
  {
    hide Session.Served;
    match h
    case Client(e) => FlagMoves(w.session, w.controllers, e);
    case Controller(k, look) =>
      AdvanceKeepsShape(w.controllers, Turn(k, look));
      RunOne(w.controllers, Turn(k, look));
  }

  lemma {:induction false} FlagsAgree(w: Whole, hs: seq<Happening>)
    requires Agree(w)
    ensures Agree(RunAll(w, hs).0)
    decreases |hs|
  {
    if hs != [] {
      ProceedAgrees(w, hs[0]);
      FlagsAgree(Proceed(w, hs[0]).0, hs[1..]);
    }
  }

  // ---- seen from the controllers ----

  /** A run as the controllers see it: only turns, starts and clears. */
  function StepsOf(w: Whole, hs: seq<Happening>): seq<Step>
    requires Sized(w.controllers)
    decreases |hs|
  {
    if hs == [] then [] else StepsOfOne(w, hs[0]) + StepsOf(Proceed(w, hs[0]).0, hs[1..])
  }

  /** Any run of the whole server is a run of the controllers, with the same commands: all
      that is proved of controllers under every interleaving holds here. */
  lemma {:induction false} ProjectsToControllers(w: Whole, hs: seq<Happening>)
    requires Sized(w.controllers)
    ensures (RunAll(w, hs).0.controllers, RunAll(w, hs).1) == ManualThreads.Run(w.controllers, StepsOf(w, hs))
    decreases |hs|
  {
    hide StepsOfOne, SendAll, Session.Served, Advance;
    if hs != [] {
      var now := Proceed(w, hs[0]);
      ProjectsToControllers(now.0, hs[1..]);
      RunJoin(w.controllers, StepsOfOne(w, hs[0]), StepsOf(now.0, hs[1..]));
    }
  }

  /** Manual mode is off in every state of the run after the first. */
  ghost predicate StaysOff(w: Whole, hs: seq<Happening>)
    requires Sized(w.controllers)
    decreases |hs|
  {
    hs == [] || (Proceed(w, hs[0]).0.session.manual == 0 && StaysOff(Proceed(w, hs[0]).0, hs[1..]))
  }

  lemma {:induction false} OffMeansNoStart(w: Whole, hs: seq<Happening>)
    requires Agree(w) && StaysOff(w, hs)
    ensures NoStart(StepsOf(w, hs))
    decreases |hs|
  {
    hide Session.Served, SendAll, Dispatch.RequestOf;
    if hs != [] {
      ProceedAgrees(w, hs[0]);
      OffMeansNoStart(Proceed(w, hs[0]).0, hs[1..]);
      match hs[0]
      case Client(e) => ManualExactlyWhen(w.session, e);
      case Controller(_, _) =>
    }
  }

  /** Bounded stop for the whole server: from the moment the session has left manual mode, by
      stopManualMode, a disconnect or the loss of the client, and as long as it stays off,
      each controller sends at most one more hold and then at most one more jog, and after at
      most four more steps of its own it is gone. */
  lemma LeavingManualModeIsBounded(w: Whole, hs: seq<Happening>, k: nat)
    requires Agree(w) && w.session.manual == 0 && StaysOff(w, hs) && k < |w.controllers.threads|
    ensures var (last, trace) := RunAll(w, hs);
      && HoldThenJog(SentBy(trace, k))
      && k < |last.controllers.threads|
      && (TurnsOf(StepsOf(w, hs), k) >= 4 ==> last.controllers.threads[k].pc == Exited)
  {
    hide StepsOf, RunAll, ManualThreads.Run;
    OffMeansNoStart(w, hs);
    ProjectsToControllers(w, hs);
    StopIsBounded(w.controllers, StepsOf(w, hs), k);
    AtMostFour(w.controllers.threads[k]);
  }

  lemma AtMostFour(t: Thread)
    requires t.WellFormed()
    ensures Remaining(t.pc) <= 4
  {
  }

  // ---- on the wire ----

  /** Everything a controller has decided to send passes the range checks. */
  ghost predicate Ready(t: Thread) {
    forall i :: 0 <= i < |t.Queue()| ==> CommandOf(t.Queue()[i]).Accepted()
  }

  ghost predicate AllReady(c: System) {
    forall k :: 0 <= k < |c.threads| ==> Ready(c.threads[k])
  }

  lemma TurnIsReady(t: Thread, enabled: int, look: Look)
    requires t.WellFormed() && Ready(t)
    ensures var turn := TakeTurn(t, enabled, look);
      Ready(turn.0) && forall i :: 0 <= i < |turn.1| ==> CommandOf(turn.1[i]).Accepted()
  {
    match t.pc
    case AtRead =>
      var s := Sampled(t.buf, look);
      SamplesAreValid(CString(Refill(t.buf, look)));
      if s.Some? { ManualCommandsAreAccepted(t.memory, s.value); }
      hide Sampled, Refill;
    case Sending(queue) =>
      assert t.Queue() == queue;
    case _ =>
  }

  lemma AdvanceIsReady(c: System, step: Step)
    requires AllWell(c) && AllReady(c)
    ensures AllReady(Advance(c, step).0)
    ensures forall i :: 0 <= i < |Advance(c, step).1| ==> CommandOf(Advance(c, step).1[i].motion).Accepted()
  {
    hide Ready, TakeTurn;
    match step
    case Turn(k, look) =>
      if k < |c.threads| { TurnIsReady(c.threads[k], c.enabled, look); }
    case Start(_) => NewIsReady();
    case Clear =>
  }

  lemma NewIsReady()
    ensures Ready(NewThread())
  {
  }

  ghost predicate Sound(w: Whole) { Agree(w) && AllReady(w.controllers) }

  lemma StartIsSound(link: LinkState)
    ensures Sound(Whole(Session.Initial(link), System(0, [])))
  {
  }

  ghost predicate NoneRejected(events: seq<Event>) {
    forall i :: 0 <= i < |events| ==> CommandOf(events[i].motion).Accepted()
  }

  /** An attempt to stop the motor: a hold of a controller, or a line that asks for a stop. */
  predicate StopTried(w: Whole, h: Happening)
    requires Sized(w.controllers)
  {
    match h
    case Client(e) => StopAsked(w.session, e)
    case Controller(_, _) => exists i :: 0 <= i < |Proceed(w, h).1| && Proceed(w, h).1[i].motion == Hold
  }

  lemma ProceedIsSound(w: Whole, h: Happening)
    requires Sound(w)
    ensures Sound(Proceed(w, h).0) && NoneRejected(Proceed(w, h).1)
    ensures Grows(w.session.link, Proceed(w, h).0.session.link, Rule(w.session.moveType, StopTried(w, h)))
  {
    hide Session.Served, Advance, AllReady, Safe, MotorCommands.Issue;
    ProceedAgrees(w, h);
    var steps := StepsOfOne(w, h);
    assert |steps| <= 1;
    if steps != [] {
      assert steps == [steps[0]];
      AdvanceIsReady(w.controllers, steps[0]);
      RunOne(w.controllers, steps[0]);
    }
    match h
    case Client(e) =>
      FlagMoves(w.session, w.controllers, e);
      ServedGrows(w.session, e);
    case Controller(k, look) =>
      SendAllGrows(w.session.link, Advance(w.controllers, steps[0]).1, Rule(w.session.moveType, StopTried(w, h)));
  }

  lemma {:induction false} SendAllGrows(l: LinkState, events: seq<Event>, t: Rule)
    requires forall i :: 0 <= i < |events| && events[i].motion == Hold ==> t.stops
    ensures Grows(l, SendAll(l, events), t)
    decreases |events|
  {
    hide MotorCommands.Issue, Safe;
    if events != [] {
      var next := MotorCommands.Issue(l, CommandOf(events[0].motion));
      IssueGrows(l, CommandOf(events[0].motion), t);
      SendAllGrows(next, events[1..], t);
      GrowsOn(l, next, SendAll(next, events[1..]), t);
    }
  }

  /** Range safety for the whole server: over every run, each motion frame on the wire, from
      clients and controllers alike, is within range, and no controller command is rejected. */
  lemma {:induction false} WholeRunIsInRange(w: Whole, hs: seq<Happening>)
    requires Sound(w) && AllWireSafe(w.session.link.log)
    ensures Sound(RunAll(w, hs).0) && AllWireSafe(RunAll(w, hs).0.session.link.log)
    ensures NoneRejected(RunAll(w, hs).1)
    decreases |hs|
  {
    hide Proceed, MotorCommands.WireSafe, Agree, AllReady;
    if hs != [] {
      assert Sized(w.controllers) by { AgreeIsSized(w); }
      ProceedIsSound(w, hs[0]);
      WholeRunIsInRange(Proceed(w, hs[0]).0, hs[1..]);
    }
  }

  lemma AgreeIsSized(w: Whole)
    requires Agree(w)
    ensures Sized(w.controllers)
  {
  }

  // ---- from the start ----

  function AtStart(link: LinkState): Whole { Whole(Session.Initial(link), System(0, [])) }

  /** What holds after every run of a freshly started server. */
  ghost predicate RunIsGood(last: Whole, trace: seq<Event>, created: bool) {
    && Sane(last.session) && last.controllers.enabled == last.session.manual
    && AllWireSafe(last.session.link.log) && NoneRejected(trace)
    && (forall k: nat :: ReversalSafe(SentBy(trace, k)))
    && NewestAlive(last.controllers, created)
  }

  /** Every run of the server, from its start, whatever clients, files, drive and scheduler do. */
  lemma EveryRunIsGood(link: LinkState, hs: seq<Happening>)
    requires link.log == []
    ensures var w := AtStart(link);
      var (last, trace) := RunAll(w, hs);
      RunIsGood(last, trace, LastCreated(false, StepsOf(w, hs)))
  {
    hide RunAll, StepsOf, ManualThreads.Run, AllReady, NewestAlive, ReversalSafe;
    var w := AtStart(link);
    StartIsSound(link);
    WholeRunIsInRange(w, hs);
    ProjectsToControllers(w, hs);
    StartHasNoThreads();
    NewestStaysAlive(w.controllers, false, StepsOf(w, hs));
    forall k: nat ensures ReversalSafe(SentBy(RunAll(w, hs).1, k)) {
      EveryNewControllerIsSafe(w.controllers, StepsOf(w, hs), k);
    }
  }

  lemma StartHasNoThreads()
    ensures AllWell(System(0, [])) && AllExited(System(0, [])) && NewestAlive(System(0, []), false)
  {
  }

  /** The controllers' calls in a whole run: if every startManualMode that gets a thread is served when all
      controllers have exited, everything they send is reversal safe exactly when it is at the
      restarts. */
  lemma CallsAreSafeInWholeRuns(link: LinkState, hs: seq<Happening>)
    requires CleanStarts(System(0, []), StepsOf(AtStart(link), hs))
    ensures var trace := RunAll(AtStart(link), hs).1;
      && (ReversalSafe(Motions(trace)) <==>
            forall i: nat :: Seam(trace, i) ==> SafeStep(trace[i].motion, trace[i + 1].motion))
      && (forall i: nat :: Seam(trace, i) ==> IsRestart(trace, i))
  {
    hide RunAll, StepsOf, ManualThreads.Run;
    var w := AtStart(link);
    StartHasNoThreads();
    ProjectsToControllers(w, hs);
    CallsAreSafeExactlyWhen(w.controllers, StepsOf(w, hs));
  }
}
