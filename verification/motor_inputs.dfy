/** Runs of the server on which the motor hears opposite jogs with no stop between them, one
    for each cause. All starts in them are clean. */
module MotorInputs {
  import opened Text
  import opened Utilities
  import opened ManualController
  import opened SampleBuffer
  import opened ManualThreads
  import opened SingleController
  import opened Drive
  import opened Modbus
  import MotorCommands
  import Dispatch
  import opened Recognition
  import Session
  import opened SessionRuns
  import opened WireSafety
  import opened WholeServer
  import opened MotorLog
  import opened MotorSafety

  // ---- single steps ----

  /** A connected session with the manual flag at m, and the outcomes still to come. */
  ghost predicate Mode(w: Whole, m: int, pending: seq<Outcome>) {
    var s := w.session;
    && Sound(w) && Sized(w.controllers) && s.clientOpen && s.hasConnection && s.connected == 1 && s.waiting == 0
    && s.manual == m && s.link.pending == pending
  }

  /** The same log, and the same threads. */
  ghost predicate SameLog(w: Whole, v: Whole) { v.session.link.log == w.session.link.log }
  ghost predicate SameThreads(w: Whole, v: Whole) { v.controllers.threads == w.controllers.threads }

  /** Thread k is at pc, the others are as they were. */
  ghost predicate OnlyThread(w: Whole, v: Whole, k: nat, t: Thread) {
    k < |w.controllers.threads| && v.controllers.threads == w.controllers.threads[k := t]
  }

  function LineEvent(text: string): Session.Event
  {
    Session.Line(text, None, seq(16, _ => Profile(0, 0, 0, 0, 0)), true, true)
  }

  const ADDRESS := "a\n"
  const CONNECT_LINE := Dispatch.CONNECT + "," + ADDRESS
  const START_LINE := Dispatch.START_MANUAL_MODE + "\n"
  const STOP_LINE := Dispatch.STOP_MANUAL_MODE + "\n"

  lemma ConnectWordIsPlain()
    ensures ',' !in Dispatch.CONNECT && ' ' !in Dispatch.CONNECT
  {
  }

  lemma AddressIs()
    ensures ',' !in ADDRESS && ' ' !in ADDRESS && Session.Address(ADDRESS) != ""
  {
    assert ADDRESS[..1] == "a" && "a"[1..] == "";
  }

  lemma ConnectLineIs()
    ensures Dispatch.CONNECT <= CONNECT_LINE && TokenCount(CONNECT_LINE) == 2
    ensures Split(CONNECT_LINE)[1] == ADDRESS && Session.Address(ADDRESS) != ""
  {
    hide Session.Address;
    ConnectWordIsPlain();
    AddressIs();
    Dispatch.NameInFront(Dispatch.CONNECT, ADDRESS);
    NoSpace(Dispatch.CONNECT, ADDRESS);
    hide ADDRESS, Dispatch.CONNECT;
    SplitOfTwo(Dispatch.CONNECT, ADDRESS);
  }

  lemma NoSpace(a: string, b: string)
    requires ' ' !in a && ' ' !in b
    ensures ' ' !in a + "," + b
  {
  }

  lemma StartLineIs()
    ensures Dispatch.RequestOf(START_LINE) == Dispatch.StartManual
  {
    hide Dispatch.RequestOf, Dispatch.NoSearchedWord;
    NoWInStart();
    Dispatch.NoJogWord(START_LINE);
    ManualLine(START_LINE);
  }

  lemma NoWInStart()
    ensures 'W' !in START_LINE
  {
  }

  /** Events that leave the flag of the controllers alone leave the controllers alone. */
  lemma Untouched(w: Whole, e: Session.Event)
    requires Sized(w.controllers) && FlagSteps(w.session, e) == []
    ensures Proceed(w, Client(e)).0 == Whole(Session.Served(w.session, e), w.controllers)
  {
    hide Session.Served, Dispatch.RequestOf;
  }

  lemma Connects(w: Whole, o: Outcome, rest: seq<Outcome>)
    requires Sound(w) && Sized(w.controllers) && w.session.connected == 0 && w.session.clientOpen
    requires w.session.link.pending == [o] + rest && o.Connected?
    ensures var v := Proceed(w, Client(LineEvent(CONNECT_LINE))).0;
      Mode(v, 0, rest) && SameLog(w, v) && SameThreads(w, v)
  {
    hide Dispatch.RequestOf, AllReady, AllWell, Proceed, Split, TokenCount, Session.Address, CONNECT_LINE;
    var e := LineEvent(CONNECT_LINE);
    ConnectLineIs();
    Untouched(w, e);
    ProceedIsSound(w, Client(e));
    assert ([o] + rest)[1..] == rest;
  }

  lemma StartsManual(w: Whole, pending: seq<Outcome>)
    requires Mode(w, 0, pending)
    ensures var h := Client(LineEvent(START_LINE)); var v := Proceed(w, h).0;
      && Mode(v, 1, pending) && SameLog(w, v) && v.controllers.threads == w.controllers.threads + [NewThread()]
  {
    hide Dispatch.RequestOf, AllReady, AllWell;
    var e := LineEvent(START_LINE);
    StartLineIs();
    ProceedIsSound(w, Client(e));
    RunOne(w.controllers, Start(true));
  }

  lemma StopsManual(w: Whole, o: Outcome, rest: seq<Outcome>)
    requires Mode(w, 1, [o] + rest) && o.Connected?
    ensures var v := Proceed(w, Client(LineEvent(STOP_LINE))).0;
      && Mode(v, 0, rest) && SameThreads(w, v)
      && v.session.link.log == w.session.link.log + [Frame(IMMEDIATE_STOP_NAME, STOP_WRITES)]
  {
    hide Dispatch.RequestOf, AllReady, AllWell;
    var e := LineEvent(STOP_LINE);
    ProceedIsSound(w, Client(e));
    RunOne(w.controllers, Clear);
    assert ([o] + rest)[1..] == rest;
  }

  /** The client is lost; another one connects. */
  lemma ClientLost(w: Whole, pending: seq<Outcome>)
    requires Mode(w, 1, pending)
    ensures var v := Proceed(w, Client(Session.Gone)).0;
      && Sound(v) && Sized(v.controllers) && v.session.connected == 0 && v.session.clientOpen && v.session.manual == 0
      && v.session.link.pending == pending && SameLog(w, v) && SameThreads(w, v)
  {
    hide Dispatch.RequestOf, AllReady, AllWell;
    ProceedIsSound(w, Client(Session.Gone));
    RunOne(w.controllers, Clear);
  }

  /** A controller's turn that sends nothing. */
  lemma TurnsQuietly(w: Whole, k: nat, look: Look)
    requires Sound(w) && Sized(w.controllers) && k < |w.controllers.threads| && !w.controllers.threads[k].pc.Sending?
    ensures var t := w.controllers.threads[k]; var v := Proceed(w, Controller(k, look)).0;
      && v.session == w.session && Sound(v) && Sized(v.controllers)
      && OnlyThread(w, v, k, TakeTurn(t, w.session.manual, look).0)
  {
    hide AllReady, AllWell, TakeTurn;
    ProceedIsSound(w, Controller(k, look));
    RunOne(w.controllers, Turn(k, look));
    QuietTurn(w.controllers.threads[k], w.session.manual, look);
  }

  lemma QuietTurn(t: Thread, enabled: int, look: Look)
    requires |t.buf| == BUFFER_SIZE && !t.pc.Sending?
    ensures TakeTurn(t, enabled, look).1 == []
  {
  }

  /** A controller sends what is first in its queue, over an attempt that is not errno 9. */
  lemma Sends(w: Whole, k: nat, o: Outcome, rest: seq<Outcome>)
    requires Sound(w) && Sized(w.controllers) && k < |w.controllers.threads|
    requires var t := w.controllers.threads[k]; t.pc.Sending? && t.pc.queue != []
    requires w.session.link.pending == [o] + rest && o != Busy
    ensures var t := w.controllers.threads[k]; var c := CommandOf(t.pc.queue[0]);
      var v := Proceed(w, Controller(k, Missing)).0;
      && v.session == w.session.(link := v.session.link) && v.session.link.pending == rest
      && v.session.link.log == w.session.link.log + (if o.Connected? then [Frame(c.Name(), c.Writes())] else [])
      && Sound(v) && Sized(v.controllers)
      && OnlyThread(w, v, k, t.(pc := Next(t.pc.queue[1..])))
  {
    hide AllReady, AllWell, MotorCommands.Command.Writes, MotorCommands.Command.Accepted;
    var h := Controller(k, Missing);
    var call := Event(k, w.controllers.threads[k].pc.queue[0]);
    ProceedIsSound(w, h);
    RunOne(w.controllers, Turn(k, Missing));
    assert Proceed(w, h).1 == [call];
    OneIssue(w.session.link, call, o, rest);
  }

  lemma OneIssue(l: LinkState, call: Event, o: Outcome, rest: seq<Outcome>)
    requires CommandOf(call.motion).Accepted() && l.pending == [o] + rest && o != Busy
    ensures var c := CommandOf(call.motion);
      && SendAll(l, [call]).pending == rest
      && SendAll(l, [call]).log == l.log + (if o.Connected? then [Frame(c.Name(), c.Writes())] else [])
  {
    hide MotorCommands.Command.Writes, MotorCommands.Command.Name;
    assert [call][1..] == [] && ([o] + rest)[1..] == rest;
    var sent := MotorCommands.Issue(l, CommandOf(call.motion));
    assert SendAll(sent, []) == sent;
  }

  // ---- runs, step by step ----

  /** A run with clean starts that has come to v. */
  ghost predicate Reached(w: Whole, hs: seq<Happening>, v: Whole) {
    Sized(w.controllers) && CleanRun(w, hs) && At(w, hs, |hs|) == v
  }

  lemma Extend(w: Whole, hs: seq<Happening>, v: Whole, h: Happening)
    requires Reached(w, hs, v) && (Starts(v, h) ==> AllExited(v.controllers))
    ensures Reached(w, hs + [h], Proceed(v, h).0)
  {
    hide Proceed, Starts, AllExited;
    var longer := hs + [h];
    assert longer[..|hs|] == hs;
    forall n | 0 <= n <= |hs| ensures At(w, longer, n) == At(w, hs, n) { AtPrefix(w, longer, |hs|, n); }
    forall n | 0 <= n < |longer| ensures CleanAt(w, longer, n) {
      if n < |hs| { assert CleanAt(w, hs, n); }
    }
  }

  lemma TurnsDoNotStart(v: Whole, k: nat, look: Look)
    ensures !Starts(v, Controller(k, look))
  {
  }

  lemma OtherLinesDoNotStart(v: Whole, e: Session.Event)
    requires e.Gone? || v.session.connected == 0 || v.session.manual == 1
    ensures !Starts(v, Client(e))
  {
    hide Dispatch.RequestOf;
  }

  /** The frame of a jog at speed 30. */
  function JogFrame(direction: Direction): Frame
  {
    Frame("jog", [Write(1024, 0), Write(1025, 32768), Write(1026, 0), Write(1027, 0), Write(1028, 0), Write(1029, 30),
                  Write(1030, 250), Write(1031, 250), Write(1032, 0), Write(1033, 0),
                  Write(1024, if direction == Clockwise then 128 else 256)])
  }

  lemma JogFrameIs(direction: Direction)
    ensures var c := CommandOf(Jog(direction, 30)); Frame(c.Name(), c.Writes()) == JogFrame(direction)
  {
  }

  /** A quiet turn of thread k. */
  lemma Turns(w: Whole, hs: seq<Happening>, v: Whole, k: nat, look: Look) returns (hs2: seq<Happening>, v2: Whole)
    requires Reached(w, hs, v) && Sound(v) && Sized(v.controllers)
    requires k < |v.controllers.threads| && !v.controllers.threads[k].pc.Sending?
    ensures Reached(w, hs2, v2) && v2.session == v.session && Sound(v2) && Sized(v2.controllers)
    ensures OnlyThread(v, v2, k, TakeTurn(v.controllers.threads[k], v.session.manual, look).0)
  {
    hide Proceed, AllReady, Agree, Starts, CleanRun, TakeTurn;
    TurnsQuietly(v, k, look);
    TurnsDoNotStart(v, k, look);
    Extend(w, hs, v, Controller(k, look));
    hs2, v2 := hs + [Controller(k, look)], Proceed(v, Controller(k, look)).0;
  }

  /** Thread k sends the first call in its queue. */
  lemma SendsOne(w: Whole, hs: seq<Happening>, v: Whole, k: nat, o: Outcome, rest: seq<Outcome>)
    returns (hs2: seq<Happening>, v2: Whole)
    requires Reached(w, hs, v) && Sound(v) && Sized(v.controllers) && k < |v.controllers.threads|
    requires var t := v.controllers.threads[k]; t.pc.Sending? && t.pc.queue != []
    requires v.session.link.pending == [o] + rest && o != Busy
    ensures var t := v.controllers.threads[k]; var c := CommandOf(t.pc.queue[0]);
      && Reached(w, hs2, v2) && Sound(v2) && Sized(v2.controllers)
      && v2.session == v.session.(link := v2.session.link) && v2.session.link.pending == rest
      && v2.session.link.log == v.session.link.log + (if o.Connected? then [Frame(c.Name(), c.Writes())] else [])
      && OnlyThread(v, v2, k, t.(pc := Next(t.pc.queue[1..])))
  {
    hide Proceed, AllReady, Agree, Starts, CleanRun, MotorCommands.Command.Writes;
    Sends(v, k, o, rest);
    TurnsDoNotStart(v, k, Missing);
    Extend(w, hs, v, Controller(k, Missing));
    hs2, v2 := hs + [Controller(k, Missing)], Proceed(v, Controller(k, Missing)).0;
  }

  /** A thread that can take a sample in direction d at speed 30. */
  lemma TakesSample(w: Whole, hs: seq<Happening>, v: Whole, k: nat, direction: Direction)
    returns (hs2: seq<Happening>, v2: Whole)
    requires Reached(w, hs, v) && Sound(v) && Sized(v.controllers) && k < |v.controllers.threads|
    requires v.controllers.threads[k].pc == AtRead && direction != NoDirection
    ensures Reached(w, hs2, v2) && v2.session == v.session && Sound(v2) && Sized(v2.controllers)
    ensures |v2.controllers.threads| == |v.controllers.threads|
    ensures forall i :: 0 <= i < |v.controllers.threads| && i != k ==>
      v2.controllers.threads[i] == v.controllers.threads[i]
    ensures var r := Decide(v.controllers.threads[k].memory, Sample(direction, 30));
      v2.controllers.threads[k].pc == Next(r.1) && v2.controllers.threads[k].memory == r.0
  {
    hide Sampled, Refill, Decide, AllReady, Agree;
    var t := v.controllers.threads[k];
    assert |t.buf| == BUFFER_SIZE;
    var look := SampleAtWill(t.buf, direction, false);
    hs2, v2 := Turns(w, hs, v, k, look);
  }

  /** A new controller tests the flag, takes a sample, and its jog gets through. */
  lemma FirstJog(w: Whole, hs: seq<Happening>, v: Whole, k: nat, o: Outcome, rest: seq<Outcome>, direction: Direction)
    returns (hs2: seq<Happening>, v2: Whole)
    requires Reached(w, hs, v) && Mode(v, 1, [o] + rest) && o.Connected? && direction != NoDirection
    requires k < |v.controllers.threads| && v.controllers.threads[k] == NewThread()
    ensures Reached(w, hs2, v2) && Mode(v2, 1, rest)
    ensures v2.session.link.log == v.session.link.log + [JogFrame(direction)]
    ensures |v2.controllers.threads| == |v.controllers.threads|
    ensures forall i :: 0 <= i < |v.controllers.threads| && i != k ==>
      v2.controllers.threads[i] == v.controllers.threads[i]
    ensures v2.controllers.threads[k].pc == AtTest && v2.controllers.threads[k].memory == Memory(direction, 30)
  {
    hide AllReady, Agree, CleanRun, MotorCommands.Command.Writes, MotorCommands.Command.Name, JogFrame, CommandOf;
    var hs1, v1 := Turns(w, hs, v, k, Missing);
    var hs3, v3 := TakesSample(w, hs1, v1, k, direction);
    assert v3.controllers.threads[k].pc == Sending([Jog(direction, 30)]);
    hs2, v2 := SendsOne(w, hs3, v3, k, o, rest);
    JogFrameIs(direction);
    assert [Jog(direction, 30)][1..] == [];
  }

  /** From the start of the server to manual mode with its first controller. */
  lemma ToManual(link: LinkState, o: Outcome, rest: seq<Outcome>) returns (hs: seq<Happening>, v: Whole)
    requires link.log == [] && link.pending == [o] + rest && o.Connected?
    ensures Reached(AtStart(link), hs, v) && Mode(v, 1, rest)
    ensures v.session.link.log == [] && v.controllers.threads == [NewThread()]
  {
    hide Proceed, AllReady, Agree, Starts;
    var w := AtStart(link);
    StartIsSound(link);
    AtTheStart(link);
    Connects(w, o, rest);
    OtherLinesDoNotStart(w, LineEvent(CONNECT_LINE));
    Extend(w, [], w, Client(LineEvent(CONNECT_LINE)));
    var v1 := Proceed(w, Client(LineEvent(CONNECT_LINE))).0;
    StartsManual(v1, rest);
    Extend(w, [] + [Client(LineEvent(CONNECT_LINE))], v1, Client(LineEvent(START_LINE)));
    hs := [] + [Client(LineEvent(CONNECT_LINE))] + [Client(LineEvent(START_LINE))];
    v := Proceed(v1, Client(LineEvent(START_LINE))).0;
    assert [] + [NewThread()] == [NewThread()];
  }

  lemma AtTheStart(link: LinkState)
    ensures var w := AtStart(link); Reached(w, [], w) && AllExited(w.controllers) && w.controllers.threads == []
  {
  }

  /** Manual mode is started again, by a session outside it whose controllers are gone. */
  lemma Restarts(w: Whole, hs: seq<Happening>, v: Whole, pending: seq<Outcome>) returns (hs2: seq<Happening>, v2: Whole)
    requires Reached(w, hs, v) && Mode(v, 0, pending) && AllExited(v.controllers)
    ensures Reached(w, hs2, v2) && Mode(v2, 1, pending) && SameLog(v, v2)
    ensures v2.controllers.threads == v.controllers.threads + [NewThread()]
  {
    hide Proceed, AllReady, Agree, Starts, CleanRun;
    StartsManual(v, pending);
    Extend(w, hs, v, Client(LineEvent(START_LINE)));
    hs2, v2 := hs + [Client(LineEvent(START_LINE))], Proceed(v, Client(LineEvent(START_LINE))).0;
  }

  // ---- the three inputs ----

  /** The hold of a direction change is lost, and the jog after it is not. */
  lemma LostHold(link: LinkState, c: seq<Outcome>, lost: Outcome) returns (hs: seq<Happening>)
    requires |c| == 3 && (forall i :: 0 <= i < 3 ==> c[i].Connected?) && lost == Unreachable
    requires link.log == [] && link.pending == [c[0], c[1], lost, c[2]]
    ensures CleanRun(AtStart(link), hs)
    ensures LogAt(AtStart(link), hs, |hs|) == [JogFrame(Clockwise), JogFrame(CounterClockwise)]
  {
    hide AllReady, Agree, CleanRun, MotorCommands.Command.Writes, MotorCommands.Command.Name, JogFrame, CommandOf;
    var w := AtStart(link);
    assert link.pending == [c[0]] + [c[1], lost, c[2]];
    var h1, v1 := ToManual(link, c[0], [c[1], lost, c[2]]);
    assert [c[1], lost, c[2]] == [c[1]] + [lost, c[2]];
    var h2, v2 := FirstJog(w, h1, v1, 0, c[1], [lost, c[2]], Clockwise);
    var h3, v3 := Turns(w, h2, v2, 0, Missing);
    var h4, v4 := TakesSample(w, h3, v3, 0, CounterClockwise);
    var queue := [Hold, Jog(CounterClockwise, 30)];
    assert v4.controllers.threads[0].pc == Sending(queue);
    assert [lost, c[2]] == [lost] + [c[2]];
    var h5, v5 := SendsOne(w, h4, v4, 0, lost, [c[2]]);
    assert queue[1..] == [Jog(CounterClockwise, 30)];
    assert [c[2]] == [c[2]] + [];
    var h6, v6 := SendsOne(w, h5, v5, 0, c[2], []);
    JogFrameIs(CounterClockwise);
    hs := h6;
    assert [] + [JogFrame(Clockwise)] == [JogFrame(Clockwise)];
  }

  /** The client is lost while the motor runs; the next one starts manual mode again. */
  lemma LostClient(link: LinkState, c: seq<Outcome>) returns (hs: seq<Happening>)
    requires |c| == 4 && forall i :: 0 <= i < 4 ==> c[i].Connected?
    requires link.log == [] && link.pending == c
    ensures CleanRun(AtStart(link), hs)
    ensures LogAt(AtStart(link), hs, |hs|) == [JogFrame(Clockwise), JogFrame(CounterClockwise)]
  {
    hide AllReady, Agree, CleanRun, Starts, Proceed, JogFrame;
    var w := AtStart(link);
    assert c == [c[0]] + [c[1], c[2], c[3]];
    var h1, v1 := ToManual(link, c[0], [c[1], c[2], c[3]]);
    assert [c[1], c[2], c[3]] == [c[1]] + [c[2], c[3]];
    var h2, v2 := FirstJog(w, h1, v1, 0, c[1], [c[2], c[3]], Clockwise);
    ClientLost(v2, [c[2], c[3]]);
    OtherLinesDoNotStart(v2, Session.Gone);
    Extend(w, h2, v2, Client(Session.Gone));
    var h3, v3 := h2 + [Client(Session.Gone)], Proceed(v2, Client(Session.Gone)).0;
    var h4, v4 := Turns(w, h3, v3, 0, Missing);
    assert [c[2], c[3]] == [c[2]] + [c[3]];
    Connects(v4, c[2], [c[3]]);
    OtherLinesDoNotStart(v4, LineEvent(CONNECT_LINE));
    Extend(w, h4, v4, Client(LineEvent(CONNECT_LINE)));
    var h5, v5 := h4 + [Client(LineEvent(CONNECT_LINE))], Proceed(v4, Client(LineEvent(CONNECT_LINE))).0;
    var h6, v6 := Restarts(w, h5, v5, [c[3]]);
    assert [c[3]] == [c[3]] + [];
    var h7, v7 := FirstJog(w, h6, v6, 1, c[3], [], CounterClockwise);
    hs := h7;
    assert [] + [JogFrame(Clockwise)] == [JogFrame(Clockwise)];
  }

  /** Manual mode is stopped by the book, but a jog already decided goes out after the stop. */
  lemma LateJog(link: LinkState, c: seq<Outcome>) returns (hs: seq<Happening>)
    requires |c| == 4 && forall i :: 0 <= i < 4 ==> c[i].Connected?
    requires link.log == [] && link.pending == c
    ensures CleanRun(AtStart(link), hs)
    ensures LogAt(AtStart(link), hs, |hs|)
      == [Frame(IMMEDIATE_STOP_NAME, STOP_WRITES), JogFrame(Clockwise), JogFrame(CounterClockwise)]
  {
    hide AllReady, Agree, CleanRun, Starts, Proceed, MotorCommands.Command.Writes, MotorCommands.Command.Name, JogFrame,
      CommandOf;
    var w := AtStart(link);
    assert c == [c[0]] + [c[1], c[2], c[3]];
    var h1, v1 := ToManual(link, c[0], [c[1], c[2], c[3]]);
    var h2, v2 := Turns(w, h1, v1, 0, Missing);
    var h3, v3 := TakesSample(w, h2, v2, 0, Clockwise);
    assert v3.controllers.threads[0].pc == Sending([Jog(Clockwise, 30)]);
    assert [c[1], c[2], c[3]] == [c[1]] + [c[2], c[3]];
    StopsManual(v3, c[1], [c[2], c[3]]);
    OtherLinesDoNotStart(v3, LineEvent(STOP_LINE));
    Extend(w, h3, v3, Client(LineEvent(STOP_LINE)));
    var h4, v4 := h3 + [Client(LineEvent(STOP_LINE))], Proceed(v3, Client(LineEvent(STOP_LINE))).0;
    assert [c[2], c[3]] == [c[2]] + [c[3]];
    var h5, v5 := SendsOne(w, h4, v4, 0, c[2], [c[3]]);
    JogFrameIs(Clockwise);
    assert [Jog(Clockwise, 30)][1..] == [];
    var h6, v6 := Turns(w, h5, v5, 0, Missing);
    var h7, v7 := Restarts(w, h6, v6, [c[3]]);
    assert [c[3]] == [c[3]] + [];
    var h8, v8 := FirstJog(w, h7, v7, 1, c[3], [], CounterClockwise);
    hs := h8;
  }
}
