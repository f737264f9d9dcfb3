/** What the motor is really told: the frames in the log, from the session and its controllers
    together, whichever calls got a connection. */
module MotorLog {
  import opened ManualController
  import opened ManualThreads
  import opened SingleController
  import opened Drive
  import opened Modbus
  import MotorCommands
  import Dispatch
  import Session
  import opened SessionRuns
  import opened WireSafety
  import opened WholeServer

  // ---- moments of a run ----

  /** The server before happening n. */
  function At(w: Whole, hs: seq<Happening>, n: nat): (state: Whole)
    requires Sized(w.controllers) && n <= |hs|
    ensures Sized(state.controllers)
  {
    if n == 0 then w else Proceed(At(w, hs, n - 1), hs[n - 1]).0
  }

  /** The controller call in happening n, if there is one. */
  function CallAt(w: Whole, hs: seq<Happening>, n: nat): seq<Event>
    requires Sized(w.controllers) && n < |hs|
  {
    Proceed(At(w, hs, n), hs[n]).1
  }

  function Calls(w: Whole, hs: seq<Happening>, n: nat): seq<Event>
    requires Sized(w.controllers) && n <= |hs|
  {
    if n == 0 then [] else Calls(w, hs, n - 1) + CallAt(w, hs, n - 1)
  }

  function LogAt(w: Whole, hs: seq<Happening>, n: nat): seq<Frame>
    requires Sized(w.controllers) && n <= |hs|
  {
    At(w, hs, n).session.link.log
  }

  lemma {:induction false} AtShift(w: Whole, hs: seq<Happening>, n: nat)
    requires Sized(w.controllers) && 0 < n <= |hs|
    ensures At(w, hs, n) == At(Proceed(w, hs[0]).0, hs[1..], n - 1)
    ensures Calls(w, hs, n) == Proceed(w, hs[0]).1 + Calls(Proceed(w, hs[0]).0, hs[1..], n - 1)
  {
    hide Proceed;
    var next := Proceed(w, hs[0]);
    if n == 1 {
      assert At(w, hs, 0) == w && Calls(w, hs, 0) == [];
      assert next.1 + [] == [] + next.1;
    } else {
      AtShift(w, hs, n - 1);
      assert hs[1..][n - 2] == hs[n - 1];
      Regroup(next.1, Calls(next.0, hs[1..], n - 2), CallAt(w, hs, n - 1));
    }
  }

  /** Moments and runs agree. */
  lemma {:induction false} AtIsRun(w: Whole, hs: seq<Happening>)
    requires Sized(w.controllers)
    ensures RunAll(w, hs) == (At(w, hs, |hs|), Calls(w, hs, |hs|))
    decreases |hs|
  {
    hide Proceed;
    if hs != [] {
      AtIsRun(Proceed(w, hs[0]).0, hs[1..]);
      AtShift(w, hs, |hs|);
    }
  }

  lemma {:induction false} AtPrefix(w: Whole, hs: seq<Happening>, m: nat, n: nat)
    requires Sized(w.controllers) && n <= m <= |hs|
    ensures At(w, hs[..m], n) == At(w, hs, n) && Calls(w, hs[..m], n) == Calls(w, hs, n)
  {
    hide Proceed;
    if n > 0 { AtPrefix(w, hs, m, n - 1); }
  }

  lemma {:induction false} SoundAt(w: Whole, hs: seq<Happening>, n: nat)
    requires Sound(w) && n <= |hs|
    ensures Sized(w.controllers) && Sound(At(w, hs, n))
  {
    hide Proceed, Agree, AllReady;
    AgreeIsSized(w);
    if n > 0 {
      SoundAt(w, hs, n - 1);
      ProceedIsSound(At(w, hs, n - 1), hs[n - 1]);
    }
  }

  // ---- stops in the log ----

  /** The stop a client line asks for. */
  function StopName(s: Session.Status, text: string): string
  {
    if Session.IsIdle(s) && Dispatch.RequestOf(text) == Dispatch.Direct(MotorCommands.HoldMove)
    then HOLD_MOVE_NAME else IMMEDIATE_STOP_NAME
  }

  /** A stop is tried, and a connection that counts comes up for it. */
  predicate StopDelivered(w: Whole, h: Happening)
    requires Sized(w.controllers)
  {
    && StopTried(w, h)
    && Delivers(if h.Client? then StopName(w.session, h.event.text) else HOLD_MOVE_NAME, w.session.link.pending)
  }

  predicate NoStops(frames: seq<Frame>) {
    forall i :: 0 <= i < |frames| ==> !IsStopFrame(frames[i])
  }

  lemma StopLineSends(s: Session.Status, e: Session.Event)
    requires StopAsked(s, e)
    ensures var name := StopName(s, e.text);
      Session.Served(s, e).link.log == s.link.log + if Delivers(name, s.link.pending) then
        [Frame(name, if name == HOLD_MOVE_NAME then HOLD_WRITES else STOP_WRITES)] else []
  {
    hide Dispatch.RequestOf, Send, Delivers;
    StopFramesOut(s.link);
    NamesDiffer();
  }

  lemma NamesDiffer()
    ensures HOLD_MOVE_NAME != IMMEDIATE_STOP_NAME
  {
    assert HOLD_MOVE_NAME[0] == 'h' && IMMEDIATE_STOP_NAME[0] == 'i';
  }

  lemma StopFramesOut(l: LinkState)
    ensures Send(l, HOLD_WRITES, HOLD_MOVE_NAME).log
      == l.log + if Delivers(HOLD_MOVE_NAME, l.pending) then [Frame(HOLD_MOVE_NAME, HOLD_WRITES)] else []
    ensures Send(l, STOP_WRITES, IMMEDIATE_STOP_NAME).log
      == l.log + if Delivers(IMMEDIATE_STOP_NAME, l.pending) then [Frame(IMMEDIATE_STOP_NAME, STOP_WRITES)] else []
  {
  }

  /** What one call of a controller adds to the log. */
  lemma CallSends(l: LinkState, call: Event)
    requires CommandOf(call.motion).Accepted()
    ensures var c := CommandOf(call.motion);
      SendAll(l, [call]).log == l.log + if Delivers(c.Name(), l.pending) then [Frame(c.Name(), c.Writes())] else []
    ensures call.motion == Hold <==> IsStop(CommandOf(call.motion).Name())
  {
    hide Delivers, Send, MotorCommands.Command.Writes;
    var c := CommandOf(call.motion);
    MotorCommands.CommandsAreSendable(c);
    assert [call][1..] == [];
    var sent := MotorCommands.Issue(l, c);
    assert SendAll(sent, []) == sent;
    SendLog(l, c.Writes(), c.Name());
  }

  lemma HoldSends(l: LinkState, call: Event)
    requires call.motion == Hold
    ensures SendAll(l, [call]).log
      == l.log + if Delivers(HOLD_MOVE_NAME, l.pending) then [Frame(HOLD_MOVE_NAME, HOLD_WRITES)] else []
  {
    hide Delivers, Send;
    CallSends(l, call);
  }

  lemma SendLog(l: LinkState, writes: seq<Write>, name: string)
    ensures Send(l, writes, name).log == l.log + if Delivers(name, l.pending) then [Frame(name, writes)] else []
  {
  }

  /** One happening: at most one call; a client event makes none. */
  lemma OneCall(w: Whole, h: Happening)
    requires Sized(w.controllers)
    ensures |Proceed(w, h).1| <= 1 && (h.Client? ==> Proceed(w, h).1 == [])
    ensures h.Controller? ==> Proceed(w, h).0.session == w.session.(link := SendAll(w.session.link, Proceed(w, h).1))
  {
    hide Session.Served, Dispatch.RequestOf, SendAll, TakeTurn;
    match h
    case Client(e) =>
      var steps := FlagSteps(w.session, e);
      if steps != [] {
        assert steps == [steps[0]];
        RunOne(w.controllers, steps[0]);
      }
    case Controller(k, look) => RunOne(w.controllers, Turn(k, look));
  }

  /** A happening adds a stop to the log exactly when one was tried and delivered. */
  lemma StepStops(w: Whole, h: Happening)
    requires Sound(w) && Sized(w.controllers)
    ensures var log, more := w.session.link.log, Proceed(w, h).0.session.link.log;
      log <= more && (NoStops(more[|log|..]) <==> !StopDelivered(w, h))
  {
    hide Proceed, Session.Served, Dispatch.RequestOf, SendAll, Agree, AllReady, Delivers, MotorCommands.WireSafe,
      RunsType;
    ProceedIsSound(w, h);
    OneCall(w, h);
    if StopTried(w, h) {
      match h {
        case Client(e) =>
          ServedIs(w, e);
          StopLineSends(w.session, e);
          StopAdded(w.session.link.log, StopName(w.session, e.text), Proceed(w, h).0.session.link.log);
        case Controller(_, _) =>
          var calls := Proceed(w, h).1;
          assert calls == [calls[0]] && calls[0].motion == Hold;
          HoldSends(w.session.link, calls[0]);
          StopAdded(w.session.link.log, HOLD_MOVE_NAME, Proceed(w, h).0.session.link.log);
      }
    }
  }

  lemma StopAdded(log: seq<Frame>, name: string, more: seq<Frame>)
    requires name == HOLD_MOVE_NAME || name == IMMEDIATE_STOP_NAME
    ensures more == log + [] ==> NoStops(more[|log|..])
    ensures forall writes: seq<Write> :: more == log + [Frame(name, writes)] ==> !NoStops(more[|log|..])
  {
    forall writes: seq<Write> | more == log + [Frame(name, writes)] ensures !NoStops(more[|log|..]) {
      assert more[|log|..][0] == Frame(name, writes);
    }
  }

  lemma ServedIs(w: Whole, e: Session.Event)
    requires Sized(w.controllers)
    ensures Proceed(w, Client(e)).0.session == Session.Served(w.session, e)
  {
  }

  /** No stop went out between two happenings. */
  ghost predicate NoStopBetween(w: Whole, hs: seq<Happening>, i: nat, j: nat)
    requires Sized(w.controllers) && i < j <= |hs|
  {
    LogAt(w, hs, i + 1) <= LogAt(w, hs, j) && NoStops(LogAt(w, hs, j)[|LogAt(w, hs, i + 1)|..])
  }

  /** Every stop tried between them was lost. */
  ghost predicate StopsLost(w: Whole, hs: seq<Happening>, i: nat, j: nat)
    requires Sized(w.controllers) && i < j <= |hs|
  {
    forall n :: i < n < j ==> !StopDelivered(At(w, hs, n), hs[n])
  }

  lemma NoStopsJoin(a: seq<Frame>, b: seq<Frame>, c: seq<Frame>)
    requires a <= b <= c
    ensures NoStops(c[|a|..]) <==> NoStops(b[|a|..]) && NoStops(c[|b|..])
  {
    assert c[|a|..] == b[|a|..] + c[|b|..];
    var front, back := b[|a|..], c[|b|..];
    assert forall i :: 0 <= i < |front| ==> front[i] == c[|a|..][i];
    assert forall i :: 0 <= i < |back| ==> back[i] == c[|a|..][|front| + i];
  }

  /** No stop is in the log between two moments exactly when every one tried was lost. */
  lemma {:induction false} NoStopExactlyWhen(w: Whole, hs: seq<Happening>, i: nat, j: nat)
    requires Sound(w) && Sized(w.controllers) && i < j <= |hs|
    ensures LogAt(w, hs, i + 1) <= LogAt(w, hs, j)
    ensures NoStopBetween(w, hs, i, j) <==> StopsLost(w, hs, i, j)
    decreases j
  {
    hide Proceed, StopDelivered, NoStops, Sound;
    if i + 1 < j {
      NoStopExactlyWhen(w, hs, i, j - 1);
      SoundAt(w, hs, j - 1);
      StepStops(At(w, hs, j - 1), hs[j - 1]);
      NoStopsJoin(LogAt(w, hs, i + 1), LogAt(w, hs, j - 1), LogAt(w, hs, j));
    } else {
      NothingBetween(LogAt(w, hs, j));
    }
  }

  lemma NothingBetween(log: seq<Frame>)
    ensures NoStops(log[|log|..])
  {
  }
}
