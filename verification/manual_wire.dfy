/** From the file of the manual mode to the registers of the drive. */
module ManualWire {
  import opened Text
  import opened Utilities
  import opened ManualController
  import opened SampleBuffer
  import opened ManualThreads
  import opened SingleController
  import Drive
  import opened Modbus
  import MotorCommands
  import opened WireValues
  import opened WholeServer
  import opened MotorLog

  /** A call of a manual controller, when its connection comes up and drops nothing: a hold
      sets 4 and leaves the profile; a jog sets 128 for clockwise and 256 for counter-clockwise
      at its speed, with accelerations of 250 and no jerk. */
  ghost predicate Arrived(m: Motion, before: Drive.State, after: Drive.State) {
    && after.Reg(1025) == 32768
    && match m
       case Hold => after.Reg(1024) == 4 && after.Motion() == before.Motion()
       case Jog(direction, speed) =>
         after.Reg(1024) == (if direction == Clockwise then 128 else 256)
         && Drive.Carries(after, 0, speed, 250, 250, 0)
  }

  lemma ManualCallOnTheWire(l: LinkState, m: Motion)
    requires NextWorks(l) && (m.Jog? ==> 0 <= m.speed <= 2999999)
    ensures Arrived(m, l.drive, MotorCommands.Issue(l, CommandOf(m)).drive)
  {
    hide MotorCommands.Command.Writes, Drive.Carries, Drive.State.Reg, Delivered;
    var c := CommandOf(m);
    IssuedWhole(l, c);
    match m
    case Hold => MotorCommands.PlainCommandsKeepTheProfile(l.drive, MotorCommands.HoldMove);
    case Jog(direction, speed) =>
      NothingLost(c);
      JogOnTheWire(l.drive, if direction == Clockwise then 0 else 1, 250, 250, 0, speed, {});
      EnabledAfter(l.drive, c);
  }

  /** A new controller reads the line "d,p" and sends its first jog over a connection that drops
      nothing: the drive is told to jog clockwise for d = 0 and counter-clockwise for d = 1, at
      thirty times p. */
  lemma FirstSampleReachesTheDrive(w: Whole, k: nat, line: Line)
    requires Sized(w.controllers) && AllWell(w.controllers) && k < |w.controllers.threads|
    requires w.controllers.threads[k].pc == AtRead && w.controllers.threads[k].memory == AT_START
    requires Tidy(w.controllers.threads[k].buf)
    requires line.WellFormed() && 1 <= ParseNat(line.digits) <= 1023
    requires NextWorks(w.session.link)
    ensures var read := Proceed(w, Controller(k, Got(line.Bytes()))).0;
      var sent := Proceed(read, Controller(k, Missing)).0;
      var d := sent.session.link.drive;
      && d.Reg(1024) == (if line.direction == '0' then 128 else 256) && d.Reg(1025) == 32768
      && Drive.Carries(d, 0, 30 * ParseNat(line.digits), 250, 250, 0)
      && read.session == w.session
  {
    hide TakeTurn, Drive.Carries, Drive.State.Reg, MotorCommands.Issue, CommandOf, Tidy;
    var t, jog := w.controllers.threads[k], FirstCall(line);
    var look := Got(line.Bytes());
    FirstRead(t, w.controllers.enabled, line);
    RunOne(w.controllers, Turn(k, look));
    var read := Proceed(w, Controller(k, look)).0;
    SendingTurn(read.controllers.threads[k], read.controllers.enabled, jog);
    RunOne(read.controllers, Turn(k, Missing));
    var call := Event(k, jog);
    assert Proceed(read, Controller(k, Missing)).1 == [call];
    OneSent(w.session.link, call);
    ManualCallOnTheWire(w.session.link, jog);
  }

  function FirstCall(line: Line): Motion
    requires line.WellFormed()
  {
    Jog(if line.direction == '0' then Clockwise else CounterClockwise, 30 * ParseNat(line.digits))
  }

  lemma FirstRead(t: Thread, enabled: int, line: Line)
    requires t.pc == AtRead && t.memory == AT_START && Tidy(t.buf)
    requires line.WellFormed() && 1 <= ParseNat(line.digits) <= 1023
    ensures var turn := TakeTurn(t, enabled, Got(line.Bytes()));
      turn.0.pc == Sending([FirstCall(line)]) && turn.1 == []
  {
    hide Sampled, Refill;
    NewestSampleIsDecoded(t.buf, line);
  }

  lemma SendingTurn(t: Thread, enabled: int, m: Motion)
    requires |t.buf| == BUFFER_SIZE && t.pc == Sending([m])
    ensures TakeTurn(t, enabled, Missing).1 == [m]
  {
  }

  /** The buffer of a new controller is tidy. */
  lemma NewIsTidy()
    ensures Tidy(NewThread().buf)
  {
  }

  /** In every run, whatever went before: a controller's call whose connection comes up and
      drops nothing arrives in the registers as it was meant. */
  lemma EveryCallArrives(w: Whole, hs: seq<Happening>, n: nat)
    requires Sound(w) && Sized(w.controllers) && n < |hs| && CallAt(w, hs, n) != []
    requires NextWorks(At(w, hs, n).session.link)
    ensures Arrived(CallAt(w, hs, n)[0].motion, At(w, hs, n).session.link.drive, At(w, hs, n + 1).session.link.drive)
  {
    hide Proceed, SendAll, AllReady, Agree, Drive.Carries, Drive.State.Reg, NextWorks, Arrived;
    SoundAt(w, hs, n);
    var before, h := At(w, hs, n), hs[n];
    ProceedIsSound(before, h);
    OneCall(before, h);
    var calls := CallAt(w, hs, n);
    assert calls == [calls[0]];
    InRange(calls[0].motion);
    OneSent(before.session.link, calls[0]);
    ManualCallOnTheWire(before.session.link, calls[0].motion);
  }

  lemma InRange(m: Motion)
    requires CommandOf(m).Accepted()
    ensures m.Jog? ==> 0 <= m.speed <= 2999999
  {
  }

  lemma OneSent(l: LinkState, call: Event)
    ensures SendAll(l, [call]) == MotorCommands.Issue(l, CommandOf(call.motion))
  {
    hide MotorCommands.Issue, CommandOf;
    assert [call][1..] == [];
    var sent := MotorCommands.Issue(l, CommandOf(call.motion));
    assert SendAll(sent, []) == sent;
  }

  // ---- from the file to the calls ----

  /** What controller k finds in its looks at the file. */
  function LooksOf(s: System, steps: seq<Step>, k: nat): seq<Look>
    requires Sized(s)
    decreases |steps|
  {
    if steps == [] then []
    else (if Taken(s, steps[0], k) == [] then [] else [steps[0].look]) + LooksOf(Advance(s, steps[0]).0, steps[1..], k)
  }

  /** It finds these lines, one after the other. */
  ghost predicate Finds(looks: seq<Look>, lines: seq<Line>) {
    && AllWellFormed(lines) && |looks| == |lines|
    && forall i :: 0 <= i < |lines| ==> |lines[i].Bytes()| <= 16 && looks[i] == Got(lines[i].Bytes())
  }

  lemma OneMoreLine(before: seq<Line>, line: Line)
    requires AllWellFormed(before) && line.WellFormed()
    ensures AllWellFormed(before + [line]) && |line.Bytes()| <= 16
    ensures BufferAfter(before + [line]) == Refill(BufferAfter(before), Got(line.Bytes()))
    ensures SamplesSeen(before + [line]) == SamplesSeen(before) + [Sampled(BufferAfter(before), Got(line.Bytes()))]
  {
    hide Sampled, Refill;
    LineChars(line);
    assert (before + [line])[..|before|] == before;
  }

  /** One step of the thread, as its buffer and samples see it. */
  lemma BufferStep(s: System, step: Step, k: nat)
    requires Sized(s) && AllWell(s) && k < |s.threads|
    ensures var next := Advance(s, step).0; var taken := Taken(s, step, k);
      && Sized(next) && AllWell(next) && k < |next.threads|
      && (taken == [] ==> next.threads[k].buf == s.threads[k].buf)
      && (taken != [] ==> step.Turn? && taken == [Sampled(s.threads[k].buf, step.look)]
                          && next.threads[k].buf == Refill(s.threads[k].buf, step.look))
  {
    hide Sampled, Refill, React;
    AdvanceKeepsShape(s, step);
  }

  /** Under every interleaving, the samples a controller takes are those of the lines it finds,
      read one after the other into its own buffer. */
  lemma {:induction false} ThreadSeesTheFile(s: System, steps: seq<Step>, k: nat, before: seq<Line>, lines: seq<Line>)
    requires Sized(s) && AllWell(s) && k < |s.threads|
    requires AllWellFormed(before) && s.threads[k].buf == BufferAfter(before)
    requires Finds(LooksOf(s, steps, k), lines)
    ensures AllWellFormed(before + lines)
    ensures SamplesSeen(before + lines) == SamplesSeen(before) + SamplesOf(s, steps, k)
    decreases |steps|
  {
    hide Advance, Sampled, Refill, Taken, Thread.WellFormed, LooksOf, SamplesOf, SamplesSeen, BufferAfter, Finds;
    if steps == [] {
      NothingSeen(s, k, lines);
      assert before + lines == before && SamplesSeen(before) + [] == SamplesSeen(before);
    } else {
      BufferStep(s, steps[0], k);
      OneStepSeen(s, steps, k);
      var next, taken := Advance(s, steps[0]).0, Taken(s, steps[0], k);
      if taken == [] {
        ThreadSeesTheFile(next, steps[1..], k, before, lines);
      } else {
        FirstFound(steps[0].look, LooksOf(next, steps[1..], k), lines);
        OneMoreLine(before, lines[0]);
        ThreadSeesTheFile(next, steps[1..], k, before + [lines[0]], lines[1..]);
        assert before + [lines[0]] + lines[1..] == before + lines;
        Regroup(SamplesSeen(before), taken, SamplesOf(next, steps[1..], k));
      }
    }
  }

  lemma NothingSeen(s: System, k: nat, lines: seq<Line>)
    requires Sized(s) && Finds(LooksOf(s, [], k), lines)
    ensures lines == [] && SamplesOf(s, [], k) == []
  {
  }

  lemma OneStepSeen(s: System, steps: seq<Step>, k: nat)
    requires Sized(s) && steps != []
    ensures var next, taken := Advance(s, steps[0]).0, Taken(s, steps[0], k);
      && SamplesOf(s, steps, k) == taken + SamplesOf(next, steps[1..], k)
      && LooksOf(s, steps, k) == (if taken == [] then [] else [steps[0].look]) + LooksOf(next, steps[1..], k)
      && (taken == [] ==> SamplesOf(s, steps, k) == SamplesOf(next, steps[1..], k)
                          && LooksOf(s, steps, k) == LooksOf(next, steps[1..], k))
  {
    hide Advance;
    assert forall rest: seq<Look> :: [] + rest == rest;
    assert forall rest: seq<Option<Sample>> :: [] + rest == rest;
  }

  lemma FirstFound(look: Look, rest: seq<Look>, lines: seq<Line>)
    requires Finds([look] + rest, lines)
    ensures lines != [] && lines[0].WellFormed() && |lines[0].Bytes()| <= 16 && look == Got(lines[0].Bytes())
    ensures Finds(rest, lines[1..])
  {
    hide Line.WellFormed, Line.Bytes;
    assert ([look] + rest)[1..] == rest;
    forall i | 0 <= i < |lines[1..]| ensures rest[i] == ([look] + rest)[i + 1] && lines[1..][i] == lines[i + 1] { }
  }

  /** From the file to the calls, under every interleaving: once a new controller has nothing
      left to send, its calls amount to the last line it found. */
  lemma ControllerFollowsTheFile(s: System, steps: seq<Step>, k: nat, lines: seq<Line>, last: Line)
    requires Sized(s) && AllWell(s) && k < |s.threads| && s.threads[k] == NewThread()
    requires last.WellFormed() && ParseNat(last.digits) <= 1023 && Finds(LooksOf(s, steps, k), lines + [last])
    ensures var (end, trace) := Run(s, steps);
      k < |end.threads| && (end.threads[k].Queue() == [] ==>
        Implied(SentBy(trace, k)) ==
          if ParseNat(last.digits) == 0 then Still
          else Moving(if last.direction == '0' then Clockwise else CounterClockwise, 30 * ParseNat(last.digits)))
  {
    hide Run, SentBy, Implied, Asked, SamplesSeen, SamplesOf, LooksOf, Follow;
    var all := lines + [last];
    assert AllWellFormed(all) && all[|lines|] == last;
    assert AllWellFormed(lines) by { assert forall i :: 0 <= i < |lines| ==> all[i] == lines[i]; }
    NoLinesYet();
    ThreadSeesTheFile(s, steps, k, [], all);
    assert [] + all == all && [] + SamplesOf(s, steps, k) == SamplesOf(s, steps, k);
    NewControllerIsSafe(s, steps, k);
    MotionFollowsTheFile(lines, last);
    SeenAreValid(all);
    FollowsTheLastValidSample(SamplesSeen(all));
  }

  lemma NoLinesYet()
    ensures AllWellFormed([]) && BufferAfter([]) == NewThread().buf && SamplesSeen([]) == []
  {
  }

  lemma SeenAreValid(lines: seq<Line>)
    requires AllWellFormed(lines)
    ensures AllValid(SamplesSeen(lines))
  {
    hide SamplesSeen, Sample.Valid;
    StaleBytesNeverShow(lines);
    forall i | 0 <= i < |lines| && SamplesSeen(lines)[i].Some? ensures SamplesSeen(lines)[i].value.Valid() {
      MeaningIsValid(lines[i]);
    }
  }
}
