/** Manual-mode controllers as threads beside the session. The session sets the flag and
    starts a thread, or clears the flag; each thread moves in small steps: test the flag, look
    at the file, send one command. Any interleaving of these steps is a run. */
module ManualThreads {
  import opened Utilities
  import opened ManualController
  import opened SampleBuffer

  datatype Pc = AtTest | AtRead | Sending(queue: seq<Motion>) | Exited

  datatype Thread = Thread(pc: Pc, buf: seq<char>, memory: Memory) {

    ghost predicate WellFormed() {
      |buf| == BUFFER_SIZE && (pc.Sending? ==> pc.queue != [] && HoldThenJog(pc.queue))
    }

    /** What is decided but not yet sent. */
    function Queue(): seq<Motion> { if pc.Sending? then pc.queue else [] }
  }

  /** At most one hold and at most one jog, the hold first. */
  predicate HoldThenJog(sent: seq<Motion>) {
    || sent == []
    || (|sent| == 1 && (sent[0].Hold? || sent[0].Jog?))
    || (|sent| == 2 && sent[0].Hold? && sent[1].Jog?)
  }

  /** STATUS_MANUAL_MODE_ENABLE and all controllers ever started. */
  datatype System = System(enabled: int, threads: seq<Thread>)

  datatype Step =
    | Start(created: bool)      // startManualMode: the flag is set even if no thread can be created
    | Clear                     // stopManualMode, or the connection is closed
    | Turn(k: nat, look: Look)  // thread k takes its next step; `look` is used if it reads

  datatype Event = Event(k: nat, motion: Motion)

  function NewThread(): (t: Thread)
    ensures |t.buf| == BUFFER_SIZE
  {
    Thread(AtTest, seq(BUFFER_SIZE, _ => '\0'), AT_START)
  }

  function Next(queue: seq<Motion>): Pc
  {
    if queue == [] then AtTest else Sending(queue)
  }

  function TakeTurn(t: Thread, enabled: int, look: Look): (turn: (Thread, seq<Motion>))
    requires |t.buf| == BUFFER_SIZE
    ensures |turn.0.buf| == BUFFER_SIZE
  {
    match t.pc
    case AtTest => (t.(pc := if enabled == 1 then AtRead else Exited), [])
    case AtRead =>
      var r := React(t.memory, Sampled(t.buf, look));
      (Thread(Next(r.1), Refill(t.buf, look), r.0), [])
    case Sending(queue) =>
      if queue == [] then (t.(pc := AtTest), []) else (t.(pc := Next(queue[1..])), [queue[0]])
    case Exited => (t, [])
  }

  predicate Sized(s: System) {
    forall k :: 0 <= k < |s.threads| ==> |s.threads[k].buf| == BUFFER_SIZE
  }

  ghost predicate AllWell(s: System) {
    forall k :: 0 <= k < |s.threads| ==> s.threads[k].WellFormed()
  }

  lemma TurnKeepsShape(t: Thread, enabled: int, look: Look)
    requires t.WellFormed()
    ensures TakeTurn(t, enabled, look).0.WellFormed()
  {
  }

  function Advance(s: System, step: Step): (next: (System, seq<Event>))
    requires Sized(s)
    ensures Sized(next.0)
  {
    match step
    case Start(created) => (System(1, if created then s.threads + [NewThread()] else s.threads), [])
    case Clear => (s.(enabled := 0), [])
    case Turn(k, look) =>
      if k >= |s.threads| then (s, [])
      else
        var turn := TakeTurn(s.threads[k], s.enabled, look);
        (s.(threads := s.threads[k := turn.0]), if turn.1 == [] then [] else [Event(k, turn.1[0])])
  }

  lemma AdvanceKeepsShape(s: System, step: Step)
    requires AllWell(s)
    ensures AllWell(Advance(s, step).0) && |s.threads| <= |Advance(s, step).0.threads|
  {
    if step.Turn? && step.k < |s.threads| {
      TurnKeepsShape(s.threads[step.k], s.enabled, step.look);
    }
  }

  function Run(s: System, steps: seq<Step>): (System, seq<Event>)
    requires Sized(s)
    decreases |steps|
  {
    if steps == [] then (s, [])
    else
      var now := Advance(s, steps[0]);
      var later := Run(now.0, steps[1..]);
      (later.0, now.1 + later.1)
  }

  lemma {:induction false} RunKeepsSize(s: System, steps: seq<Step>)
    requires Sized(s)
    ensures Sized(Run(s, steps).0)
    decreases |steps|
  {
    if steps != [] { RunKeepsSize(Advance(s, steps[0]).0, steps[1..]); }
  }

  lemma RunOne(s: System, step: Step)
    requires Sized(s)
    ensures Run(s, [step]) == Advance(s, step)
  {
    assert [step][1..] == [];
    assert Advance(s, step).1 + [] == Advance(s, step).1;
  }

  lemma {:induction false} RunJoin(s: System, a: seq<Step>, b: seq<Step>)
    requires Sized(s)
    ensures var first := Run(s, a);
      Sized(first.0) && Run(s, a + b)
        == (Run(first.0, b).0, first.1 + Run(first.0, b).1)
    decreases |a|
  {
    RunKeepsSize(s, a);
    if a == [] {
      assert a + b == b;
      assert [] + Run(s, b).1 == Run(s, b).1;
    } else {
      assert (a + b)[1..] == a[1..] + b;
      var next := Advance(s, a[0]);
      RunJoin(next.0, a[1..], b);
      var rest := Run(next.0, a[1..]);
      Regroup(next.1, rest.1, Run(rest.0, b).1);
    }
  }

  /** The commands of one thread in a trace. */
  function SentBy(trace: seq<Event>, k: nat): seq<Motion>
  {
    if trace == [] then []
    else (if trace[0].k == k then [trace[0].motion] else []) + SentBy(trace[1..], k)
  }

  lemma {:induction false} SentByJoin(a: seq<Event>, b: seq<Event>, k: nat)
    ensures SentBy(a + b, k) == SentBy(a, k) + SentBy(b, k)
  {
    if a == [] {
      assert a + b == b;
    } else {
      assert (a + b)[1..] == a[1..] + b;
      SentByJoin(a[1..], b, k);
    }
  }

  /** What one step means for thread k: it moves by TakeTurn or not at all. */
  lemma OneStep(s: System, step: Step, k: nat)
    requires AllWell(s) && k < |s.threads|
    ensures var (next, events) := Advance(s, step);
      && AllWell(next) && k < |next.threads|
      && (if step.Turn? && step.k == k then
            var (t, sent) := TakeTurn(s.threads[k], s.enabled, step.look);
            next.threads[k] == t && SentBy(events, k) == sent
          else next.threads[k] == s.threads[k] && SentBy(events, k) == [])
  {
    AdvanceKeepsShape(s, step);
    var events := Advance(s, step).1;
    if events != [] { assert events[1..] == []; }
  }

  // ---- bounded stop ----

  predicate NoStart(steps: seq<Step>) {
    forall i :: 0 <= i < |steps| ==> !steps[i].Start?
  }

  /** What a thread may still send once the flag is down. */
  ghost predicate Allowed(pc: Pc, sent: seq<Motion>) {
    match pc
    case AtTest => sent == []
    case AtRead => HoldThenJog(sent)
    case Sending(queue) => sent <= queue
    case Exited => sent == []
  }

  /** Steps a thread still takes before it exits. */
  function Remaining(pc: Pc): nat
  {
    match pc
    case AtTest => 1
    case AtRead => 4
    case Sending(queue) => |queue| + 1
    case Exited => 0
  }

  function TurnsOf(steps: seq<Step>, k: nat): nat
  {
    if steps == [] then 0 else (if steps[0].Turn? && steps[0].k == k then 1 else 0) + TurnsOf(steps[1..], k)
  }

  lemma AllowedStep(t: Thread, enabled: int, look: Look, later: seq<Motion>)
    requires t.WellFormed() && enabled != 1
    requires Allowed(TakeTurn(t, enabled, look).0.pc, later)
    ensures Allowed(t.pc, TakeTurn(t, enabled, look).1 + later)
    ensures t.pc != Exited ==> Remaining(TakeTurn(t, enabled, look).0.pc) < Remaining(t.pc)
  {
    hide Sampled, Refill;
    if t.pc.Sending? {
      var q := t.pc.queue;
      assert [q[0]] + q[1..] == q;
      if |q| == 1 { assert later == []; }
    } else if t.pc.AtRead? {
      var now := React(t.memory, Sampled(t.buf, look)).1;
      assert HoldThenJog(now);
      if now != [] {
        PrefixKeepsShape(now, later);
      }
    }
    assert [] + later == later;
  }

  lemma PrefixKeepsShape(q: seq<Motion>, sent: seq<Motion>)
    requires HoldThenJog(q) && sent <= q
    ensures HoldThenJog(sent)
  {
  }

  /** Once the flag is down and stays down, under every interleaving: a controller sends at
      most one more hold and at most one more jog, the hold first, and after at most four more
      steps of its own it has exited. */
  lemma {:induction false} StopIsBounded(s: System, steps: seq<Step>, k: nat)
    requires AllWell(s) && k < |s.threads| && s.enabled != 1 && NoStart(steps)
    ensures var (last, trace) := Run(s, steps);
      && k < |last.threads| && last.enabled != 1
      && Allowed(s.threads[k].pc, SentBy(trace, k)) && HoldThenJog(SentBy(trace, k))
      && (TurnsOf(steps, k) >= Remaining(s.threads[k].pc) ==> last.threads[k].pc == Exited)
    decreases |steps|
  {
    if steps != [] {
      OneStep(s, steps[0], k);
      var (next, first) := Advance(s, steps[0]);
      StopIsBounded(next, steps[1..], k);
      var rest := Run(next, steps[1..]).1;
      SentByJoin(first, rest, k);
      if steps[0].Turn? && steps[0].k == k {
        AllowedStep(s.threads[k], s.enabled, steps[0].look, SentBy(rest, k));
      } else {
        assert [] + SentBy(rest, k) == SentBy(rest, k);
      }
    }
    if s.threads[k].pc.Sending? {
      PrefixKeepsShape(s.threads[k].pc.queue, SentBy(Run(s, steps).1, k));
    }
  }

  /** "No jog after the stop" is false, and this is exactly when: a jog can still follow as
      long as the controller has passed its flag test and not yet sent its jog. */
  predicate CanStillJog(pc: Pc) {
    pc.AtRead? || (pc.Sending? && exists i :: 0 <= i < |pc.queue| && pc.queue[i].Jog?)
  }

  ghost predicate NeverJogsAgain(s: System, k: nat)
    requires Sized(s)
  {
    forall steps: seq<Step> :: NoStart(steps) ==> forall m :: m in SentBy(Run(s, steps).1, k) ==> !m.Jog?
  }

  lemma QuietUnlessPastTheTest(s: System, steps: seq<Step>, k: nat)
    requires AllWell(s) && k < |s.threads| && s.enabled != 1 && NoStart(steps)
    requires !CanStillJog(s.threads[k].pc)
    ensures forall m :: m in SentBy(Run(s, steps).1, k) ==> !m.Jog?
  {
    StopIsBounded(s, steps, k);
  }

  /** A file content that makes a controller jog, whatever it remembers and whatever is left
      in its buffer. */
  lemma SomethingToJogFor(t: Thread) returns (look: Look)
    requires |t.buf| == BUFFER_SIZE
    ensures var now := React(t.memory, Sampled(t.buf, look)).1;
      now != [] && now[|now| - 1].Jog? && |now| <= 2
  {
    look := SampleAtWill(t.buf, Clockwise, t.memory.speed == POT_SCALE);
    hide Sampled;
  }

  lemma RunOn(s: System, step: Step, rest: seq<Step>, k: nat)
    requires AllWell(s) && k < |s.threads|
    ensures AllWell(Advance(s, step).0)
    ensures SentBy(Run(s, [step] + rest).1, k)
         == SentBy(Advance(s, step).1, k) + SentBy(Run(Advance(s, step).0, rest).1, k)
  {
    OneStep(s, step, k);
    assert ([step] + rest)[1..] == rest;
    SentByJoin(Advance(s, step).1, Run(Advance(s, step).0, rest).1, k);
  }

  /** Left alone, a thread sends all it has decided. */
  lemma {:induction false} SendsItsQueue(s: System, k: nat, look: Look) returns (steps: seq<Step>)
    requires AllWell(s) && k < |s.threads| && s.threads[k].pc.Sending?
    ensures NoStart(steps) && SentBy(Run(s, steps).1, k) == s.threads[k].pc.queue
    decreases |s.threads[k].pc.queue|
  {
    var queue := s.threads[k].pc.queue;
    var turn := Turn(k, look);
    OneStep(s, turn, k);
    var rest: seq<Step> := [];
    if |queue| > 1 {
      rest := SendsItsQueue(Advance(s, turn).0, k, look);
    }
    RunOn(s, turn, rest, k);
    steps := [turn] + rest;
    assert [queue[0]] + queue[1..] == queue;
  }

  lemma JogStillComes(s: System, k: nat) returns (steps: seq<Step>, jog: Motion)
    requires AllWell(s) && k < |s.threads| && CanStillJog(s.threads[k].pc)
    ensures NoStart(steps) && jog in SentBy(Run(s, steps).1, k) && jog.Jog?
  {
    hide Sampled, Refill, Run, Decide;
    var t := s.threads[k];
    if t.pc.AtRead? {
      var look := SomethingToJogFor(t);
      OneStep(s, Turn(k, look), k);
      var rest := SendsItsQueue(Advance(s, Turn(k, look)).0, k, look);
      RunOn(s, Turn(k, look), rest, k);
      steps := [Turn(k, look)] + rest;
      var now := React(t.memory, Sampled(t.buf, look)).1;
      jog := now[|now| - 1];
      assert SentBy(Run(s, steps).1, k) == now;
    } else {
      steps := SendsItsQueue(s, k, Missing);
      var i :| 0 <= i < |t.pc.queue| && t.pc.queue[i].Jog?;
      jog := t.pc.queue[i];
    }
  }

  lemma QuietExactlyWhen(s: System, k: nat)
    requires AllWell(s) && k < |s.threads| && s.enabled != 1
    ensures NeverJogsAgain(s, k) <==> !CanStillJog(s.threads[k].pc)
  {
    if CanStillJog(s.threads[k].pc) {
      var steps, jog := JogStillComes(s, k);
      assert !NeverJogsAgain(s, k);
    } else {
      forall steps: seq<Step> | NoStart(steps)
        ensures forall m :: m in SentBy(Run(s, steps).1, k) ==> !m.Jog?
      {
        QuietUnlessPastTheTest(s, steps, k);
      }
    }
  }

  // ---- each thread is a sequential controller ----

  /** The sample thread k takes in one step, if it takes one. */
  function Taken(s: System, step: Step, k: nat): seq<Option<Sample>>
    requires Sized(s)
  {
    if step.Turn? && step.k == k && k < |s.threads| && s.threads[k].pc.AtRead?
    then [Sampled(s.threads[k].buf, step.look)] else []
  }

  /** The samples thread k takes in a run. */
  function SamplesOf(s: System, steps: seq<Step>, k: nat): seq<Option<Sample>>
    requires Sized(s)
    decreases |steps|
  {
    if steps == [] then [] else Taken(s, steps[0], k) + SamplesOf(Advance(s, steps[0]).0, steps[1..], k)
  }

  /** What a thread has sent and still holds is what a controller running alone sends for the
      samples it has taken. */
  ghost predicate RunsAlone(t: Thread, samples: seq<Option<Sample>>, sent: seq<Motion>) {
    Follow(samples) == (t.memory, sent + t.Queue())
  }

  lemma AloneStep(t: Thread, enabled: int, look: Look, samples: seq<Option<Sample>>, sent: seq<Motion>)
    requires t.WellFormed() && RunsAlone(t, samples, sent)
    ensures var turn := TakeTurn(t, enabled, look);
      RunsAlone(turn.0, if t.pc.AtRead? then samples + [Sampled(t.buf, look)] else samples, sent + turn.1)
  {
    match t.pc
    case AtRead =>
      var longer := samples + [Sampled(t.buf, look)];
      assert longer[..|longer| - 1] == samples;
      assert sent + [] == sent;
    case Sending(queue) =>
      assert [queue[0]] + queue[1..] == queue;
      assert sent + [queue[0]] + queue[1..] == sent + queue;
      if |queue| == 1 { assert queue[1..] == []; }
    case _ =>
      assert sent + [] == sent;
  }

  lemma AloneAfterStep(s: System, step: Step, k: nat, samples: seq<Option<Sample>>, sent: seq<Motion>)
    requires AllWell(s) && k < |s.threads| && RunsAlone(s.threads[k], samples, sent)
    ensures var (next, events) := Advance(s, step);
      AllWell(next) && k < |next.threads|
      && RunsAlone(next.threads[k], samples + Taken(s, step, k), sent + SentBy(events, k))
  {
    OneStep(s, step, k);
    if step.Turn? && step.k == k {
      AloneStep(s.threads[k], s.enabled, step.look, samples, sent);
    }
    assert samples + [] == samples && sent + [] == sent;
  }

  lemma {:induction false} EveryThreadRunsAlone(
    s: System, steps: seq<Step>, k: nat, samples: seq<Option<Sample>>, sent: seq<Motion>)
    requires AllWell(s) && k < |s.threads| && RunsAlone(s.threads[k], samples, sent)
    ensures var (last, trace) := Run(s, steps);
      k < |last.threads| && RunsAlone(last.threads[k], samples + SamplesOf(s, steps, k), sent + SentBy(trace, k))
    decreases |steps|
  {
    assert Sized(s);
    if steps == [] {
      assert samples + [] == samples && sent + [] == sent;
    } else {
      AloneAfterStep(s, steps[0], k, samples, sent);
      hide Advance, Taken, RunsAlone, Thread.WellFormed, SentBy;
      var (next, first) := Advance(s, steps[0]);
      var taken := Taken(s, steps[0], k);
      EveryThreadRunsAlone(next, steps[1..], k, samples + taken, sent + SentBy(first, k));
      var rest := Run(next, steps[1..]).1;
      SentByJoin(first, rest, k);
      Regroup(samples, taken, SamplesOf(next, steps[1..], k));
      Regroup(sent, SentBy(first, k), SentBy(rest, k));
    }
  }

  lemma Regroup<T>(a: seq<T>, b: seq<T>, c: seq<T>)
    ensures a + b + c == a + (b + c)
  {
  }

  lemma {:induction false} SamplesOfAreValid(s: System, steps: seq<Step>, k: nat)
    requires Sized(s)
    ensures AllValid(SamplesOf(s, steps, k))
    decreases |steps|
  {
    if steps != [] {
      SamplesOfAreValid(Advance(s, steps[0]).0, steps[1..], k);
      if steps[0].Turn? && k < |s.threads| {
        SamplesAreValid(CString(Refill(s.threads[k].buf, steps[0].look)));
      }
    }
  }

  /** Under every interleaving, whatever the other threads and the session do, a new
      controller never reverses without a hold, and once it has nothing left to send, its
      commands amount to the last valid sample it has taken. */
  lemma NewControllerIsSafe(s: System, steps: seq<Step>, k: nat)
    requires AllWell(s) && k < |s.threads| && s.threads[k] == NewThread()
    ensures var (last, trace) := Run(s, steps);
      && k < |last.threads|
      && ReversalSafe(SentBy(trace, k))
      && (last.threads[k].Queue() == [] ==> Implied(SentBy(trace, k)) == Asked(SamplesOf(s, steps, k)))
  {
    assert RunsAlone(NewThread(), [], []) by { assert [] + NewThread().Queue() == []; }
    EveryThreadRunsAlone(s, steps, k, [], []);
    var samples := SamplesOf(s, steps, k);
    var (last, trace) := Run(s, steps);
    var sent := SentBy(trace, k);
    assert [] + samples == samples && [] + sent == sent;
    SamplesOfAreValid(s, steps, k);
    NeverReversesWithoutHold(samples);
    FollowsTheLastValidSample(samples);
    var all := Follow(samples).1;
    assert all[..|sent|] == sent;
    PrefixIsSafe(all, |sent|);
    if last.threads[k].Queue() == [] { assert all == sent; }
  }

  /** The guarantees are per controller: stopping and starting again before the old
      controller has looked at the flag leaves two of them running. */
  lemma RestartCanLeaveTwoControllers()
    ensures var steps := [Start(true), Clear, Start(true)];
      var last := Run(System(0, []), steps).0;
      last.enabled == 1 && |last.threads| == 2 && last.threads[0].pc != Exited && last.threads[1].pc != Exited
  {
    var s := System(0, []);
    var steps := [Start(true), Clear, Start(true)];
    var s1 := Advance(s, steps[0]).0;
    var s2 := Advance(s1, Clear).0;
    var s3 := Advance(s2, Start(true)).0;
    assert steps[1..] == [Clear, Start(true)] && steps[1..][1..] == [Start(true)] && steps[1..][1..][1..] == [];
    assert Run(s2, [Start(true)]).0 == Run(s3, []).0;
    assert Run(s1, [Clear, Start(true)]).0 == Run(s2, [Start(true)]).0;
  }
}
