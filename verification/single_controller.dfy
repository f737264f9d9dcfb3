/** The calls of all controllers together: when at most one of them is alive at a time, and what
    that does for the calls. (Which calls reach the drive is another matter: see MotorSafety.) */
module SingleController {
  import opened ManualController
  import opened SampleBuffer
  import opened ManualThreads

  ghost predicate AtMostOneLive(s: System) {
    forall i, j :: 0 <= i < j < |s.threads| ==> s.threads[i].pc == Exited || s.threads[j].pc == Exited
  }

  ghost predicate AllExited(s: System) {
    forall i :: 0 <= i < |s.threads| ==> s.threads[i].pc == Exited
  }

  /** At most one controller is alive in every state of the run. */
  ghost predicate OneAtATime(s: System, steps: seq<Step>)
    requires Sized(s)
    decreases |steps|
  {
    AtMostOneLive(s) && (steps == [] || OneAtATime(Advance(s, steps[0]).0, steps[1..]))
  }

  /** Whenever manual mode is started with a new thread, all older controllers have exited. */
  ghost predicate CleanStarts(s: System, steps: seq<Step>)
    requires Sized(s)
    decreases |steps|
  {
    steps == [] || ((steps[0] == Start(true) ==> AllExited(s)) && CleanStarts(Advance(s, steps[0]).0, steps[1..]))
  }

  /** An exited controller stays exited, and a step sends only for one that is alive. */
  lemma ExitedStays(s: System, step: Step)
    requires Sized(s)
    ensures var (next, events) := Advance(s, step);
      && |s.threads| <= |next.threads|
      && (step != Start(true) ==> |next.threads| == |s.threads|)
      && (forall i :: 0 <= i < |s.threads| && s.threads[i].pc == Exited ==> next.threads[i].pc == Exited)
      && |events| <= 1
      && (events != [] ==> events[0].k < |s.threads| && s.threads[events[0].k].pc != Exited)
  {
    hide Sampled, Refill, React;
  }

  lemma LiveCount(s: System, step: Step)
    requires Sized(s) && AtMostOneLive(s)
    ensures AtMostOneLive(Advance(s, step).0) <==> (step == Start(true) ==> AllExited(s))
  {
    ExitedStays(s, step);
    var next := Advance(s, step).0;
    if step == Start(true) {
      var n := |s.threads|;
      assert next.threads[n].pc == AtTest && forall i :: 0 <= i < n ==> next.threads[i] == s.threads[i];
    }
  }

  /** At most one controller is alive throughout a run exactly when every start is clean. */
  lemma {:induction false} OneAtATimeExactlyWhen(s: System, steps: seq<Step>)
    requires Sized(s) && AtMostOneLive(s)
    ensures OneAtATime(s, steps) <==> CleanStarts(s, steps)
    decreases |steps|
  {
    if steps != [] {
      hide AtMostOneLive, AllExited, Advance;
      LiveCount(s, steps[0]);
      if AtMostOneLive(Advance(s, steps[0]).0) { OneAtATimeExactlyWhen(Advance(s, steps[0]).0, steps[1..]); }
      else { assert !OneAtATime(Advance(s, steps[0]).0, steps[1..]); }
    }
  }

  lemma {:induction false} NoNewThreads(s: System, steps: seq<Step>)
    requires Sized(s) && NoStart(steps)
    ensures |Run(s, steps).0.threads| == |s.threads|
    decreases |steps|
  {
    if steps != [] {
      ExitedStays(s, steps[0]);
      NoNewThreads(Advance(s, steps[0]).0, steps[1..]);
    }
  }

  /** Enough turns between leaving manual mode and the next start make that start clean. */
  lemma RestIsEnough(s: System, steps: seq<Step>)
    requires AllWell(s) && s.enabled != 1 && NoStart(steps)
    requires forall k :: 0 <= k < |s.threads| ==> TurnsOf(steps, k) >= Remaining(s.threads[k].pc)
    ensures AllExited(Run(s, steps).0)
  {
    hide Run;
    NoNewThreads(s, steps);
    forall k | 0 <= k < |s.threads| ensures Run(s, steps).0.threads[k].pc == Exited {
      StopIsBounded(s, steps, k);
    }
  }

  /** Whether the last start of manual mode could create its thread. */
  function LastCreated(before: bool, steps: seq<Step>): bool
    decreases |steps|
  {
    if steps == [] then before
    else LastCreated(if steps[0].Start? then steps[0].created else before, steps[1..])
  }

  /** Manual mode is never on with nobody serving it, if its thread could be created. */
  ghost predicate NewestAlive(s: System, created: bool) {
    s.enabled == 1 && created ==> s.threads != [] && s.threads[|s.threads| - 1].pc != Exited
  }

  lemma {:induction false} NewestStaysAlive(s: System, created: bool, steps: seq<Step>)
    requires AllWell(s) && NewestAlive(s, created)
    ensures NewestAlive(Run(s, steps).0, LastCreated(created, steps))
    decreases |steps|
  {
    hide Sampled, Refill, React;
    if steps != [] {
      AdvanceKeepsShape(s, steps[0]);
      NewestStaysAlive(Advance(s, steps[0]).0, if steps[0].Start? then steps[0].created else created, steps[1..]);
    }
  }

  // ---- the combined trace ----

  /** What is called for, by whichever controller. */
  function Motions(trace: seq<Event>): (sent: seq<Motion>)
    ensures |sent| == |trace|
  {
    seq(|trace|, i requires 0 <= i < |trace| => trace[i].motion)
  }

  ghost predicate SafeStep(a: Motion, b: Motion) {
    a.Jog? && b.Jog? ==> a.direction == b.direction && a.speed != b.speed
  }

  /** Reversal safety is a matter of neighbours. */
  lemma SafeExactlyWhenNeighboursAre(sent: seq<Motion>)
    ensures ReversalSafe(sent) <==> forall i :: 0 <= i < |sent| - 1 ==> SafeStep(sent[i], sent[i + 1])
  {
    if ReversalSafe(sent) {
      forall i | 0 <= i < |sent| - 1 ensures SafeStep(sent[i], sent[i + 1]) {
        assert NoHoldBetween(sent, i, i + 1);
      }
    }
    if forall i :: 0 <= i < |sent| - 1 ==> SafeStep(sent[i], sent[i + 1]) {
      forall i, j | 0 <= i < j < |sent| && sent[i].Jog? && sent[j].Jog? && NoHoldBetween(sent, i, j)
        ensures sent[i].direction == sent[j].direction && (j == i + 1 ==> sent[i].speed != sent[j].speed)
      {
        SameDirection(sent, i, j);
        assert SafeStep(sent[i], sent[i + 1]);
      }
    }
  }

  lemma {:induction false} SameDirection(sent: seq<Motion>, i: nat, j: nat)
    requires i < j < |sent| && sent[i].Jog? && sent[j].Jog? && NoHoldBetween(sent, i, j)
    requires forall n :: 0 <= n < |sent| - 1 ==> SafeStep(sent[n], sent[n + 1])
    ensures sent[i].direction == sent[j].direction
    decreases j - i
  {
    assert SafeStep(sent[i], sent[i + 1]);
    if i + 1 < j {
      assert sent[i + 1] != Hold;
      assert forall k :: i + 1 < k < j ==> i < k < j && sent[k] != Hold;
      SameDirection(sent, i + 1, j);
    }
  }

  /** Every controller started during the run is reversal safe on its own, and once it has
      nothing left to send its calls amount to the last valid sample it took. */
  lemma {:induction false} EveryNewControllerIsSafe(s: System, steps: seq<Step>, k: nat)
    requires AllWell(s) && k >= |s.threads|
    ensures var (last, trace) := Run(s, steps);
      && ReversalSafe(SentBy(trace, k))
      && (k < |last.threads| && last.threads[k].Queue() == [] ==>
            Implied(SentBy(trace, k)) == Asked(SamplesOf(s, steps, k)))
    decreases |steps|
  {
    hide ReversalSafe, Implied, Asked, Thread.Queue;
    if steps == [] {
      NothingIsSafe();
    } else {
      AdvanceKeepsShape(s, steps[0]);
      ExitedStays(s, steps[0]);
      var (next, first) := Advance(s, steps[0]);
      var rest := Run(next, steps[1..]).1;
      SentByJoin(first, rest, k);
      if first != [] { assert first[1..] == []; }
      assert SentBy(first, k) == [] && [] + SentBy(rest, k) == SentBy(rest, k);
      assert Taken(s, steps[0], k) == [];
      assert [] + SamplesOf(next, steps[1..], k) == SamplesOf(next, steps[1..], k);
      if k < |next.threads| {
        assert next.threads[k] == NewThread();
        NewControllerIsSafe(next, steps[1..], k);
      } else {
        EveryNewControllerIsSafe(next, steps[1..], k);
      }
    }
  }

  lemma NothingIsSafe()
    ensures ReversalSafe([]) && Implied([]) == Asked([])
  {
  }

  /** Neighbours sent by one controller are neighbours in its own trace. */
  lemma OwnNeighbours(trace: seq<Event>, i: nat)
    requires i + 1 < |trace| && trace[i].k == trace[i + 1].k
    requires ReversalSafe(SentBy(trace, trace[i].k))
    ensures SafeStep(trace[i].motion, trace[i + 1].motion)
  {
    var k := trace[i].k;
    var pair := [trace[i], trace[i + 1]];
    var before := SentBy(trace[..i], k);
    assert trace == trace[..i] + pair + trace[i + 2..];
    SentByJoin(trace[..i] + pair, trace[i + 2..], k);
    SentByJoin(trace[..i], pair, k);
    assert pair[1..] == [trace[i + 1]] && pair[1..][1..] == [];
    assert SentBy(pair[1..], k) == [trace[i + 1].motion] + SentBy([], k) == [trace[i + 1].motion];
    assert SentBy(pair, k) == [trace[i].motion] + SentBy(pair[1..], k);
    var sent := SentBy(trace, k);
    SafeExactlyWhenNeighboursAre(sent);
    var n := |before|;
    assert sent[n] == trace[i].motion && sent[n + 1] == trace[i + 1].motion;
  }

  ghost predicate InTurn(trace: seq<Event>) {
    forall i, j :: 0 <= i < j < |trace| ==> trace[i].k <= trace[j].k
  }

  /** With clean starts, controllers send strictly one after the other. */
  lemma {:induction false} SentInTurn(s: System, steps: seq<Step>, b: nat)
    requires Sized(s) && AtMostOneLive(s) && CleanStarts(s, steps)
    requires b <= |s.threads| && forall i :: 0 <= i < b ==> s.threads[i].pc == Exited
    ensures var trace := Run(s, steps).1;
      InTurn(trace) && forall i :: 0 <= i < |trace| ==> b <= trace[i].k
    decreases |steps|
  {
    if steps != [] {
      ExitedStays(s, steps[0]);
      LiveCount(s, steps[0]);
      hide Advance;
      var (next, first) := Advance(s, steps[0]);
      SentInTurn(next, steps[1..], if first == [] then b else first[0].k);
    }
  }

  /** Where one controller's commands meet the next one's. */
  ghost predicate Seam(trace: seq<Event>, i: nat) {
    i + 1 < |trace| && trace[i].k != trace[i + 1].k
  }

  /** At a seam the second command is the first one of a controller started later. */
  ghost predicate IsRestart(trace: seq<Event>, i: nat)
    requires i + 1 < |trace|
  {
    trace[i].k < trace[i + 1].k && SentBy(trace[..i + 1], trace[i + 1].k) == []
  }

  lemma {:induction false} NothingSentBy(trace: seq<Event>, k: nat)
    requires forall i :: 0 <= i < |trace| ==> trace[i].k != k
    ensures SentBy(trace, k) == []
  {
    if trace != [] { NothingSentBy(trace[1..], k); }
  }

  /** Reversal safety of all calls: with clean starts, from no controller alive, the combined
      trace is reversal safe exactly when it is at the seams; and a seam is always the first
      command after a restart. */
  lemma CallsAreSafeExactlyWhen(s: System, steps: seq<Step>)
    requires AllWell(s) && AllExited(s) && CleanStarts(s, steps)
    ensures var trace := Run(s, steps).1;
      && (ReversalSafe(Motions(trace)) <==>
            forall i: nat :: Seam(trace, i) ==> SafeStep(trace[i].motion, trace[i + 1].motion))
      && (forall i: nat :: Seam(trace, i) ==> IsRestart(trace, i))
  {
    hide Run, CleanStarts;
    var trace := Run(s, steps).1;
    var sent := Motions(trace);
    SentInTurn(s, steps, |s.threads|);
    SafeExactlyWhenNeighboursAre(sent);
    forall i | 0 <= i < |sent| - 1
      ensures SafeStep(sent[i], sent[i + 1]) <==> Seam(trace, i) ==> SafeStep(trace[i].motion, trace[i + 1].motion)
    {
      if !Seam(trace, i) {
        EveryNewControllerIsSafe(s, steps, trace[i].k);
        OwnNeighbours(trace, i);
      }
    }
    forall i: nat | Seam(trace, i) ensures IsRestart(trace, i) {
      NothingSentBy(trace[..i + 1], trace[i + 1].k);
    }
  }

  ghost predicate NoNewController(steps: seq<Step>) {
    forall i :: 0 <= i < |steps| ==> steps[i] != Start(true)
  }

  lemma {:induction false} OnlyOneSends(s: System, steps: seq<Step>, k: nat)
    requires AllWell(s) && k < |s.threads| && NoNewController(steps)
    requires forall i :: 0 <= i < |s.threads| && i != k ==> s.threads[i].pc == Exited
    ensures Motions(Run(s, steps).1) == SentBy(Run(s, steps).1, k)
    decreases |steps|
  {
    if steps != [] {
      AdvanceKeepsShape(s, steps[0]);
      ExitedStays(s, steps[0]);
      var (next, first) := Advance(s, steps[0]);
      OnlyOneSends(next, steps[1..], k);
      var rest := Run(next, steps[1..]).1;
      SentByJoin(first, rest, k);
      if first != [] { assert first[1..] == []; }
      assert SentBy(first, k) == Motions(first);
      assert Motions(first + rest) == Motions(first) + Motions(rest);
    }
  }

  /** Between one clean start and the next, all calls are those of one controller: never a
      reversal without a hold, and in the end the motion of the last valid sample. */
  lemma LoneControllerIsSafe(s: System, steps: seq<Step>)
    requires AllWell(s) && AllExited(s) && NoNewController(steps)
    ensures var k, started := |s.threads|, Advance(s, Start(true)).0;
      AllWell(started) &&
      var (last, trace) := Run(started, steps);
      && ReversalSafe(Motions(trace))
      && (k < |last.threads| && last.threads[k].Queue() == [] ==>
           Implied(Motions(trace)) == Asked(SamplesOf(started, steps, k)))
  {
    hide Run, Asked, SamplesOf, Implied, ReversalSafe, Motions;
    AdvanceKeepsShape(s, Start(true));
    var k, started := |s.threads|, Advance(s, Start(true)).0;
    assert started.threads == s.threads + [NewThread()];
    OnlyOneSends(started, steps, k);
    NewControllerIsSafe(started, steps, k);
  }

  // ---- what still can go wrong ----

  /** Three turns of a controller at its flag test or past it that make a fresh one jog. */
  lemma FreshJog(s: System, k: nat, direction: Direction) returns (look: Look)
    requires AllWell(s) && k < |s.threads| && direction != NoDirection
    requires s.threads[k].pc == AtRead && s.threads[k].memory == AT_START
    ensures var s1 := Advance(s, Turn(k, look)).0;
      && Sized(s1) && Advance(s, Turn(k, look)).1 == []
      && Advance(s1, Turn(k, look)).1 == [Event(k, Jog(direction, 30))]
      && AllWell(Advance(s1, Turn(k, look)).0) && |Advance(s1, Turn(k, look)).0.threads| == |s.threads|
      && forall i :: 0 <= i < |s.threads| && i != k ==> Advance(s1, Turn(k, look)).0.threads[i] == s.threads[i]
  {
    look := SampleAtWill(s.threads[k].buf, direction, false);
    hide Sampled, Refill;
    AdvanceKeepsShape(s, Turn(k, look));
    AdvanceKeepsShape(Advance(s, Turn(k, look)).0, Turn(k, look));
  }

  /** A restart may begin with a jog in either direction, whatever was sent before: this is
      the one reversal without a call to hold that clean starts leave possible. */
  lemma RestartMayJogEitherWay(s: System, direction: Direction) returns (steps: seq<Step>)
    requires AllWell(s) && AllExited(s) && direction != NoDirection
    ensures CleanStarts(s, steps) && Run(s, steps).1 == [Event(|s.threads|, Jog(direction, 30))]
  {
    var k := |s.threads|;
    AdvanceKeepsShape(s, Start(true));
    var s1 := Advance(s, Start(true)).0;
    AdvanceKeepsShape(s1, Turn(k, Missing));
    var s2 := Advance(s1, Turn(k, Missing)).0;
    assert s2.threads[k] == NewThread().(pc := AtRead);
    var look := FreshJog(s2, k, direction);
    hide Advance, AllWell, Run, CleanStarts;
    steps := [Start(true), Turn(k, Missing), Turn(k, look), Turn(k, look)];
    FourSteps(s, steps);
  }

  lemma FourSteps(s: System, steps: seq<Step>)
    requires Sized(s) && |steps| == 4
    ensures var s1 := Advance(s, steps[0]).0; var s2 := Advance(s1, steps[1]).0; var s3 := Advance(s2, steps[2]).0;
      Run(s, steps).1 == Advance(s, steps[0]).1 + (Advance(s1, steps[1]).1 +
        (Advance(s2, steps[2]).1 + Advance(s3, steps[3]).1))
    ensures AllExited(s) && NoNewController(steps[1..]) ==> CleanStarts(s, steps)
  {
    hide Advance, AllExited;
    var s1 := Advance(s, steps[0]).0;
    var s2 := Advance(s1, steps[1]).0;
    var s3 := Advance(s2, steps[2]).0;
    var r1, r2, r3 := steps[1..], steps[2..], steps[3..];
    assert r1[1..] == r2 && r2[1..] == r3 && r3[1..] == [];
    assert steps[1] == r1[0] && steps[2] == r2[0] && steps[3] == r3[0];
    if NoNewController(r1) {
      assert r1[1] == r2[0] && r1[2] == r3[0];
      assert CleanStarts(s3, r3) && CleanStarts(s2, r2) && CleanStarts(s1, r1);
    }
    assert Run(s3, r3).1 == Advance(s3, steps[3]).1 + [] == Advance(s3, steps[3]).1;
    assert Run(s2, r2).1 == Advance(s2, steps[2]).1 + Run(s3, r3).1;
    assert Run(s1, r1).1 == Advance(s1, steps[1]).1 + Run(s2, r2).1;
  }

  /** Two controllers alive at once can call for jogs in opposite directions with no hold
      between, though each is reversal safe: why starts have to be clean. */
  lemma TwoLiveControllersCanFight(s: System, i: nat, j: nat) returns (steps: seq<Step>)
    requires AllWell(s) && i < |s.threads| && j < |s.threads| && i != j
    requires s.threads[i].pc == AtRead && s.threads[i].memory == AT_START
    requires s.threads[j].pc == AtRead && s.threads[j].memory == AT_START
    ensures NoStart(steps)
    ensures Run(s, steps).1 == [Event(i, Jog(Clockwise, 30)), Event(j, Jog(CounterClockwise, 30))]
    ensures !ReversalSafe(Motions(Run(s, steps).1))
  {
    var look := FreshJog(s, i, Clockwise);
    var s2 := Advance(Advance(s, Turn(i, look)).0, Turn(i, look)).0;
    var glance := FreshJog(s2, j, CounterClockwise);
    hide Advance, AllWell, Run, Motions, ReversalSafe;
    steps := [Turn(i, look), Turn(i, look), Turn(j, glance), Turn(j, glance)];
    FourSteps(s, steps);
    OppositeJogs(i, j);
  }

  lemma OppositeJogs(i: nat, j: nat)
    ensures !ReversalSafe(Motions([Event(i, Jog(Clockwise, 30)), Event(j, Jog(CounterClockwise, 30))]))
  {
    var sent := Motions([Event(i, Jog(Clockwise, 30)), Event(j, Jog(CounterClockwise, 30))]);
    SafeExactlyWhenNeighboursAre(sent);
    assert !SafeStep(sent[0], sent[1]);
  }

  /** Stopping and starting again before the old controller has looked at the flag leads there. */
  lemma RestartTooSoonCanFight() returns (steps: seq<Step>)
    ensures Run(System(0, []), steps).1 == [Event(0, Jog(Clockwise, 30)), Event(1, Jog(CounterClockwise, 30))]
  {
    var s0 := System(0, []);
    var s1 := Advance(s0, Start(true)).0;
    var s2 := Advance(s1, Turn(0, Missing)).0;
    var s3 := Advance(s2, Clear).0;
    var s4 := Advance(s3, Start(true)).0;
    var s5 := Advance(s4, Turn(1, Missing)).0;
    var past := NewThread().(pc := AtRead);
    assert |s5.threads| == 2 && s5.threads[0] == past && s5.threads[1] == past;
    var fight := TwoLiveControllersCanFight(s5, 0, 1);
    hide Advance, Run;
    Quietly(s4, Turn(1, Missing), s5, fight);
    Quietly(s3, Start(true), s4, [Turn(1, Missing)] + fight);
    Quietly(s2, Clear, s3, [Start(true)] + ([Turn(1, Missing)] + fight));
    Quietly(s1, Turn(0, Missing), s2, [Clear] + ([Start(true)] + ([Turn(1, Missing)] + fight)));
    steps := [Start(true)] + ([Turn(0, Missing)] + ([Clear] + ([Start(true)] + ([Turn(1, Missing)] + fight))));
    Quietly(s0, Start(true), s1, steps[1..]);
    assert steps == [Start(true)] + steps[1..];
    assert steps[1..] == [Turn(0, Missing)] + ([Clear] + ([Start(true)] + ([Turn(1, Missing)] + fight)));
  }

  /** A step that sends nothing adds nothing to the trace. */
  lemma Quietly(s: System, step: Step, next: System, rest: seq<Step>)
    requires Sized(s) && Advance(s, step) == (next, [])
    ensures Run(s, [step] + rest).1 == Run(next, rest).1
  {
    assert ([step] + rest)[1..] == rest;
    assert [] + Run(next, rest).1 == Run(next, rest).1;
  }
}
