/** Reversal safety and following, as the motor sees them: which calls got through decides. */
module MotorSafety {
  import Utilities
  import opened ManualController
  import opened ManualThreads
  import opened SingleController
  import opened Modbus
  import MotorCommands
  import Dispatch
  import Session
  import opened SessionRuns
  import opened WireSafety
  import opened WholeServer
  import opened MotorLog

  // ---- what happens when ----

  /** Happening n is a call of controller k ... */
  predicate CalledBy(w: Whole, hs: seq<Happening>, n: nat, k: nat)
    requires Sized(w.controllers) && n < |hs|
  {
    |CallAt(w, hs, n)| == 1 && CallAt(w, hs, n)[0].k == k
  }

  /** ... to jog in a direction, or to hold. */
  predicate Jogs(w: Whole, hs: seq<Happening>, n: nat, k: nat, direction: Direction)
    requires Sized(w.controllers) && n < |hs|
  {
    && CalledBy(w, hs, n, k) && CallAt(w, hs, n)[0].motion.Jog? && CallAt(w, hs, n)[0].motion.direction == direction
  }

  predicate Holds(w: Whole, hs: seq<Happening>, n: nat, k: nat)
    requires Sized(w.controllers) && n < |hs|
  {
    CalledBy(w, hs, n, k) && CallAt(w, hs, n)[0].motion == Hold
  }

  /** Its frame is in the log. */
  predicate Heard(w: Whole, hs: seq<Happening>, n: nat)
    requires Sized(w.controllers) && n < |hs|
  {
    LogAt(w, hs, n + 1) != LogAt(w, hs, n)
  }

  /** Manual mode ends. */
  predicate Ends(w: Whole, hs: seq<Happening>, n: nat)
    requires Sized(w.controllers) && n < |hs|
  {
    At(w, hs, n).session.manual == 1 && At(w, hs, n + 1).session.manual == 0
  }

  /** Manual mode is already over. */
  predicate Late(w: Whole, hs: seq<Happening>, n: nat)
    requires Sized(w.controllers) && n < |hs|
  {
    At(w, hs, n).session.manual == 0
  }

  /** A new controller is started. */
  predicate Starts(w: Whole, h: Happening)
  {
    StepsOfOne(w, h) == [Start(true)]
  }

  /** If happening n starts a controller, all older ones are gone. */
  ghost predicate CleanAt(w: Whole, hs: seq<Happening>, n: nat)
    requires Sized(w.controllers) && n < |hs|
  {
    Starts(At(w, hs, n), hs[n]) ==> AllExited(At(w, hs, n).controllers)
  }

  ghost predicate CleanRun(w: Whole, hs: seq<Happening>)
    requires Sized(w.controllers)
  {
    forall n :: 0 <= n < |hs| ==> CleanAt(w, hs, n)
  }

  /** It is what clean starts are for the controllers alone. */
  lemma {:induction false} CleanRunIsCleanStarts(w: Whole, hs: seq<Happening>)
    requires Sized(w.controllers)
    ensures CleanRun(w, hs) <==> CleanStarts(w.controllers, StepsOf(w, hs))
    decreases |hs|
  {
    hide Proceed, StepsOfOne, AllExited, CleanAt;
    if hs != [] {
      var next := Proceed(w, hs[0]).0;
      CleanRunIsCleanStarts(next, hs[1..]);
      CleanFirst(w, hs);
      forall n | 0 < n < |hs| ensures CleanAt(w, hs, n) <==> CleanAt(next, hs[1..], n - 1) { CleanShift(w, hs, n); }
      if CleanRun(w, hs) {
        forall m | 0 <= m < |hs[1..]| ensures CleanAt(next, hs[1..], m) { assert CleanAt(w, hs, m + 1); }
      }
      OneStepFirst(w, hs[0], StepsOf(next, hs[1..]));
    }
  }

  lemma CleanFirst(w: Whole, hs: seq<Happening>)
    requires Sized(w.controllers) && hs != []
    ensures CleanAt(w, hs, 0) <==> (Starts(w, hs[0]) ==> AllExited(w.controllers))
  {
  }

  lemma CleanShift(w: Whole, hs: seq<Happening>, n: nat)
    requires Sized(w.controllers) && 0 < n < |hs|
    ensures CleanAt(w, hs, n) <==> CleanAt(Proceed(w, hs[0]).0, hs[1..], n - 1)
  {
    hide Proceed, Starts, AllExited, At;
    AtShift(w, hs, n);
  }

  lemma OneStepFirst(w: Whole, h: Happening, rest: seq<Step>)
    requires Sized(w.controllers)
    ensures CleanStarts(w.controllers, StepsOfOne(w, h) + rest)
      <==> (Starts(w, h) ==> AllExited(w.controllers)) && CleanStarts(Proceed(w, h).0.controllers, rest)
  {
    hide Session.Served, Dispatch.RequestOf, SendAll, AllExited, Advance;
    var steps := StepsOfOne(w, h);
    if steps == [] {
      assert steps + rest == rest;
      assert ManualThreads.Run(w.controllers, steps) == (w.controllers, []);
    } else {
      assert steps == [steps[0]] && (steps + rest)[1..] == rest;
      RunOne(w.controllers, steps[0]);
    }
  }

  // ---- one happening ----

  /** What a happening does to the controllers. */
  lemma OneHappening(w: Whole, h: Happening)
    requires Sized(w.controllers)
    ensures var c, d, calls := w.controllers, Proceed(w, h).0.controllers, Proceed(w, h).1;
      && |c.threads| <= |d.threads| <= |c.threads| + 1 && (|d.threads| == |c.threads| + 1 <==> Starts(w, h))
      && (forall i :: 0 <= i < |c.threads| && c.threads[i].pc == Exited ==> d.threads[i].pc == Exited)
      && (calls != [] ==> calls[0].k < |c.threads| && c.threads[calls[0].k].pc != Exited && h.Controller?)
      && (AtMostOneLive(c) && (Starts(w, h) ==> AllExited(c)) ==> AtMostOneLive(d))
  {
    hide Session.Served, Dispatch.RequestOf, SendAll, Advance, AtMostOneLive, AllExited;
    OneCall(w, h);
    var steps := StepsOfOne(w, h);
    if steps == [] {
      assert ManualThreads.Run(w.controllers, steps) == (w.controllers, []);
    } else {
      assert steps == [steps[0]];
      RunOne(w.controllers, steps[0]);
      ExitedStays(w.controllers, steps[0]);
      NewThreadComes(w.controllers, steps[0]);
      if AtMostOneLive(w.controllers) { LiveCount(w.controllers, steps[0]); }
    }
  }

  lemma NewThreadComes(c: System, step: Step)
    requires Sized(c)
    ensures step == Start(true) ==> |Advance(c, step).0.threads| == |c.threads| + 1
  {
  }

  /** A controller is started only from outside manual mode. */
  lemma StartsOutside(w: Whole, h: Happening)
    requires Starts(w, h)
    ensures w.session.manual == 0 && h.Client?
  {
    hide Dispatch.RequestOf;
  }

  /** A controller's turn leaves the flag alone. */
  lemma TurnKeepsFlag(w: Whole, h: Happening)
    requires Sized(w.controllers) && h.Controller?
    ensures Proceed(w, h).0.session.manual == w.session.manual
  {
    hide SendAll, ManualThreads.Run;
  }

  // ---- over time ----

  lemma {:induction false} LiveAt(w: Whole, hs: seq<Happening>, n: nat)
    requires Sized(w.controllers) && AllExited(w.controllers) && CleanRun(w, hs) && n <= |hs|
    ensures AtMostOneLive(At(w, hs, n).controllers)
  {
    hide Proceed, Starts;
    if n > 0 {
      LiveAt(w, hs, n - 1);
      assert CleanAt(w, hs, n - 1);
      OneHappening(At(w, hs, n - 1), hs[n - 1]);
    }
  }

  lemma {:induction false} StayExited(w: Whole, hs: seq<Happening>, i: nat, j: nat)
    requires Sized(w.controllers) && i <= j <= |hs|
    ensures var c, d := At(w, hs, i).controllers, At(w, hs, j).controllers;
      && |c.threads| <= |d.threads|
      && forall k :: 0 <= k < |c.threads| && c.threads[k].pc == Exited ==> d.threads[k].pc == Exited
    decreases j
  {
    hide Proceed, Starts;
    if i < j {
      StayExited(w, hs, i, j - 1);
      OneHappening(At(w, hs, j - 1), hs[j - 1]);
    }
  }

  /** A thread that is there later and was not earlier was started in between. */
  lemma {:induction false} StartedBetween(w: Whole, hs: seq<Happening>, i: nat, j: nat, k: nat) returns (b: nat)
    requires Sized(w.controllers) && i <= j <= |hs|
    requires |At(w, hs, i).controllers.threads| <= k < |At(w, hs, j).controllers.threads|
    ensures i <= b < j && Starts(At(w, hs, b), hs[b])
    decreases j
  {
    hide Proceed, Starts;
    OneHappening(At(w, hs, j - 1), hs[j - 1]);
    if k < |At(w, hs, j - 1).controllers.threads| {
      b := StartedBetween(w, hs, i, j - 1, k);
    } else {
      b := j - 1;
    }
  }

  /** A flag that was up and is down was taken down in between. */
  lemma {:induction false} EndedBetween(w: Whole, hs: seq<Happening>, i: nat, j: nat) returns (n: nat)
    requires Sized(w.controllers) && i <= j <= |hs| && Sound(w)
    requires At(w, hs, i).session.manual == 1 && At(w, hs, j).session.manual == 0
    ensures i <= n < j && Ends(w, hs, n)
    decreases j
  {
    hide Proceed, AllReady;
    SoundAt(w, hs, j - 1);
    if At(w, hs, j - 1).session.manual == 1 {
      n := j - 1;
    } else {
      n := EndedBetween(w, hs, i, j - 1);
    }
  }

  /** Different controllers, one at a time: between their calls manual mode ended, unless the
      first call came after its end. */
  lemma HandedOver(w: Whole, hs: seq<Happening>, i: nat, j: nat, k: nat, k2: nat)
    requires Sized(w.controllers) && Sound(w) && AllExited(w.controllers) && CleanRun(w, hs) && i < j < |hs|
    requires CalledBy(w, hs, i, k) && CalledBy(w, hs, j, k2) && k != k2
    ensures k < k2 && (Late(w, hs, i) || exists n :: i < n < j && Ends(w, hs, n))
  {
    hide Proceed, Starts, CleanRun, Agree, AllReady;
    OneHappening(At(w, hs, i), hs[i]);
    OneHappening(At(w, hs, j), hs[j]);
    LiveAt(w, hs, i);
    StayExited(w, hs, i, j);
    assert k2 >= |At(w, hs, i).controllers.threads|;
    var b := StartedBetween(w, hs, i, j, k2);
    StartsOutside(At(w, hs, b), hs[b]);
    if !Late(w, hs, i) {
      FlagIsUp(w, hs, i);
      var n := EndedBetween(w, hs, i, b);
      TurnKeepsFlag(At(w, hs, i), hs[i]);
      assert n != i;
    }
  }

  lemma FlagIsUp(w: Whole, hs: seq<Happening>, i: nat)
    requires Sized(w.controllers) && Sound(w) && i < |hs| && !Late(w, hs, i)
    ensures At(w, hs, i).session.manual == 1
  {
    hide Proceed, AllReady;
    SoundAt(w, hs, i);
  }

  // ---- one controller ----

  lemma SentSoFar(w: Whole, hs: seq<Happening>, n: nat, k: nat)
    requires Sized(w.controllers) && n < |hs|
    ensures SentBy(Calls(w, hs, n + 1), k) == SentBy(Calls(w, hs, n), k) + SentBy(CallAt(w, hs, n), k)
    ensures SentBy(CallAt(w, hs, n), k) == if CalledBy(w, hs, n, k) then [CallAt(w, hs, n)[0].motion] else []
  {
    hide Proceed;
    SentByJoin(Calls(w, hs, n), CallAt(w, hs, n), k);
    OneCall(At(w, hs, n), hs[n]);
    var calls := CallAt(w, hs, n);
    if calls != [] { assert calls == [calls[0]] && calls[1..] == []; }
  }

  /** Without a hold of k in between, none of its later calls is one. */
  lemma {:induction false} NoHoldSince(w: Whole, hs: seq<Happening>, i: nat, j: nat, k: nat)
    requires Sized(w.controllers) && i <= j <= |hs|
    requires forall n :: i <= n < j ==> !Holds(w, hs, n, k)
    ensures var before, after := SentBy(Calls(w, hs, i), k), SentBy(Calls(w, hs, j), k);
      before <= after && forall c :: |before| <= c < |after| ==> after[c] != Hold
    decreases j
  {
    hide Proceed, CallAt, Calls;
    if i < j {
      NoHoldSince(w, hs, i, j - 1, k);
      SentSoFar(w, hs, j - 1, k);
      assert !Holds(w, hs, j - 1, k);
      var before := SentBy(Calls(w, hs, i), k);
      var front, more := SentBy(Calls(w, hs, j - 1), k), SentBy(CallAt(w, hs, j - 1), k);
      forall c | |before| <= c < |front + more| ensures (front + more)[c] != Hold {
        if c >= |front| { assert (front + more)[c] == more[c - |front|]; }
      }
    }
  }

  /** Every controller's calls are safe, at every moment. */
  lemma SafeAt(w: Whole, hs: seq<Happening>, n: nat, k: nat)
    requires Sized(w.controllers) && AllWell(w.controllers) && k >= |w.controllers.threads| && n <= |hs|
    ensures ReversalSafe(SentBy(Calls(w, hs, n), k))
  {
    hide Proceed, Calls, At, RunAll, StepsOf, ReversalSafe;
    AtIsRun(w, hs[..n]);
    AtPrefix(w, hs, n, n);
    ProjectsToControllers(w, hs[..n]);
    EveryNewControllerIsSafe(w.controllers, StepsOf(w, hs[..n]), k);
  }

  lemma OppositeNeedsHold(sent: seq<Motion>, p: nat, q: nat)
    requires ReversalSafe(sent) && p < q < |sent| && sent[p].Jog? && sent[q].Jog?
    requires sent[p].direction != sent[q].direction
    ensures !NoHoldBetween(sent, p, q)
  {
  }

  /** The same controller: between two of its jogs in opposite directions it called for a hold. */
  lemma HoldsBetween(w: Whole, hs: seq<Happening>, i: nat, j: nat, k: nat, a: Direction, b: Direction)
    requires Sized(w.controllers) && AllWell(w.controllers) && k >= |w.controllers.threads| && i < j < |hs|
    requires Jogs(w, hs, i, k, a) && Jogs(w, hs, j, k, b) && a != b
    ensures exists n :: i < n < j && Holds(w, hs, n, k)
  {
    hide Proceed, CallAt, Calls, ReversalSafe, At;
    if forall n :: i < n < j ==> !Holds(w, hs, n, k) {
      SentSoFar(w, hs, i, k);
      SentSoFar(w, hs, j, k);
      NoHoldSince(w, hs, i + 1, j, k);
      SafeAt(w, hs, j + 1, k);
      var sent := SentBy(Calls(w, hs, j + 1), k);
      var p, q := |SentBy(Calls(w, hs, i), k)|, |SentBy(Calls(w, hs, j), k)|;
      assert sent[p].Jog? && sent[p].direction == a && sent[q].Jog? && sent[q].direction == b;
      OppositeNeedsHold(sent, p, q);
    }
  }

  // ---- reversals the motor hears ----

  /** A controller's call for a hold, between i and j, that got no connection. */
  ghost predicate HoldLost(w: Whole, hs: seq<Happening>, i: nat, j: nat, k: nat)
    requires Sized(w.controllers) && i < j < |hs|
  {
    exists n :: i < n < j && Holds(w, hs, n, k) && !StopDelivered(At(w, hs, n), hs[n])
  }

  /** Between i and j manual mode ended without a stop that was delivered: the client was lost
      or hung up on, or its stop was. */
  ghost predicate EndedUnstopped(w: Whole, hs: seq<Happening>, i: nat, j: nat)
    requires Sized(w.controllers) && i < j < |hs|
  {
    exists n :: i < n < j && Ends(w, hs, n) && !StopDelivered(At(w, hs, n), hs[n])
  }

  /** What may be behind a reversal without a stop: one controller's hold was lost; or one
      controller followed another, and manual mode had ended without a stop in between, or the
      first jog went out after its end. */
  ghost predicate Cause(w: Whole, hs: seq<Happening>, i: nat, j: nat, k: nat, k2: nat)
    requires Sized(w.controllers) && i < j < |hs|
  {
    if k == k2 then HoldLost(w, hs, i, j, k) else k < k2 && (Late(w, hs, i) || EndedUnstopped(w, hs, i, j))
  }

  /** The motor's reversals, over the log of any run with clean starts: of two jogs in opposite
      directions by controllers, no hold and no immediate stop of anyone is in the log between
      them exactly when one of the three causes is there and no stop that was tried got through
      (a connection that counts came up for none of them). */
  lemma ReversalExactlyWhen(w: Whole, hs: seq<Happening>, i: nat, j: nat, k: nat, k2: nat, a: Direction, b: Direction)
    requires Sound(w) && Sized(w.controllers) && AllExited(w.controllers) && CleanRun(w, hs) && i < j < |hs|
    requires Jogs(w, hs, i, k, a) && Jogs(w, hs, j, k2, b) && a != b
    ensures NoStopBetween(w, hs, i, j) <==> Cause(w, hs, i, j, k, k2) && StopsLost(w, hs, i, j)
  {
    hide Proceed, CallAt, Starts, CleanRun, NoStopBetween, StopDelivered, AllReady, Ends, Late;
    NoStopExactlyWhen(w, hs, i, j);
    if StopsLost(w, hs, i, j) {
      if k == k2 {
        CalledByNew(w, hs, i, k);
        HoldsBetween(w, hs, i, j, k, a, b);
      } else {
        HandedOver(w, hs, i, j, k, k2);
      }
    }
  }

  /** With no controller alive at the start, every caller is a new one. */
  lemma CalledByNew(w: Whole, hs: seq<Happening>, n: nat, k: nat)
    requires Sized(w.controllers) && AllExited(w.controllers) && n < |hs| && CalledBy(w, hs, n, k)
    ensures k >= |w.controllers.threads|
  {
    hide Proceed, Starts;
    OneHappening(At(w, hs, n), hs[n]);
    StayExited(w, hs, 0, n);
  }

  /** What keeps the motor from such reversals. */
  ghost predicate StopsWork(w: Whole, hs: seq<Happening>)
    requires Sized(w.controllers)
  {
    && (forall n, k :: 0 <= n < |hs| && Holds(w, hs, n, k) ==> StopDelivered(At(w, hs, n), hs[n]))
    && (forall n :: 0 <= n < |hs| && Ends(w, hs, n) ==> StopDelivered(At(w, hs, n), hs[n]))
  }

  ghost predicate NoLateJog(w: Whole, hs: seq<Happening>)
    requires Sized(w.controllers)
  {
    forall n, k, d :: 0 <= n < |hs| && Jogs(w, hs, n, k, d) ==> !Late(w, hs, n)
  }

  /** If controllers are started cleanly, their holds get through, manual mode ends only by
      stops that get through, and no jog comes after its end, the motor never hears opposite
      jogs without a stop between them. */
  lemma MotorNeverReversesUnstopped(
    w: Whole, hs: seq<Happening>, i: nat, j: nat, k: nat, k2: nat, a: Direction, b: Direction)
    requires Sound(w) && Sized(w.controllers) && AllExited(w.controllers) && CleanRun(w, hs) && i < j < |hs|
    requires StopsWork(w, hs) && NoLateJog(w, hs)
    requires Jogs(w, hs, i, k, a) && Jogs(w, hs, j, k2, b) && a != b
    ensures !NoStopBetween(w, hs, i, j)
  {
    hide Proceed, CallAt, Starts, CleanRun, NoStopBetween, StopDelivered, AllReady, Ends, Late, Jogs, Holds, Sound,
      AllExited;
    ReversalExactlyWhen(w, hs, i, j, k, k2, a, b);
    assert !Late(w, hs, i);
  }

  // ---- following, with calls that get lost ----

  /** The motions of controller k that are in the log. */
  function HeardBy(w: Whole, hs: seq<Happening>, n: nat, k: nat): seq<Motion>
    requires Sized(w.controllers) && n <= |hs|
  {
    if n == 0 then []
    else HeardBy(w, hs, n - 1, k)
         + if CalledBy(w, hs, n - 1, k) && Heard(w, hs, n - 1) then [CallAt(w, hs, n - 1)[0].motion] else []
  }

  /** Whether the last call of controller k got through (or it made none). */
  function LastHeard(w: Whole, hs: seq<Happening>, n: nat, k: nat): bool
    requires Sized(w.controllers) && n <= |hs|
  {
    n == 0 || (if CalledBy(w, hs, n - 1, k) then Heard(w, hs, n - 1) else LastHeard(w, hs, n - 1, k))
  }

  lemma {:induction false} LastHeardIsEnough(w: Whole, hs: seq<Happening>, n: nat, k: nat)
    requires Sized(w.controllers) && n <= |hs| && LastHeard(w, hs, n, k)
    ensures Implied(HeardBy(w, hs, n, k)) == Implied(SentBy(Calls(w, hs, n), k))
  {
    hide Proceed, CallAt, Calls, Heard;
    if n > 0 {
      SentSoFar(w, hs, n - 1, k);
      if !CalledBy(w, hs, n - 1, k) {
        LastHeardIsEnough(w, hs, n - 1, k);
        assert SentBy(Calls(w, hs, n - 1), k) + [] == SentBy(Calls(w, hs, n - 1), k);
      }
    } else {
      NothingYet(w, hs, k);
    }
  }

  lemma NothingYet(w: Whole, hs: seq<Happening>, k: nat)
    requires Sized(w.controllers)
    ensures Calls(w, hs, 0) == [] && HeardBy(w, hs, 0, k) == []
  {
  }

  /** The samples controller k took. */
  function SamplesTaken(w: Whole, hs: seq<Happening>, k: nat): seq<Utilities.Option<Sample>>
    requires Sized(w.controllers)
  {
    SamplesOf(w.controllers, StepsOf(w, hs), k)
  }

  /** Once a controller started in the run has nothing left to send, what the motor was told of
      its calls is the last valid sample exactly when that is what the calls that got through
      amount to; it is so whenever the last call got through. */
  lemma MotorFollowsExactlyWhen(w: Whole, hs: seq<Happening>, k: nat)
    requires Sized(w.controllers) && AllWell(w.controllers)
    requires |w.controllers.threads| <= k < |At(w, hs, |hs|).controllers.threads|
    requires At(w, hs, |hs|).controllers.threads[k].Queue() == []
    ensures var heard, sent := HeardBy(w, hs, |hs|, k), SentBy(Calls(w, hs, |hs|), k);
      && (Implied(heard) == Asked(SamplesTaken(w, hs, k)) <==> Implied(heard) == Implied(sent))
      && (LastHeard(w, hs, |hs|, k) ==> Implied(heard) == Asked(SamplesTaken(w, hs, k)))
  {
    hide Proceed, Calls, At, RunAll, StepsOf, Implied, Asked, SamplesOf, HeardBy, LastHeard;
    AtIsRun(w, hs);
    ProjectsToControllers(w, hs);
    EveryNewControllerIsSafe(w.controllers, StepsOf(w, hs), k);
    if LastHeard(w, hs, |hs|, k) { LastHeardIsEnough(w, hs, |hs|, k); }
  }

  /** A call that was lost is never repeated: as long as the samples stay the same, or none is
      valid, the controller makes no further call. */
  lemma {:induction false} LostCallsAreNotRepeated(
    samples: seq<Utilities.Option<Sample>>, s: Sample, more: seq<Utilities.Option<Sample>>)
    requires s.Valid() && forall i :: 0 <= i < |more| ==> more[i] == Utilities.None || more[i] == Utilities.Some(s)
    ensures Follow(samples + [Utilities.Some(s)] + more) == Follow(samples + [Utilities.Some(s)])
    decreases |more|
  {
    var asked := samples + [Utilities.Some(s)];
    assert asked[..|asked| - 1] == samples;
    if more == [] {
      assert asked + more == asked;
    } else {
      var last := |more| - 1;
      LostCallsAreNotRepeated(samples, s, more[..last]);
      assert (asked + more)[..|asked + more| - 1] == asked + more[..last];
      RepeatedSampleIsSilent(Follow(samples).0, s);
      assert Follow(asked).1 + [] == Follow(asked).1;
    }
  }
}
