/** When requests take the lock in the order in which they arrived: exactly when no two of
    them wait for it at a time. */
module RefreshOrder {
  import opened RefreshProtocol
  import opened RefreshSafety
  import opened RefreshProgress
  import opened RefreshExample

  predicate Waits(s: State, t: nat) { t < |s.threads| && s.threads[t].pc.Waiting? }

  ghost predicate AtMostOneWaits(s: State) { forall t: nat, u: nat :: Waits(s, t) && Waits(s, u) ==> t == u }

  predicate NoArrival(steps: seq<Step>) { forall i :: 0 <= i < |steps| ==> !steps[i].Arrive? }

  /** A request can take the lock before one that arrived earlier. */
  ghost predicate Overtakes(s: State, u: nat) { Enabled(s, Acquire(u)) && exists t: nat :: t < u && Waits(s, t) }

  lemma NobodyStartsWaiting(s: State, step: Step, t: nat)
    requires Enabled(s, step) && !step.Arrive? && Waits(Next(s, step), t)
    ensures Waits(s, t)
  {
  }

  lemma {:induction false} RunKeepsOneWaiting(s: State, steps: seq<Step>, s': State)
    requires AtMostOneWaits(s) && Runs(s, steps, s') && NoArrival(steps)
    ensures AtMostOneWaits(s')
    decreases |steps|
  {
    if steps != [] {
      var m := Next(s, steps[0]);
      forall t: nat, u: nat | Waits(m, t) && Waits(m, u)
        ensures t == u
      {
        NobodyStartsWaiting(s, steps[0], t);
        NobodyStartsWaiting(s, steps[0], u);
      }
      RunKeepsOneWaiting(m, steps[1..], s');
    }
  }

  lemma WaitingGoesOn(s: State, step: Step, t: nat)
    requires Enabled(s, step) && !step.Acquire? && Waits(s, t)
    ensures Waits(Next(s, step), t)
  {
  }

  /** The step that brings the lock nearer to being free. */
  lemma TowardsFree(s: State) returns (step: Step)
    requires Inv(s) && s.lock != Free
    ensures Enabled(s, step) && Progress(s, step) && !step.Acquire?
  {
    match s.lock
    case Held(h) =>
      HolderCanStep(s, h);
      step := HolderStep(s, h);
    case Timer => step := FrameStep(s.main[0]);
  }

  /** The lock comes free while two requests still wait for it. */
  lemma {:induction false} LockComesFree(s: State, t: nat, u: nat) returns (steps: seq<Step>, s': State)
    requires Inv(s) && Waits(s, t) && Waits(s, u)
    ensures Runs(s, steps, s') && NoArrival(steps) && s'.lock == Free && Waits(s', t) && Waits(s', u)
    decreases Measure(s)
  {
    if s.lock == Free {
      steps, s' := [], s;
    } else {
      var step, m := NearerToFree(s, t, u);
      var more;
      more, s' := LockComesFree(m, t, u);
      steps := [step] + more;
      StepFirst(s, step, more, s');
    }
  }

  lemma {:induction false} StepFirst(s: State, step: Step, more: seq<Step>, s': State)
    requires Enabled(s, step) && !step.Arrive? && Runs(Next(s, step), more, s') && NoArrival(more)
    ensures Runs(s, [step] + more, s') && NoArrival([step] + more)
  {
    assert ([step] + more)[1..] == more;
  }

  lemma NearerToFree(s: State, t: nat, u: nat) returns (step: Step, m: State)
    requires Inv(s) && s.lock != Free && Waits(s, t) && Waits(s, u)
    ensures Enabled(s, step) && !step.Arrive? && m == Next(s, step)
    ensures Inv(m) && Waits(m, t) && Waits(m, u) && Measure(m) < Measure(s)
  {
    step := TowardsFree(s);
    m := Next(s, step);
    StepWorks(s, step);
    StepKeepsInv(s, step);
    WaitingGoesOn(s, step, t);
    WaitingGoesOn(s, step, u);
  }

  /** Until the next request arrives none can overtake another, whatever the threads do, if
      and only if at most one waits for the lock. */
  lemma OrderIsKept(past: seq<Step>, s: State)
    requires Runs(Init(), past, s)
    ensures AtMostOneWaits(s) <==>
              forall steps, s', u: nat :: Runs(s, steps, s') && NoArrival(steps) ==> !Overtakes(s', u)
  {
    if AtMostOneWaits(s) {
      forall steps, s', u: nat | Runs(s, steps, s') && NoArrival(steps)
        ensures !Overtakes(s', u)
      {
        RunKeepsOneWaiting(s, steps, s');
        if Enabled(s', Acquire(u)) {
          assert Waits(s', u);
        }
      }
    } else {
      var t: nat, u: nat :| Waits(s, t) && Waits(s, u) && t < u;
      ReachedInv(past, s);
      var steps, s' := LockComesFree(s, t, u);
      assert Overtakes(s', u);
    }
  }

  // Clients that send no request while another waits

  /** A run in which a request arrives only when none waits for the lock. */
  ghost predicate RunsOneByOne(s: State, steps: seq<Step>, s': State)
    decreases |steps|
  {
    if steps == [] then s' == s
    else
      && Enabled(s, steps[0]) && (steps[0].Arrive? ==> forall t: nat :: !Waits(s, t))
      && RunsOneByOne(Next(s, steps[0]), steps[1..], s')
  }

  function UpTo(n: nat): seq<nat> { seq(n, i => i) }

  /** All requests but perhaps the last have taken the lock, in the order they arrived. */
  ghost predicate InOrder(s: State) {
    && |s.order| <= |s.threads| <= |s.order| + 1 && s.order == UpTo(|s.order|)
    && forall t: nat :: Waits(s, t) <==> |s.order| <= t < |s.threads|
  }

  lemma ArrivalKeepsInOrder(s: State, request: Request)
    requires InOrder(s) && forall t: nat :: !Waits(s, t)
    ensures InOrder(Next(s, Arrive(request)))
  {
    var s' := Next(s, Arrive(request));
    assert |s.threads| == |s.order| by {
      assert !Waits(s, |s.order|);
    }
    forall t: nat
      ensures Waits(s', t) <==> |s'.order| <= t < |s'.threads|
    {
      if t < |s.threads| {
        assert s'.threads[t] == s.threads[t] && !Waits(s, t);
      }
    }
  }

  lemma AcquireKeepsInOrder(s: State, t: nat)
    requires InOrder(s) && Enabled(s, Acquire(t))
    ensures InOrder(Next(s, Acquire(t)))
  {
    var s' := Next(s, Acquire(t));
    assert Waits(s, t);
    assert UpTo(t) + [t] == UpTo(t + 1);
    forall u: nat
      ensures Waits(s', u) <==> |s'.order| <= u < |s'.threads|
    {
      assert Waits(s, u) ==> u == t;
    }
  }

  lemma OthersKeepOrder(s: State, step: Step)
    requires Enabled(s, step) && !step.Arrive? && !step.Acquire?
    ensures Next(s, step).order == s.order && |Next(s, step).threads| == |s.threads|
  {
  }

  lemma StepKeepsInOrder(s: State, step: Step)
    requires InOrder(s) && Enabled(s, step) && (step.Arrive? ==> forall t: nat :: !Waits(s, t))
    ensures InOrder(Next(s, step))
  {
    if step.Arrive? {
      ArrivalKeepsInOrder(s, step.request);
    } else if step.Acquire? {
      AcquireKeepsInOrder(s, step.t);
    } else {
      OthersKeepOrder(s, step);
      forall t: nat
        ensures Waits(Next(s, step), t) <==> Waits(s, t)
      {
        if Waits(s, t) {
          WaitingGoesOn(s, step, t);
        } else if Waits(Next(s, step), t) {
          NobodyStartsWaiting(s, step, t);
        }
      }
    }
  }

  lemma {:induction false} RunKeepsInOrder(s: State, steps: seq<Step>, s': State)
    requires InOrder(s) && RunsOneByOne(s, steps, s')
    ensures InOrder(s')
    decreases |steps|
  {
    if steps != [] {
      StepKeepsInOrder(s, steps[0]);
      RunKeepsInOrder(Next(s, steps[0]), steps[1..], s');
    }
  }

  /** Of clients that send no request while another waits, requests run in the order in
      which they arrive. */
  lemma OneByOneIsInOrder(steps: seq<Step>, s: State)
    requires RunsOneByOne(Init(), steps, s)
    ensures forall i :: 0 <= i < |s.order| ==> s.order[i] == i
  {
    RunKeepsInOrder(Init(), steps, s);
  }
}
