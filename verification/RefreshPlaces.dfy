/** On which thread an action runs: on the main thread exactly when its decorator says so. */
module RefreshPlaces {
  import opened RefreshProtocol
  import opened RefreshSafety
  import opened RefreshExample

  /** A thread runs actions that are not for the main thread itself, and waits for the
      others; and what an action has still to hand over is no more than it began with. */
  predicate InPlace(pc: Pc) {
    match pc
    case Acting(op, calls) => !op.onMain && calls <= op.mainCalls
    case CallWait(op, calls) => !op.onMain && calls < op.mainCalls
    case ActWait(op) => op.onMain
    case _ => true
  }

  ghost predicate PlaceInv(s: State) { forall t :: 0 <= t < |s.threads| ==> InPlace(s.threads[t].pc) }

  lemma ThreadKeepsPlace(s: State, step: Step)
    requires PlaceInv(s) && Enabled(s, step) && !step.EndOnMain? && !step.Return?
    ensures PlaceInv(Next(s, step))
  {
  }

  lemma WokenKeepsPlace(s: State, step: Step)
    requires PlaceInv(s) && Enabled(s, step) && (step.EndOnMain? || step.Return?)
    ensures PlaceInv(Next(s, step))
  {
  }

  lemma {:induction false} RunKeepsPlace(s: State, steps: seq<Step>, s': State)
    requires PlaceInv(s) && Runs(s, steps, s')
    ensures PlaceInv(s')
    decreases |steps|
  {
    if steps != [] {
      if steps[0].EndOnMain? || steps[0].Return? {
        WokenKeepsPlace(s, steps[0]);
      } else {
        ThreadKeepsPlace(s, steps[0]);
      }
      RunKeepsPlace(Next(s, steps[0]), steps[1..], s');
    }
  }

  /** In every run, at any time: a thread that is in an action, or parked in one of the calls
      it makes, is in one that is not for the main thread; a thread that is parked until its
      action has run is in one that is, and that action is posted to the main thread or runs
      there. What the main thread runs for a thread is the action the thread waits for. */
  lemma ActionsRunInPlace(steps: seq<Step>, s: State, t: nat)
    requires Runs(Init(), steps, s) && t < |s.threads|
    ensures s.threads[t].pc.Acting? || s.threads[t].pc.CallWait? ==> !s.threads[t].pc.op.onMain
    ensures s.threads[t].pc.ActWait? ==> s.threads[t].pc.op.onMain
                                         && (RunAction(t) in s.closures || InAction(t) in s.main)
    ensures RunAction(t) in s.closures || InAction(t) in s.main ==> s.threads[t].pc.ActWait?
  {
    RunKeepsPlace(Init(), steps, s);
    ReachedInv(steps, s);
    assert InPlace(s.threads[t].pc);
    Serves(s, t);
  }

  lemma Serves(s: State, t: nat)
    requires LockInv(s) && t < |s.threads|
    ensures s.threads[t].pc.ActWait? ==> RunAction(t) in s.closures || InAction(t) in s.main
    ensures RunAction(t) in s.closures || InAction(t) in s.main ==> s.threads[t].pc.ActWait?
  {
    if s.threads[t].pc.ActWait? {
      assert s.lock == Held(t);
    }
  }

  /** An action ends in one way: on the main thread if it is for it, and else on its own. */
  lemma ActionsEndInPlace(steps: seq<Step>, s: State, step: Step, t: nat)
    requires Runs(Init(), steps, s) && Enabled(s, step) && t < |s.threads|
    requires !s.threads[t].pc.Noting? && Next(s, step).threads[t].pc.Noting?
    ensures var op := Next(s, step).threads[t].pc.op;
            if op.onMain then step == EndOnMain && s.main[0] == InAction(t) else step == EndAction(t)
  {
    RunKeepsPlace(Init(), steps, s);
    ReachedInv(steps, s);
    assert InPlace(s.threads[t].pc);
    if step.EndOnMain? || step.Return? {
      WokenInPlace(s, step, t);
    } else {
      EndedHere(s, step, t);
    }
  }

  lemma WokenInPlace(s: State, step: Step, t: nat)
    requires LockInv(s) && Enabled(s, step) && (step.EndOnMain? || step.Return?) && t < |s.threads|
    requires !s.threads[t].pc.Noting? && Next(s, step).threads[t].pc.Noting?
    ensures s.threads[t].pc.ActWait? && Next(s, step).threads[t].pc.op == s.threads[t].pc.op
    ensures step == EndOnMain && s.main[0] == InAction(t)
  {
    assert s.threads[t].pc.ActWait?;
    assert s.lock == Held(t);
  }

  lemma EndedHere(s: State, step: Step, t: nat)
    requires Enabled(s, step) && !step.EndOnMain? && !step.Return? && t < |s.threads|
    requires !s.threads[t].pc.Noting? && Next(s, step).threads[t].pc.Noting?
    ensures step == EndAction(t) && s.threads[t].pc.Acting? && Next(s, step).threads[t].pc.op == s.threads[t].pc.op
  {
  }

  // What the main thread may be doing meanwhile

  predicate OnMainThread(step: Step) {
    || step.RunClosure? || step.RunSchedule? || step.Fire? || step.EndOnMain? || step.Swap? || step.Deliver?
    || step.Return?
  }

  /** From taking the pending names to the call of the hooks the main thread does nothing else. */
  lemma RefreshIsNotInterrupted(s: State, step: Step)
    requires Enabled(s, step) && OnMainThread(step) && s.main != []
    ensures s.main[0].Swapping? ==>
              step == Swap && Next(s, step).main[0] == Delivering(s.main[0].holder, s.pending.names, s.sources)
    ensures s.main[0].Delivering? ==>
              step == Deliver && Next(s, step).main[0] == InHooks(s.main[0].holder)
  {
  }

  /** Anything else it runs may open an event loop of its own, which takes what is posted and
      what is due, on top of what it is in the middle of. */
  lemma LoopsNest(s: State, i: nat)
    requires s.main != [] ==> !s.main[0].Swapping? && !s.main[0].Delivering?
    ensures i < |s.closures| ==>
              Enabled(s, RunClosure(i)) && Next(s, RunClosure(i)).main[1..] == s.main
              && |Next(s, RunClosure(i)).closures| == |s.closures| - 1
    ensures s.schedules > 0 ==> Enabled(s, RunSchedule) && Next(s, RunSchedule).main == s.main
    ensures s.timers > 0 ==>
              Enabled(s, Fire) && Next(s, Fire).main == if s.lock == Free then [Swapping(Timer)] + s.main else s.main
  {
  }

  // The calls of an action

  /** How many closures thread t hands to the main thread in these steps. */
  function CallsOf(steps: seq<Step>, t: nat): nat {
    if steps == [] then 0 else (if steps[0] == CallMain(t) then 1 else 0) + CallsOf(steps[1..], t)
  }

  lemma {:induction false} CallsOfMore(steps: seq<Step>, step: Step, t: nat)
    ensures CallsOf(steps + [step], t) == CallsOf(steps, t) + if step == CallMain(t) then 1 else 0
  {
    if steps == [] {
      assert [] + [step] == [step];
    } else {
      assert (steps + [step])[1..] == steps[1..] + [step];
      CallsOfMore(steps[1..], step, t);
    }
  }

  /** One step more. */
  lemma Then(s: State, steps: seq<Step>, m: State, step: Step, t: nat) returns (steps': seq<Step>, m': State)
    requires Runs(s, steps, m) && Enabled(m, step)
    ensures Runs(s, steps', m') && m' == Next(m, step)
    ensures CallsOf(steps', t) == CallsOf(steps, t) + if step == CallMain(t) then 1 else 0
  {
    RunOn(s, steps, m, step);
    CallsOfMore(steps, step, t);
    steps', m' := steps + [step], Next(m, step);
  }

  /** Thread t is in its action with the lock, and the main thread is idle. */
  predicate InAct(s: State, t: nat, op: Op, calls: nat) {
    t < |s.threads| && s.threads[t].pc == Acting(op, calls) && MainIdle(s)
  }

  /** Thread t waits for one of its calls, which is posted or runs. */
  predicate InCallOf(s: State, t: nat, op: Op, calls: nat, closures: seq<Closure>, main: seq<MainFrame>) {
    t < |s.threads| && s.threads[t].pc == CallWait(op, calls) && s.closures == closures && s.main == main
  }

  lemma CallPosts(s: State, t: nat, op: Op, calls: nat)
    requires InAct(s, t, op, calls) && calls > 0
    ensures Enabled(s, CallMain(t)) && InCallOf(Next(s, CallMain(t)), t, op, calls - 1, [RunCall(t)], [])
  {
  }

  lemma CallStarts(s: State, t: nat, op: Op, calls: nat)
    requires InCallOf(s, t, op, calls, [RunCall(t)], [])
    ensures Enabled(s, RunClosure(0)) && InCallOf(Next(s, RunClosure(0)), t, op, calls, [], [InCall(t)])
  {
  }

  lemma CallEnds(s: State, t: nat, op: Op, calls: nat)
    requires InCallOf(s, t, op, calls, [], [InCall(t)])
    ensures Enabled(s, EndOnMain) && InAct(Next(s, EndOnMain), t, op, calls)
  {
  }

  lemma OneCall(s: State, steps: seq<Step>, m: State, t: nat, op: Op, calls: nat)
    returns (steps': seq<Step>, m': State)
    requires Runs(s, steps, m) && InAct(m, t, op, calls) && calls > 0
    ensures Runs(s, steps', m') && InAct(m', t, op, calls - 1)
    ensures CallsOf(steps', t) == CallsOf(steps, t) + 1
  {
    CallPosts(m, t, op, calls);
    steps', m' := Then(s, steps, m, CallMain(t), t);
    CallStarts(m', t, op, calls - 1);
    steps', m' := Then(s, steps', m', RunClosure(0), t);
    CallEnds(m', t, op, calls - 1);
    steps', m' := Then(s, steps', m', EndOnMain, t);
  }

  lemma {:induction false} AllCalls(s: State, steps: seq<Step>, m: State, t: nat, op: Op, calls: nat)
    returns (steps': seq<Step>, m': State)
    requires Runs(s, steps, m) && InAct(m, t, op, calls)
    ensures Runs(s, steps', m') && InAct(m', t, op, 0)
    ensures CallsOf(steps', t) == CallsOf(steps, t) + calls
    decreases calls
  {
    steps', m' := steps, m;
    if calls > 0 {
      steps', m' := OneCall(s, steps, m, t, op, calls);
      steps', m' := AllCalls(s, steps', m', t, op, calls - 1);
    }
  }

  lemma ActStarts(s: State, t: nat)
    requires LockInv(s) && t < |s.threads| && s.threads[t].pc.Starting? && !s.threads[t].pc.op.onMain
    ensures var op := s.threads[t].pc.op;
            Enabled(s, Begin(t)) && InAct(Next(s, Begin(t)), t, op, op.mainCalls)
  {
    assert s.lock == Held(t);
  }

  /** An action that is not for the main thread can hand it every closure it has for it. */
  lemma EveryCallCanBeMade(past: seq<Step>, s: State, t: nat) returns (steps: seq<Step>, s': State)
    requires Runs(Init(), past, s) && t < |s.threads| && s.threads[t].pc.Starting? && !s.threads[t].pc.op.onMain
    ensures Runs(s, steps, s') && t < |s'.threads| && s'.threads[t].pc == Acting(s.threads[t].pc.op, 0)
    ensures CallsOf(steps, t) == s.threads[t].pc.op.mainCalls
  {
    ReachedInv(past, s);
    var op := s.threads[t].pc.op;
    ActStarts(s, t);
    steps, s' := Then(s, [], s, Begin(t), t);
    steps, s' := AllCalls(s, steps, s', t, op, op.mainCalls);
  }
}
