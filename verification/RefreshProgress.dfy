/** The refresh protocol neither blocks nor runs on for ever: apart from new requests
    and timers that find the lock busy, every step uses up some of a finite measure,
    and when no such step is left every request is answered and every noted change
    has reached the screens. */
module RefreshProgress {
  import opened RefreshProtocol
  import opened RefreshSafety

  // How many steps a state can still make

  function Work(r: Request): nat
    decreases r, 0
  {
    match r
    case Leaf(op) => 40 + 10 * op.mainCalls
    case Multi(subs) => 2 + WorkAll(subs)
    case Refused => 1
    case Malformed => 1
  }

  function WorkAll(rs: seq<Request>): nat
    decreases rs
  {
    if rs == [] then 0 else Work(rs[0]) + WorkAll(rs[1..])
  }

  function WorkOfFrames(frames: seq<seq<Request>>): nat {
    if frames == [] then 0 else 1 + WorkAll(frames[0]) + WorkOfFrames(frames[1..])
  }

  /** Weights: a posted closure 5, an armed timer 4, a main frame up to 3. */
  function PcWork(pc: Pc): nat {
    match pc
    case Waiting => 2
    case Handling => 1
    case RefreshWait(op, after) => if after then 2 else 27 + 10 * op.mainCalls
    case RefreshPost(op, after) => if after then 8 else 33 + 10 * op.mainCalls
    case RefreshCheck(op, after) => if after then 9 else 34 + 10 * op.mainCalls
    case NotePost(_) => 15
    case Noting(_) => 16
    case Acting(_, calls) => 17 + 10 * calls
    case CallWait(_, calls) => 18 + 10 * calls
    case ActWait(_) => 17
    case Starting(op) => 26 + 10 * op.mainCalls
    case Finished => 0
  }

  function ThreadWork(thread: Thread): nat { PcWork(thread.pc) + WorkOfFrames(thread.frames) }

  function ThreadsWork(threads: seq<Thread>): nat {
    if threads == [] then 0
    else ThreadsWork(threads[..|threads| - 1]) + ThreadWork(threads[|threads| - 1])
  }

  function FrameWork(f: MainFrame): nat {
    match f
    case InAction(_) => 1
    case InCall(_) => 1
    case Swapping(_) => 3
    case Delivering(_, _, _) => 2
    case InHooks(_) => 1
  }

  function MainWork(main: seq<MainFrame>): nat {
    if main == [] then 0 else FrameWork(main[0]) + MainWork(main[1..])
  }

  function Measure(s: State): nat {
    ThreadsWork(s.threads) + 5 * |s.closures| + 5 * s.schedules + 4 * s.timers + MainWork(s.main)
  }

  lemma {:induction false} UpdatedThreadWork(threads: seq<Thread>, t: nat, thread: Thread)
    requires t < |threads|
    ensures ThreadsWork(threads[t := thread])
         == ThreadsWork(threads) - ThreadWork(threads[t]) + ThreadWork(thread)
  {
    var last := |threads| - 1;
    var updated := threads[t := thread];
    if t == last {
      assert updated[..last] == threads[..last];
    } else {
      UpdatedThreadWork(threads[..last], t, thread);
      assert updated[..last] == threads[..last][t := thread];
    }
  }

  lemma DispatchedThreadWorks(s: State, t: nat)
    requires Enabled(s, Dispatch(t))
    ensures ThreadWork(Dispatched(s, t).threads[t]) < ThreadWork(s.threads[t])
  {
    var frames: seq<seq<Request>> := s.threads[t].frames;
    if frames != [] && frames[0] != [] {
      var rest: seq<seq<Request>> := [frames[0][1..]] + frames[1..];
      assert rest[1..] == frames[1..];
      assert WorkOfFrames(frames) == Work(frames[0][0]) + WorkOfFrames(rest);
      if frames[0][0].Multi? {
        var all: seq<seq<Request>> := [frames[0][0].subs] + rest;
        assert all[1..] == rest;
        assert WorkOfFrames(all) == 1 + WorkAll(frames[0][0].subs) + WorkOfFrames(rest);
      }
    }
  }

  lemma DispatchWorks(s: State, t: nat)
    requires Enabled(s, Dispatch(t))
    ensures Measure(Next(s, Dispatch(t))) < Measure(s)
  {
    DispatchedThreadWorks(s, t);
    UpdatedThreadWork(s.threads, t, Dispatched(s, t).threads[t]);
  }

  /** A thread's step that makes its own work smaller by more than it posts. */
  lemma ThreadStepWorks(s: State, s': State, t: nat)
    requires t < |s.threads| && |s'.threads| == |s.threads|
    requires s'.threads == s.threads[t := s'.threads[t]] && s'.timers == s.timers && s'.main == s.main
    requires ThreadWork(s'.threads[t]) + 5 * |s'.closures| + 5 * s'.schedules
             < ThreadWork(s.threads[t]) + 5 * |s.closures| + 5 * s.schedules
    ensures Measure(s') < Measure(s)
  {
    UpdatedThreadWork(s.threads, t, s'.threads[t]);
  }

  lemma LocalStepWorks(s: State, step: Step, t: nat)
    requires step == Acquire(t) || step == Check(t) || step == EndAction(t)
    requires Enabled(s, step)
    ensures Measure(Next(s, step)) < Measure(s)
  {
    ThreadStepWorks(s, Next(s, step), t);
  }

  lemma PostingStepWorks(s: State, step: Step, t: nat)
    requires step == PostRefresh(t) || step == Begin(t) || step == CallMain(t)
    requires Enabled(s, step)
    ensures Measure(Next(s, step)) < Measure(s)
  {
    ThreadStepWorks(s, Next(s, step), t);
  }

  lemma NotingStepWorks(s: State, step: Step, t: nat)
    requires step == Note(t) || step == PostSchedule(t)
    requires Enabled(s, step)
    ensures Measure(Next(s, step)) < Measure(s)
  {
    ThreadStepWorks(s, Next(s, step), t);
  }

  lemma WokenThreadWorks(thread: Thread)
    ensures ThreadWork(thread.(pc := Woken(thread.pc))) <= ThreadWork(thread)
  {
  }

  lemma EndOnMainWorks(s: State)
    requires Enabled(s, EndOnMain)
    ensures Measure(Next(s, EndOnMain)) < Measure(s)
  {
    var t := s.main[0].t;
    WokenThreadWorks(s.threads[t]);
    UpdatedThreadWork(s.threads, t, s.threads[t].(pc := Woken(s.threads[t].pc)));
  }

  lemma ReturnWorks(s: State)
    requires Enabled(s, Return)
    ensures Measure(Next(s, Return)) < Measure(s)
  {
    if s.main[0].holder.Held? {
      var t := s.main[0].holder.t;
      WokenThreadWorks(s.threads[t]);
      UpdatedThreadWork(s.threads, t, s.threads[t].(pc := Woken(s.threads[t].pc)));
    }
  }

  lemma LoopStepWorks(s: State, step: Step)
    requires step.RunClosure? || step.RunSchedule? || step.Fire? || step.Swap? || step.Deliver?
    requires Enabled(s, step) && Progress(s, step)
    ensures Measure(Next(s, step)) < Measure(s)
  {
    var s' := Next(s, step);
    if step.RunClosure? || step.Fire? {
      assert s'.main[1..] == s.main;
    } else if step.Swap? || step.Deliver? {
      assert s'.main[1..] == s.main[1..];
    }
  }

  lemma StepWorks(s: State, step: Step)
    requires Enabled(s, step) && Progress(s, step)
    ensures Measure(Next(s, step)) < Measure(s)
  {
    match step
    case Dispatch(t) => DispatchWorks(s, t);
    case Acquire(t) => LocalStepWorks(s, step, t);
    case Check(t) => LocalStepWorks(s, step, t);
    case EndAction(t) => LocalStepWorks(s, step, t);
    case PostRefresh(t) => PostingStepWorks(s, step, t);
    case Begin(t) => PostingStepWorks(s, step, t);
    case CallMain(t) => PostingStepWorks(s, step, t);
    case Note(t) => NotingStepWorks(s, step, t);
    case PostSchedule(t) => NotingStepWorks(s, step, t);
    case EndOnMain => EndOnMainWorks(s);
    case Return => ReturnWorks(s);
    case _ => LoopStepWorks(s, step);
  }

  // No wait cycle

  /** Every request is answered, nothing is pending, and nothing will still happen. */
  ghost predicate Quiet(s: State) {
    && (forall t :: 0 <= t < |s.threads| ==> s.threads[t].pc.Finished?)
    && s.lock == Free && s.pending == NOTHING_PENDING && s.closures == []
    && s.schedules == 0 && s.timers == 0 && s.main == []
  }

  /** The step the holder of the lock, or the main thread for it, can make. */
  function HolderStep(s: State, t: nat): Step
    requires t < |s.threads|
  {
    match s.threads[t].pc
    case RefreshCheck(_, _) => Check(t)
    case RefreshPost(_, _) => PostRefresh(t)
    case RefreshWait(_, _) => if s.main == [] then RunClosure(0) else FrameStep(s.main[0])
    case Starting(_) => Begin(t)
    case Acting(_, _) => EndAction(t)
    case CallWait(_, _) => if s.main == [] then RunClosure(0) else EndOnMain
    case ActWait(_) => if s.main == [] then RunClosure(0) else EndOnMain
    case Noting(_) => Note(t)
    case NotePost(_) => PostSchedule(t)
    case _ => Dispatch(t)
  }

  function FrameStep(f: MainFrame): Step {
    match f
    case Swapping(_) => Swap
    case Delivering(_, _, _) => Deliver
    case InHooks(_) => Return
    case _ => EndOnMain
  }

  /** The main thread can go on with what it does for thread t. */
  lemma MainCanStep(s: State, t: nat)
    requires LockInv(s) && s.lock == Held(t) && t < |s.threads|
    requires s.threads[t].pc.RefreshWait? || s.threads[t].pc.CallWait? || s.threads[t].pc.ActWait?
    ensures Enabled(s, HolderStep(s, t)) && Progress(s, HolderStep(s, t))
  {
    if s.main != [] {
      assert |s.main| == 1;
    }
  }

  lemma HolderCanStep(s: State, t: nat)
    requires LockInv(s) && s.lock == Held(t)
    ensures Enabled(s, HolderStep(s, t)) && Progress(s, HolderStep(s, t))
  {
    var pc := s.threads[t].pc;
    if pc.RefreshWait? || pc.CallWait? || pc.ActWait? {
      MainCanStep(s, t);
    }
  }

  lemma SomeoneCanStep(s: State) returns (step: Step)
    requires Inv(s) && !Quiet(s)
    ensures Enabled(s, step) && Progress(s, step)
  {
    NamesOfEmpty(s.sources);
    match s.lock
    case Held(t) =>
      HolderCanStep(s, t);
      step := HolderStep(s, t);
    case Timer => step := FrameStep(s.main[0]);
    case Free =>
      if t :| 0 <= t < |s.threads| && !s.threads[t].pc.Finished? {
        step := Acquire(t);
      } else {
        step := if s.schedules > 0 then RunSchedule else Fire;
      }
  }

  /** In every reachable state that is not quiet some thread can make progress: the main
      thread never waits for the request lock, although its holder may wait for main. */
  lemma NoWaitCycle(steps: seq<Step>, s: State) returns (step: Step)
    requires Runs(Init(), steps, s) && !Quiet(s)
    ensures Enabled(s, step) && Progress(s, step)
  {
    ReachedInv(steps, s);
    step := SomeoneCanStep(s);
  }

  // Every change reaches the screens

  ghost predicate ProgressRun(s: State, steps: seq<Step>, s': State)
    decreases |steps|
  {
    if steps == [] then s' == s
    else Enabled(s, steps[0]) && Progress(s, steps[0]) && ProgressRun(Next(s, steps[0]), steps[1..], s')
  }

  lemma {:induction false} ProgressRunsAreShort(s: State, steps: seq<Step>, s': State)
    requires Inv(s) && ProgressRun(s, steps, s')
    ensures Inv(s') && |steps| + Measure(s') <= Measure(s)
    decreases |steps|
  {
    if steps != [] {
      StepWorks(s, steps[0]);
      StepKeepsInv(s, steps[0]);
      ProgressRunsAreShort(Next(s, steps[0]), steps[1..], s');
    }
  }

  /** Once requests stop coming, no schedule of the threads can go on for more than
      Measure steps (re-arming aside), and wherever it can go no further, every noted
      change has been delivered exactly once and in order. */
  lemma EverythingIsDelivered(past: seq<Step>, s: State, steps: seq<Step>, s': State)
    requires Runs(Init(), past, s) && ProgressRun(s, steps, s')
    ensures |steps| <= Measure(s)
    ensures (forall step :: Enabled(s', step) ==> !Progress(s', step))
            ==> Quiet(s') && Delivered(s'.deliveries) == s'.noted
  {
    ReachedInv(past, s);
    ProgressRunsAreShort(s, steps, s');
    if !Quiet(s') {
      var step := SomeoneCanStep(s');
    }
  }
}
