/** What the status says while the server runs: the truth, as long as joins succeed, unless
    an older stop left a stored socket under another status. */
module ListenerStatus {
  import opened Common
  import opened Listener
  import opened ListenerSockets
  import opened ListenerRuns

  /** The listener has a stored socket, and takes connections from it. */
  predicate Accepts(pc: Pc) {
    pc.Load? || pc.Accepting? || pc.AcceptError? || pc.Acquiring? || pc.Spawning?
  }

  /** Nothing is stored, or the status says so. */
  predicate StoredIsShown(s: State) { s.sock.Some? ==> s.status == Listening }

  /** The status by where the one listener stands. */
  ghost predicate StatusInv(s: State) {
    && (Accepts(CurrentPc(s)) ==> s.status == Listening)
    && (CurrentPc(s) == Sleeping ==> s.status == Failed)
    && (s.sock.Some? && CurrentPc(s) != Telling ==> s.status == Listening)
    && (CurrentPc(s) == TellingFailure ==> s.sock == None)
    && (CurrentPc(s).Accepting? && !s.stopSet ==> s.sock == Some(CurrentPc(s).sock))
    && (CurrentPc(s) == Telling && !s.stopSet ==> s.sock.Some?)
    && (s.control == StartSpawn || (s.control == Idle && s.thread.Some?) ==>
          s.status != Off && !s.stopSet && (s.status == Listening ==> s.sock.Some?))
    && (s.control == StartReport ==> !s.stopSet)
  }

  ghost predicate AllInv(s: State) { HandsInv(s) && ControlInv(s) && OneListener(s) && StatusInv(s) }

  lemma StartsKeepStatus(s: State, step: Step)
    requires Starts(step)
    requires ControlInv(s) && OneListener(s) && StatusInv(s) && Enabled(s, step)
    ensures StatusInv(Next(s, step))
  {
  }

  lemma StopsKeepStatus(s: State, step: Step)
    requires Stops(step) && !step.JoinGivesUp? && !step.ReportStop?
    requires ControlInv(s) && OneListener(s) && StatusInv(s) && Enabled(s, step)
    ensures StatusInv(Next(s, step))
  {
    assert CurrentPc(Next(s, step)) == CurrentPc(s) || CurrentPc(Next(s, step)) == Dead;
  }

  lemma ReportKeepsStatus(s: State, since: State)
    requires ControlInv(s) && OneListener(s) && StatusInv(s) && StopKept(s, since) && Enabled(s, ReportStop)
    ensures StatusInv(Next(s, ReportStop))
  {
    assert CurrentPc(Next(s, ReportStop)) == Dead;
  }

  lemma BindingKeepsStatus(s: State, step: Step, lost: set<nat>)
    requires Binds(step)
    requires OneListener(s) && SocketsKept(s, lost) && StatusInv(s) && Enabled(s, step)
    requires IsCurrent(s, Next(s, step), step.i)
    ensures StatusInv(Next(s, step))
  {
    assert CurrentPc(s) == s.listeners[step.i];
    assert CurrentPc(Next(s, step)) == Next(s, step).listeners[step.i];
  }

  lemma LoopKeepsStatus(s: State, step: Step)
    requires Listens(step) && !Binds(step)
    requires OneListener(s) && ControlInv(s) && StatusInv(s) && Enabled(s, step)
    requires IsCurrent(s, Next(s, step), step.i)
    ensures StatusInv(Next(s, step))
  {
    assert CurrentPc(s) == s.listeners[step.i];
    assert CurrentPc(Next(s, step)) == Next(s, step).listeners[step.i];
  }

  lemma StepKeepsStatus(s: State, step: Step, lost: set<nat>, since: State)
    requires SocketInv(s, lost, since) && StatusInv(s) && Enabled(s, step) && !step.JoinGivesUp?
    ensures StatusInv(Next(s, step))
  {
    if Starts(step) {
      StartsKeepStatus(s, step);
    } else if step.ReportStop? {
      ReportKeepsStatus(s, since);
    } else if Stops(step) {
      StopsKeepStatus(s, step);
    } else {
      ListenerIsCurrent(s, step);
      if Binds(step) {
        BindingKeepsStatus(s, step, lost);
      } else {
        LoopKeepsStatus(s, step);
      }
    }
  }

  lemma {:induction false} RunKeepsStatus(s: State, steps: seq<Step>, s': State, lost: set<nat>, since: State)
    requires SocketInv(s, lost, since) && StatusInv(s) && Runs(s, steps, s') && JoinsSucceed(steps)
    ensures StatusInv(s')
    decreases |steps|
  {
    if steps != [] {
      StepKeepsSockets(s, steps[0], lost, since);
      StepKeepsStatus(s, steps[0], lost, since);
      RunKeepsStatus(Next(s, steps[0]), steps[1..], s', lost, since);
    }
  }

  /** Between start and stop the status is not off; it says that the server listens only when
      there is an open socket to listen on, and whenever the listener takes connections, which
      it does from that socket; and while it waits for its next try it says that it failed. */
  ghost predicate StatusIsTrue(s: State) {
    s.control == Idle && s.thread.Some? ==>
      && s.status != Off
      && (s.status == Listening ==> s.sock.Some? && IsOpen(s.open, s.sock.value))
      && forall i :: 0 <= i < |s.listeners| ==>
           && (Accepts(s.listeners[i]) ==> s.status == Listening)
           && (s.listeners[i].Accepting? ==> s.sock == Some(s.listeners[i].sock))
           && (s.listeners[i] == Sleeping ==> s.status == Failed)
  }

  lemma ShownIsTrue(past: seq<Step>, m: State, steps: seq<Step>, s: State)
    requires Runs(Init(), past, m) && Stopped(m) && AllDead(m) && StoredIsShown(m)
    requires Runs(m, steps, s) && JoinsSucceed(steps)
    ensures StatusIsTrue(s)
  {
    Reached(past, m);
    StoppedIsKept(m);
    assert CurrentPc(m) == Dead;
    RunKeepsStatus(m, steps, s, LostBefore(m), m);
    KeptSince(past, m, steps, s);
    forall i | 0 <= i < |s.listeners| && s.listeners[i] != Dead
      ensures s.listeners[i] == CurrentPc(s)
    {
      assert Current(s) == Some(i);
    }
  }

  /** A restart over a stored socket goes on with it, whatever the status says. */
  lemma StoredIsTaken(m: State) returns (s: State)
    requires Kept(m) && Stopped(m) && m.sock.Some?
    ensures Goes(Patiently, m, s) && s.control == Idle && s.thread.Some? && s.status == m.status
    ensures |s.listeners| == |m.listeners| + 1 && s.listeners[|m.listeners|] == Load
  {
    var n := |m.listeners|;
    GoesNowhere(Patiently, m);
    s := Go(Patiently, m, m, Start);
    s := Go(Patiently, m, s, ReportStart);
    s := Go(Patiently, m, s, Spawn);
    assert s.listeners[n] == Top;
    s := Go(Patiently, m, s, Test(n));
    s := Go(Patiently, m, s, LookUp(n));
  }

  lemma StatusIsWrong(past: seq<Step>, m: State) returns (steps: seq<Step>, s: State)
    requires Runs(Init(), past, m) && Stopped(m) && !StoredIsShown(m)
    ensures Runs(m, steps, s) && JoinsSucceed(steps) && !StatusIsTrue(s)
  {
    Reached(past, m);
    s := StoredIsTaken(m);
    NotTrue(s, |m.listeners|);
    steps := StepsOf(m, s);
  }

  lemma NotTrue(s: State, i: nat)
    requires s.control == Idle && s.thread.Some? && s.status != Listening
    requires i < |s.listeners| && Accepts(s.listeners[i])
    ensures !StatusIsTrue(s)
  {
  }

  lemma StepsOf(m: State, s: State) returns (steps: seq<Step>)
    requires Goes(Patiently, m, s)
    ensures Runs(m, steps, s) && JoinsSucceed(steps)
  {
    steps :| Runs(m, steps, s) && forall i :: 0 <= i < |steps| ==> Fits(Patiently, steps[i]);
  }

  /** From a stopped state without a live listener the status is true in every run whose joins
      succeed if and only if nothing is stored there under another status. */
  lemma StatusIsTrueWhen(past: seq<Step>, m: State)
    requires Runs(Init(), past, m) && Stopped(m) && AllDead(m)
    ensures StoredIsShown(m) <==>
              forall steps, s :: Runs(m, steps, s) && JoinsSucceed(steps) ==> StatusIsTrue(s)
  {
    if StoredIsShown(m) {
      forall steps, s | Runs(m, steps, s) && JoinsSucceed(steps)
        ensures StatusIsTrue(s)
      {
        ShownIsTrue(past, m, steps, s);
      }
    } else {
      var steps, s := StatusIsWrong(past, m);
    }
  }

  lemma Stopping() returns (steps: seq<Step>, s: State)
    ensures Runs(Init(), steps, s)
    ensures s == State(StopSwapAgain, true, None, None, StartingUp, [true], [Storing(0)], MAX_CLIENTS, 0, 0, 0)
  {
    steps, s := AboutToStore();
    steps, s := Do(steps, s, Stop);
    steps, s := Do(steps, s, Swap);
    steps, s := Do(steps, s, TakeThread);
    steps, s := Do(steps, s, JoinGivesUp);
  }

  lemma StoredBeforeReport() returns (steps: seq<Step>, s: State)
    ensures Runs(Init(), steps, s)
    ensures s == State(StopReport, true, Some(0), None, Listening, [true], [Load], MAX_CLIENTS, 0, 0, 0)
  {
    steps, s := Stopping();
    steps, s := Do(steps, s, SwapAgain);
    steps, s := Do(steps, s, Store(0));
    steps, s := Do(steps, s, Tell(0));
  }

  /** Such a state can come about when a join gives up: the server is off by its status, and a
      socket is open and stored. */
  lemma OffWithSocket() returns (steps: seq<Step>, s: State)
    ensures Runs(Init(), steps, s) && Stopped(s) && AllDead(s) && !StoredIsShown(s)
    ensures s.status == Off && s.sock == Some(0) && s.open == [true]
  {
    steps, s := StoredBeforeReport();
    steps, s := Do(steps, s, ReportStop);
    steps, s := Do(steps, s, Reload(0));
    steps, s := Do(steps, s, DoAccept(0, Timeout));
    steps, s := Do(steps, s, Test(0));
  }
}
