/** Runs of the listener and the thread that starts and stops it: what can go wrong once a
    join has given up, and that it can from every state it left a live listener in. */
module ListenerRuns {
  import opened Common
  import opened Listener
  import opened ListenerSockets

  /** Steps of a caller who neither starts nor stops, or whose joins succeed. */
  datatype Kind = Quietly | Patiently

  predicate Fits(kind: Kind, step: Step) {
    !step.JoinGivesUp? && (kind == Quietly ==> !step.Start? && !step.Stop?)
  }

  ghost predicate Goes(kind: Kind, s: State, s': State) {
    exists steps :: Runs(s, steps, s') && forall i :: 0 <= i < |steps| ==> Fits(kind, steps[i])
  }

  /** Add one enabled step to a run. */
  lemma {:induction false} RunOn(s: State, steps: seq<Step>, m: State, step: Step)
    requires Runs(s, steps, m) && Enabled(m, step)
    ensures Runs(s, steps + [step], Next(m, step))
    decreases |steps|
  {
    if steps != [] {
      RunOn(Next(s, steps[0]), steps[1..], m, step);
      assert (steps + [step])[1..] == steps[1..] + [step];
    } else {
      assert Runs(Next(s, step), [], Next(m, step));
      assert [step][1..] == [];
    }
  }

  lemma GoesNowhere(kind: Kind, s: State)
    ensures Goes(kind, s, s)
  {
    assert Runs(s, [], s);
  }

  lemma Go(kind: Kind, m: State, s: State, step: Step) returns (s': State)
    requires Goes(kind, m, s) && Kept(s) && Enabled(s, step) && Fits(kind, step)
    ensures s' == Next(s, step) && Goes(kind, m, s') && Kept(s')
  {
    var steps :| Runs(m, steps, s) && forall i :: 0 <= i < |steps| ==> Fits(kind, steps[i]);
    RunOn(m, steps, s, step);
    s' := Next(s, step);
    var more := steps + [step];
    assert forall i :: 0 <= i < |more| ==> Fits(kind, more[i]);
    StepKeeps(s, step);
  }

  // A listener on its way round the loop

  /** Listener i went on, and the others at most served a connection. */
  ghost predicate OnlyMoved(s: State, s': State, i: nat) {
    && s'.control == s.control && s'.stopSet == s.stopSet && s'.thread == s.thread
    && |s'.listeners| == |s.listeners|
    && forall j :: 0 <= j < |s.listeners| && j != i ==>
         s'.listeners[j] == s.listeners[j] || (s.listeners[j] == Spawning && s'.listeners[j] == Top)
  }

  lemma {:induction false} FindSpawning(listeners: seq<Pc>) returns (j: nat)
    requires Count(listeners, HoldsPermit) > 0
    ensures j < |listeners| && listeners[j] == Spawning
  {
    var last := |listeners| - 1;
    if listeners[last].Spawning? {
      j := last;
    } else {
      j := FindSpawning(listeners[..last]);
    }
  }

  lemma MovedOn(s: State, s': State, s'': State, i: nat)
    requires OnlyMoved(s, s', i) && OnlyMoved(s', s'', i)
    ensures OnlyMoved(s, s'', i)
  {
  }

  /** Some listener that holds a permit serves its connection. */
  lemma ServeOne(kind: Kind, m: State, s: State, i: nat) returns (s': State)
    requires Goes(kind, m, s) && Kept(s) && i < |s.listeners| && s.listeners[i] == Acquiring
    requires s.permits == 0 && s.clients == 0
    ensures Goes(kind, m, s') && Kept(s') && s'.clients > 0
    ensures OnlyMoved(s, s', i) && s'.sock == s.sock && s'.open == s.open && s'.listeners[i] == Acquiring
  {
    var j := FindSpawning(s.listeners);
    s' := Go(kind, m, s, Serve(j));
  }

  /** A permit is free, or can be had by serving a connection to its end. */
  lemma FreePermit(kind: Kind, m: State, s: State, i: nat) returns (s': State)
    requires Goes(kind, m, s) && Kept(s) && i < |s.listeners| && s.listeners[i] == Acquiring
    ensures Goes(kind, m, s') && Kept(s') && s'.permits > 0
    ensures OnlyMoved(s, s', i) && s'.sock == s.sock && s'.open == s.open && s'.listeners[i] == Acquiring
  {
    s' := s;
    if s.permits == 0 {
      if s.clients == 0 {
        s' := ServeOne(kind, m, s, i);
      }
      s' := Go(kind, m, s', ClientDone);
    }
  }

  predicate Waits(pc: Pc) { pc.Telling? || pc.TellingFailure? || pc.Sleeping? }

  /** From its reports and its sleep a listener comes to the stored socket or to the top. */
  lemma ToLoad(kind: Kind, m: State, s: State, i: nat) returns (s': State)
    requires Goes(kind, m, s) && Kept(s) && i < |s.listeners| && Waits(s.listeners[i])
    ensures Goes(kind, m, s') && Kept(s') && OnlyMoved(s, s', i) && s'.sock == s.sock && s'.open == s.open
    ensures s'.listeners[i] == Load || s'.listeners[i] == Top
  {
    s' := s;
    if s.listeners[i].Telling? {
      s' := Go(kind, m, s', Tell(i));
    } else {
      if s.listeners[i].TellingFailure? {
        s' := Go(kind, m, s', TellFailure(i));
      }
      s' := Go(kind, m, s', Wake(i));
    }
  }

  /** From there it comes to the top. */
  lemma FromLoad(kind: Kind, m: State, s: State, i: nat) returns (s': State)
    requires Goes(kind, m, s) && Kept(s) && i < |s.listeners|
    requires s.listeners[i] == Load || s.listeners[i].Accepting?
    ensures Goes(kind, m, s') && Kept(s') && OnlyMoved(s, s', i) && s'.sock == s.sock && s'.open == s.open
    ensures s'.listeners[i] == Top
  {
    s' := s;
    if s.listeners[i] == Load {
      s' := Go(kind, m, s', Reload(i));
    }
    if s'.listeners[i].Accepting? {
      s' := Go(kind, m, s', DoAccept(i, Timeout));
    }
  }

  /** With the permit it has, it serves its connection. */
  lemma FromPermit(kind: Kind, m: State, s: State, i: nat) returns (s': State)
    requires Goes(kind, m, s) && Kept(s) && i < |s.listeners| && s.listeners[i] == Spawning
    ensures Goes(kind, m, s') && Kept(s') && OnlyMoved(s, s', i) && s'.sock == s.sock && s'.open == s.open
    ensures s'.listeners[i] == Top
  {
    s' := Go(kind, m, s, Serve(i));
  }

  lemma TakePermit(kind: Kind, m: State, s: State, i: nat) returns (s': State)
    requires Goes(kind, m, s) && Kept(s) && i < |s.listeners| && s.listeners[i] == Acquiring && s.permits > 0
    ensures Goes(kind, m, s') && Kept(s') && OnlyMoved(s, s', i) && s'.sock == s.sock && s'.open == s.open
    ensures s'.listeners[i] == Spawning
  {
    s' := Go(kind, m, s, Acquire(i));
  }

  /** And so it does with a connection that waits for one. */
  lemma FromConnection(kind: Kind, m: State, s: State, i: nat) returns (s': State)
    requires Goes(kind, m, s) && Kept(s) && i < |s.listeners|
    requires s.listeners[i] == Acquiring || s.listeners[i] == Spawning
    ensures Goes(kind, m, s') && Kept(s') && OnlyMoved(s, s', i) && s'.sock == s.sock && s'.open == s.open
    ensures s'.listeners[i] == Top
  {
    if s.listeners[i] == Acquiring {
      var free := FreePermit(kind, m, s, i);
      var taken := TakePermit(kind, m, free, i);
      MovedOn(s, free, taken, i);
      s' := FromPermit(kind, m, taken, i);
      MovedOn(s, taken, s', i);
    } else {
      s' := FromPermit(kind, m, s, i);
    }
  }

  /** Wherever a connection waits, its listener comes to have a permit for it. */
  lemma ToPermit(s: State, i: nat) returns (s': State)
    requires Kept(s) && i < |s.listeners| && HasConnection(s.listeners[i])
    ensures Goes(Quietly, s, s') && i < |s'.listeners| && s'.listeners[i] == Spawning
  {
    GoesNowhere(Quietly, s);
    s' := s;
    if s.listeners[i] == Acquiring {
      s' := FreePermit(Quietly, s, s, i);
      s' := TakePermit(Quietly, s, s', i);
    }
  }

  lemma ServeAtLast(s: State, s': State, i: nat) returns (steps: seq<Step>)
    requires Goes(Quietly, s, s') && Enabled(s', Serve(i))
    ensures Runs(s, steps + [Serve(i)], Next(s', Serve(i))) && Calm(steps) && JoinsSucceed(steps)
  {
    steps :| Runs(s, steps, s') && forall j :: 0 <= j < |steps| ==> Fits(Quietly, steps[j]);
    RunOn(s, steps, s', Serve(i));
  }

  /** And some run without another call serves it. */
  lemma ConnectionIsServed(past: seq<Step>, s: State, i: nat) returns (steps: seq<Step>, s': State)
    requires Runs(Init(), past, s) && i < |s.listeners| && HasConnection(s.listeners[i])
    ensures Runs(s, steps + [Serve(i)], s') && Calm(steps) && JoinsSucceed(steps)
  {
    Reached(past, s);
    var m := ToPermit(s, i);
    steps := ServeAtLast(s, m, i);
    s' := Next(m, Serve(i));
  }

  /** A listener that is not about to bind or store comes to the top, or dies after an error. */
  lemma ToTop(kind: Kind, m: State, s: State, i: nat) returns (s': State)
    requires Goes(kind, m, s) && Kept(s) && i < |s.listeners| && s.listeners[i] != Dead
    requires Hand(s.listeners[i]) == None && s.listeners[i] != Look && s.listeners[i] != Binding
    ensures Goes(kind, m, s') && Kept(s') && OnlyMoved(s, s', i) && s'.sock == s.sock && s'.open == s.open
    ensures s'.listeners[i] == Top || (s.stopSet && s'.listeners[i] == Dead)
  {
    s' := s;
    if Waits(s.listeners[i]) {
      s' := ToLoad(kind, m, s', i);
    }
    if s'.listeners[i] == Load || s'.listeners[i].Accepting? {
      s' := FromLoad(kind, m, s', i);
    } else if s'.listeners[i] == Acquiring || s'.listeners[i] == Spawning {
      s' := FromConnection(kind, m, s', i);
    } else if s'.listeners[i] == AcceptError {
      s' := Go(kind, m, s', TestError(i));
    }
  }

  // Every listener can end after a stop

  /** A listener that looks for a stored socket, or binds one, need not succeed. */
  lemma DoNotBind(m: State, s: State, i: nat) returns (s': State)
    requires Goes(Quietly, m, s) && Kept(s) && i < |s.listeners|
    requires s.listeners[i] == Look || s.listeners[i] == Binding
    ensures Goes(Quietly, m, s') && Kept(s') && OnlyMoved(s, s', i)
    ensures s'.listeners[i] == Load || s'.listeners[i] == TellingFailure
  {
    s' := s;
    if s.listeners[i] == Look {
      s' := Go(Quietly, m, s', LookUp(i));
    }
    if s'.listeners[i] == Binding {
      s' := Go(Quietly, m, s', Bind(i, false));
    }
  }

  /** A listener with a socket in its hands closes it, or stores it. */
  lemma LetGo(m: State, s: State, i: nat) returns (s': State)
    requires Goes(Quietly, m, s) && Kept(s) && s.stopSet && i < |s.listeners| && Hand(s.listeners[i]).Some?
    ensures Goes(Quietly, m, s') && Kept(s') && OnlyMoved(s, s', i)
    ensures s'.listeners[i] == Dead || s'.listeners[i] == Telling
  {
    if s.listeners[i].Bound? {
      s' := Go(Quietly, m, s, TestAgain(i));
    } else {
      s' := Go(Quietly, m, s, Store(i));
    }
  }

  lemma TestAndEnd(m: State, s: State, i: nat) returns (s': State)
    requires Goes(Quietly, m, s) && Kept(s) && s.stopSet && i < |s.listeners| && s.listeners[i] == Top
    ensures Goes(Quietly, m, s') && Kept(s') && OnlyMoved(s, s', i) && s'.listeners[i] == Dead
  {
    s' := Go(Quietly, m, s, Test(i));
  }

  /** One listener ends. */
  lemma ListenerEnds(m: State, s: State, i: nat) returns (s': State)
    requires Goes(Quietly, m, s) && Kept(s) && s.stopSet && i < |s.listeners|
    ensures Goes(Quietly, m, s') && Kept(s') && OnlyMoved(s, s', i) && s'.listeners[i] == Dead
  {
    s' := s;
    if s.listeners[i] == Look || s.listeners[i] == Binding {
      s' := DoNotBind(m, s, i);
    } else if Hand(s.listeners[i]).Some? {
      s' := LetGo(m, s, i);
    }
    if s'.listeners[i] != Dead {
      var top := ToTop(Quietly, m, s', i);
      MovedOn(s, s', top, i);
      s' := top;
      if top.listeners[i] == Top {
        s' := TestAndEnd(m, top, i);
        MovedOn(s, top, s', i);
      }
    }
  }

  lemma {:induction false} ListenersEnd(m: State, s: State, n: nat) returns (s': State)
    requires Goes(Quietly, m, s) && Kept(s) && s.stopSet && n <= |s.listeners|
    requires forall i :: 0 <= i < n ==> s.listeners[i] == Dead
    ensures Goes(Quietly, m, s') && AllDead(s')
    decreases |s.listeners| - n
  {
    s' := s;
    if n < |s.listeners| {
      s' := ListenerEnds(m, s, n);
      s' := ListenersEnd(m, s', n + 1);
    }
  }

  /** After a stop, without a new start, all listeners can come to their end. */
  lemma EveryListenerCanEnd(past: seq<Step>, s: State) returns (steps: seq<Step>, s': State)
    requires Runs(Init(), past, s) && Stopped(s)
    ensures Runs(s, steps, s') && Calm(steps) && AllDead(s')
  {
    Reached(past, s);
    GoesNowhere(Quietly, s);
    s' := s;
    if s.listeners != [] {
      s' := ListenersEnd(s, s, 0);
    }
    steps :| Runs(s, steps, s') && forall i :: 0 <= i < |steps| ==> Fits(Quietly, steps[i]);
  }

  // A live listener and a restart

  /** A listener is about to store over an open socket, which nobody closes any more. */
  predicate Overwrites(s: State, i: nat) { Enabled(s, Store(i)) && s.sock.Some? && IsOpen(s.open, s.sock.value) }

  /** A stop with no thread to join: nothing is stored after it, and no listener has moved. */
  lemma StopAgain(m: State) returns (s: State)
    requires Kept(m) && Stopped(m)
    ensures Goes(Patiently, m, s) && Kept(s) && Stopped(s) && s.sock == None && s.listeners == m.listeners
  {
    GoesNowhere(Patiently, m);
    s := Go(Patiently, m, m, Stop);
    s := Go(Patiently, m, s, Swap);
    if s.control.Closing? {
      s := Go(Patiently, m, s, Close);
    }
    s := Go(Patiently, m, s, TakeThread);
    s := Go(Patiently, m, s, SwapAgain);
    s := Go(Patiently, m, s, ReportStop);
  }

  /** A start: a new listener is at the top, and the stop event is clear. */
  lemma StartAgain(m: State, s: State) returns (s': State)
    requires Goes(Patiently, m, s) && Kept(s) && Stopped(s) && s.sock == None
    ensures Goes(Patiently, m, s') && Kept(s') && !s'.stopSet && s'.sock == None
    ensures s'.listeners == s.listeners + [Top]
  {
    s' := Go(Patiently, m, s, Start);
    s' := Go(Patiently, m, s', ReportStart);
    s' := Go(Patiently, m, s', Spawn);
  }

  /** A listener that is not about to bind goes round and finds nothing stored. */
  lemma ToBinding(m: State, s: State, i: nat) returns (s': State)
    requires Goes(Patiently, m, s) && Kept(s) && !s.stopSet && s.sock == None
    requires i < |s.listeners| && s.listeners[i] != Dead && Hand(s.listeners[i]) == None && s.listeners[i] != Binding
    ensures Goes(Patiently, m, s') && Kept(s') && OnlyMoved(s, s', i) && s'.sock == None
    ensures s'.listeners[i] == Binding
  {
    s' := s;
    if s.listeners[i] != Look {
      s' := ToTop(Patiently, m, s, i);
      s' := TestAndLook(m, s', i);
    }
    s' := LookAndBind(m, s', i);
  }

  lemma TestAndLook(m: State, s: State, i: nat) returns (s': State)
    requires Goes(Patiently, m, s) && Kept(s) && !s.stopSet && i < |s.listeners| && s.listeners[i] == Top
    ensures Goes(Patiently, m, s') && Kept(s') && OnlyMoved(s, s', i) && s'.sock == s.sock
    ensures s'.listeners[i] == Look
  {
    s' := Go(Patiently, m, s, Test(i));
  }

  lemma LookAndBind(m: State, s: State, i: nat) returns (s': State)
    requires Goes(Patiently, m, s) && Kept(s) && s.sock == None && i < |s.listeners| && s.listeners[i] == Look
    ensures Goes(Patiently, m, s') && Kept(s') && OnlyMoved(s, s', i) && s'.sock == s.sock
    ensures s'.listeners[i] == Binding
  {
    s' := Go(Patiently, m, s, LookUp(i));
  }

  /** It binds, finds the stop event clear and is about to store. */
  lemma FromBinding(m: State, s: State, i: nat) returns (s': State)
    requires Goes(Patiently, m, s) && Kept(s) && !s.stopSet && s.sock == None
    requires i < |s.listeners| && (s.listeners[i] == Binding || Hand(s.listeners[i]).Some?)
    ensures Goes(Patiently, m, s') && Kept(s') && OnlyMoved(s, s', i) && s'.sock == None
    ensures s'.listeners[i].Storing?
  {
    s' := s;
    if s.listeners[i] == Binding {
      s' := Go(Patiently, m, s', Bind(i, true));
    }
    if s'.listeners[i].Bound? {
      s' := Go(Patiently, m, s', TestAgain(i));
    }
  }

  /** A listener that finds nothing stored comes to store a socket of its own. */
  lemma ToStoring(m: State, s: State, i: nat) returns (s': State)
    requires Goes(Patiently, m, s) && Kept(s) && !s.stopSet && s.sock == None
    requires i < |s.listeners| && s.listeners[i] != Dead
    ensures Goes(Patiently, m, s') && Kept(s') && OnlyMoved(s, s', i) && s'.sock == None
    ensures s'.listeners[i].Storing?
  {
    if Hand(s.listeners[i]).Some? || s.listeners[i] == Binding {
      s' := FromBinding(m, s, i);
    } else {
      var binding := ToBinding(m, s, i);
      s' := FromBinding(m, binding, i);
      MovedOn(s, binding, s', i);
    }
  }

  /** Two live listeners that find nothing stored: the second comes to overwrite the socket
      of the first. */
  lemma BothStore(m: State, s: State, i: nat, n: nat) returns (s': State)
    requires Goes(Patiently, m, s) && Kept(s) && !s.stopSet && s.sock == None
    requires i < n < |s.listeners| && s.listeners[i] != Dead && s.listeners[n] == Top
    ensures Goes(Patiently, m, s') && Overwrites(s', i)
  {
    s' := ToStoring(m, s, i);
    s' := ToStoring(m, s', n);
    s' := Go(Patiently, m, s', Store(n));
  }

  /** A live listener and a restart: both come to store a socket, and the second overwrites
      the first one's. */
  lemma LiveListenerOverwrites(past: seq<Step>, m: State, i: nat) returns (steps: seq<Step>, s: State)
    requires Runs(Init(), past, m) && Stopped(m) && i < |m.listeners| && m.listeners[i] != Dead
    ensures Runs(m, steps, s) && JoinsSucceed(steps) && Overwrites(s, i)
  {
    Reached(past, m);
    s := StopAgain(m);
    s := StartAgain(m, s);
    s := BothStore(m, s, i, |m.listeners|);
    steps :| Runs(m, steps, s) && forall j :: 0 <= j < |steps| ==> Fits(Patiently, steps[j]);
  }

  /** A restart is safe exactly when no listener is alive: from a stopped state, whatever
      joins gave up before, no run whose joins succeed overwrites an open socket if and only
      if every listener is dead. */
  lemma RestartIsSafe(past: seq<Step>, m: State)
    requires Runs(Init(), past, m) && Stopped(m)
    ensures AllDead(m) <==>
              forall steps, s, i: nat :: Runs(m, steps, s) && JoinsSucceed(steps) ==> !Overwrites(s, i)
  {
    if AllDead(m) {
      forall steps, s, i: nat | Runs(m, steps, s) && JoinsSucceed(steps)
        ensures !Overwrites(s, i)
      {
        NoSocketIsLost(past, m, steps, s);
      }
    } else {
      var i :| 0 <= i < |m.listeners| && m.listeners[i] != Dead;
      var steps, s := LiveListenerOverwrites(past, m, i);
    }
  }

  /** What is overwritten is lost. */
  lemma StoreLoses(s: State, i: nat)
    requires HandsInv(s) && Overwrites(s, i)
    ensures Lost(Next(s, Store(i)), s.sock.value)
  {
    assert Hand(s.listeners[i]) == Some(s.listeners[i].sock);
  }

  // What can go wrong

  lemma Do(past: seq<Step>, s: State, step: Step) returns (more: seq<Step>, s': State)
    requires Runs(Init(), past, s) && Enabled(s, step)
    ensures more == past + [step] && s' == Next(s, step) && Runs(Init(), more, s')
  {
    more, s' := past + [step], Next(s, step);
    RunOn(Init(), past, s, step);
  }

  lemma Started() returns (steps: seq<Step>, s: State)
    ensures Runs(Init(), steps, s)
    ensures s == State(Idle, false, None, Some(0), StartingUp, [], [Look], MAX_CLIENTS, 0, 0, 0)
  {
    steps, s := [], Init();
    assert Runs(Init(), steps, s);
    steps, s := Do(steps, s, Start);
    steps, s := Do(steps, s, ReportStart);
    steps, s := Do(steps, s, Spawn);
    steps, s := Do(steps, s, Test(0));
  }

  lemma AboutToStore() returns (steps: seq<Step>, s: State)
    ensures Runs(Init(), steps, s)
    ensures s == State(Idle, false, None, Some(0), StartingUp, [true], [Storing(0)], MAX_CLIENTS, 0, 0, 0)
  {
    steps, s := Started();
    steps, s := Do(steps, s, LookUp(0));
    steps, s := Do(steps, s, Bind(0, true));
    steps, s := Do(steps, s, TestAgain(0));
  }

  /** A stop whose join gives up on a listener about to store its socket. */
  lemma GivenUp() returns (steps: seq<Step>, s: State)
    ensures Runs(Init(), steps, s)
    ensures s == State(Idle, true, None, None, Off, [true], [Storing(0)], MAX_CLIENTS, 0, 0, 0)
  {
    steps, s := AboutToStore();
    steps, s := Do(steps, s, Stop);
    steps, s := Do(steps, s, Swap);
    steps, s := Do(steps, s, TakeThread);
    steps, s := Do(steps, s, JoinGivesUp);
    steps, s := Do(steps, s, SwapAgain);
    steps, s := Do(steps, s, ReportStop);
  }

  lemma StoredAfterStop() returns (steps: seq<Step>, s: State)
    ensures Runs(Init(), steps, s)
    ensures s == State(Idle, true, Some(0), None, Listening, [true], [Load], MAX_CLIENTS, 0, 0, 0)
  {
    steps, s := GivenUp();
    steps, s := Do(steps, s, Store(0));
    steps, s := Do(steps, s, Tell(0));
  }

  /** A run in which the server is stopped and never started again: the listener stores its
      socket after the stop has returned, reports that it listens, and ends, leaving the
      socket open and the status wrong. */
  lemma ListensAfterStop() returns (steps: seq<Step>, s: State)
    ensures Runs(Init(), steps, s) && Stopped(s) && AllDead(s)
    ensures s.stopSet && s.sock == Some(0) && s.open == [true] && s.status == Listening
  {
    steps, s := StoredAfterStop();
    steps, s := Do(steps, s, Reload(0));
    steps, s := Do(steps, s, DoAccept(0, Timeout));
    steps, s := Do(steps, s, Test(0));
  }

  /** A run in which a join gives up, and after a restart a socket is lost for good. */
  lemma RestartCanLoseSocket() returns (past: seq<Step>, m: State, steps: seq<Step>, s: State, k: nat)
    ensures Runs(Init(), past, m) && Stopped(m) && Runs(m, steps, s) && JoinsSucceed(steps)
    ensures Lost(s, k)
  {
    past, m := GivenUp();
    steps, s := LiveListenerOverwrites(past, m, 0);
    Reached(past, m);
    RunKeeps(m, steps, s);
    k := s.sock.value;
    StoreLoses(s, 0);
    RunOn(m, steps, s, Store(0));
    steps, s := steps + [Store(0)], Next(s, Store(0));
  }

  /** A socket that fails does not end a listener unless it was told to stop. */
  lemma FailureEndsStoppedOnly(s: State, i: nat)
    requires Enabled(s, DoAccept(i, Error))
    ensures var failed := Next(s, DoAccept(i, Error));
            && Enabled(failed, TestError(i))
            && Next(failed, TestError(i)) == Move(s, i, if s.stopSet then Dead else Top)
  {
    assert s.listeners[i := AcceptError][i := Top] == s.listeners[i := Top];
    assert s.listeners[i := AcceptError][i := Dead] == s.listeners[i := Dead];
  }
}
