/** What becomes of the listener's sockets, as long as the joins of `stop` succeed, and when
    one gives up. */
module ListenerSockets {
  import opened Common
  import opened Listener

  /** Neither start nor stop is under way, and no thread is stored. */
  predicate Stopped(s: State) { s.control == Idle && s.thread == None }

  predicate AllDead(s: State) { forall i :: 0 <= i < |s.listeners| ==> s.listeners[i] == Dead }

  predicate AllClosed(s: State) { forall k :: 0 <= k < |s.open| ==> !s.open[k] }

  /** Every join of these steps succeeds. */
  predicate JoinsSucceed(steps: seq<Step>) {
    forall i :: 0 <= i < |steps| ==> !steps[i].JoinGivesUp?
  }

  // One listener

  /** The listener that may be alive as long as every join succeeds. */
  function Current(s: State): Option<nat> {
    match s.control
    case Joining(i) => Some(i)
    case StopSwapAgain => None
    case Closing(_, last) => if last then None else s.thread
    case StopReport => None
    case _ => s.thread
  }

  function CurrentPc(s: State): Pc {
    var i := Current(s);
    if i.Some? && i.value < |s.listeners| then s.listeners[i.value] else Dead
  }

  function InHand(s: State): Option<nat> { Hand(CurrentPc(s)) }

  ghost predicate OneListener(s: State) {
    forall i: nat :: i < |s.listeners| && s.listeners[i] != Dead ==> Current(s) == Some(i)
  }

  /** Every open socket is stored, about to be closed, in the listener's hands, or was lost
      before; and nothing is stored while the listener has one to store. */
  ghost predicate SocketsKept(s: State, lost: set<nat>) {
    && (forall k: nat :: IsOpen(s.open, k) ==>
          k in lost || s.sock == Some(k) || BeingClosed(s) == Some(k) || InHand(s) == Some(k))
    && (InHand(s).Some? || CurrentPc(s) == Binding ==> s.sock == None)
  }

  /** After the second swap of a stop nothing is stored, and when the thread that calls
      start and stop is idle without a thread, then either a stop is over or nothing has
      happened since `since`. */
  ghost predicate StopKept(s: State, since: State) {
    match s.control
    case Idle =>
      s.thread == None ==>
        || (s.sock == None && s.status == Off)
        || (s.sock == since.sock && s.status == since.status && s.open == since.open)
    case Closing(_, last) => last ==> s.thread == None && s.sock == None
    case StopReport => s.thread == None && s.sock == None
    case _ => true
  }

  ghost predicate SocketInv(s: State, lost: set<nat>, since: State) {
    HandsInv(s) && ControlInv(s) && OneListener(s) && SocketsKept(s, lost) && StopKept(s, since)
  }

  lemma StartsKeepListener(s: State, step: Step)
    requires Starts(step)
    requires OneListener(s) && ControlInv(s) && Enabled(s, step)
    ensures OneListener(Next(s, step))
  {
  }

  lemma StartsKeepSockets(s: State, step: Step, lost: set<nat>)
    requires Starts(step)
    requires OneListener(s) && ControlInv(s) && SocketsKept(s, lost) && Enabled(s, step)
    ensures SocketsKept(Next(s, step), lost)
  {
  }

  lemma StopsKeepListener(s: State, step: Step)
    requires Stops(step) && !step.JoinGivesUp?
    requires OneListener(s) && ControlInv(s) && Enabled(s, step)
    ensures OneListener(Next(s, step))
  {
  }

  lemma SocketsUnmoved(s: State, s': State, lost: set<nat>)
    requires SocketsKept(s, lost) && s'.open == s.open && s'.sock == s.sock
    requires BeingClosed(s') == BeingClosed(s) && InHand(s') == InHand(s)
    requires CurrentPc(s') == Binding ==> s.sock == None
    ensures SocketsKept(s', lost)
  {
  }

  lemma SwapKeepsSockets(s: State, step: Step, lost: set<nat>)
    requires step.Swap? || step.SwapAgain?
    requires OneListener(s) && ControlInv(s) && SocketsKept(s, lost) && Enabled(s, step)
    ensures SocketsKept(Next(s, step), lost)
  {
    assert step.SwapAgain? ==> CurrentPc(s) == Dead;
    assert CurrentPc(Next(s, step)) == CurrentPc(s);
  }

  lemma CloseKeepsSockets(s: State, lost: set<nat>)
    requires HandsInv(s) && ControlInv(s) && SocketsKept(s, lost) && Enabled(s, Close)
    ensures SocketsKept(Next(s, Close), lost)
  {
    assert CurrentPc(Next(s, Close)) == CurrentPc(s);
  }

  lemma StopsKeepSockets(s: State, step: Step, lost: set<nat>)
    requires Stops(step) && !step.JoinGivesUp?
    requires HandsInv(s) && ControlInv(s) && OneListener(s) && SocketsKept(s, lost) && Enabled(s, step)
    ensures SocketsKept(Next(s, step), lost)
  {
    if step.Swap? || step.SwapAgain? {
      SwapKeepsSockets(s, step, lost);
    } else if step.Close? {
      CloseKeepsSockets(s, lost);
    } else {
      assert CurrentPc(Next(s, step)) == CurrentPc(s);
      SocketsUnmoved(s, Next(s, step), lost);
    }
  }

  /** A step of listener i leaves the thread of start and stop alone, and i is the one. */
  predicate IsCurrent(s: State, s': State, i: nat) {
    && Current(s) == Some(i) == Current(s') && i < |s.listeners| && |s'.listeners| == |s.listeners|
    && s'.listeners == s.listeners[i := s'.listeners[i]]
    && s'.control == s.control && s'.thread == s.thread
  }

  lemma ListenerIsCurrent(s: State, step: Step)
    requires Listens(step)
    requires OneListener(s) && Enabled(s, step)
    ensures IsCurrent(s, Next(s, step), step.i)
  {
  }

  lemma ListenerKeepsListener(s: State, step: Step)
    requires Listens(step)
    requires OneListener(s) && Enabled(s, step)
    ensures OneListener(Next(s, step))
  {
    ListenerIsCurrent(s, step);
  }

  lemma BindKeepsSockets(s: State, i: nat, succeeds: bool, lost: set<nat>)
    requires SocketsKept(s, lost) && Enabled(s, Bind(i, succeeds)) && Current(s) == Some(i)
    ensures SocketsKept(Next(s, Bind(i, succeeds)), lost)
  {
    assert CurrentPc(s) == Binding && InHand(s) == None;
  }

  lemma TestAgainKeepsSockets(s: State, i: nat, lost: set<nat>)
    requires SocketsKept(s, lost) && Enabled(s, TestAgain(i)) && Current(s) == Some(i)
    ensures SocketsKept(Next(s, TestAgain(i)), lost)
  {
    assert InHand(s) == Some(s.listeners[i].sock);
  }

  lemma StoreKeepsSockets(s: State, i: nat, lost: set<nat>)
    requires SocketsKept(s, lost) && Enabled(s, Store(i)) && Current(s) == Some(i)
    ensures SocketsKept(Next(s, Store(i)), lost)
  {
    assert InHand(s) == Some(s.listeners[i].sock);
    assert InHand(Next(s, Store(i))) == None;
  }

  lemma LoopKeepsSockets(s: State, step: Step, lost: set<nat>)
    requires Listens(step) && !Binds(step)
    requires SocketsKept(s, lost) && Enabled(s, step) && IsCurrent(s, Next(s, step), step.i)
    ensures SocketsKept(Next(s, step), lost)
  {
    SocketsUnmoved(s, Next(s, step), lost);
  }

  lemma ListenerKeepsSockets(s: State, step: Step, lost: set<nat>)
    requires Listens(step)
    requires OneListener(s) && SocketsKept(s, lost) && Enabled(s, step)
    ensures SocketsKept(Next(s, step), lost)
  {
    ListenerIsCurrent(s, step);
    if step.Bind? {
      BindKeepsSockets(s, step.i, step.succeeds, lost);
    } else if step.TestAgain? {
      TestAgainKeepsSockets(s, step.i, lost);
    } else if step.Store? {
      StoreKeepsSockets(s, step.i, lost);
    } else {
      LoopKeepsSockets(s, step, lost);
    }
  }

  lemma ListenerKeepsStop(s: State, step: Step, since: State)
    requires Listens(step)
    requires OneListener(s) && StopKept(s, since) && Enabled(s, step)
    ensures StopKept(Next(s, step), since)
  {
    ListenerIsCurrent(s, step);
  }

  lemma ControlKeepsStop(s: State, step: Step, since: State)
    requires !Listens(step) && !step.JoinGivesUp?
    requires ControlInv(s) && StopKept(s, since) && Enabled(s, step)
    ensures StopKept(Next(s, step), since)
  {
  }

  lemma StepKeepsSockets(s: State, step: Step, lost: set<nat>, since: State)
    requires SocketInv(s, lost, since) && Enabled(s, step) && !step.JoinGivesUp?
    ensures SocketInv(Next(s, step), lost, since)
  {
    StepKeepsHands(s, step);
    StepKeepsControl(s, step);
    if Starts(step) {
      StartsKeepListener(s, step);
      StartsKeepSockets(s, step, lost);
      ControlKeepsStop(s, step, since);
    } else if Stops(step) {
      StopsKeepListener(s, step);
      StopsKeepSockets(s, step, lost);
      ControlKeepsStop(s, step, since);
    } else {
      ListenerKeepsListener(s, step);
      ListenerKeepsSockets(s, step, lost);
      ListenerKeepsStop(s, step, since);
    }
  }

  lemma {:induction false} RunKeepsSockets(s: State, steps: seq<Step>, s': State, lost: set<nat>, since: State)
    requires SocketInv(s, lost, since) && Runs(s, steps, s') && JoinsSucceed(steps)
    ensures SocketInv(s', lost, since)
    decreases |steps|
  {
    if steps != [] {
      StepKeepsSockets(s, steps[0], lost, since);
      RunKeepsSockets(Next(s, steps[0]), steps[1..], s', lost, since);
    }
  }

  /** The open sockets that are not stored when no listener is alive. */
  function LostBefore(s: State): set<nat> { set k: nat | k < |s.open| && s.open[k] && s.sock != Some(k) }

  lemma StoppedIsKept(s: State)
    requires HandsInv(s) && ControlInv(s) && Stopped(s) && AllDead(s)
    ensures SocketInv(s, LostBefore(s), s)
  {
    assert CurrentPc(s) == Dead;
  }

  lemma KeptSince(past: seq<Step>, m: State, steps: seq<Step>, s: State)
    requires Runs(Init(), past, m) && Stopped(m) && AllDead(m)
    requires Runs(m, steps, s) && JoinsSucceed(steps)
    ensures SocketInv(s, LostBefore(m), m)
  {
    Reached(past, m);
    StoppedIsKept(m);
    RunKeepsSockets(m, steps, s, LostBefore(m), m);
  }

  /** From any stopped state without a live listener, whatever joins gave up before: as long
      as joins succeed no bound socket is lost, for each open one is stored, about to be
      closed or in the hands of the one listener, and that one finds the place it stores it
      in empty. */
  lemma NoSocketIsLost(past: seq<Step>, m: State, steps: seq<Step>, s: State)
    requires Runs(Init(), past, m) && Stopped(m) && AllDead(m)
    requires Runs(m, steps, s) && JoinsSucceed(steps)
    ensures forall k: nat :: IsOpen(s.open, k) ==>
              k in LostBefore(m) || s.sock == Some(k) || BeingClosed(s) == Some(k) || InHand(s) == Some(k)
    ensures forall i: nat :: Enabled(s, Store(i)) ==> s.sock == None
  {
    KeptSince(past, m, steps, s);
    forall i: nat | Enabled(s, Store(i))
      ensures s.sock == None
    {
      PlaceIsEmpty(s, i, LostBefore(m));
    }
  }

  lemma PlaceIsEmpty(s: State, i: nat, lost: set<nat>)
    requires OneListener(s) && SocketsKept(s, lost) && Enabled(s, Store(i))
    ensures s.sock == None
  {
    assert Current(s) == Some(i);
    assert InHand(s) == Some(s.listeners[i].sock);
  }

  /** When such a stop reports, no listener is alive, nothing is stored, and every socket is
      closed but those lost before. */
  lemma StopClosesEverything(past: seq<Step>, m: State, steps: seq<Step>, s: State)
    requires Runs(Init(), past, m) && Stopped(m) && AllDead(m)
    requires Runs(m, steps, s) && JoinsSucceed(steps) && s.control == StopReport
    ensures var s' := Next(s, ReportStop);
            && Stopped(s') && AllDead(s') && s'.sock == None && s'.status == Off
            && forall k: nat :: IsOpen(s'.open, k) ==> k in LostBefore(m)
  {
    KeptSince(past, m, steps, s);
    assert CurrentPc(s) == Dead;
  }

  /** And it stays so until the next start. */
  lemma StoppedStaysClosed(past: seq<Step>, m: State, steps: seq<Step>, s: State)
    requires Runs(Init(), past, m) && Stopped(m) && AllDead(m)
    requires Runs(m, steps, s) && JoinsSucceed(steps) && Stopped(s)
    ensures AllDead(s)
    ensures || (s.sock == None && s.status == Off && forall k: nat :: IsOpen(s.open, k) ==> k in LostBefore(m))
            || (s.sock == m.sock && s.status == m.status && s.open == m.open)
  {
    KeptSince(past, m, steps, s);
    assert CurrentPc(s) == Dead;
  }

  // A lost socket, and how a stop ends when its join gave up

  /** Neither start nor stop is called. */
  predicate Calm(steps: seq<Step>) {
    forall i :: 0 <= i < |steps| ==> !steps[i].Start? && !steps[i].Stop?
  }

  /** Socket k is open, and neither stored, nor about to be closed, nor in a listener's hands. */
  ghost predicate Lost(s: State, k: nat) {
    && IsOpen(s.open, k) && s.sock != Some(k) && BeingClosed(s) != Some(k)
    && forall i :: 0 <= i < |s.listeners| ==> Hand(s.listeners[i]) != Some(k)
  }

  ghost predicate NoneLost(s: State) { forall k: nat :: !Lost(s, k) }

  /** Nothing is stored, and no listener is about to store anything. */
  predicate NothingStored(s: State) {
    s.sock == None && forall i :: 0 <= i < |s.listeners| ==> !s.listeners[i].Storing?
  }

  /** Every open socket is one that its listener will close when it tests the stop event. */
  ghost predicate WillClose(s: State) {
    && s.control == Idle && (s.stopSet || s.listeners == []) && NothingStored(s)
    && forall k: nat :: IsOpen(s.open, k) ==> exists i :: 0 <= i < |s.listeners| && s.listeners[i] == Bound(k)
  }

  /** Socket k is open and no listener will test the stop event with it in hand. */
  ghost predicate StaysOpen(s: State, k: nat) {
    s.control == Idle && IsOpen(s.open, k) && forall i :: 0 <= i < |s.listeners| ==> s.listeners[i] != Bound(k)
  }

  lemma CalmStep(s: State, step: Step)
    requires s.control == Idle && Enabled(s, step) && !step.Start? && !step.Stop?
    ensures Next(s, step).control == Idle && (Listens(step) || step.ClientDone?)
    ensures Next(s, step).stopSet == s.stopSet && |Next(s, step).listeners| == |s.listeners|
  {
  }

  /** Bound(k) is still where it was, unless listener i had it. */
  lemma OthersStillBound(s: State, s': State, i: nat)
    requires i < |s.listeners| && |s'.listeners| == |s.listeners|
    requires s'.listeners == s.listeners[i := s'.listeners[i]]
    requires forall k: nat :: IsOpen(s.open, k) ==> exists j :: 0 <= j < |s.listeners| && s.listeners[j] == Bound(k)
    ensures forall k: nat :: IsOpen(s.open, k) && s.listeners[i] != Bound(k) ==>
              exists j :: 0 <= j < |s'.listeners| && s'.listeners[j] == Bound(k)
  {
    forall k: nat | IsOpen(s.open, k) && s.listeners[i] != Bound(k)
      ensures exists j :: 0 <= j < |s'.listeners| && s'.listeners[j] == Bound(k)
    {
      var j :| 0 <= j < |s.listeners| && s.listeners[j] == Bound(k);
      assert s'.listeners[j] == Bound(k);
    }
  }

  lemma CalmKeepsWillClose(s: State, step: Step)
    requires WillClose(s) && Enabled(s, step) && !step.Start? && !step.Stop?
    ensures WillClose(Next(s, step))
  {
    CalmStep(s, step);
    var s' := Next(s, step);
    if Listens(step) {
      OthersStillBound(s, s', step.i);
      if step.Bind? && step.succeeds {
        assert s'.listeners[step.i] == Bound(|s.open|);
        assert forall k: nat :: IsOpen(s'.open, k) ==> IsOpen(s.open, k) || k == |s.open|;
      }
    }
  }

  lemma CalmKeepsOpen(s: State, step: Step, k: nat)
    requires StaysOpen(s, k) && Enabled(s, step) && !step.Start? && !step.Stop?
    ensures StaysOpen(Next(s, step), k)
  {
    CalmStep(s, step);
  }

  lemma {:induction false} RunKeepsWillClose(s: State, steps: seq<Step>, s': State)
    requires WillClose(s) && Runs(s, steps, s') && Calm(steps)
    ensures WillClose(s')
    decreases |steps|
  {
    if steps != [] {
      CalmKeepsWillClose(s, steps[0]);
      RunKeepsWillClose(Next(s, steps[0]), steps[1..], s');
    }
  }

  lemma {:induction false} RunKeepsOpen(s: State, steps: seq<Step>, s': State, k: nat)
    requires StaysOpen(s, k) && Runs(s, steps, s') && Calm(steps)
    ensures StaysOpen(s', k)
    decreases |steps|
  {
    if steps != [] {
      CalmKeepsOpen(s, steps[0], k);
      RunKeepsOpen(Next(s, steps[0]), steps[1..], s', k);
    }
  }

  /** A socket that is stored, about to be stored, or lost stays open. */
  lemma SomethingStaysOpen(s: State) returns (k: nat)
    requires HandsInv(s) && s.control == Idle && !(NothingStored(s) && NoneLost(s))
    ensures StaysOpen(s, k)
  {
    if s.sock.Some? {
      k := s.sock.value;
      assert forall i :: 0 <= i < |s.listeners| ==> Hand(s.listeners[i]) != Some(k);
    } else if i :| 0 <= i < |s.listeners| && s.listeners[i].Storing? {
      k := s.listeners[i].sock;
      assert Hand(s.listeners[i]) == Some(k);
      assert forall j :: 0 <= j < |s.listeners| && j != i ==> Hand(s.listeners[j]) != Some(k);
    } else {
      k :| Lost(s, k);
    }
    assert forall i :: 0 <= i < |s.listeners| && s.listeners[i] == Bound(k) ==> Hand(s.listeners[i]) == Some(k);
  }

  /** After a stop, whether its join succeeded or gave up, and until the next start: once
      every listener is dead every socket is closed if and only if, when the stop returned,
      nothing was stored, no listener was about to store a socket, and none was lost before. */
  lemma HowStopEnds(past: seq<Step>, s: State, steps: seq<Step>, s': State)
    requires Runs(Init(), past, s) && Stopped(s)
    requires Runs(s, steps, s') && Calm(steps) && AllDead(s')
    ensures AllClosed(s') <==> NothingStored(s) && NoneLost(s)
  {
    Reached(past, s);
    if NothingStored(s) && NoneLost(s) {
      AllAreBound(s);
      RunKeepsWillClose(s, steps, s');
      DeadHoldNothing(s');
    } else {
      var k := SomethingStaysOpen(s);
      RunKeepsOpen(s, steps, s', k);
      assert s'.open[k];
    }
  }

  lemma AllAreBound(s: State)
    requires Stopped(s) && ControlInv(s) && NothingStored(s) && NoneLost(s)
    ensures WillClose(s)
  {
    forall k: nat | IsOpen(s.open, k)
      ensures exists i :: 0 <= i < |s.listeners| && s.listeners[i] == Bound(k)
    {
      assert !Lost(s, k);
      var i :| 0 <= i < |s.listeners| && Hand(s.listeners[i]) == Some(k);
      assert s.listeners[i] == Bound(k);
    }
  }

  lemma DeadHoldNothing(s: State)
    requires WillClose(s) && AllDead(s)
    ensures AllClosed(s)
  {
    forall k: nat | k < |s.open|
      ensures !s.open[k]
    {
      if s.open[k] {
        assert IsOpen(s.open, k);
      }
    }
  }

  lemma StepKeepsLost(s: State, step: Step, k: nat)
    requires Lost(s, k) && Enabled(s, step)
    ensures Lost(Next(s, step), k)
  {
    if Listens(step) {
      ListenerKeepsLost(s, step, k);
    }
  }

  lemma ListenerKeepsLost(s: State, step: Step, k: nat)
    requires Listens(step) && Lost(s, k) && Enabled(s, step)
    ensures Lost(Next(s, step), k)
  {
    if Binds(step) {
      BindingKeepsLost(s, step, k);
    } else {
      LoopKeepsLost(s, step, k);
    }
  }

  lemma BindingKeepsLost(s: State, step: Step, k: nat)
    requires Binds(step) && Lost(s, k) && Enabled(s, step)
    ensures Lost(Next(s, step), k)
  {
    assert Hand(s.listeners[step.i]) != Some(k);
  }

  lemma LoopKeepsLost(s: State, step: Step, k: nat)
    requires Listens(step) && !Binds(step) && Lost(s, k) && Enabled(s, step)
    ensures Lost(Next(s, step), k)
  {
  }

  /** A socket once lost stays open for good, whatever starts and stops follow. */
  lemma {:induction false} LostForGood(s: State, steps: seq<Step>, s': State, k: nat)
    requires Lost(s, k) && Runs(s, steps, s')
    ensures Lost(s', k)
    decreases |steps|
  {
    if steps != [] {
      StepKeepsLost(s, steps[0], k);
      LostForGood(Next(s, steps[0]), steps[1..], s', k);
    }
  }
}
