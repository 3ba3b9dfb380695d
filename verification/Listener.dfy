/** The listener thread of the web server against `start` and `stop`: which sockets it
    binds, who closes them, and the permits of the connections it serves. */
module Listener {
  import opened Common

  const MAX_CLIENTS: nat := 32

  datatype Status = Off | StartingUp | Listening | Failed

  /** Where a listener thread stands. A socket is named by its place in `open`. */
  datatype Pc =
    | Top                    // testing the stop event
    | Look                   // is a socket stored?
    | Binding
    | Bound(sock: nat)       // bound, before the second test of the stop event
    | Storing(sock: nat)
    | Telling                // about to report that it listens
    | TellingFailure         // about to report that it cannot
    | Sleeping               // until the next try
    | Load                   // about to read the stored socket again
    | Accepting(sock: nat)
    | AcceptError
    | Acquiring              // a connection waits for a permit
    | Spawning               // and has it
    | Dead

  /** Where the thread that calls start and stop stands. */
  datatype Control =
    | Idle
    | StartReport | StartSpawn
    | StopSwap | Closing(sock: nat, last: bool) | StopTakeThread | Joining(i: nat)
    | StopSwapAgain | StopReport

  datatype State = State(
    control: Control,
    stopSet: bool,
    sock: Option<nat>,        // the stored socket
    thread: Option<nat>,      // the stored listener thread
    status: Status,
    open: seq<bool>,          // every socket ever bound
    listeners: seq<Pc>,       // every listener thread ever started
    permits: nat,             // free ones
    clients: nat,             // connections being served
    // histories
    accepted: nat,            // connections that came
    served: nat)              // those that a client's thread was started for

  function Init(): State {
    State(Idle, false, None, None, Off, [], [], MAX_CLIENTS, 0, 0, 0)
  }

  datatype Accept = Timeout | Error | Connection

  datatype Step =
    | Start | ReportStart | Spawn
    | Stop | Swap | Close | TakeThread | JoinDone | JoinGivesUp | SwapAgain | ReportStop
    | Test(i: nat) | LookUp(i: nat) | Bind(i: nat, succeeds: bool) | TestAgain(i: nat)
    | Store(i: nat) | Tell(i: nat) | TellFailure(i: nat) | Wake(i: nat) | Reload(i: nat)
    | DoAccept(i: nat, outcome: Accept) | TestError(i: nat) | Acquire(i: nat) | Serve(i: nat)
    | ClientDone

  predicate At(s: State, i: nat, pc: Pc) { i < |s.listeners| && s.listeners[i] == pc }

  predicate Enabled(s: State, step: Step) {
    match step
    case Start => s.control == Idle && s.thread == None   // with a thread, start returns at once
    case ReportStart => s.control == StartReport
    case Spawn => s.control == StartSpawn
    case Stop => s.control == Idle
    case Swap => s.control == StopSwap
    case Close => s.control.Closing? && s.control.sock < |s.open|
    case TakeThread => s.control == StopTakeThread
    case JoinDone => s.control.Joining? && At(s, s.control.i, Dead)
    case JoinGivesUp => s.control.Joining? && !At(s, s.control.i, Dead)
    case SwapAgain => s.control == StopSwapAgain
    case ReportStop => s.control == StopReport
    case Test(i) => At(s, i, Top)
    case LookUp(i) => At(s, i, Look)
    case Bind(i, _) => At(s, i, Binding)
    case TestAgain(i) => i < |s.listeners| && s.listeners[i].Bound? && s.listeners[i].sock < |s.open|
    case Store(i) => i < |s.listeners| && s.listeners[i].Storing?
    case Tell(i) => At(s, i, Telling)
    case TellFailure(i) => At(s, i, TellingFailure)
    case Wake(i) => At(s, i, Sleeping)
    case Reload(i) => At(s, i, Load)
    case DoAccept(i, outcome) =>
      && i < |s.listeners| && s.listeners[i].Accepting? && s.listeners[i].sock < |s.open|
      && (outcome == Connection ==> s.open[s.listeners[i].sock])
    case TestError(i) => At(s, i, AcceptError)
    case Acquire(i) => At(s, i, Acquiring) && s.permits > 0
    case Serve(i) => At(s, i, Spawning)
    case ClientDone => s.clients > 0
  }

  function Move(s: State, i: nat, pc: Pc): State
    requires i < |s.listeners|
  {
    s.(listeners := s.listeners[i := pc])
  }

  /** The swap of _close_socket, taken as one step; the close comes after it. */
  function Swapped(s: State, last: bool): State {
    if s.sock == None then s.(control := if last then StopReport else StopTakeThread)
    else s.(sock := None, control := Closing(s.sock.value, last))
  }

  function Next(s: State, step: Step): State
    requires Enabled(s, step)
  {
    match step
    case Start => s.(stopSet := false, control := StartReport)
    case ReportStart =>
      s.(status := if s.sock == None then StartingUp else s.status, control := StartSpawn)
    case Spawn =>
      s.(thread := Some(|s.listeners|), listeners := s.listeners + [Top], control := Idle)
    case Stop => s.(stopSet := true, control := StopSwap)
    case Swap => Swapped(s, false)
    case Close =>
      s.(open := s.open[s.control.sock := false],
         control := if s.control.last then StopReport else StopTakeThread)
    case TakeThread =>
      s.(thread := None,
         control := if s.thread == None then StopSwapAgain else Joining(s.thread.value))
    case JoinDone => s.(control := StopSwapAgain)
    case JoinGivesUp => s.(control := StopSwapAgain)
    case SwapAgain => Swapped(s, true)
    case ReportStop => s.(status := Off, control := Idle)
    case Test(i) => Move(s, i, if s.stopSet then Dead else Look)
    case LookUp(i) => Move(s, i, if s.sock == None then Binding else Load)
    case Bind(i, succeeds) =>
      if succeeds then Move(s, i, Bound(|s.open|)).(open := s.open + [true])
      else Move(s, i, TellingFailure)
    case TestAgain(i) =>
      var sock := s.listeners[i].sock;
      if s.stopSet then Move(s, i, Dead).(open := s.open[sock := false])
      else Move(s, i, Storing(sock))
    case Store(i) => Move(s, i, Telling).(sock := Some(s.listeners[i].sock))
    case Tell(i) => Move(s, i, Load).(status := Listening)
    case TellFailure(i) => Move(s, i, Sleeping).(status := Failed)
    case Wake(i) => Move(s, i, Top)
    case Reload(i) => Move(s, i, if s.sock == None then Top else Accepting(s.sock.value))
    case DoAccept(i, outcome) =>
      Move(s, i, match outcome
                 case Timeout => Top
                 case Error => AcceptError
                 case Connection => Acquiring).(
        accepted := s.accepted + if outcome == Connection then 1 else 0)
    case TestError(i) => Move(s, i, if s.stopSet then Dead else Top)
    case Acquire(i) => Move(s, i, Spawning).(permits := s.permits - 1)
    case Serve(i) => Move(s, i, Top).(clients := s.clients + 1, served := s.served + 1)
    case ClientDone => s.(clients := s.clients - 1, permits := s.permits + 1)
  }

  ghost predicate Runs(s: State, steps: seq<Step>, s': State)
    decreases |steps|
  {
    if steps == [] then s' == s
    else Enabled(s, steps[0]) && Runs(Next(s, steps[0]), steps[1..], s')
  }

  // Permits

  predicate HoldsPermit(pc: Pc) { pc.Spawning? }

  ghost predicate PermitInv(s: State) {
    s.permits + Count(s.listeners, HoldsPermit) + s.clients == MAX_CLIENTS
  }

  lemma MoveKeepsPermits(s: State, s': State, i: nat)
    requires PermitInv(s) && i < |s.listeners| && |s'.listeners| == |s.listeners|
    requires s'.listeners == s.listeners[i := s'.listeners[i]]
    requires !s.listeners[i].Spawning? && !s'.listeners[i].Spawning?
    requires s'.permits == s.permits && s'.clients == s.clients
    ensures PermitInv(s')
  {
    CountAfterUpdate(s.listeners, HoldsPermit, i, s'.listeners[i]);
  }

  /** At most this many connections are served at a time. */
  lemma NoMoreThan32(steps: seq<Step>, s: State)
    requires Runs(Init(), steps, s)
    ensures s.clients <= 32
  {
    PermitsAreConserved(Init(), steps, s);
  }

  predicate Starts(step: Step) {
    step.Start? || step.ReportStart? || step.Spawn? || step.ClientDone?
  }

  predicate Stops(step: Step) {
    || step.Stop? || step.Swap? || step.Close? || step.TakeThread? || step.JoinDone?
    || step.JoinGivesUp? || step.SwapAgain? || step.ReportStop?
  }

  /** A step of a listener thread. */
  predicate Listens(step: Step) { !Starts(step) && !Stops(step) }

  predicate Binds(step: Step) { step.Bind? || step.TestAgain? || step.Store? }

  lemma SpawnKeepsPermits(s: State)
    requires PermitInv(s) && Enabled(s, Spawn)
    ensures PermitInv(Next(s, Spawn))
  {
    CountAfterAppend(s.listeners, HoldsPermit, Top);
  }

  lemma ControlKeepsPermits(s: State, step: Step)
    requires !Listens(step) && !step.Spawn?
    requires PermitInv(s) && Enabled(s, step)
    ensures PermitInv(Next(s, step))
  {
  }

  lemma ServingKeepsPermits(s: State, step: Step)
    requires step.Acquire? || step.Serve?
    requires PermitInv(s) && Enabled(s, step)
    ensures PermitInv(Next(s, step))
  {
    CountAfterUpdate(s.listeners, HoldsPermit, step.i, if step.Acquire? then Spawning else Top);
  }

  lemma BindingKeepsPermits(s: State, step: Step)
    requires Binds(step)
    requires PermitInv(s) && Enabled(s, step)
    ensures PermitInv(Next(s, step))
  {
    MoveKeepsPermits(s, Next(s, step), step.i);
  }

  lemma LoopKeepsPermits(s: State, step: Step)
    requires Listens(step) && !Binds(step) && !step.Acquire? && !step.Serve?
    requires PermitInv(s) && Enabled(s, step)
    ensures PermitInv(Next(s, step))
  {
    MoveKeepsPermits(s, Next(s, step), step.i);
  }

  lemma StepKeepsPermits(s: State, step: Step)
    requires PermitInv(s) && Enabled(s, step)
    ensures PermitInv(Next(s, step))
  {
    if step.Spawn? {
      SpawnKeepsPermits(s);
    } else if !Listens(step) {
      ControlKeepsPermits(s, step);
    } else if Binds(step) {
      BindingKeepsPermits(s, step);
    } else if step.Acquire? || step.Serve? {
      ServingKeepsPermits(s, step);
    } else {
      LoopKeepsPermits(s, step);
    }
  }

  /** Free permits, those a listener holds and those of served connections always make
      MAX_CLIENTS, even if joins give up and listeners pile up. */
  lemma {:induction false} PermitsAreConserved(s: State, steps: seq<Step>, s': State)
    requires PermitInv(s) && Runs(s, steps, s')
    ensures PermitInv(s')
    decreases |steps|
  {
    if steps != [] {
      StepKeepsPermits(s, steps[0]);
      PermitsAreConserved(Next(s, steps[0]), steps[1..], s');
    }
  }

  // Connections

  /** The listener has a connection that no thread serves yet. */
  predicate HasConnection(pc: Pc) { pc.Acquiring? || pc.Spawning? }

  /** Every connection that came is served or in a listener's hands, and those being served
      are some of the served ones. */
  ghost predicate ConnectionInv(s: State) {
    s.accepted == s.served + Count(s.listeners, HasConnection) && s.clients <= s.served
  }

  lemma ConnectionsMove(s: State, s': State, i: nat)
    requires ConnectionInv(s) && i < |s.listeners| && |s'.listeners| == |s.listeners|
    requires s'.listeners == s.listeners[i := s'.listeners[i]]
    requires s'.accepted - s'.served == s.accepted - s.served - (if HasConnection(s.listeners[i]) then 1 else 0)
                                        + (if HasConnection(s'.listeners[i]) then 1 else 0)
    requires s'.clients <= s'.served
    ensures ConnectionInv(s')
  {
    CountAfterUpdate(s.listeners, HasConnection, i, s'.listeners[i]);
  }

  lemma BindingKeepsConnections(s: State, step: Step)
    requires Binds(step)
    requires ConnectionInv(s) && Enabled(s, step)
    ensures ConnectionInv(Next(s, step))
  {
    ConnectionsMove(s, Next(s, step), step.i);
  }

  lemma LoopKeepsConnections(s: State, step: Step)
    requires Listens(step) && !Binds(step)
    requires ConnectionInv(s) && Enabled(s, step)
    ensures ConnectionInv(Next(s, step))
  {
    ConnectionsMove(s, Next(s, step), step.i);
  }

  lemma ControlKeepsConnections(s: State, step: Step)
    requires !Listens(step) && !step.Spawn?
    requires ConnectionInv(s) && Enabled(s, step)
    ensures ConnectionInv(Next(s, step))
  {
  }

  lemma SpawnKeepsConnections(s: State)
    requires ConnectionInv(s) && Enabled(s, Spawn)
    ensures ConnectionInv(Next(s, Spawn))
  {
    CountAfterAppend(s.listeners, HasConnection, Top);
  }

  lemma {:induction false} RunKeepsConnections(s: State, steps: seq<Step>, s': State)
    requires ConnectionInv(s) && Runs(s, steps, s')
    ensures ConnectionInv(s')
    decreases |steps|
  {
    if steps != [] {
      if Binds(steps[0]) {
        BindingKeepsConnections(s, steps[0]);
      } else if Listens(steps[0]) {
        LoopKeepsConnections(s, steps[0]);
      } else if steps[0].Spawn? {
        SpawnKeepsConnections(s);
      } else {
        ControlKeepsConnections(s, steps[0]);
      }
      RunKeepsConnections(Next(s, steps[0]), steps[1..], s');
    }
  }

  /** In every run no connection is dropped: those that came are those that a thread was
      started for and those a listener still has, one each. */
  lemma ConnectionsAreAccounted(steps: seq<Step>, s: State)
    requires Runs(Init(), steps, s)
    ensures s.accepted == s.served + Count(s.listeners, HasConnection) && s.clients <= s.served
  {
    RunKeepsConnections(Init(), steps, s);
  }

  // Whose hands the sockets are in, however many listeners there are

  /** The socket a listener has bound but not stored. */
  function Hand(pc: Pc): Option<nat> {
    match pc
    case Bound(sock) => Some(sock)
    case Storing(sock) => Some(sock)
    case _ => None
  }

  function BeingClosed(s: State): Option<nat> {
    if s.control.Closing? then Some(s.control.sock) else None
  }

  predicate IsOpen(open: seq<bool>, sock: nat) { sock < |open| && open[sock] }

  /** What listeners hold is open and theirs alone, and so is what is stored. */
  ghost predicate Hands(listeners: seq<Pc>, open: seq<bool>, sock: Option<nat>, closing: Option<nat>) {
    && (forall i :: 0 <= i < |listeners| && Hand(listeners[i]).Some? ==>
          IsOpen(open, Hand(listeners[i]).value) && Hand(listeners[i]) != sock && Hand(listeners[i]) != closing)
    && (forall i, j :: 0 <= i < j < |listeners| && Hand(listeners[i]).Some? ==>
          Hand(listeners[i]) != Hand(listeners[j]))
    && (forall i :: 0 <= i < |listeners| && listeners[i].Accepting? ==> listeners[i].sock < |open|)
    && (sock.Some? ==> IsOpen(open, sock.value) && sock != closing)
    && (closing.Some? ==> closing.value < |open|)
  }

  ghost predicate HandsInv(s: State) { Hands(s.listeners, s.open, s.sock, BeingClosed(s)) }

  /** A listener goes on with what it holds, or with nothing. */
  lemma MoveKeepsHands(s: State, s': State, i: nat)
    requires HandsInv(s) && i < |s.listeners| && |s'.listeners| == |s.listeners|
    requires s'.listeners == s.listeners[i := s'.listeners[i]]
    requires Hand(s'.listeners[i]).Some? ==> Hand(s'.listeners[i]) == Hand(s.listeners[i])
    requires s'.listeners[i].Accepting? ==> s'.listeners[i].sock < |s.open|
    requires s'.open == s.open && s'.sock == s.sock && s'.control == s.control
    ensures HandsInv(s')
  {
  }

  lemma LoopKeepsHands(s: State, step: Step)
    requires Listens(step) && !Binds(step)
    requires HandsInv(s) && Enabled(s, step)
    ensures HandsInv(Next(s, step))
  {
    MoveKeepsHands(s, Next(s, step), step.i);
  }

  lemma BindKeepsHands(s: State, i: nat, succeeds: bool)
    requires HandsInv(s) && Enabled(s, Bind(i, succeeds))
    ensures HandsInv(Next(s, Bind(i, succeeds)))
  {
  }

  lemma TestAgainKeepsHands(s: State, i: nat)
    requires HandsInv(s) && Enabled(s, TestAgain(i))
    ensures HandsInv(Next(s, TestAgain(i)))
  {
  }

  lemma StoreKeepsHands(s: State, i: nat)
    requires HandsInv(s) && Enabled(s, Store(i))
    ensures HandsInv(Next(s, Store(i)))
  {
    assert Hand(s.listeners[i]) == Some(s.listeners[i].sock);
  }

  lemma StartsKeepHands(s: State, step: Step)
    requires Starts(step)
    requires HandsInv(s) && Enabled(s, step)
    ensures HandsInv(Next(s, step))
  {
  }

  lemma CloseKeepsHands(s: State)
    requires HandsInv(s) && Enabled(s, Close)
    ensures HandsInv(Next(s, Close))
  {
  }

  lemma StopsKeepHands(s: State, step: Step)
    requires Stops(step) && !step.Close?
    requires HandsInv(s) && Enabled(s, step)
    ensures HandsInv(Next(s, step))
  {
  }

  lemma StepKeepsHands(s: State, step: Step)
    requires HandsInv(s) && Enabled(s, step)
    ensures HandsInv(Next(s, step))
  {
    if Starts(step) {
      StartsKeepHands(s, step);
    } else if step.Close? {
      CloseKeepsHands(s);
    } else if Stops(step) {
      StopsKeepHands(s, step);
    } else if step.Bind? {
      BindKeepsHands(s, step.i, step.succeeds);
    } else if step.TestAgain? {
      TestAgainKeepsHands(s, step.i);
    } else if step.Store? {
      StoreKeepsHands(s, step.i);
    } else {
      LoopKeepsHands(s, step);
    }
  }

  // Where the thread of start and stop stands

  /** Between a stop and the next start the stop event is set, and no thread is stored
      while one is being started or has been taken. */
  predicate ControlInv(s: State) {
    match s.control
    case Idle => s.thread == None ==> s.stopSet || s.listeners == []
    case StartReport => s.thread == None
    case StartSpawn => s.thread == None
    case Joining(_) => s.thread == None && s.stopSet
    case StopSwapAgain => s.thread == None && s.stopSet
    case Closing(_, last) => s.stopSet && (last ==> s.thread == None)
    case StopReport => s.thread == None && s.stopSet
    case _ => s.stopSet
  }

  lemma StepKeepsControl(s: State, step: Step)
    requires ControlInv(s) && Enabled(s, step)
    ensures ControlInv(Next(s, step))
  {
  }

  // What every run keeps

  ghost predicate Kept(s: State) { PermitInv(s) && HandsInv(s) && ControlInv(s) }

  lemma StepKeeps(s: State, step: Step)
    requires Kept(s) && Enabled(s, step)
    ensures Kept(Next(s, step))
  {
    StepKeepsPermits(s, step);
    StepKeepsHands(s, step);
    StepKeepsControl(s, step);
  }

  lemma {:induction false} RunKeeps(s: State, steps: seq<Step>, s': State)
    requires Kept(s) && Runs(s, steps, s')
    ensures Kept(s')
    decreases |steps|
  {
    if steps != [] {
      StepKeeps(s, steps[0]);
      RunKeeps(Next(s, steps[0]), steps[1..], s');
    }
  }

  lemma Reached(steps: seq<Step>, s: State)
    requires Runs(Init(), steps, s)
    ensures Kept(s)
  {
    RunKeeps(Init(), steps, s);
  }
}
