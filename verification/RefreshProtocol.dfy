/** The request and refresh protocol of the built-in AnkiConnect service.
    Request threads take one lock, run their actions and note what they changed;
    the main thread runs posted closures and timers and tells the screens.
    Every access to shared state is one step, so a run is any interleaving. */
module RefreshProtocol {

  /** What the decorator of a leaf action says: the names the screens refresh for,
      whether it has a `preserve` wrapper, whether it runs on the main thread, and how
      many closures its body hands to the main thread when it does not. */
  datatype Op = Op(changes: set<string>, wrapped: bool, onMain: bool, mainCalls: nat)

  /** A change that is refreshed for on its own. */
  predicate Alone(op: Op) { op.changes != {} && !op.wrapped }

  /** `Refused` fails before it acts (key, unknown action). `Malformed` is not an
      object: it raises out of its handler and ends the `multi` around it. */
  datatype Request = Leaf(op: Op) | Multi(subs: seq<Request>) | Refused | Malformed

  /** Where a request thread stands. */
  datatype Pc =
    | Waiting                               // before taking the request lock
    | Handling                              // in the handler, between two leaf actions
    | RefreshCheck(op: Op, after: bool)     // refresh_now, before or after the action
    | RefreshPost(op: Op, after: bool)      // about to post refresh_screens
    | RefreshWait(op: Op, after: bool)      // parked until it ran
    | Starting(op: Op)
    | Acting(op: Op, calls: nat)            // the action runs on this thread
    | CallWait(op: Op, calls: nat)          // parked in a run_on_main of the action
    | ActWait(op: Op)                       // parked while the action runs on main
    | Noting(op: Op)                        // in the finally clause
    | NotePost(op: Op)                      // about to post _schedule_refresh
    | Finished

  /** `frames` is the stack of request lists still to handle, innermost `multi` first. */
  datatype Thread = Thread(pc: Pc, frames: seq<seq<Request>>)

  datatype Lock = Free | Timer | Held(t: nat)

  datatype Closure = RunAction(t: nat) | RunCall(t: nat) | RunRefresh(t: nat)

  /** What the main thread is in the middle of. `holder` is who holds the request lock. */
  datatype MainFrame =
    | InAction(t: nat)
    | InCall(t: nat)
    | Swapping(holder: Lock)
    | Delivering(holder: Lock, names: set<string>, sources: seq<Source>)
    | InHooks(holder: Lock)

  datatype Pending = Pending(names: set<string>, scheduled: bool)

  /** One action's changes. Histories are written by the steps and never read. */
  datatype Source = Source(changes: set<string>, wrapped: bool)
  datatype Delivery = Delivery(holder: Lock, names: set<string>, sources: seq<Source>)

  datatype State = State(
    threads: seq<Thread>,
    lock: Lock,
    pending: Pending,
    closures: seq<Closure>,        // posted by run_on_main, any of them may run next
    schedules: nat,                // posted _schedule_refresh closures
    timers: nat,                   // armed _refresh_from_timer timers
    main: seq<MainFrame>,          // innermost first: a nested event loop adds a frame
    // histories
    requests: seq<Request>,        // thread t's request
    order: seq<nat>,               // threads in the order they took the lock
    performed: seq<Source>,        // the changes of all actions that ended
    noted: seq<Source>,            // all executed note_changes
    sources: seq<Source>,          // the notes behind pending.names
    deliveries: seq<Delivery>,     // all calls of the screens' hooks
    idleSwaps: nat)                // timers that found nothing to tell

  function Init(): State {
    State([], Free, NOTHING_PENDING, [], 0, 0, [], [], [], [], [], [], [], 0)
  }

  /** What an action leaves to be refreshed for. */
  function SourceOf(op: Op): seq<Source> {
    if op.changes == {} then [] else [Source(op.changes, op.wrapped)]
  }

  // The critical sections of the pending lock

  function AfterNote(p: Pending, names: set<string>): Pending { Pending(p.names + names, true) }

  const NOTHING_PENDING := Pending({}, false)

  /** The service's `_PendingChanges`, as its three critical sections change it. */
  class PendingChanges {
    var names: set<string>
    var scheduled: bool

    ghost function View(): Pending reads this { Pending(names, scheduled) }

    constructor ()
      ensures View() == NOTHING_PENDING
    {
      names, scheduled := {}, false;
    }

    /** note_changes: true when the caller must post _schedule_refresh. */
    method Note(changes: set<string>) returns (post: bool)
      modifies this
      ensures View() == AfterNote(old(View()), changes)
      ensures post == !old(scheduled)
    {
      names := names + changes;
      if scheduled {
        return false;
      }
      scheduled := true;
      return true;
    }

    /** refresh_now: whether there is anything to refresh for. */
    method HasNames() returns (any: bool)
      ensures any == (View().names != {})
    {
      any := names != {};
    }

    /** refresh_screens: take everything. */
    method Take() returns (taken: set<string>)
      modifies this
      ensures taken == old(names) && View() == NOTHING_PENDING
    {
      taken, names := names, {};
      scheduled := false;
    }
  }

  // Steps

  datatype Step =
    // a request thread
    | Arrive(request: Request)
    | Acquire(t: nat)
    | Dispatch(t: nat)
    | Check(t: nat)
    | PostRefresh(t: nat)
    | Begin(t: nat)
    | CallMain(t: nat)
    | EndAction(t: nat)
    | Note(t: nat)
    | PostSchedule(t: nat)
    // the main thread
    | RunClosure(i: nat)
    | RunSchedule
    | Fire
    | EndOnMain
    | Swap
    | Deliver
    | Return

  /** The event loop can run: nothing is on the main thread, or code that may open a
      nested event loop (a dialog, a progress window). */
  predicate CanSpin(s: State) {
    s.main == [] || s.main[0].InAction? || s.main[0].InCall? || s.main[0].InHooks?
  }

  predicate Enabled(s: State, step: Step) {
    match step
    case Arrive(_) => true
    case Acquire(t) => t < |s.threads| && s.threads[t].pc.Waiting? && s.lock == Free
    case Dispatch(t) => t < |s.threads| && s.threads[t].pc.Handling?
    case Check(t) => t < |s.threads| && s.threads[t].pc.RefreshCheck?
    case PostRefresh(t) => t < |s.threads| && s.threads[t].pc.RefreshPost?
    case Begin(t) => t < |s.threads| && s.threads[t].pc.Starting?
    case CallMain(t) => t < |s.threads| && s.threads[t].pc.Acting? && s.threads[t].pc.calls > 0
    case EndAction(t) => t < |s.threads| && s.threads[t].pc.Acting?
    case Note(t) => t < |s.threads| && s.threads[t].pc.Noting?
    case PostSchedule(t) => t < |s.threads| && s.threads[t].pc.NotePost?
    case RunClosure(i) => CanSpin(s) && i < |s.closures|
    case RunSchedule => CanSpin(s) && s.schedules > 0
    case Fire => CanSpin(s) && s.timers > 0
    case EndOnMain =>
      s.main != [] && (s.main[0].InAction? || s.main[0].InCall?) && s.main[0].t < |s.threads|
    case Swap => s.main != [] && s.main[0].Swapping?
    case Deliver => s.main != [] && s.main[0].Delivering?
    case Return =>
      && s.main != [] && s.main[0].InHooks?
      && (s.main[0].holder.Held? ==> s.main[0].holder.t < |s.threads|)
  }

  function SetPc(s: State, t: nat, pc: Pc): State
    requires t < |s.threads|
  {
    s.(threads := s.threads[t := s.threads[t].(pc := pc)])
  }

  /** The next request of the innermost list: a `multi` opens a list of its own, an
      exhausted list is left, and with no list left the lock is released. */
  function Dispatched(s: State, t: nat): State
    requires t < |s.threads|
  {
    var frames := s.threads[t].frames;
    if frames == [] then
      SetPc(s, t, Finished).(lock := Free)
    else if frames[0] == [] then
      s.(threads := s.threads[t := Thread(Handling, frames[1..])])
    else
      var rest := [frames[0][1..]] + frames[1..];
      match frames[0][0]
      case Refused => s.(threads := s.threads[t := Thread(Handling, rest)])
      case Malformed => s.(threads := s.threads[t := Thread(Handling, frames[1..])])
      case Multi(subs) => s.(threads := s.threads[t := Thread(Handling, [subs] + rest)])
      case Leaf(op) =>
        var pc := if Alone(op) then RefreshCheck(op, false) else Starting(op);
        s.(threads := s.threads[t := Thread(pc, rest)])
  }

  /** Where a thread goes once it has noted its changes. */
  function PcAfterNote(op: Op): Pc {
    if Alone(op) then RefreshCheck(op, true) else Handling
  }

  /** Where a thread goes once its refresh_now is over. */
  function PcAfterRefresh(op: Op, after: bool): Pc {
    if after then Handling else Starting(op)
  }

  function Noted(s: State, t: nat): State
    requires t < |s.threads| && s.threads[t].pc.Noting?
  {
    var op := s.threads[t].pc.op;
    if op.changes == {} then
      SetPc(s, t, Handling)
    else
      var source := Source(op.changes, op.wrapped);
      var pc := if s.pending.scheduled then PcAfterNote(op) else NotePost(op);
      SetPc(s, t, pc).(pending := AfterNote(s.pending, op.changes),
                       sources := s.sources + [source], noted := s.noted + [source])
  }

  /** The main thread is done with what it ran for thread t. */
  function Woken(pc: Pc): Pc {
    match pc
    case ActWait(op) => Noting(op)
    case CallWait(op, calls) => Acting(op, calls)
    case RefreshWait(op, after) => PcAfterRefresh(op, after)
    case _ => pc
  }

  function Next(s: State, step: Step): State
    requires Enabled(s, step)
  {
    match step
    case Arrive(request) =>
      s.(threads := s.threads + [Thread(Waiting, [[request]])], requests := s.requests + [request])
    case Acquire(t) => SetPc(s, t, Handling).(lock := Held(t), order := s.order + [t])
    case Dispatch(t) => Dispatched(s, t)
    case Check(t) =>
      var pc := s.threads[t].pc;
      SetPc(s, t, if s.pending.names == {} then PcAfterRefresh(pc.op, pc.after)
                  else RefreshPost(pc.op, pc.after))
    case PostRefresh(t) =>
      var pc := s.threads[t].pc;
      SetPc(s, t, RefreshWait(pc.op, pc.after)).(closures := s.closures + [RunRefresh(t)])
    case Begin(t) =>
      var op := s.threads[t].pc.op;
      if op.onMain then
        SetPc(s, t, ActWait(op)).(closures := s.closures + [RunAction(t)])
      else
        SetPc(s, t, Acting(op, op.mainCalls))
    case CallMain(t) =>
      var pc := s.threads[t].pc;
      SetPc(s, t, CallWait(pc.op, pc.calls - 1)).(closures := s.closures + [RunCall(t)])
    case EndAction(t) =>
      var op := s.threads[t].pc.op;
      SetPc(s, t, Noting(op)).(performed := s.performed + SourceOf(op))
    case Note(t) => Noted(s, t)
    case PostSchedule(t) =>
      SetPc(s, t, PcAfterNote(s.threads[t].pc.op)).(schedules := s.schedules + 1)
    case RunClosure(i) =>
      var frame := match s.closures[i]
                   case RunAction(t) => InAction(t)
                   case RunCall(t) => InCall(t)
                   case RunRefresh(t) => Swapping(Held(t));
      s.(closures := s.closures[..i] + s.closures[i + 1..], main := [frame] + s.main)
    case RunSchedule => s.(schedules := s.schedules - 1, timers := s.timers + 1)
    case Fire =>
      // the request lock is tried, never waited for; a busy one re-arms the timer
      if s.lock == Free then
        s.(timers := s.timers - 1, lock := Timer, main := [Swapping(Timer)] + s.main)
      else
        s
    case EndOnMain =>
      var t := s.main[0].t;
      var pc := s.threads[t].pc;
      SetPc(s, t, Woken(pc)).(main := s.main[1..],
                              performed := s.performed + if pc.ActWait? then SourceOf(pc.op) else [])
    case Swap =>
      s.(main := [Delivering(s.main[0].holder, s.pending.names, s.sources)] + s.main[1..],
         pending := NOTHING_PENDING, sources := [],
         idleSwaps := s.idleSwaps + if s.main[0].holder == Timer && s.pending.names == {} then 1 else 0)
    case Deliver =>
      var Delivering(holder, names, sources) := s.main[0];
      s.(main := [InHooks(holder)] + s.main[1..],
         deliveries := if names == {} then s.deliveries
                       else s.deliveries + [Delivery(holder, names, sources)])
    case Return =>
      match s.main[0].holder
      case Held(t) => SetPc(s, t, Woken(s.threads[t].pc)).(main := s.main[1..])
      case _ => s.(main := s.main[1..], lock := Free)
  }

  /** Every step but a new request and a timer that finds the lock busy. */
  predicate Progress(s: State, step: Step) {
    !step.Arrive? && !(step.Fire? && s.lock != Free)
  }

  /** `steps` is a run from s to s'. */
  ghost predicate Runs(s: State, steps: seq<Step>, s': State)
    decreases |steps|
  {
    if steps == [] then s' == s
    else Enabled(s, steps[0]) && Runs(Next(s, steps[0]), steps[1..], s')
  }
}
