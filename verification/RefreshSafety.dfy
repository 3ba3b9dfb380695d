/** What every interleaving of the refresh protocol keeps. */
module RefreshSafety {
  import opened RefreshProtocol

  // Who holds the lock, and what the main thread does for whom

  predicate InLock(pc: Pc) { !pc.Waiting? && !pc.Finished? }

  predicate Acts(pc: Pc) { pc.Acting? || pc.CallWait? || pc.ActWait? }

  /** No action is between its start and its end, on either thread. */
  ghost predicate AtRest(s: State) {
    && (forall t :: 0 <= t < |s.threads| ==> !Acts(s.threads[t].pc))
    && (forall i :: 0 <= i < |s.main| ==> !s.main[i].InAction? && !s.main[i].InCall?)
  }

  predicate Refreshes(f: MainFrame, holder: Lock) {
    (f.Swapping? || f.Delivering? || f.InHooks?) && f.holder == holder
  }

  /** Nothing is posted for a request thread and the main thread runs nothing. */
  predicate MainIdle(s: State) { s.closures == [] && s.main == [] }

  /** The closure c is either posted or running as frame f, and nothing else is. */
  predicate RunsOne(s: State, c: Closure, f: MainFrame) {
    || (s.closures == [c] && s.main == [])
    || (s.closures == [] && s.main == [f])
  }

  predicate MainServes(s: State, t: nat, pc: Pc) {
    match pc
    case ActWait(_) => RunsOne(s, RunAction(t), InAction(t))
    case CallWait(_, _) => RunsOne(s, RunCall(t), InCall(t))
    case RefreshWait(_, _) =>
      || (s.closures == [RunRefresh(t)] && s.main == [])
      || (s.closures == [] && |s.main| == 1 && Refreshes(s.main[0], Held(t)))
    case _ => MainIdle(s)
  }

  ghost predicate LockInv(s: State) {
    && (forall t :: 0 <= t < |s.threads| && InLock(s.threads[t].pc) ==> s.lock == Held(t))
    && match s.lock
       case Free => MainIdle(s)
       case Timer => s.closures == [] && |s.main| == 1 && Refreshes(s.main[0], Timer)
       case Held(t) =>
         t < |s.threads| && InLock(s.threads[t].pc) && MainServes(s, t, s.threads[t].pc)
  }

  // What is pending

  function NamesOf(sources: seq<Source>): set<string> {
    if sources == [] then {} else NamesOf(sources[..|sources| - 1]) + sources[|sources| - 1].changes
  }

  predicate AllWrapped(sources: seq<Source>) {
    forall i :: 0 <= i < |sources| ==> sources[i].wrapped
  }

  /** A batch RWKV may take as wrapped throughout, or one unwrapped change alone. */
  predicate Unmixed(sources: seq<Source>) { AllWrapped(sources) || |sources| == 1 }

  predicate OnlyThisOp(op: Op, sources: seq<Source>) {
    Alone(op) && sources == [Source(op.changes, op.wrapped)]
  }

  predicate BeforeSwap(s: State) { s.main == [] || s.main[0].Swapping? }

  /** What may be pending while thread t is at pc with the lock. */
  predicate Fits(s: State, pc: Pc) {
    match pc
    case Starting(op) => AllWrapped(s.sources) && (Alone(op) ==> s.sources == [])
    case Acting(op, _) => AllWrapped(s.sources) && (Alone(op) ==> s.sources == [])
    case CallWait(op, _) => AllWrapped(s.sources) && (Alone(op) ==> s.sources == [])
    case ActWait(op) => AllWrapped(s.sources) && (Alone(op) ==> s.sources == [])
    case Noting(op) => AllWrapped(s.sources) && (Alone(op) ==> s.sources == [])
    case NotePost(op) => if Alone(op) then OnlyThisOp(op, s.sources) else AllWrapped(s.sources)
    case RefreshCheck(op, after) => FitsRefresh(op, after, s.sources)
    case RefreshPost(op, after) => FitsRefresh(op, after, s.sources) && s.sources != []
    case RefreshWait(op, after) =>
      if BeforeSwap(s) then FitsRefresh(op, after, s.sources) && s.sources != []
      else Alone(op) && s.sources == []
    case _ => AllWrapped(s.sources)
  }

  predicate FitsRefresh(op: Op, after: bool, sources: seq<Source>) {
    Alone(op) && if after then OnlyThisOp(op, sources) else AllWrapped(sources)
  }

  ghost predicate PendingInv(s: State) {
    && s.pending.names == NamesOf(s.sources)
    && (forall i :: 0 <= i < |s.sources| ==> s.sources[i].changes != {})
    && (s.pending.scheduled <==> s.sources != [])
    && match s.lock
       case Held(t) => t < |s.threads| && Fits(s, s.threads[t].pc)
       case _ => AllWrapped(s.sources)
  }

  // What is under way to the screens, and what reached them

  predicate GoodBatch(names: set<string>, sources: seq<Source>) {
    && names == NamesOf(sources)
    && (names == {} <==> sources == [])
    && Unmixed(sources)
  }

  function InFlight(s: State): seq<Source> {
    if s.main != [] && s.main[0].Delivering? then s.main[0].sources else []
  }

  function Delivered(deliveries: seq<Delivery>): seq<Source> {
    if deliveries == [] then []
    else Delivered(deliveries[..|deliveries| - 1]) + deliveries[|deliveries| - 1].sources
  }

  /** What was noted is delivered, under way or pending, in this order. */
  ghost predicate Account(noted: seq<Source>, deliveries: seq<Delivery>, flight: seq<Source>, sources: seq<Source>) {
    noted == Delivered(deliveries) + flight + sources
  }

  ghost predicate GoodDeliveries(deliveries: seq<Delivery>) {
    forall i :: 0 <= i < |deliveries| ==>
      GoodBatch(deliveries[i].names, deliveries[i].sources) && deliveries[i].sources != []
  }

  predicate GoodFlight(main: seq<MainFrame>) {
    main != [] && main[0].Delivering? ==>
      && GoodBatch(main[0].names, main[0].sources)
      && (main[0].holder.Held? ==> main[0].sources != [])
  }

  ghost predicate HistoryInv(s: State) {
    && Account(s.noted, s.deliveries, InFlight(s), s.sources)
    && GoodDeliveries(s.deliveries)
    && GoodFlight(s.main)
  }

  // Wake-ups

  /** The holder of the lock is about to post _schedule_refresh. */
  function Posting(threads: seq<Thread>, lock: Lock): nat {
    if lock.Held? && lock.t < |threads| && threads[lock.t].pc.NotePost? then 1 else 0
  }

  /** A timer has the lock and is about to take what is pending. */
  function Fired(main: seq<MainFrame>): nat { if main != [] && main[0] == Swapping(Timer) then 1 else 0 }

  function Wakes(s: State): nat { s.schedules + s.timers + Posting(s.threads, s.lock) + Fired(s.main) }

  /** The deliveries that refresh_now asked for. */
  function ByRequests(deliveries: seq<Delivery>): nat {
    if deliveries == [] then 0
    else ByRequests(deliveries[..|deliveries| - 1]) + if deliveries[|deliveries| - 1].holder.Held? then 1 else 0
  }

  /** One of them is under way. */
  function InHand(main: seq<MainFrame>): nat {
    if main != [] && main[0].Delivering? && main[0].holder.Held? then 1 else 0
  }

  /** A refresh_now leaves the wake-up of the changes it told behind, and a timer that finds
      nothing to tell uses one of those up. */
  predicate WakeInv(s: State) {
    && Wakes(s) + s.idleSwaps
       == (if s.pending.scheduled then 1 else 0) + ByRequests(s.deliveries) + InHand(s.main)
    && s.idleSwaps <= ByRequests(s.deliveries) + InHand(s.main)
  }

  ghost predicate Inv(s: State) { LockInv(s) && PendingInv(s) && HistoryInv(s) && WakeInv(s) }

  lemma NamesOfEmpty(sources: seq<Source>)
    requires forall i :: 0 <= i < |sources| ==> sources[i].changes != {}
    ensures NamesOf(sources) == {} <==> sources == []
  {
  }

  // Every step keeps the invariant

  predicate Enters(step: Step) { step.Arrive? || step.Acquire? || step.Check? || step.PostRefresh? }

  predicate Performs(step: Step) {
    step.Dispatch? || step.Begin? || step.CallMain? || step.EndAction?
  }

  predicate Notes(step: Step) { step.Note? || step.PostSchedule? }

  predicate OnMain(step: Step) { !Enters(step) && !Performs(step) && !Notes(step) }

  lemma EntryKeepsLock(s: State, step: Step)
    requires Enters(step) || Notes(step)
    requires LockInv(s) && Enabled(s, step)
    ensures LockInv(Next(s, step))
  {
  }

  lemma DispatchKeepsLock(s: State, t: nat)
    requires LockInv(s) && Enabled(s, Dispatch(t))
    ensures LockInv(Next(s, Dispatch(t)))
  {
    assert s.lock == Held(t);
  }

  lemma ActionKeepsLock(s: State, step: Step)
    requires step.Begin? || step.CallMain? || step.EndAction?
    requires LockInv(s) && Enabled(s, step)
    ensures LockInv(Next(s, step))
  {
    assert s.lock == Held(step.t);
  }

  lemma ClosureKeepsLock(s: State, i: nat)
    requires LockInv(s) && Enabled(s, RunClosure(i))
    ensures LockInv(Next(s, RunClosure(i)))
  {
  }

  lemma TimerKeepsLock(s: State, step: Step)
    requires step.RunSchedule? || step.Fire?
    requires LockInv(s) && Enabled(s, step)
    ensures LockInv(Next(s, step))
  {
  }

  lemma RefreshKeepsLock(s: State, step: Step)
    requires step.Swap? || step.Deliver?
    requires LockInv(s) && Enabled(s, step)
    ensures LockInv(Next(s, step))
  {
  }

  lemma EndKeepsLock(s: State, step: Step)
    requires step.EndOnMain? || step.Return?
    requires LockInv(s) && Enabled(s, step)
    ensures LockInv(Next(s, step))
  {
  }

  lemma MainKeepsLock(s: State, step: Step)
    requires OnMain(step)
    requires LockInv(s) && Enabled(s, step)
    ensures LockInv(Next(s, step))
  {
    match step
    case RunClosure(i) => ClosureKeepsLock(s, i);
    case RunSchedule => TimerKeepsLock(s, step);
    case Fire => TimerKeepsLock(s, step);
    case Swap => RefreshKeepsLock(s, step);
    case Deliver => RefreshKeepsLock(s, step);
    case EndOnMain => EndKeepsLock(s, step);
    case Return => EndKeepsLock(s, step);
  }

  lemma StepKeepsLock(s: State, step: Step)
    requires LockInv(s) && Enabled(s, step)
    ensures LockInv(Next(s, step))
  {
    if OnMain(step) {
      MainKeepsLock(s, step);
    } else if step.Dispatch? {
      DispatchKeepsLock(s, step.t);
    } else if Performs(step) {
      ActionKeepsLock(s, step);
    } else {
      EntryKeepsLock(s, step);
    }
  }

  /** The main thread does one thing at a time for the protocol. */
  predicate OneFrame(s: State) {
    |s.main| <= 1 && (s.closures != [] || s.lock == Free ==> s.main == [])
  }

  lemma LockKeepsOneFrame(s: State)
    requires LockInv(s)
    ensures OneFrame(s)
  {
  }

  lemma NamesOfSnoc(sources: seq<Source>, source: Source)
    ensures NamesOf(sources + [source]) == NamesOf(sources) + source.changes
  {
    assert (sources + [source])[..|sources|] == sources;
  }

  lemma EntryKeepsPending(s: State, step: Step)
    requires step.Arrive? || step.Acquire? || step.Check?
    requires LockInv(s) && PendingInv(s) && Enabled(s, step)
    ensures PendingInv(Next(s, step))
  {
  }

  lemma PostKeepsPending(s: State, step: Step)
    requires step.PostRefresh? || step.PostSchedule?
    requires LockInv(s) && PendingInv(s) && Enabled(s, step)
    ensures PendingInv(Next(s, step))
  {
  }

  lemma DispatchKeepsPending(s: State, t: nat)
    requires LockInv(s) && PendingInv(s) && Enabled(s, Dispatch(t))
    ensures PendingInv(Next(s, Dispatch(t)))
  {
    assert s.lock == Held(t);
  }

  lemma ActionKeepsPending(s: State, step: Step)
    requires step.Begin? || step.CallMain? || step.EndAction?
    requires LockInv(s) && PendingInv(s) && Enabled(s, step)
    ensures PendingInv(Next(s, step))
  {
    assert s.lock == Held(step.t);
  }

  /** What is pending after a note: the change alone, or wrapped ones. */
  lemma NotedSources(s: State, op: Op)
    requires s.pending.names == NamesOf(s.sources) && op.changes != {}
    requires forall i :: 0 <= i < |s.sources| ==> s.sources[i].changes != {}
    requires AllWrapped(s.sources) && (Alone(op) ==> s.sources == [])
    ensures var sources := s.sources + [Source(op.changes, op.wrapped)];
            && AfterNote(s.pending, op.changes) == Pending(NamesOf(sources), true)
            && (forall i :: 0 <= i < |sources| ==> sources[i].changes != {})
            && if Alone(op) then sources == [Source(op.changes, op.wrapped)] else AllWrapped(sources)
  {
    NamesOfSnoc(s.sources, Source(op.changes, op.wrapped));
  }

  lemma NotedKeepsPending(s: State, t: nat, op: Op)
    requires PendingInv(s) && s.lock == Held(t) && t < |s.threads| && s.threads[t].pc == Noting(op)
    requires op.changes != {}
    ensures PendingInv(Noted(s, t))
  {
    NotedSources(s, op);
    var s' := Noted(s, t);
    assert s'.lock == Held(t) && |s'.threads| == |s.threads|;
    assert s'.threads[t].pc == NotePost(op) || s'.threads[t].pc == PcAfterNote(op);
    assert Fits(s', s'.threads[t].pc);
  }

  lemma NoteKeepsPending(s: State, t: nat)
    requires LockInv(s) && PendingInv(s) && Enabled(s, Note(t))
    ensures PendingInv(Next(s, Note(t)))
  {
    var op := s.threads[t].pc.op;
    assert s.lock == Held(t);
    if op.changes != {} {
      NotedKeepsPending(s, t, op);
    }
  }

  lemma ClosureKeepsPending(s: State, step: Step)
    requires step.RunClosure? || step.EndOnMain?
    requires LockInv(s) && PendingInv(s) && Enabled(s, step)
    ensures PendingInv(Next(s, step))
  {
  }

  lemma TimerKeepsPending(s: State, step: Step)
    requires step.RunSchedule? || step.Fire?
    requires LockInv(s) && PendingInv(s) && Enabled(s, step)
    ensures PendingInv(Next(s, step))
  {
  }

  lemma RefreshKeepsPending(s: State, step: Step)
    requires step.Swap? || step.Deliver? || step.Return?
    requires LockInv(s) && PendingInv(s) && Enabled(s, step)
    ensures PendingInv(Next(s, step))
  {
  }

  lemma MainKeepsPending(s: State, step: Step)
    requires OnMain(step)
    requires LockInv(s) && PendingInv(s) && Enabled(s, step)
    ensures PendingInv(Next(s, step))
  {
    if step.RunClosure? || step.EndOnMain? {
      ClosureKeepsPending(s, step);
    } else if step.RunSchedule? || step.Fire? {
      TimerKeepsPending(s, step);
    } else {
      RefreshKeepsPending(s, step);
    }
  }

  lemma ThreadKeepsPending(s: State, step: Step)
    requires !OnMain(step)
    requires LockInv(s) && PendingInv(s) && Enabled(s, step)
    ensures PendingInv(Next(s, step))
  {
    if step.Note? {
      NoteKeepsPending(s, step.t);
    } else if step.Dispatch? {
      DispatchKeepsPending(s, step.t);
    } else if step.PostRefresh? || step.PostSchedule? {
      PostKeepsPending(s, step);
    } else if Enters(step) {
      EntryKeepsPending(s, step);
    } else {
      ActionKeepsPending(s, step);
    }
  }

  lemma StepKeepsPending(s: State, step: Step)
    requires LockInv(s) && PendingInv(s) && Enabled(s, step)
    ensures PendingInv(Next(s, step))
  {
    if OnMain(step) {
      MainKeepsPending(s, step);
    } else {
      ThreadKeepsPending(s, step);
    }
  }

  lemma HistoryUnmoved(s: State, s': State)
    requires HistoryInv(s)
    requires s'.noted == s.noted && s'.sources == s.sources && s'.deliveries == s.deliveries
    requires s'.main == s.main || (InFlight(s) == [] && (s'.main == [] || !s'.main[0].Delivering?))
    ensures HistoryInv(s')
  {
  }

  lemma AccountNotes(noted: seq<Source>, deliveries: seq<Delivery>, flight: seq<Source>, sources: seq<Source>,
                     source: Source)
    requires Account(noted, deliveries, flight, sources)
    ensures Account(noted + [source], deliveries, flight, sources + [source])
  {
    var told := Delivered(deliveries) + flight;
    assert told + (sources + [source]) == told + sources + [source];
  }

  lemma AccountSwaps(noted: seq<Source>, deliveries: seq<Delivery>, sources: seq<Source>)
    requires Account(noted, deliveries, [], sources)
    ensures Account(noted, deliveries, sources, [])
  {
    var told := Delivered(deliveries);
    assert told + [] == told && told + sources + [] == told + sources;
  }

  lemma AccountDelivers(noted: seq<Source>, deliveries: seq<Delivery>, delivery: Delivery, sources: seq<Source>)
    requires Account(noted, deliveries, delivery.sources, sources)
    ensures Account(noted, deliveries + [delivery], [], sources)
  {
    var told := Delivered(deliveries) + delivery.sources;
    assert (deliveries + [delivery])[..|deliveries|] == deliveries;
    assert told + [] == told;
  }

  lemma NoteKeepsHistory(s: State, t: nat)
    requires HistoryInv(s) && Enabled(s, Note(t))
    ensures HistoryInv(Next(s, Note(t)))
  {
    var op := s.threads[t].pc.op;
    AccountNotes(s.noted, s.deliveries, InFlight(s), s.sources, Source(op.changes, op.wrapped));
  }

  /** What a refresh takes is a good batch. */
  lemma SwapTakesGoodBatch(s: State)
    requires LockInv(s) && PendingInv(s) && Enabled(s, Swap)
    ensures GoodFlight(Next(s, Swap).main)
  {
    NamesOfEmpty(s.sources);
  }

  lemma SwapKeepsHistory(s: State)
    requires LockInv(s) && PendingInv(s) && HistoryInv(s) && Enabled(s, Swap)
    ensures HistoryInv(Next(s, Swap))
  {
    SwapTakesGoodBatch(s);
    AccountSwaps(s.noted, s.deliveries, s.sources);
  }

  lemma GoodDeliveriesSnoc(deliveries: seq<Delivery>, delivery: Delivery)
    requires GoodDeliveries(deliveries) && GoodBatch(delivery.names, delivery.sources) && delivery.sources != []
    ensures GoodDeliveries(deliveries + [delivery])
  {
  }

  lemma DeliverKeepsHistory(s: State)
    requires HistoryInv(s) && Enabled(s, Deliver)
    ensures HistoryInv(Next(s, Deliver))
  {
    var Delivering(holder, names, sources) := s.main[0];
    if names != {} {
      var delivery := Delivery(holder, names, sources);
      AccountDelivers(s.noted, s.deliveries, delivery, s.sources);
      GoodDeliveriesSnoc(s.deliveries, delivery);
    }
  }

  lemma ThreadKeepsHistory(s: State, step: Step)
    requires !OnMain(step) && !step.Note?
    requires HistoryInv(s) && Enabled(s, step)
    ensures HistoryInv(Next(s, step))
  {
    HistoryUnmoved(s, Next(s, step));
  }

  lemma ClosureKeepsHistory(s: State, i: nat)
    requires OneFrame(s) && HistoryInv(s) && Enabled(s, RunClosure(i))
    ensures HistoryInv(Next(s, RunClosure(i)))
  {
    HistoryUnmoved(s, Next(s, RunClosure(i)));
  }

  lemma TimerKeepsHistory(s: State, step: Step)
    requires step.RunSchedule? || step.Fire?
    requires OneFrame(s) && HistoryInv(s) && Enabled(s, step)
    ensures HistoryInv(Next(s, step))
  {
    HistoryUnmoved(s, Next(s, step));
  }

  lemma EndKeepsHistory(s: State, step: Step)
    requires step.EndOnMain? || step.Return?
    requires OneFrame(s) && HistoryInv(s) && Enabled(s, step)
    ensures HistoryInv(Next(s, step))
  {
    HistoryUnmoved(s, Next(s, step));
  }

  lemma MainKeepsHistory(s: State, step: Step)
    requires OnMain(step)
    requires LockInv(s) && PendingInv(s) && HistoryInv(s) && Enabled(s, step)
    ensures HistoryInv(Next(s, step))
  {
    LockKeepsOneFrame(s);
    match step
    case RunClosure(i) => ClosureKeepsHistory(s, i);
    case Swap => SwapKeepsHistory(s);
    case Deliver => DeliverKeepsHistory(s);
    case RunSchedule => TimerKeepsHistory(s, step);
    case Fire => TimerKeepsHistory(s, step);
    case EndOnMain => EndKeepsHistory(s, step);
    case Return => EndKeepsHistory(s, step);
  }

  lemma StepKeepsHistory(s: State, step: Step)
    requires LockInv(s) && PendingInv(s) && HistoryInv(s) && Enabled(s, step)
    ensures HistoryInv(Next(s, step))
  {
    if OnMain(step) {
      MainKeepsHistory(s, step);
    } else if step.Note? {
      NoteKeepsHistory(s, step.t);
    } else {
      ThreadKeepsHistory(s, step);
    }
  }

  /** A step that neither posts, fires, takes nor tells anything. */
  predicate WakesUnmoved(s: State, s': State) {
    && s'.schedules == s.schedules && s'.timers == s.timers && s'.idleSwaps == s.idleSwaps
    && s'.pending.scheduled == s.pending.scheduled && s'.deliveries == s.deliveries
    && Posting(s'.threads, s'.lock) == Posting(s.threads, s.lock)
    && Fired(s'.main) == Fired(s.main) && InHand(s'.main) == InHand(s.main)
  }

  lemma NoWakeMoved(s: State, s': State)
    requires WakeInv(s) && WakesUnmoved(s, s')
    ensures WakeInv(s')
  {
  }

  lemma EntryKeepsWakes(s: State, step: Step)
    requires Enters(step) || step.Dispatch?
    requires LockInv(s) && WakeInv(s) && Enabled(s, step)
    ensures WakeInv(Next(s, step))
  {
    NoWakeMoved(s, Next(s, step));
  }

  lemma ActionKeepsWakes(s: State, step: Step)
    requires step.Begin? || step.CallMain? || step.EndAction?
    requires LockInv(s) && WakeInv(s) && Enabled(s, step)
    ensures WakeInv(Next(s, step))
  {
    NoWakeMoved(s, Next(s, step));
  }

  lemma ClosureKeepsWakes(s: State, i: nat)
    requires LockInv(s) && WakeInv(s) && Enabled(s, RunClosure(i))
    ensures WakeInv(Next(s, RunClosure(i)))
  {
    NoWakeMoved(s, Next(s, RunClosure(i)));
  }

  lemma EndKeepsWakes(s: State, step: Step)
    requires step.EndOnMain? || step.Return?
    requires LockInv(s) && WakeInv(s) && Enabled(s, step)
    ensures WakeInv(Next(s, step))
  {
    NoWakeMoved(s, Next(s, step));
  }

  lemma NoteKeepsWakes(s: State, t: nat)
    requires LockInv(s) && WakeInv(s) && Enabled(s, Note(t))
    ensures WakeInv(Next(s, Note(t)))
  {
    assert s.lock == Held(t);
  }

  lemma PostKeepsWakes(s: State, t: nat)
    requires LockInv(s) && WakeInv(s) && Enabled(s, PostSchedule(t))
    ensures WakeInv(Next(s, PostSchedule(t)))
  {
    assert s.lock == Held(t);
  }

  lemma TimerKeepsWakes(s: State, step: Step)
    requires step.RunSchedule? || step.Fire?
    requires LockInv(s) && WakeInv(s) && Enabled(s, step)
    ensures WakeInv(Next(s, step))
  {
  }

  lemma SwapKeepsWakes(s: State)
    requires LockInv(s) && PendingInv(s) && WakeInv(s) && Enabled(s, Swap)
    ensures WakeInv(Next(s, Swap))
  {
    NamesOfEmpty(s.sources);
  }

  lemma ByRequestsSnoc(deliveries: seq<Delivery>, delivery: Delivery)
    ensures ByRequests(deliveries + [delivery]) == ByRequests(deliveries) + if delivery.holder.Held? then 1 else 0
  {
    assert (deliveries + [delivery])[..|deliveries|] == deliveries;
  }

  /** A delivery ends one that was under way, or told nothing. */
  lemma WakesTold(s: State, s': State, delivery: Delivery)
    requires WakeInv(s) && s.main != [] && s.main[0].Delivering? && s.main[0].holder == delivery.holder
    requires s'.schedules == s.schedules && s'.timers == s.timers && s'.idleSwaps == s.idleSwaps
    requires s'.pending.scheduled == s.pending.scheduled && s'.threads == s.threads && s'.lock == s.lock
    requires s'.main != [] && s'.main[0].InHooks?
    requires if s'.deliveries == s.deliveries then delivery.holder == Timer
             else s'.deliveries == s.deliveries + [delivery]
    ensures WakeInv(s')
  {
    ByRequestsSnoc(s.deliveries, delivery);
  }

  lemma DeliverKeepsWakes(s: State)
    requires Enabled(s, Deliver) && s.main[0].holder != Free
    requires GoodFlight(s.main) && WakeInv(s)
    ensures WakeInv(Next(s, Deliver))
  {
    var Delivering(holder, names, sources) := s.main[0];
    var s' := Next(s, Deliver);
    assert s'.main[0] == InHooks(holder);
    assert |s.deliveries + [Delivery(holder, names, sources)]| == |s.deliveries| + 1;
    WakesTold(s, s', Delivery(holder, names, sources));
  }

  lemma MainKeepsWakes(s: State, step: Step)
    requires OnMain(step)
    requires LockInv(s) && PendingInv(s) && GoodFlight(s.main) && WakeInv(s) && Enabled(s, step)
    ensures WakeInv(Next(s, step))
  {
    match step
    case RunClosure(i) => ClosureKeepsWakes(s, i);
    case Swap => SwapKeepsWakes(s);
    case Deliver =>
      assert s.main[0].holder == s.lock;
      DeliverKeepsWakes(s);
    case RunSchedule => TimerKeepsWakes(s, step);
    case Fire => TimerKeepsWakes(s, step);
    case EndOnMain => EndKeepsWakes(s, step);
    case Return => EndKeepsWakes(s, step);
  }

  lemma ThreadKeepsWakes(s: State, step: Step)
    requires !OnMain(step)
    requires LockInv(s) && WakeInv(s) && Enabled(s, step)
    ensures WakeInv(Next(s, step))
  {
    match step
    case Note(t) => NoteKeepsWakes(s, t);
    case PostSchedule(t) => PostKeepsWakes(s, t);
    case _ =>
      if Performs(step) && !step.Dispatch? {
        ActionKeepsWakes(s, step);
      } else {
        EntryKeepsWakes(s, step);
      }
  }

  lemma StepKeepsWakes(s: State, step: Step)
    requires LockInv(s) && PendingInv(s) && HistoryInv(s) && WakeInv(s) && Enabled(s, step)
    ensures WakeInv(Next(s, step))
  {
    if OnMain(step) {
      MainKeepsWakes(s, step);
    } else {
      ThreadKeepsWakes(s, step);
    }
  }

  lemma StepKeepsInv(s: State, step: Step)
    requires Inv(s) && Enabled(s, step)
    ensures Inv(Next(s, step))
  {
    StepKeepsLock(s, step);
    StepKeepsPending(s, step);
    StepKeepsHistory(s, step);
    StepKeepsWakes(s, step);
  }

  /** Whatever the interleaving, a run keeps the invariant. */
  lemma {:induction false} RunKeepsInv(s: State, steps: seq<Step>, s': State)
    requires Inv(s) && Runs(s, steps, s')
    ensures Inv(s')
    decreases |steps|
  {
    if steps != [] {
      StepKeepsInv(s, steps[0]);
      RunKeepsInv(Next(s, steps[0]), steps[1..], s');
    }
  }

  lemma ReachedInv(steps: seq<Step>, s: State)
    requires Runs(Init(), steps, s)
    ensures Inv(s)
  {
    InitHolds();
    RunKeepsInv(Init(), steps, s);
  }

  lemma InitHolds()
    ensures Inv(Init())
  {
  }

  lemma ReachedLock(steps: seq<Step>, s: State)
    requires Runs(Init(), steps, s)
    ensures LockInv(s)
  {
    ReachedInv(steps, s);
  }

  // What a reader of the screens may rely on, after any run

  /** Screens only see the collection at rest: from the moment a refresh takes the
      pending names until its hooks have returned, no action is under way, and either
      the timer holds the request lock or its holder is parked in refresh_now. */
  lemma RefreshSeesRest(steps: seq<Step>, s: State)
    requires Runs(Init(), steps, s)
    requires s.main != [] && (s.main[0].Swapping? || s.main[0].Delivering? || s.main[0].InHooks?)
    ensures AtRest(s)
    ensures
      || (s.lock == Timer && forall t :: 0 <= t < |s.threads| ==> !InLock(s.threads[t].pc))
      || (s.lock.Held? && s.lock.t < |s.threads| && s.threads[s.lock.t].pc.RefreshWait?)
  {
    ReachedLock(steps, s);
  }

  /** At most one request is past the lock, and the main thread never nests one piece
      of the protocol's work inside another, whatever event loops are opened. */
  lemma OneAtATime(steps: seq<Step>, s: State)
    requires Runs(Init(), steps, s)
    ensures |s.main| <= 1
    ensures forall t, u | 0 <= t < |s.threads| && 0 <= u < |s.threads| ::
              InLock(s.threads[t].pc) && InLock(s.threads[u].pc) ==> t == u
  {
    ReachedLock(steps, s);
  }

  /** What is noted is delivered once, in order, and until then it is pending or under
      way; a pending name always has its refresh scheduled and a wake-up outstanding. */
  lemma NoLostRefresh(steps: seq<Step>, s: State)
    requires Runs(Init(), steps, s)
    ensures s.noted == Delivered(s.deliveries) + InFlight(s) + s.sources
    ensures s.pending.names == NamesOf(s.sources)
    ensures forall i :: 0 <= i < |s.deliveries| ==>
              s.deliveries[i].names == NamesOf(s.deliveries[i].sources) != {}
    ensures s.pending.names != {} ==> s.pending.scheduled && Wakes(s) > 0
  {
    ReachedInv(steps, s);
    NamesOfEmpty(s.sources);
  }

  /** An unwrapped change never reaches the screens in a batch with another change. */
  lemma NoMixing(steps: seq<Step>, s: State)
    requires Runs(Init(), steps, s)
    ensures forall i :: 0 <= i < |s.deliveries| ==> Unmixed(s.deliveries[i].sources)
  {
    ReachedInv(steps, s);
  }

  /** No refresh_now has told anything so far. */
  ghost predicate OnlyTimerRefreshed(s: State) {
    && (forall i :: 0 <= i < |s.deliveries| ==> s.deliveries[i].holder == Timer)
    && (s.main != [] && s.main[0].Delivering? ==> s.main[0].holder == Timer)
  }

  lemma {:induction false} NoneByRequests(deliveries: seq<Delivery>)
    requires forall i :: 0 <= i < |deliveries| ==> deliveries[i].holder == Timer
    ensures ByRequests(deliveries) == 0
  {
    if deliveries != [] {
      NoneByRequests(deliveries[..|deliveries| - 1]);
    }
  }

  /** Each wake-up is the one of the pending changes, or was left behind by a refresh_now
      that told its changes and has not been used up by a timer that found nothing to tell.
      So one wake-up serves a burst, and none is left without one, exactly when all of
      those are used up. */
  lemma BurstRefreshesOnce(steps: seq<Step>, s: State)
    requires Runs(Init(), steps, s)
    ensures Wakes(s) == (if s.pending.names != {} then 1 else 0)
                        + (ByRequests(s.deliveries) + InHand(s.main) - s.idleSwaps)
    ensures s.idleSwaps <= ByRequests(s.deliveries) + InHand(s.main)
    ensures Wakes(s) == (if s.pending.names != {} then 1 else 0)
       <==> s.idleSwaps == ByRequests(s.deliveries) + InHand(s.main)
    ensures OnlyTimerRefreshed(s) ==> Wakes(s) == if s.pending.names != {} then 1 else 0
  {
    ReachedInv(steps, s);
    NamesOfEmpty(s.sources);
    if OnlyTimerRefreshed(s) {
      NoneByRequests(s.deliveries);
    }
  }
}
