/** What the screens are told, against what the requests ask for: over any interleaving
    the notes are those of the requests run one after another, in lock order. */
module RefreshEffects {
  import opened RefreshProtocol
  import opened RefreshSafety
  import opened RefreshProgress

  // The changes of requests run on their own, without threads or screens

  function EffectsOf(r: Request): seq<Source>
    decreases r, 0
  {
    match r
    case Leaf(op) => SourceOf(op)
    case Multi(subs) => Effects(subs)
    case Refused => []
    case Malformed => []
  }

  /** A list of requests: one that is not an object ends it. */
  function Effects(rs: seq<Request>): seq<Source>
    decreases rs
  {
    if rs == [] || rs[0].Malformed? then [] else EffectsOf(rs[0]) + Effects(rs[1..])
  }

  function EffectsOfFrames(frames: seq<seq<Request>>): seq<Source> {
    if frames == [] then [] else Effects(frames[0]) + EffectsOfFrames(frames[1..])
  }

  function EffectsInOrder(requests: seq<Request>, order: seq<nat>): seq<Source> {
    if order == [] then []
    else
      var t := order[|order| - 1];
      EffectsInOrder(requests, order[..|order| - 1]) + if t < |requests| then Effects([requests[t]]) else []
  }

  // The same changes in a state of the protocol

  /** The changes of the action a thread has begun but not ended. */
  function Begun(pc: Pc): seq<Source> {
    match pc
    case RefreshCheck(op, after) => if after then [] else SourceOf(op)
    case RefreshPost(op, after) => if after then [] else SourceOf(op)
    case RefreshWait(op, after) => if after then [] else SourceOf(op)
    case Starting(op) => SourceOf(op)
    case Acting(op, _) => SourceOf(op)
    case CallWait(op, _) => SourceOf(op)
    case ActWait(op) => SourceOf(op)
    case _ => []
  }

  function ToCome(s: State): seq<Source> {
    if s.lock.Held? && s.lock.t < |s.threads| then
      var thread := s.threads[s.lock.t];
      Begun(thread.pc) + EffectsOfFrames(thread.frames)
    else []
  }

  function Unnoted(s: State): seq<Source> {
    if s.lock.Held? && s.lock.t < |s.threads| && s.threads[s.lock.t].pc.Noting? then
      SourceOf(s.threads[s.lock.t].pc.op)
    else []
  }

  ghost predicate OrderInv(s: State) {
    && |s.requests| == |s.threads|
    && (forall i :: 0 <= i < |s.order| ==> s.order[i] < |s.threads|)
    && (forall i, j :: 0 <= i < j < |s.order| ==> s.order[i] != s.order[j])
    && (forall t :: 0 <= t < |s.threads| ==> (t in s.order <==> !s.threads[t].pc.Waiting?))
    && (forall t :: 0 <= t < |s.threads| && s.threads[t].pc.Waiting? ==>
          s.threads[t].frames == [[s.requests[t]]])
  }

  ghost predicate EffectsInv(s: State) {
    && s.performed + ToCome(s) == EffectsInOrder(s.requests, s.order)
    && s.performed == s.noted + Unnoted(s)
  }

  lemma OrderUnmoved(s: State, s': State)
    requires OrderInv(s) && s'.requests == s.requests && s'.order == s.order
    requires |s'.threads| == |s.threads|
    requires forall t :: 0 <= t < |s.threads| ==>
               if s.threads[t].pc.Waiting? then s'.threads[t] == s.threads[t]
               else !s'.threads[t].pc.Waiting?
    ensures OrderInv(s')
  {
  }

  lemma EntryKeepsOrder(s: State, step: Step)
    requires step.Arrive? || step.Acquire?
    requires OrderInv(s) && Enabled(s, step)
    ensures OrderInv(Next(s, step))
  {
  }

  lemma OtherThreadKeepsOrder(s: State, step: Step)
    requires !step.Arrive? && !step.Acquire? && !OnMain(step)
    requires OrderInv(s) && Enabled(s, step)
    ensures OrderInv(Next(s, step))
  {
    OrderUnmoved(s, Next(s, step));
  }

  lemma WokenKeepsOrder(s: State, t: nat, s': State)
    requires OrderInv(s) && s'.requests == s.requests && s'.order == s.order
    requires t < |s.threads| && s'.threads == SetPc(s, t, Woken(s.threads[t].pc)).threads
    ensures OrderInv(s')
  {
    OrderUnmoved(s, s');
  }

  lemma MainKeepsOrder(s: State, step: Step)
    requires OnMain(step)
    requires OrderInv(s) && Enabled(s, step)
    ensures OrderInv(Next(s, step))
  {
    if step.EndOnMain? {
      WokenKeepsOrder(s, s.main[0].t, Next(s, step));
    } else if step.Return? && s.main[0].holder.Held? {
      WokenKeepsOrder(s, s.main[0].holder.t, Next(s, step));
    } else {
      assert Next(s, step).threads == s.threads;
      OrderUnmoved(s, Next(s, step));
    }
  }

  lemma StepKeepsOrder(s: State, step: Step)
    requires OrderInv(s) && Enabled(s, step)
    ensures OrderInv(Next(s, step))
  {
    if step.Arrive? || step.Acquire? {
      EntryKeepsOrder(s, step);
    } else if OnMain(step) {
      MainKeepsOrder(s, step);
    } else {
      OtherThreadKeepsOrder(s, step);
    }
  }

  lemma {:induction false} MoreRequests(requests: seq<Request>, request: Request, order: seq<nat>)
    requires forall i :: 0 <= i < |order| ==> order[i] < |requests|
    ensures EffectsInOrder(requests + [request], order) == EffectsInOrder(requests, order)
  {
    if order != [] {
      MoreRequests(requests, request, order[..|order| - 1]);
    }
  }

  /** A request list is worked off without changing what is to come. */
  lemma DispatchedEffects(s: State, t: nat)
    requires Enabled(s, Dispatch(t))
    ensures var thread := Dispatched(s, t).threads[t];
            Begun(thread.pc) + EffectsOfFrames(thread.frames) == EffectsOfFrames(s.threads[t].frames)
  {
    var frames: seq<seq<Request>> := s.threads[t].frames;
    if frames != [] && frames[0] != [] {
      var rest: seq<seq<Request>> := [frames[0][1..]] + frames[1..];
      assert rest[1..] == frames[1..];
      assert !frames[0][0].Malformed? ==>
        EffectsOfFrames(frames) == EffectsOf(frames[0][0]) + EffectsOfFrames(rest);
      if frames[0][0].Multi? {
        var all: seq<seq<Request>> := [frames[0][0].subs] + rest;
        assert all[1..] == rest;
      }
    }
  }

  lemma ArriveKeepsEffects(s: State, request: Request)
    requires LockInv(s) && OrderInv(s) && EffectsInv(s)
    ensures EffectsInv(Next(s, Arrive(request)))
  {
    MoreRequests(s.requests, request, s.order);
  }

  lemma AcquireKeepsEffects(s: State, t: nat)
    requires LockInv(s) && OrderInv(s) && EffectsInv(s) && Enabled(s, Acquire(t))
    ensures EffectsInv(Next(s, Acquire(t)))
  {
    var s' := Next(s, Acquire(t));
    assert s'.order[..|s.order|] == s.order;
    var frames: seq<seq<Request>> := s.threads[t].frames;
    assert frames[1..] == [];
    assert EffectsOfFrames(frames) == Effects(frames[0]) == Effects([s.requests[t]]);
    assert ToCome(s') == Effects([s.requests[t]]);
  }

  lemma EffectsUnmoved(s: State, s': State)
    requires EffectsInv(s)
    requires s'.requests == s.requests && s'.order == s.order
    requires s'.performed == s.performed && s'.noted == s.noted
    requires ToCome(s') == ToCome(s) && Unnoted(s') == Unnoted(s)
    ensures EffectsInv(s')
  {
  }

  /** The holder of the lock ends an action that left `done` to be noted. */
  lemma EffectsEnded(s: State, s': State, done: seq<Source>, rest: seq<Source>)
    requires EffectsInv(s)
    requires s'.requests == s.requests && s'.order == s.order
    requires s'.performed == s.performed + done && s'.noted == s.noted
    requires ToCome(s) == done + rest && ToCome(s') == rest
    requires Unnoted(s) == [] && Unnoted(s') == done
    ensures EffectsInv(s')
  {
    assert (s.performed + done) + rest == s.performed + (done + rest);
  }

  /** What is to come, and to be noted, before and after the holder ends its action. */
  lemma EndedToCome(s: State, s': State, t: nat)
    requires s.lock == Held(t) == s'.lock && t < |s.threads| && t < |s'.threads|
    requires s.threads[t].pc.Acting? || s.threads[t].pc.ActWait?
    requires s'.threads[t] == Thread(Noting(s.threads[t].pc.op), s.threads[t].frames)
    ensures var done, rest := SourceOf(s.threads[t].pc.op), EffectsOfFrames(s.threads[t].frames);
            && ToCome(s) == done + rest && ToCome(s') == rest && Unnoted(s) == [] && Unnoted(s') == done
  {
    assert [] + EffectsOfFrames(s.threads[t].frames) == EffectsOfFrames(s.threads[t].frames);
  }

  lemma EndActionKeepsEffects(s: State, t: nat)
    requires EffectsInv(s) && Enabled(s, EndAction(t)) && s.lock == Held(t)
    ensures EffectsInv(Next(s, EndAction(t)))
  {
    var s' := Next(s, EndAction(t));
    EndedToCome(s, s', t);
    EffectsEnded(s, s', SourceOf(s.threads[t].pc.op), EffectsOfFrames(s.threads[t].frames));
  }

  lemma EndOnMainKeepsEffects(s: State, t: nat)
    requires EffectsInv(s) && Enabled(s, EndOnMain) && s.lock == Held(t) && s.main[0].t == t
    requires s.threads[t].pc.ActWait? || s.threads[t].pc.CallWait?
    ensures EffectsInv(Next(s, EndOnMain))
  {
    var s' := Next(s, EndOnMain);
    if s.threads[t].pc.ActWait? {
      EndedToCome(s, s', t);
      EffectsEnded(s, s', SourceOf(s.threads[t].pc.op), EffectsOfFrames(s.threads[t].frames));
    } else {
      LocalToCome(s, s', t);
      EffectsUnmoved(s, s');
    }
  }

  lemma ReturnKeepsEffects(s: State)
    requires EffectsInv(s) && Enabled(s, Return)
    requires s.lock == Timer || (s.lock == s.main[0].holder && s.lock.Held?
                                 && s.threads[s.lock.t].pc.RefreshWait?)
    ensures EffectsInv(Next(s, Return))
  {
    EffectsUnmoved(s, Next(s, Return));
  }

  /** The holder of the lock notes what it has to. */
  lemma EffectsNoted(s: State, s': State)
    requires EffectsInv(s)
    requires s'.requests == s.requests && s'.order == s.order
    requires s'.performed == s.performed && s'.noted == s.noted + Unnoted(s)
    requires ToCome(s') == ToCome(s) && Unnoted(s') == []
    ensures EffectsInv(s')
  {
    assert s'.noted + [] == s'.noted;
  }

  lemma NotedToCome(s: State, t: nat)
    requires Enabled(s, Note(t)) && s.lock == Held(t)
    ensures ToCome(Noted(s, t)) == ToCome(s) && Unnoted(Noted(s, t)) == []
  {
  }

  lemma NoteKeepsEffects(s: State, t: nat)
    requires EffectsInv(s) && Enabled(s, Note(t)) && s.lock == Held(t)
    ensures EffectsInv(Next(s, Note(t)))
  {
    NotedToCome(s, t);
    EffectsNoted(s, Noted(s, t));
  }

  lemma DispatchedToCome(s: State, t: nat)
    requires Enabled(s, Dispatch(t)) && s.lock == Held(t)
    ensures ToCome(Dispatched(s, t)) == ToCome(s) && Unnoted(Dispatched(s, t)) == Unnoted(s) == []
  {
    var frames := s.threads[t].frames;
    assert ToCome(s) == EffectsOfFrames(frames);
    if frames == [] {
      assert ToCome(Dispatched(s, t)) == [];
    } else {
      DispatchedEffects(s, t);
      assert Dispatched(s, t).lock == Held(t);
    }
  }

  lemma DispatchKeepsEffects(s: State, t: nat)
    requires EffectsInv(s) && Enabled(s, Dispatch(t)) && s.lock == Held(t)
    ensures EffectsInv(Next(s, Dispatch(t)))
  {
    DispatchedToCome(s, t);
    EffectsUnmoved(s, Dispatched(s, t));
  }

  /** A step of the holder that neither begins nor ends what it has to do. */
  lemma LocalToCome(s: State, s': State, t: nat)
    requires s.lock == Held(t) == s'.lock && t < |s.threads| && t < |s'.threads|
    requires s'.threads[t].frames == s.threads[t].frames && Begun(s'.threads[t].pc) == Begun(s.threads[t].pc)
    requires !s.threads[t].pc.Noting? && !s'.threads[t].pc.Noting?
    ensures ToCome(s') == ToCome(s) && Unnoted(s') == Unnoted(s)
  {
  }

  lemma RefreshNowKeepsEffects(s: State, step: Step, t: nat)
    requires step == Check(t) || step == PostRefresh(t)
    requires EffectsInv(s) && Enabled(s, step) && s.lock == Held(t)
    ensures EffectsInv(Next(s, step))
  {
    LocalToCome(s, Next(s, step), t);
    EffectsUnmoved(s, Next(s, step));
  }

  lemma BeginKeepsEffects(s: State, t: nat)
    requires EffectsInv(s) && Enabled(s, Begin(t)) && s.lock == Held(t)
    ensures EffectsInv(Next(s, Begin(t)))
  {
    LocalToCome(s, Next(s, Begin(t)), t);
    EffectsUnmoved(s, Next(s, Begin(t)));
  }

  lemma CallKeepsEffects(s: State, t: nat)
    requires EffectsInv(s) && Enabled(s, CallMain(t)) && s.lock == Held(t)
    ensures EffectsInv(Next(s, CallMain(t)))
  {
    LocalToCome(s, Next(s, CallMain(t)), t);
    EffectsUnmoved(s, Next(s, CallMain(t)));
  }

  lemma PostKeepsEffects(s: State, t: nat)
    requires EffectsInv(s) && Enabled(s, PostSchedule(t)) && s.lock == Held(t)
    ensures EffectsInv(Next(s, PostSchedule(t)))
  {
    LocalToCome(s, Next(s, PostSchedule(t)), t);
    EffectsUnmoved(s, Next(s, PostSchedule(t)));
  }

  lemma LoopKeepsEffects(s: State, step: Step)
    requires step.RunClosure? || step.RunSchedule? || step.Fire? || step.Swap? || step.Deliver?
    requires EffectsInv(s) && Enabled(s, step)
    ensures EffectsInv(Next(s, step))
  {
    EffectsUnmoved(s, Next(s, step));
  }

  lemma MainKeepsEffects(s: State, step: Step)
    requires OnMain(step)
    requires LockInv(s) && EffectsInv(s) && Enabled(s, step)
    ensures EffectsInv(Next(s, step))
  {
    if step.EndOnMain? {
      EndOnMainKeepsEffects(s, s.main[0].t);
    } else if step.Return? {
      ReturnKeepsEffects(s);
    } else {
      LoopKeepsEffects(s, step);
    }
  }

  /** A step of the thread that holds the lock. */
  lemma HolderKeepsEffects(s: State, step: Step, t: nat)
    requires !OnMain(step) && !step.Arrive? && !step.Acquire? && step.t == t
    requires s.lock == Held(t) && EffectsInv(s) && Enabled(s, step)
    ensures EffectsInv(Next(s, step))
  {
    match step
    case EndAction(_) => EndActionKeepsEffects(s, t);
    case Note(_) => NoteKeepsEffects(s, t);
    case Dispatch(_) => DispatchKeepsEffects(s, t);
    case Begin(_) => BeginKeepsEffects(s, t);
    case CallMain(_) => CallKeepsEffects(s, t);
    case PostSchedule(_) => PostKeepsEffects(s, t);
    case _ => RefreshNowKeepsEffects(s, step, t);
  }

  lemma StepIsHolders(s: State, step: Step)
    requires !OnMain(step) && !step.Arrive? && !step.Acquire?
    requires LockInv(s) && Enabled(s, step)
    ensures s.lock == Held(step.t)
  {
  }

  lemma StepKeepsEffects(s: State, step: Step)
    requires LockInv(s) && OrderInv(s) && EffectsInv(s) && Enabled(s, step)
    ensures EffectsInv(Next(s, step))
  {
    if step.Arrive? {
      ArriveKeepsEffects(s, step.request);
    } else if step.Acquire? {
      AcquireKeepsEffects(s, step.t);
    } else if OnMain(step) {
      MainKeepsEffects(s, step);
    } else {
      StepIsHolders(s, step);
      HolderKeepsEffects(s, step, step.t);
    }
  }

  ghost predicate AllInv(s: State) { Inv(s) && OrderInv(s) && EffectsInv(s) }

  lemma {:induction false} RunKeepsEffects(s: State, steps: seq<Step>, s': State)
    requires AllInv(s) && Runs(s, steps, s')
    ensures AllInv(s')
    decreases |steps|
  {
    if steps != [] {
      StepKeepsInv(s, steps[0]);
      StepKeepsOrder(s, steps[0]);
      StepKeepsEffects(s, steps[0]);
      RunKeepsEffects(Next(s, steps[0]), steps[1..], s');
    }
  }

  lemma ReachedEffects(steps: seq<Step>, s: State)
    requires Runs(Init(), steps, s)
    ensures OrderInv(s) && EffectsInv(s)
  {
    InitHolds();
    NothingYet();
    RunKeepsEffects(Init(), steps, s);
  }

  lemma NothingYet()
    ensures OrderInv(Init()) && EffectsInv(Init())
  {
    assert ToCome(Init()) == [] && Unnoted(Init()) == [];
  }

  /** At any time the actions that have ended are those of the requests that took the
      lock, one request after another with nested multi calls in place, and all of
      their changes but the one being noted are noted. */
  lemma RequestsRunInTurn(steps: seq<Step>, s: State)
    requires Runs(Init(), steps, s)
    ensures s.performed <= EffectsInOrder(s.requests, s.order)
    ensures s.performed == s.noted + Unnoted(s)
    ensures forall i, j :: 0 <= i < j < |s.order| ==> s.order[i] != s.order[j] < |s.requests|
  {
    ReachedEffects(steps, s);
  }

  /** Once everything is quiet each request has been served once, and the screens have
      been told exactly the changes of all of them, in the order they took the lock. */
  lemma ScreensToldEverything(steps: seq<Step>, s: State)
    requires Runs(Init(), steps, s) && Quiet(s)
    ensures Delivered(s.deliveries) == EffectsInOrder(s.requests, s.order)
    ensures forall t :: 0 <= t < |s.requests| ==> t in s.order
    ensures forall i, j :: 0 <= i < j < |s.order| ==> s.order[i] != s.order[j] < |s.requests|
  {
    ReachedEffects(steps, s);
    ReachedInv(steps, s);
    assert ToCome(s) == [] && Unnoted(s) == [] && s.sources == [] && InFlight(s) == [];
  }
}
