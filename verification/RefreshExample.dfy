/** A run of the refresh protocol: one unwrapped change, refreshed for on its own while an
    older wake-up is still outstanding. */
module RefreshExample {
  import opened RefreshProtocol
  import opened RefreshSafety

  const CHANGE := Op({"note"}, false, false, 0)
  const SOURCE := Source({"note"}, false)

  /** Add one enabled step to a run. */
  lemma {:induction false} RunOn(s: State, steps: seq<Step>, m: State, step: Step)
    requires Runs(s, steps, m) && Enabled(m, step)
    ensures Runs(s, steps + [step], Next(m, step))
    decreases |steps|
  {
    if steps != [] {
      RunOn(Next(s, steps[0]), steps[1..], m, step);
      assert (steps + [step])[1..] == steps[1..] + [step];
    } else {
      assert Runs(Next(s, step), [], Next(m, step));
      assert [step][1..] == [];
    }
  }

  lemma Do(steps: seq<Step>, s: State, step: Step) returns (steps': seq<Step>, s': State)
    requires Runs(Init(), steps, s) && Enabled(s, step)
    ensures s' == Next(s, step) && Runs(Init(), steps', s')
  {
    RunOn(Init(), steps, s, step);
    steps', s' := steps + [step], Next(s, step);
  }

  /** The states of this run: thread 0 stands at pc. */
  function At(pc: Pc, pending: Pending, closures: seq<Closure>, schedules: nat, main: seq<MainFrame>,
              sources: seq<Source>): State
  {
    State([Thread(pc, [[]])], Held(0), pending, closures, schedules, 0, main, [Leaf(CHANGE)], [0],
          [SOURCE], [SOURCE], sources, [], 0)
  }

  function Before(pc: Pc, frames: seq<seq<Request>>): State {
    State([Thread(pc, frames)], Held(0), NOTHING_PENDING, [], 0, 0, [], [Leaf(CHANGE)], [0], [], [], [], [], 0)
  }

  lemma Locked() returns (steps: seq<Step>, s: State)
    ensures Runs(Init(), steps, s) && s == Before(Handling, [[Leaf(CHANGE)]])
  {
    steps, s := Do([], Init(), Arrive(Leaf(CHANGE)));
    steps, s := Do(steps, s, Acquire(0));
    assert s.threads == [Thread(Handling, [[Leaf(CHANGE)]])];
  }

  lemma Begun() returns (steps: seq<Step>, s: State)
    ensures Runs(Init(), steps, s) && s == Before(Starting(CHANGE), [[]])
  {
    steps, s := Locked();
    var frames := s.threads[0].frames;
    assert frames[0][1..] == [] && frames[1..] == [];
    assert [frames[0][1..]] + frames[1..] == [frames[0][1..]];
    assert "note" in CHANGE.changes;
    steps, s := Do(steps, s, Dispatch(0));
    assert s.threads == [Thread(RefreshCheck(CHANGE, false), [[]])];
    steps, s := Do(steps, s, Check(0));
    assert s.threads == [Thread(Starting(CHANGE), [[]])];
  }

  lemma Acted() returns (steps: seq<Step>, s: State)
    ensures Runs(Init(), steps, s)
    ensures s == Before(Noting(CHANGE), [[]]).(performed := [SOURCE])
  {
    steps, s := Begun();
    steps, s := Do(steps, s, Begin(0));
    assert s.threads == [Thread(Acting(CHANGE, 0), [[]])];
    assert SourceOf(CHANGE) == [SOURCE];
    steps, s := Do(steps, s, EndAction(0));
    assert s.threads == [Thread(Noting(CHANGE), [[]])] && s.performed == [SOURCE];
  }

  lemma NotedDown() returns (steps: seq<Step>, s: State)
    ensures Runs(Init(), steps, s)
    ensures s == At(NotePost(CHANGE), Pending({"note"}, true), [], 0, [], [SOURCE])
  {
    steps, s := Acted();
    assert {} + {"note"} == {"note"};
    steps, s := Do(steps, s, Note(0));
    assert s.threads == [Thread(NotePost(CHANGE), [[]])];
  }

  lemma Parked() returns (steps: seq<Step>, s: State)
    ensures Runs(Init(), steps, s)
    ensures s == At(RefreshWait(CHANGE, true), Pending({"note"}, true), [RunRefresh(0)], 1, [], [SOURCE])
  {
    steps, s := NotedDown();
    steps, s := Do(steps, s, PostSchedule(0));
    assert s.threads == [Thread(RefreshCheck(CHANGE, true), [[]])];
    steps, s := Do(steps, s, Check(0));
    assert s.threads == [Thread(RefreshPost(CHANGE, true), [[]])];
    steps, s := Do(steps, s, PostRefresh(0));
    assert s.threads == [Thread(RefreshWait(CHANGE, true), [[]])];
  }

  lemma OnMainThread() returns (steps: seq<Step>, s: State)
    ensures Runs(Init(), steps, s)
    ensures s == At(RefreshWait(CHANGE, true), Pending({"note"}, true), [], 1, [Swapping(Held(0))], [SOURCE])
  {
    steps, s := Parked();
    steps, s := Do(steps, s, RunClosure(0));
    assert s.main == [Swapping(Held(0))] && s.closures == [];
  }

  lemma Taken() returns (steps: seq<Step>, s: State)
    ensures Runs(Init(), steps, s)
    ensures s == At(RefreshWait(CHANGE, true), NOTHING_PENDING, [], 1, [Delivering(Held(0), {"note"}, [SOURCE])], [])
  {
    steps, s := OnMainThread();
    steps, s := Do(steps, s, Swap);
    assert s.main == [Delivering(Held(0), {"note"}, [SOURCE])];
  }

  /** The hooks run: the change is delivered alone, nothing is pending, and the schedule
      posted for it is still to come. */
  lemma ToldAlone() returns (steps: seq<Step>, s: State)
    ensures Runs(Init(), steps, s)
    ensures s.main == [InHooks(Held(0))] && s.deliveries == [Delivery(Held(0), {"note"}, [SOURCE])]
    ensures s.pending == NOTHING_PENDING && s.schedules == 1
  {
    steps, s := Taken();
    assert "note" in {"note"};
    steps, s := Do(steps, s, Deliver);
  }

  function Arrived(threads: seq<Thread>, requests: seq<Request>): State {
    State(threads, Free, NOTHING_PENDING, [], 0, 0, [], requests, [], [], [], [], [], 0)
  }

  lemma OneArrives(request: Request) returns (steps: seq<Step>, s: State)
    ensures Runs(Init(), steps, s)
    ensures s == Arrived([Thread(Waiting, [[request]])], [request])
  {
    steps, s := Do([], Init(), Arrive(request));
    assert s.threads == [Thread(Waiting, [[request]])] && s.requests == [request];
  }

  lemma TwoArrive(one: Request, two: Request) returns (steps: seq<Step>, s: State)
    ensures Runs(Init(), steps, s)
    ensures s == Arrived([Thread(Waiting, [[one]]), Thread(Waiting, [[two]])], [one, two])
  {
    steps, s := OneArrives(one);
    steps, s := Do(steps, s, Arrive(two));
    assert s.threads == [Thread(Waiting, [[one]]), Thread(Waiting, [[two]])] && s.requests == [one, two];
  }

  /** The lock gives no order: the second of two requests takes it first. */
  lemma SecondIsFirst(one: Request, two: Request) returns (steps: seq<Step>, s: State)
    ensures Runs(Init(), steps, s)
    ensures s.requests == [one, two] && s.order == [1] && s.lock == Held(1)
  {
    steps, s := TwoArrive(one, two);
    steps, s := Do(steps, s, Acquire(1));
  }
}
