/** The object of the pending changes and the refresh protocol: over any run its three
    critical sections hold what is pending, and decide as the protocol's steps do. */
module RefreshPending {
  import opened RefreshProtocol

  /** note_changes decides whether its caller goes on to post _schedule_refresh. */
  method FollowNote(pending: PendingChanges, s: State, t: nat) returns (post: bool)
    requires Enabled(s, Note(t)) && pending.View() == s.pending
    modifies pending
    ensures pending.View() == Next(s, Note(t)).pending
    ensures post <==> Next(s, Note(t)).threads[t].pc.NotePost?
  {
    var changes := s.threads[t].pc.op.changes;
    post := false;
    if changes != {} {
      post := pending.Note(changes);
    }
  }

  /** refresh_now decides whether its caller goes on to park until a refresh has run. */
  method FollowCheck(pending: PendingChanges, s: State, t: nat) returns (parks: bool)
    requires Enabled(s, Check(t)) && pending.View() == s.pending
    ensures pending.View() == Next(s, Check(t)).pending
    ensures parks <==> Next(s, Check(t)).threads[t].pc.RefreshPost?
  {
    parks := pending.HasNames();
  }

  /** refresh_screens takes what the screens are then told. */
  method FollowSwap(pending: PendingChanges, s: State) returns (names: set<string>)
    requires Enabled(s, Swap) && pending.View() == s.pending
    modifies pending
    ensures pending.View() == Next(s, Swap).pending
    ensures Next(s, Swap).main[0] == Delivering(s.main[0].holder, names, s.sources)
  {
    names := pending.Take();
  }

  /** No other step touches the pending changes. */
  lemma OthersLeavePending(s: State, step: Step)
    requires Enabled(s, step) && !step.Note? && !step.Swap?
    ensures Next(s, step).pending == s.pending
  {
  }

  method Follow(pending: PendingChanges, s: State, step: Step)
    requires Enabled(s, step) && pending.View() == s.pending
    modifies pending
    ensures pending.View() == Next(s, step).pending
  {
    if step.Note? {
      var post := FollowNote(pending, s, step.t);
    } else if step.Swap? {
      var names := FollowSwap(pending, s);
    } else if step.Check? {
      var parks := FollowCheck(pending, s, step.t);
    } else {
      OthersLeavePending(s, step);
    }
  }

  /** The object followed over a whole run. */
  method Replay(steps: seq<Step>, ghost end: State) returns (pending: PendingChanges, s: State)
    requires Runs(Init(), steps, end)
    ensures s == end && pending.View() == end.pending
  {
    pending := new PendingChanges();
    s := Init();
    assert steps[0..] == steps;
    for i := 0 to |steps|
      invariant Runs(s, steps[i..], end) && pending.View() == s.pending && fresh(pending)
    {
      assert steps[i..][0] == steps[i] && steps[i..][1..] == steps[i + 1..];
      Follow(pending, s, steps[i]);
      s := Next(s, steps[i]);
    }
  }
}
