/** What the Add window keeps of a note when its notetype is changed. */
module FieldMigration {
  import opened Picks

  predicate Unique(names: seq<string>) {
    forall i, j :: 0 <= i < j < |names| ==> names[i] != names[j]
  }

  class Note {
    const names: seq<string>
    var fields: seq<string>

    constructor (names: seq<string>, fields: seq<string>)
      requires |fields| == |names|
      ensures Valid() && this.names == names && this.fields == fields
    {
      this.names, this.fields := names, fields;
    }

    ghost predicate Valid() reads this { |fields| == |names| }

    /** note[name] */
    method Get(name: string) returns (value: string)
      requires Valid() && name in names
      ensures exists i :: 0 <= i < |names| && names[i] == name && value == fields[i]
    {
      var i := 0;
      while names[i] != name
        invariant i < |names| && name !in names[..i]
        decreases |names| - i
      {
        i := i + 1;
      }
      return fields[i];
    }
  }

  // What should come of the fields

  /** The old field with this name is kept under its name. */
  predicate IsKept(name: string, oldNames: seq<string>, oldFields: seq<string>, newNames: seq<string>)
    requires |oldFields| == |oldNames|
  {
    name in newNames && exists i :: 0 <= i < |oldNames| && oldNames[i] == name && oldFields[i] != ""
  }

  ghost function Kept(oldNames: seq<string>, oldFields: seq<string>, newNames: seq<string>): set<string>
    requires |oldFields| == |oldNames|
  {
    set name | name in newNames && IsKept(name, oldNames, oldFields, newNames)
  }

  /** The old fields that have content and are not kept under their name. */
  ghost function Left(oldNames: seq<string>, oldFields: seq<string>, kept: set<string>): seq<nat>
    requires |oldFields| == |oldNames|
  {
    Picked(LeftFlags(oldNames, oldFields, kept))
  }

  ghost function LeftFlags(oldNames: seq<string>, oldFields: seq<string>, kept: set<string>): seq<bool>
    requires |oldFields| == |oldNames|
  {
    seq(|oldNames|, i requires 0 <= i < |oldNames| => oldNames[i] !in kept && oldFields[i] != "")
  }

  /** The new fields that nothing is kept in. */
  ghost function Slots(newNames: seq<string>, kept: set<string>): seq<nat> { Picked(SlotFlags(newNames, kept)) }

  ghost function SlotFlags(newNames: seq<string>, kept: set<string>): seq<bool> {
    seq(|newNames|, i requires 0 <= i < |newNames| => newNames[i] !in kept)
  }

  /** What the new fields hold when those left have filled the slots from the first on. */
  ghost predicate Filled(oldFields: seq<string>, before: seq<string>, after: seq<string>, left: seq<nat>,
                         slots: seq<nat>)
  {
    && |after| == |before|
    && (forall k :: 0 <= k < |slots| ==> slots[k] < |after|)
    && (forall k :: 0 <= k < |left| ==> left[k] < |oldFields|)
    && (forall k :: 0 <= k < |slots| ==>
          after[slots[k]] == if k < |left| then oldFields[left[k]] else before[slots[k]])
  }

  ghost predicate KeepsNamed(oldNames: seq<string>, oldFields: seq<string>, newNames: seq<string>, after: seq<string>)
    requires |oldFields| == |oldNames| && |after| == |newNames|
  {
    forall i, j :: 0 <= i < |oldNames| && 0 <= j < |newNames| && oldNames[i] == newNames[j] && oldFields[i] != "" ==>
      after[j] == oldFields[i]
  }

  // The two passes

  /** Copy the fields that have the same name. */
  method CopyNamed(oldNote: Note, newNote: Note) returns (copied: set<string>)
    requires oldNote != newNote && oldNote.Valid() && newNote.Valid()
    requires Unique(oldNote.names) && Unique(newNote.names)
    modifies newNote
    ensures newNote.Valid()
    ensures copied == Kept(oldNote.names, oldNote.fields, newNote.names)
    ensures KeepsNamed(oldNote.names, oldNote.fields, newNote.names, newNote.fields)
    ensures forall j :: 0 <= j < |newNote.names| && newNote.names[j] !in copied ==>
              newNote.fields[j] == old(newNote.fields[j])
  {
    copied := {};
    var names := newNote.names;
    ghost var oldNames, oldFields := oldNote.names, oldNote.fields;
    for j := 0 to |names|
      invariant newNote.Valid()
      invariant forall name :: name in copied <==> name in names[..j] && IsKept(name, oldNames, oldFields, names)
      invariant forall i, k :: 0 <= i < |oldNames| && 0 <= k < j && oldNames[i] == names[k] && oldFields[i] != "" ==>
                  newNote.fields[k] == oldFields[i]
      invariant forall k :: 0 <= k < |names| && (k >= j || names[k] !in copied) ==>
                  newNote.fields[k] == old(newNote.fields[k])
    {
      var name := names[j];
      assert names[..j + 1] == names[..j] + [name];
      if name in oldNote.names {
        var value := oldNote.Get(name);
        if value != "" {
          newNote.fields := newNote.fields[j := value];
          copied := copied + {name};
        }
      }
    }
    assert names[..|names|] == names;
  }

  /** The first n of those left are in their slots, and the other slots are as they were. */
  ghost predicate Done(oldFields: seq<string>, before: seq<string>, after: seq<string>, left: seq<nat>, slots: seq<nat>,
                       n: nat)
  {
    && |after| == |before| && n <= |left|
    && (forall k :: 0 <= k < |slots| ==> slots[k] < |after|)
    && (forall k :: 0 <= k < |left| ==> left[k] < |oldFields|)
    && (forall k :: 0 <= k < |slots| ==> after[slots[k]] == if k < n then oldFields[left[k]] else before[slots[k]])
  }

  ghost predicate Ordered(places: seq<nat>) { forall a, b :: 0 <= a < b < |places| ==> places[a] < places[b] }

  lemma DoneNext(oldFields: seq<string>, before: seq<string>, after: seq<string>, left: seq<nat>, slots: seq<nat>,
                 n: nat)
    requires Done(oldFields, before, after, left, slots, n) && Ordered(slots)
    requires n < |left| && n < |slots|
    ensures Done(oldFields, before, after[slots[n] := oldFields[left[n]]], left, slots, n + 1)
  {
  }

  lemma AllDone(oldFields: seq<string>, before: seq<string>, after: seq<string>, left: seq<nat>, slots: seq<nat>,
                n: nat)
    requires Done(oldFields, before, after, left, slots, n) && (n == |left| || n >= |slots|)
    ensures Filled(oldFields, before, after, left, slots)
  {
  }

  /** Put the next of those left into its slot. */
  method FillOne(oldNote: Note, newNote: Note, oldIdx: nat, newIdx: nat, ghost before: seq<string>,
                 ghost left: seq<nat>, ghost slots: seq<nat>, ghost n: nat)
    requires oldNote != newNote && oldNote.Valid() && newNote.Valid()
    requires Done(oldNote.fields, before, newNote.fields, left, slots, n) && Ordered(slots)
    requires n < |left| && n < |slots| && left[n] == oldIdx && slots[n] == newIdx
    modifies newNote
    ensures newNote.Valid() && Done(oldNote.fields, before, newNote.fields, left, slots, n + 1)
    ensures forall j :: 0 <= j < |newNote.names| && j != newIdx ==> newNote.fields[j] == old(newNote.fields[j])
  {
    DoneNext(oldNote.fields, before, newNote.fields, left, slots, n);
    newNote.fields := newNote.fields[newIdx := oldNote.fields[oldIdx]];
  }

  /** Halfway through the second pass: n old fields before oldIdx fill the slots before newIdx. */
  ghost predicate Filling(oldNote: Note, newNote: Note, copied: set<string>, before: seq<string>,
                          oldIdx: nat, newIdx: nat, n: nat)
    requires oldNote.Valid()
    reads oldNote, newNote
  {
    && newNote.Valid() && oldIdx <= |oldNote.names| && newIdx <= |newNote.names|
    && n == Rank(SlotFlags(newNote.names, copied), newIdx)
    && n == Rank(LeftFlags(oldNote.names, oldNote.fields, copied), oldIdx)
    && Done(oldNote.fields, before, newNote.fields, Left(oldNote.names, oldNote.fields, copied),
            Slots(newNote.names, copied), n)
    && forall j :: 0 <= j < |newNote.names| && newNote.names[j] in copied ==> newNote.fields[j] == before[j]
  }

  /** One old field of the second pass; false when no slot is left. */
  method FillNext(oldNote: Note, newNote: Note, copied: set<string>, ghost before: seq<string>,
                  oldIdx: nat, newIdx: nat, ghost n: nat)
    returns (more: bool, newIdx': nat, ghost n': nat)
    requires oldNote != newNote && oldNote.Valid() && oldIdx < |oldNote.names|
    requires Filling(oldNote, newNote, copied, before, oldIdx, newIdx, n)
    modifies newNote
    ensures if more then Filling(oldNote, newNote, copied, before, oldIdx + 1, newIdx', n')
            else n' == |Slots(newNote.names, copied)| && Filling(oldNote, newNote, copied, before, oldIdx, newIdx', n')
  {
    ghost var leftFlags := LeftFlags(oldNote.names, oldNote.fields, copied);
    ghost var slotFlags := SlotFlags(newNote.names, copied);
    n' := n;
    newIdx' := SkipCopied(newNote.names, copied, newIdx);
    more := newIdx' < |newNote.names|;
    if !more {
      RankEnds(slotFlags);
      return;
    }
    RankIs(slotFlags, newIdx');
    RankIs(leftFlags, oldIdx);
    if oldNote.names[oldIdx] !in copied && oldNote.fields[oldIdx] != "" {
      PickedAre(slotFlags);
      FillOne(oldNote, newNote, oldIdx, newIdx', before, Picked(leftFlags), Picked(slotFlags), n);
      newIdx' := newIdx' + 1;
      n' := n + 1;
    }
  }

  /** Put what is left into the slots, in order. */
  method FillSlots(oldNote: Note, newNote: Note, copied: set<string>)
    requires oldNote != newNote && oldNote.Valid() && newNote.Valid()
    modifies newNote
    ensures newNote.Valid()
    ensures Filled(oldNote.fields, old(newNote.fields), newNote.fields,
                   Left(oldNote.names, oldNote.fields, copied), Slots(newNote.names, copied))
    ensures forall j :: 0 <= j < |newNote.names| && newNote.names[j] in copied ==>
              newNote.fields[j] == old(newNote.fields[j])
  {
    ghost var before, n := newNote.fields, 0;
    var newIdx := 0;
    FillingStarts(oldNote, newNote, copied);
    for oldIdx := 0 to |oldNote.names|
      invariant Filling(oldNote, newNote, copied, before, oldIdx, newIdx, n)
    {
      var more;
      more, newIdx, n := FillNext(oldNote, newNote, copied, before, oldIdx, newIdx, n);
      if !more {
        break;
      }
    }
    RankEnds(LeftFlags(oldNote.names, oldNote.fields, copied));
    AllDone(oldNote.fields, before, newNote.fields, Left(oldNote.names, oldNote.fields, copied),
            Slots(newNote.names, copied), n);
  }

  lemma FillingStarts(oldNote: Note, newNote: Note, copied: set<string>)
    requires oldNote.Valid() && newNote.Valid()
    ensures Filling(oldNote, newNote, copied, newNote.fields, 0, 0, 0)
  {
    PickedAre(LeftFlags(oldNote.names, oldNote.fields, copied));
    PickedAre(SlotFlags(newNote.names, copied));
  }

  /** Skip the new fields that were copied. */
  method SkipCopied(newNames: seq<string>, copied: set<string>, from: nat) returns (newIdx: nat)
    requires from <= |newNames|
    ensures from <= newIdx <= |newNames|
    ensures newIdx < |newNames| ==> newNames[newIdx] !in copied
    ensures Rank(SlotFlags(newNames, copied), newIdx) == Rank(SlotFlags(newNames, copied), from)
  {
    newIdx := from;
    while newIdx < |newNames| && newNames[newIdx] in copied
      invariant from <= newIdx <= |newNames|
      invariant Rank(SlotFlags(newNames, copied), newIdx) == Rank(SlotFlags(newNames, copied), from)
    {
      RankIs(SlotFlags(newNames, copied), newIdx);
      newIdx := newIdx + 1;
    }
  }

  /** The new note after the change, by what the old one held. */
  ghost predicate Migrated(oldNames: seq<string>, oldFields: seq<string>, newNames: seq<string>, before: seq<string>,
                           after: seq<string>)
    requires |oldFields| == |oldNames|
  {
    var kept := Kept(oldNames, oldFields, newNames);
    && |after| == |newNames|
    && KeepsNamed(oldNames, oldFields, newNames, after)
    && Filled(oldFields, before, after, Left(oldNames, oldFields, kept), Slots(newNames, kept))
  }

  /** The migration that on_notetype_change does. */
  method Migrate(oldNote: Note, newNote: Note)
    requires oldNote != newNote && oldNote.Valid() && newNote.Valid()
    requires Unique(oldNote.names) && Unique(newNote.names)
    modifies newNote
    ensures newNote.Valid()
    ensures Migrated(oldNote.names, oldNote.fields, newNote.names, old(newNote.fields), newNote.fields)
  {
    ghost var kept := Kept(oldNote.names, oldNote.fields, newNote.names);
    PickedAre(SlotFlags(newNote.names, kept));
    var copied := CopyNamed(oldNote, newNote);
    FillSlots(oldNote, newNote, copied);
  }

  /** Content is kept under its name, or else goes to the slot of its rank among those left,
      and is dropped only when there are not so many slots. */
  lemma WhereContentGoes(oldNames: seq<string>, oldFields: seq<string>, newNames: seq<string>, before: seq<string>,
                         after: seq<string>, i: nat)
    requires |oldFields| == |oldNames| && Migrated(oldNames, oldFields, newNames, before, after)
    requires i < |oldNames| && oldFields[i] != ""
    ensures oldNames[i] in newNames ==>
              exists j :: 0 <= j < |newNames| && newNames[j] == oldNames[i] && after[j] == oldFields[i]
    ensures oldNames[i] !in newNames ==>
              var kept := Kept(oldNames, oldFields, newNames);
              var left, slots, rank := Left(oldNames, oldFields, kept), Slots(newNames, kept),
                Rank(LeftFlags(oldNames, oldFields, kept), i);
              && rank < |left| && left[rank] == i
              && (rank < |slots| ==> slots[rank] < |after| && after[slots[rank]] == oldFields[i])
  {
    var kept := Kept(oldNames, oldFields, newNames);
    if oldNames[i] in newNames {
      var j :| 0 <= j < |newNames| && newNames[j] == oldNames[i];
      assert after[j] == oldFields[i];
    } else {
      RankIs(LeftFlags(oldNames, oldFields, kept), i);
    }
  }

  /** A new field holds the content kept under its name, or the content of the rank of its
      slot, or what it held before. */
  lemma WhereContentComesFrom(oldNames: seq<string>, oldFields: seq<string>, newNames: seq<string>, before: seq<string>,
                              after: seq<string>, j: nat)
    requires |oldFields| == |oldNames| && Migrated(oldNames, oldFields, newNames, before, after)
    requires j < |newNames|
    ensures var kept := Kept(oldNames, oldFields, newNames);
            var left, rank := Left(oldNames, oldFields, kept), Rank(SlotFlags(newNames, kept), j);
            if newNames[j] in kept then
              exists i :: 0 <= i < |oldNames| && oldNames[i] == newNames[j]
                          && oldFields[i] != "" && after[j] == oldFields[i]
            else
              && |before| == |after|
              && (if rank < |left| then left[rank] < |oldFields| && after[j] == oldFields[left[rank]]
                  else after[j] == before[j])
  {
    var kept := Kept(oldNames, oldFields, newNames);
    if newNames[j] in kept {
      var i :| 0 <= i < |oldNames| && oldNames[i] == newNames[j] && oldFields[i] != "";
      assert after[j] == oldFields[i];
    } else {
      RankIs(SlotFlags(newNames, kept), j);
    }
  }

  // The same, by the contents alone

  /** New field j gets the content of an old field of its name. */
  predicate HasKept(oldNames: seq<string>, oldFields: seq<string>, name: string)
    requires |oldFields| == |oldNames|
  {
    exists i :: 0 <= i < |oldNames| && oldNames[i] == name && oldFields[i] != ""
  }

  /** Old content that is in no new field was crowded out: every new field that does not keep
      content of its name holds content of an earlier old field, whose name is in no new one. */
  lemma NothingIsDroppedInVain(oldNames: seq<string>, oldFields: seq<string>, newNames: seq<string>,
                               before: seq<string>, after: seq<string>, i: nat, j: nat)
    requires |oldFields| == |oldNames| && Migrated(oldNames, oldFields, newNames, before, after)
    requires i < |oldNames| && oldFields[i] != "" && oldFields[i] !in after
    requires j < |newNames| && !HasKept(oldNames, oldFields, newNames[j])
    ensures oldNames[i] !in newNames
    ensures exists k :: 0 <= k < i && oldFields[k] != "" && oldNames[k] !in newNames && after[j] == oldFields[k]
  {
    var kept := Kept(oldNames, oldFields, newNames);
    var left := Left(oldNames, oldFields, kept);
    WhereContentGoes(oldNames, oldFields, newNames, before, after, i);
    WhereContentComesFrom(oldNames, oldFields, newNames, before, after, j);
    RankIs(SlotFlags(newNames, kept), j);
    PickedAre(LeftFlags(oldNames, oldFields, kept));
    var rank := Rank(SlotFlags(newNames, kept), j);
    assert left[rank] < i && after[j] == oldFields[left[rank]];
  }

  /** A new field keeps what it held, or holds content: of the old field of its name, if that
      has any, and else of an old field whose name is in no new one. */
  lemma NothingIsEmptied(oldNames: seq<string>, oldFields: seq<string>, newNames: seq<string>, before: seq<string>,
                         after: seq<string>, j: nat)
    requires |oldFields| == |oldNames| && Migrated(oldNames, oldFields, newNames, before, after)
    requires j < |newNames| && |before| == |after|
    ensures if HasKept(oldNames, oldFields, newNames[j])
            then exists i :: 0 <= i < |oldNames| && oldNames[i] == newNames[j]
                             && oldFields[i] != "" && after[j] == oldFields[i]
            else after[j] == before[j]
                 || exists i :: 0 <= i < |oldNames| && oldNames[i] !in newNames
                                && oldFields[i] != "" && after[j] == oldFields[i]
  {
    var kept := Kept(oldNames, oldFields, newNames);
    WhereContentComesFrom(oldNames, oldFields, newNames, before, after, j);
    PickedAre(LeftFlags(oldNames, oldFields, kept));
  }

  /** What moves keeps its order: of two new fields that hold the content of old fields moved
      there, the first holds that of the earlier. */
  lemma OrderIsKept(oldNames: seq<string>, oldFields: seq<string>, newNames: seq<string>, before: seq<string>,
                    after: seq<string>, j: nat, l: nat)
    requires |oldFields| == |oldNames| && Migrated(oldNames, oldFields, newNames, before, after)
    requires j < l < |newNames| && |before| == |after| && after[l] != before[l]
    requires !HasKept(oldNames, oldFields, newNames[j]) && !HasKept(oldNames, oldFields, newNames[l])
    ensures exists i, k :: 0 <= i < k < |oldNames| && oldFields[i] != "" && oldFields[k] != ""
                           && oldNames[i] !in newNames && oldNames[k] !in newNames
                           && after[j] == oldFields[i] && after[l] == oldFields[k]
  {
    var kept := Kept(oldNames, oldFields, newNames);
    var left := Left(oldNames, oldFields, kept);
    WhereContentComesFrom(oldNames, oldFields, newNames, before, after, j);
    WhereContentComesFrom(oldNames, oldFields, newNames, before, after, l);
    PickedAre(LeftFlags(oldNames, oldFields, kept));
    var flags := SlotFlags(newNames, kept);
    RankGrows(flags, j, l);
    assert left[Rank(flags, j)] < left[Rank(flags, l)];
  }

  lemma {:induction false} RankGrows(flags: seq<bool>, n: nat, m: nat)
    requires n < m <= |flags| && flags[n]
    ensures Rank(flags, n) < Rank(flags, m)
    decreases m
  {
    if n < m - 1 {
      RankGrows(flags, n, m - 1);
    }
  }
}
