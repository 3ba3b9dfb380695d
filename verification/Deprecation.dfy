/** The passes over a parsed translation file that move unused entries below a deprecation
    warning, or take them out. */
module Deprecation {
  import opened Common
  import opened FluentSyntax

  const DEPRECATION_WARNING :=
    "NO NEED TO TRANSLATE. " + "This text is no longer used by Anki, " + "and will be removed in the future."

  const WARNING := GroupComment(Comment([DEPRECATION_WARNING]))

  /** entry_use_check */
  predicate InUse(entry: Entry, used: set<string>) {
    match entry
    case MessageEntry(message) => message.id in used
    case TermEntry(term) => term.id in used
    case _ => true
  }

  /** A group comment whose first line is the warning, whatever its other lines are. */
  predicate IsWarning(entry: Entry) {
    entry.GroupComment? && entry.comment.content != [] && entry.comment.content[0] == DEPRECATION_WARNING
  }

  // What is kept, and where

  datatype Kind = Used | Unused | Plain

  predicate Is(entry: Entry, kind: Kind, used: set<string>) {
    match kind
    case Used => InUse(entry, used)
    case Unused => !InUse(entry, used)
    case Plain => !IsWarning(entry)
  }

  /** The entries of one kind, in order. */
  function Chosen(body: seq<Entry>, kind: Kind, used: set<string>): seq<Entry> {
    if body == [] then []
    else
      Chosen(body[..|body| - 1], kind, used)
      + if Is(body[|body| - 1], kind, used) then [body[|body| - 1]] else []
  }

  /** The used entries that are no warning. */
  function Kept(body: seq<Entry>, used: set<string>): seq<Entry> { Chosen(Chosen(body, Used, used), Plain, used) }

  /** The body a file is rewritten with, if it is. */
  function Deprecated(body: seq<Entry>, used: set<string>): Option<seq<Entry>> {
    if Chosen(body, Unused, used) == [] then None
    else Some(Kept(body, used) + [WARNING] + Chosen(body, Unused, used))
  }

  function Stripped(body: seq<Entry>, used: set<string>): Option<seq<Entry>> {
    if Chosen(body, Unused, used) == [] then None else Some(Chosen(body, Used, used))
  }

  // The passes

  class EntryList {
    var entries: seq<Entry>

    constructor (entries: seq<Entry>)
      ensures this.entries == entries
    {
      this.entries := entries;
    }

    method RetainPlain()
      modifies this
      ensures entries == Chosen(old(entries), Plain, {})
    {
      var all, kept: seq<Entry> := entries, [];
      for i := 0 to |all|
        invariant kept == Chosen(all[..i], Plain, {}) && entries == old(entries)
      {
        assert all[..i + 1][..i] == all[..i];
        if !IsWarning(all[i]) {
          kept := kept + [all[i]];
        }
      }
      assert all[..|all|] == all;
      entries := kept;
    }

    method RetainUsed(used: set<string>)
      modifies this
      ensures entries == Chosen(old(entries), Used, used)
    {
      var all, kept: seq<Entry> := entries, [];
      for i := 0 to |all|
        invariant kept == Chosen(all[..i], Used, used) && entries == old(entries)
      {
        assert all[..i + 1][..i] == all[..i];
        if InUse(all[i], used) {
          kept := kept + [all[i]];
        }
      }
      assert all[..|all|] == all;
      entries := kept;
    }

    /** append_deprecation_warning */
    method AppendDeprecationWarning()
      modifies this
      ensures entries == Chosen(old(entries), Plain, {}) + [WARNING]
    {
      RetainPlain();
      entries := entries + [WARNING];
    }
  }

  method Partition(body: seq<Entry>, used: set<string>) returns (inUse: seq<Entry>, unused: seq<Entry>)
    ensures inUse == Chosen(body, Used, used) && unused == Chosen(body, Unused, used)
  {
    inUse, unused := [], [];
    for i := 0 to |body|
      invariant inUse == Chosen(body[..i], Used, used) && unused == Chosen(body[..i], Unused, used)
    {
      assert body[..i + 1][..i] == body[..i];
      if InUse(body[i], used) {
        inUse := inUse + [body[i]];
      } else {
        unused := unused + [body[i]];
      }
    }
    assert body[..|body|] == body;
  }

  /** deprecate_unused_ftl_messages_and_terms, for one file */
  method Deprecate(body: seq<Entry>, used: set<string>) returns (r: Option<seq<Entry>>)
    ensures r == Deprecated(body, used)
  {
    var inUse, unused := Partition(body, used);
    if unused == [] {
      return None;
    }
    var list := new EntryList(inUse);
    list.AppendDeprecationWarning();
    PlainAnyway(inUse, used);
    list.entries := list.entries + unused;
    return Some(list.entries);
  }

  /** strip_unused_ftl_messages_and_terms, for one file */
  method Strip(body: seq<Entry>, used: set<string>) returns (r: Option<seq<Entry>>)
    ensures r == Stripped(body, used)
  {
    var list := new EntryList(body);
    list.RetainUsed(used);
    Sizes(body, used);
    return if |list.entries| < |body| then Some(list.entries) else None;
  }

  lemma {:induction false} PlainAnyway(body: seq<Entry>, used: set<string>)
    ensures Chosen(body, Plain, used) == Chosen(body, Plain, {})
  {
    if body != [] {
      PlainAnyway(body[..|body| - 1], used);
    }
  }

  lemma {:induction false} Sizes(body: seq<Entry>, used: set<string>)
    ensures |Chosen(body, Used, used)| + |Chosen(body, Unused, used)| == |body|
  {
    if body != [] {
      Sizes(body[..|body| - 1], used);
    }
  }

  // What the deprecation pass keeps

  lemma {:induction false} ChosenAppend(a: seq<Entry>, b: seq<Entry>, kind: Kind, used: set<string>)
    ensures Chosen(a + b, kind, used) == Chosen(a, kind, used) + Chosen(b, kind, used)
  {
    if b == [] {
      assert a + b == a;
    } else {
      var front := b[..|b| - 1];
      ChosenAppend(a, front, kind, used);
      assert (a + b)[..|a + b| - 1] == a + front;
    }
  }

  predicate All(body: seq<Entry>, kind: Kind, used: set<string>) {
    forall i :: 0 <= i < |body| ==> Is(body[i], kind, used)
  }

  lemma {:induction false} ChosenIs(body: seq<Entry>, kind: Kind, used: set<string>)
    ensures All(Chosen(body, kind, used), kind, used)
    ensures All(body, kind, used) ==> Chosen(body, kind, used) == body
  {
    if body != [] {
      ChosenIs(body[..|body| - 1], kind, used);
    }
  }

  /** Choosing by one kind and then by another leaves only entries of both. */
  lemma {:induction false} ChosenBoth(body: seq<Entry>, kind: Kind, other: Kind, used: set<string>)
    requires All(body, kind, used)
    ensures All(Chosen(body, other, used), kind, used)
  {
    if body != [] {
      ChosenBoth(body[..|body| - 1], kind, other, used);
    }
  }

  lemma {:induction false} ChosenNone(body: seq<Entry>, kind: Kind, used: set<string>)
    requires forall i :: 0 <= i < |body| ==> !Is(body[i], kind, used)
    ensures Chosen(body, kind, used) == []
  {
    if body != [] {
      ChosenNone(body[..|body| - 1], kind, used);
    }
  }

  lemma PartsAre(body: seq<Entry>, used: set<string>)
    ensures All(Kept(body, used), Used, used) && All(Kept(body, used), Plain, used)
    ensures All(Chosen(body, Unused, used), Unused, used)
  {
    ChosenIs(body, Used, used);
    ChosenBoth(Chosen(body, Used, used), Used, Plain, used);
    ChosenIs(Chosen(body, Used, used), Plain, used);
    ChosenIs(body, Unused, used);
  }

  lemma Layout(kept: seq<Entry>, unused: seq<Entry>, used: set<string>, i: nat)
    requires All(kept, Used, used) && All(kept, Plain, used) && All(unused, Unused, used)
    requires i < |kept| + 1 + |unused|
    ensures var r := kept + [WARNING] + unused;
            (IsWarning(r[i]) <==> i == |kept|) && (InUse(r[i], used) <==> i <= |kept|)
  {
    if i < |kept| {
      assert Is(kept[i], Plain, used) && Is(kept[i], Used, used);
    } else if i > |kept| {
      assert Is(unused[i - |kept| - 1], Unused, used);
    }
  }

  /** The three parts of a rewritten body: used entries that are no warning, the one
      warning, and the unused entries. */
  lemma OneWarning(body: seq<Entry>, used: set<string>)
    requires Deprecated(body, used).Some?
    ensures var r, n := Deprecated(body, used).value, |Kept(body, used)|;
            && n < |r| && r[n] == WARNING && r[n + 1..] == Chosen(body, Unused, used) != []
            && (forall i :: 0 <= i < |r| ==> (IsWarning(r[i]) <==> i == n))
            && (forall i :: 0 <= i < |r| ==> (InUse(r[i], used) <==> i <= n))
  {
    var kept, unused := Kept(body, used), Chosen(body, Unused, used);
    var r := kept + [WARNING] + unused;
    PartsAre(body, used);
    assert r[|kept| + 1..] == unused;
    forall i | 0 <= i < |r|
      ensures (IsWarning(r[i]) <==> i == |kept|) && (InUse(r[i], used) <==> i <= |kept|)
    {
      Layout(kept, unused, used, i);
    }
  }

  /** Choosing the used entries again, or the unused ones, gives those of the body it came
      from, so the pass changes nothing the second time. */
  lemma SecondTime(body: seq<Entry>, used: set<string>)
    requires Deprecated(body, used).Some?
    ensures var r := Deprecated(body, used).value;
            && Kept(r, used) == Kept(body, used)
            && Chosen(r, Unused, used) == Chosen(body, Unused, used)
            && Deprecated(r, used) == Some(r)
            && Stripped(r, used) == Some(Kept(body, used) + [WARNING])
  {
    var kept, unused := Kept(body, used), Chosen(body, Unused, used);
    var r := kept + [WARNING] + unused;
    PartsAre(body, used);
    ChosenParts(kept, unused, used);
    var head := kept + [WARNING];
    ChosenAppend(kept, [WARNING], Plain, used);
    ChosenIs(kept, Plain, used);
    assert Chosen([WARNING], Plain, used) == [];
    assert Chosen(r, Used, used) == head;
  }

  lemma ChosenParts(kept: seq<Entry>, unused: seq<Entry>, used: set<string>)
    requires All(kept, Used, used) && All(unused, Unused, used)
    ensures Chosen(kept + [WARNING] + unused, Used, used) == kept + [WARNING]
    ensures Chosen(kept + [WARNING] + unused, Unused, used) == unused
  {
    var head := kept + [WARNING];
    assert All(head, Used, used);
    ChosenAppend(head, unused, Used, used);
    ChosenIs(head, Used, used);
    ChosenNone(unused, Used, used);
    ChosenAppend(head, unused, Unused, used);
    ChosenNone(head, Unused, used);
    ChosenIs(unused, Unused, used);
  }

  lemma PlainParts(kept: seq<Entry>, unused: seq<Entry>, used: set<string>)
    requires All(kept, Plain, used) && All(unused, Unused, used)
    ensures Chosen(kept + [WARNING] + unused, Plain, used) == kept + unused
  {
    ChosenAppend(kept + [WARNING], unused, Plain, used);
    ChosenAppend(kept, [WARNING], Plain, used);
    ChosenIs(kept, Plain, used);
    UnusedArePlain(unused, used);
    assert Chosen([WARNING], Plain, used) == [];
    assert kept + [] == kept;
  }

  /** No entry but a warning is lost or made. */
  lemma NothingIsLost(body: seq<Entry>, used: set<string>)
    requires Deprecated(body, used).Some?
    ensures multiset(Chosen(Deprecated(body, used).value, Plain, used)) == multiset(Chosen(body, Plain, used))
  {
    PartsAre(body, used);
    PlainParts(Kept(body, used), Chosen(body, Unused, used), used);
    PlainSplits(body, used);
  }

  lemma UnusedArePlain(unused: seq<Entry>, used: set<string>)
    requires All(unused, Unused, used)
    ensures Chosen(unused, Plain, used) == unused
  {
    forall i | 0 <= i < |unused|
      ensures Is(unused[i], Plain, used)
    {
      assert Is(unused[i], Unused, used);
    }
    ChosenIs(unused, Plain, used);
  }

  lemma KeptNext(body: seq<Entry>, entry: Entry, used: set<string>)
    ensures Kept(body + [entry], used)
         == Kept(body, used) + if InUse(entry, used) && !IsWarning(entry) then [entry] else []
  {
    var inUse := Chosen(body, Used, used);
    assert (body + [entry])[..|body|] == body;
    if InUse(entry, used) {
      assert (inUse + [entry])[..|inUse|] == inUse;
    } else {
      assert inUse + [] == inUse;
    }
  }

  /** What is no warning is used and no warning, or unused. */
  lemma {:induction false} PlainSplits(body: seq<Entry>, used: set<string>)
    ensures multiset(Chosen(body, Plain, used)) == multiset(Kept(body, used)) + multiset(Chosen(body, Unused, used))
  {
    if body != [] {
      var front, last := body[..|body| - 1], body[|body| - 1];
      assert front + [last] == body;
      PlainSplits(front, used);
      KeptNext(front, last, used);
      ChosenNext(front, last, Plain, used);
      ChosenNext(front, last, Unused, used);
      Grown(Kept(front, used), last, InUse(last, used) && !IsWarning(last));
    }
  }

  lemma ChosenNext(body: seq<Entry>, entry: Entry, kind: Kind, used: set<string>)
    ensures multiset(Chosen(body + [entry], kind, used))
         == multiset(Chosen(body, kind, used)) + if Is(entry, kind, used) then multiset{entry} else multiset{}
  {
    assert (body + [entry])[..|body|] == body;
    Grown(Chosen(body, kind, used), entry, Is(entry, kind, used));
  }

  /** Taking the unused entries out leaves nothing to take out. */
  lemma StripOnce(body: seq<Entry>, used: set<string>)
    requires Stripped(body, used).Some?
    ensures Stripped(Stripped(body, used).value, used) == None
    ensures |Stripped(body, used).value| < |body|
  {
    var inUse := Chosen(body, Used, used);
    Sizes(body, used);
    ChosenIs(body, Used, used);
    forall i | 0 <= i < |inUse|
      ensures !Is(inUse[i], Unused, used)
    {
      assert Is(inUse[i], Used, used);
    }
    ChosenNone(inUse, Unused, used);
  }

  // The same in plain terms

  lemma {:induction false} ChosenHas(body: seq<Entry>, kind: Kind, used: set<string>, entry: Entry)
    ensures entry in Chosen(body, kind, used) <==> entry in body && Is(entry, kind, used)
  {
    if body != [] {
      var front, last := body[..|body| - 1], body[|body| - 1];
      assert front + [last] == body;
      ChosenHas(front, kind, used, entry);
    }
  }

  /** A message or a term whose name is in no use. */
  predicate NamedInVain(entry: Entry, used: set<string>) {
    (entry.MessageEntry? && entry.message.id !in used) || (entry.TermEntry? && entry.term.id !in used)
  }

  /** A file is rewritten just when it has such an entry. Those entries, and no others, end up
      below the warning, and above it everything else but the warnings of earlier passes. */
  lemma WhoIsBelow(body: seq<Entry>, used: set<string>, entry: Entry)
    ensures Deprecated(body, used).Some? <==> exists e :: e in body && NamedInVain(e, used)
    ensures Stripped(body, used).Some? <==> exists e :: e in body && NamedInVain(e, used)
    ensures Stripped(body, used).Some? ==>
              (entry in Stripped(body, used).value <==> entry in body && !NamedInVain(entry, used))
    ensures Deprecated(body, used).Some? ==>
              var r, n := Deprecated(body, used).value, |Kept(body, used)|;
              && n < |r|
              && r[n] == GroupComment(Comment([
                   "NO NEED TO TRANSLATE. " + "This text is no longer used by Anki, "
                   + "and will be removed in the future."]))
              && (entry in r[n + 1..] <==> entry in body && NamedInVain(entry, used))
              && (entry in r[..n] <==>
                    entry in body && !NamedInVain(entry, used)
                    && !(entry.GroupComment? && entry.comment.content != []
                         && entry.comment.content[0] == r[n].comment.content[0]))
  {
    SomeUnused(body, used);
    ChosenHas(body, Used, used, entry);
    ChosenHas(body, Unused, used, entry);
    ChosenHas(Chosen(body, Used, used), Plain, used, entry);
    if Deprecated(body, used).Some? {
      var kept, unused := Kept(body, used), Chosen(body, Unused, used);
      var r := kept + [WARNING] + unused;
      assert r[..|kept|] == kept && r[|kept| + 1..] == unused;
    }
  }

  lemma SomeUnused(body: seq<Entry>, used: set<string>)
    ensures Chosen(body, Unused, used) != [] <==> exists e :: e in body && NamedInVain(e, used)
  {
    if Chosen(body, Unused, used) != [] {
      ChosenHas(body, Unused, used, Chosen(body, Unused, used)[0]);
    }
    forall e | e in body && NamedInVain(e, used)
      ensures Chosen(body, Unused, used) != []
    {
      ChosenHas(body, Unused, used, e);
    }
  }

  lemma NoLineBreak()
    ensures '\n' !in "NO NEED TO TRANSLATE. " && '\n' !in "and will be removed in the future."
  {
  }

  lemma NorHere()
    ensures '\n' !in "This text is no longer used by Anki, "
  {
  }

  /** The warning is a line that is printed as it is. */
  lemma WarningIsOneLine()
    ensures var line := DEPRECATION_WARNING;
            line != "" && line[0] == 'N' && line[|line| - 1] == '.' && '\n' !in line
  {
    NoLineBreak();
    NorHere();
  }
}
