/** The two passes over a translation file from parsing to parsing: what is written is read back
    as the rewritten entries, and the pass has nothing more to do. */
module DeprecationFiles {
  import opened Common
  import opened FluentSyntax
  import opened FluentSerializer
  import opened FluentEntries
  import opened FluentEntryReading
  import opened FluentEntryRoundTrip
  import Deprecation

  // Joining the texts of a body does not change what is chosen of it

  lemma {:induction false} JoinedSnoc(front: seq<Entry>, last: Entry)
    ensures JoinedBody(front + [last]) == JoinedBody(front) + if last.Junk? then [] else [JoinedEntry(last)]
  {
    var end := if last.Junk? then [] else [JoinedEntry(last)];
    if front == [] {
      assert front + [last] == [last] && [last][1..] == [];
      assert JoinedBody([last]) == end + [] && [] + end == end;
    } else {
      assert (front + [last])[1..] == front[1..] + [last];
      JoinedSnoc(front[1..], last);
      Associative(if front[0].Junk? then [] else [JoinedEntry(front[0])], JoinedBody(front[1..]), end);
    }
  }

  lemma {:induction false} JoinedParts(a: seq<Entry>, b: seq<Entry>)
    ensures JoinedBody(a + b) == JoinedBody(a) + JoinedBody(b)
  {
    if b == [] {
      assert a + b == a;
    } else {
      var front, last := b[..|b| - 1], b[|b| - 1];
      assert front + [last] == b;
      JoinedParts(a, front);
      JoinedSnoc(front, last);
      Associative(a, front, [last]);
      JoinedSnoc(a + front, last);
      Associative(JoinedBody(a), JoinedBody(front), if last.Junk? then [] else [JoinedEntry(last)]);
    }
  }

  lemma {:induction false} ChosenSnoc(front: seq<Entry>, last: Entry, kind: Deprecation.Kind, used: set<string>)
    ensures Deprecation.Chosen(front + [last], kind, used)
         == Deprecation.Chosen(front, kind, used) + if Deprecation.Is(last, kind, used) then [last] else []
  {
    assert (front + [last])[..|front|] == front;
  }

  lemma SameKind(entry: Entry, kind: Deprecation.Kind, used: set<string>)
    ensures Deprecation.Is(JoinedEntry(entry), kind, used) == Deprecation.Is(entry, kind, used)
  {
  }

  lemma {:induction false} JoinedChosen(body: seq<Entry>, kind: Deprecation.Kind, used: set<string>)
    ensures Deprecation.Chosen(JoinedBody(body), kind, used) == JoinedBody(Deprecation.Chosen(body, kind, used))
  {
    if body != [] {
      var front, last := body[..|body| - 1], body[|body| - 1];
      assert front + [last] == body;
      JoinedChosen(front, kind, used);
      JoinedSnoc(front, last);
      SameKind(last, kind, used);
      ChosenSnoc(front, last, kind, used);
      JoinedSnoc(Deprecation.Chosen(front, kind, used), last);
      ChosenSnoc(JoinedBody(front), JoinedEntry(last), kind, used);
      ChosenStep(body, front, last, kind, used);
    }
  }

  lemma {:induction false} ChosenStep(body: seq<Entry>, front: seq<Entry>, last: Entry, kind: Deprecation.Kind,
                                      used: set<string>)
    requires JoinedBody(body) == JoinedBody(front) + if last.Junk? then [] else [JoinedEntry(last)]
    requires Deprecation.Chosen(JoinedBody(front), kind, used) == JoinedBody(Deprecation.Chosen(front, kind, used))
    requires Deprecation.Is(JoinedEntry(last), kind, used) == Deprecation.Is(last, kind, used)
    requires Deprecation.Chosen(body, kind, used)
          == Deprecation.Chosen(front, kind, used) + if Deprecation.Is(last, kind, used) then [last] else []
    requires JoinedBody(Deprecation.Chosen(front, kind, used) + [last])
          == JoinedBody(Deprecation.Chosen(front, kind, used)) + if last.Junk? then [] else [JoinedEntry(last)]
    requires Deprecation.Chosen(JoinedBody(front) + [JoinedEntry(last)], kind, used)
          == Deprecation.Chosen(JoinedBody(front), kind, used)
             + if Deprecation.Is(JoinedEntry(last), kind, used) then [JoinedEntry(last)] else []
    ensures Deprecation.Chosen(JoinedBody(body), kind, used) == JoinedBody(Deprecation.Chosen(body, kind, used))
  {
    var chosen := Deprecation.Chosen(front, kind, used);
    assert chosen + [] == chosen && JoinedBody(front) + [] == JoinedBody(front);
    assert JoinedBody(chosen) + [] == JoinedBody(chosen);
  }

  // What is written

  lemma NotAllWhite(line: string)
    requires line != "" && line[0] == 'N'
    ensures !AllWhite(line)
  {
    assert 'N' as int !in WHITE_SPACE;
  }

  lemma LineIsWell(line: string)
    requires line != "" && line[0] == 'N' && line[|line| - 1] == '.' && '\n' !in line
    ensures var warning := GroupComment(Comment([line]));
            WellEntry(warning) && PatternsFit(warning) && CommentFits(warning)
  {
    NotAllWhite(line);
  }

  lemma {:induction false} WarningIsWell()
    ensures WellEntry(Deprecation.WARNING) && PatternsFit(Deprecation.WARNING) && CommentFits(Deprecation.WARNING)
    ensures JoinedEntry(Deprecation.WARNING) == Deprecation.WARNING
  {
    Deprecation.WarningIsOneLine();
    LineIsWell(Deprecation.DEPRECATION_WARNING);
  }

  /** What a pass makes of a body that can be read back can be read back too. */
  lemma PartsAreWell(body: seq<Entry>, r: seq<Entry>, used: set<string>)
    requires WellBody(body) && BodyFits(body)
    requires forall e :: e in r ==> e in body || e == Deprecation.WARNING
    ensures WellBody(r) && BodyFits(r)
  {
    WarningIsWell();
    forall i | 0 <= i < |r|
      ensures WellEntry(r[i]) && PatternsFit(r[i]) && CommentFits(r[i])
    {
      assert r[i] in r;
    }
  }

  lemma {:induction false} DeprecatedIsWell(body: seq<Entry>, used: set<string>)
    requires WellBody(body) && BodyFits(body) && Deprecation.Deprecated(body, used).Some?
    ensures var r := Deprecation.Deprecated(body, used).value;
            WellBody(r) && BodyFits(r)
  {
    var r := Deprecation.Deprecated(body, used).value;
    forall e | e in r
      ensures e in body || e == Deprecation.WARNING
    {
      Deprecation.ChosenHas(body, Deprecation.Unused, used, e);
      Deprecation.ChosenHas(body, Deprecation.Used, used, e);
      Deprecation.ChosenHas(Deprecation.Chosen(body, Deprecation.Used, used), Deprecation.Plain, used, e);
    }
    PartsAreWell(body, r, used);
  }

  /** A file that is rewritten with a warning is read back as the entries written, and another
      pass over it would write the same entries. */
  lemma {:induction false} DeprecatedFileStays(body: seq<Entry>, used: set<string>)
    requires WellBody(body) && BodyFits(body) && Deprecation.Deprecated(body, used).Some?
    ensures var r := Deprecation.Deprecated(body, used).value;
            && ReadResource(PutBody(r, false).text) == Some(JoinedBody(r))
            && Deprecation.Deprecated(JoinedBody(r), used) == Some(JoinedBody(r))
  {
    var r := Deprecation.Deprecated(body, used).value;
    var kept, unused := Deprecation.Kept(body, used), Deprecation.Chosen(body, Deprecation.Unused, used);
    DeprecatedIsWell(body, used);
    PrintedResourceReadsBack(r, false);
    Deprecation.SecondTime(body, used);
    JoinedChosen(r, Deprecation.Unused, used);
    JoinedChosen(r, Deprecation.Used, used);
    JoinedChosen(Deprecation.Chosen(r, Deprecation.Used, used), Deprecation.Plain, used);
    JoinedIs(kept, unused);
    SomeUnusedStays(body, used);
  }

  lemma JoinedIs(kept: seq<Entry>, unused: seq<Entry>)
    ensures JoinedBody(kept + [Deprecation.WARNING] + unused)
         == JoinedBody(kept) + [Deprecation.WARNING] + JoinedBody(unused)
  {
    WarningIsWell();
    JoinedSnoc(kept, Deprecation.WARNING);
    JoinedParts(kept + [Deprecation.WARNING], unused);
  }

  lemma {:induction false} SomeUnusedStays(body: seq<Entry>, used: set<string>)
    requires Deprecation.Chosen(body, Deprecation.Unused, used) != []
    ensures JoinedBody(Deprecation.Chosen(body, Deprecation.Unused, used)) != []
  {
    var unused := Deprecation.Chosen(body, Deprecation.Unused, used);
    Deprecation.ChosenHas(body, Deprecation.Unused, used, unused[0]);
    assert unused[0] in unused && !unused[0].Junk?;
  }

  /** A file that entries are taken out of is read back without them, and another pass over it
      takes nothing out. */
  lemma {:induction false} StrippedFileStays(body: seq<Entry>, used: set<string>)
    requires WellBody(body) && BodyFits(body) && Deprecation.Stripped(body, used).Some?
    ensures var r := Deprecation.Stripped(body, used).value;
            && ReadResource(PutBody(r, false).text) == Some(JoinedBody(r))
            && Deprecation.Stripped(JoinedBody(r), used) == None
  {
    var r := Deprecation.Stripped(body, used).value;
    forall e | e in r
      ensures e in body || e == Deprecation.WARNING
    {
      Deprecation.ChosenHas(body, Deprecation.Used, used, e);
    }
    PartsAreWell(body, r, used);
    PrintedResourceReadsBack(r, false);
    Deprecation.StripOnce(body, used);
    JoinedChosen(r, Deprecation.Unused, used);
  }
}
