/** The lines of a pattern: what the serializer shows of them, and which it changes. */
module FluentLines {
  import opened Common
  import opened FluentSyntax
  import opened FluentSerializer
  import opened FluentReading
  import opened FluentPatterns
  import opened FluentPieces

  lemma {:induction false} TrimStartIs(value: string)
    ensures |TrimStart(value)| <= |value| && value[|value| - |TrimStart(value)|..] == TrimStart(value)
    ensures forall i :: 0 <= i < |value| - |TrimStart(value)| ==> value[i] == ' '
    ensures !Starts(TrimStart(value), ' ')
    ensures Starts(value, ' ') ==> |TrimStart(value)| < |value|
    ensures !Starts(value, ' ') ==> TrimStart(value) == value
  {
    if Starts(value, ' ') {
      TrimStartIs(value[1..]);
      var n := |value| - |TrimStart(value)|;
      assert value[n..] == value[1..][n - 1..];
      assert forall i :: 1 <= i < n ==> value[i] == value[1..][i - 1];
    }
  }

  /** The elements as they are shown: without the spaces at the start of a line, and joined. */
  function Shown(atStart: bool, elements: seq<Element>): seq<Element>
    decreases elements
  {
    if elements == [] then []
    else if elements[0].Text? then
      Prepend(Visible(elements[0].value, atStart), Shown(EndsLine(elements[0]), elements[1..]))
    else [JoinedElement(elements[0])] + Shown(false, elements[1..])
  }

  lemma {:induction false} ShownIsJoined(atStart: bool, elements: seq<Element>)
    requires LinesFlush(atStart, elements)
    ensures Shown(atStart, elements) == JoinedElements(elements)
    decreases elements
  {
    if elements != [] {
      ShownIsJoined(EndsLine(elements[0]), elements[1..]);
      if elements[0].Text? {
        TrimStartIs(elements[0].value);
      }
    }
  }

  /** How much text there is. */
  function Size(elements: seq<Element>): nat {
    if elements == [] then 0
    else (if elements[0].Text? then |elements[0].value| else 0) + Size(elements[1..])
  }

  lemma {:induction false} PrependSize(text: string, elements: seq<Element>)
    ensures Size(Prepend(text, elements)) == |text| + Size(elements)
  {
    if text != "" {
      assert Prepend(text, elements)[1..] == if elements != [] && elements[0].Text? then elements[1..] else elements;
    }
  }

  /** Spaces at the start of a line are lost. */
  lemma {:induction false} ShownSize(atStart: bool, elements: seq<Element>)
    ensures Size(Shown(atStart, elements)) <= Size(JoinedElements(elements))
    ensures !LinesFlush(atStart, elements) ==> Size(Shown(atStart, elements)) < Size(JoinedElements(elements))
    decreases elements
  {
    if elements != [] {
      var more := elements[1..];
      ShownSize(EndsLine(elements[0]), more);
      if elements[0].Text? {
        TrimStartIs(elements[0].value);
        PrependSize(Visible(elements[0].value, atStart), Shown(EndsLine(elements[0]), more));
        PrependSize(elements[0].value, JoinedElements(more));
      } else {
        assert Shown(atStart, elements)[1..] == Shown(false, more);
        assert JoinedElements(elements)[1..] == JoinedElements(more);
      }
    }
  }

  lemma {:induction false} JoinedExpressions(elements: seq<Element>)
    requires elements != []
    ensures ElementExpressions(JoinedElements(elements))
         == (if elements[0].Placed? then [JoinedElement(elements[0]).expression] else [])
            + ElementExpressions(JoinedElements(elements[1..]))
  {
    if elements[0].Text? {
      PrependExpressions(elements[0].value, JoinedElements(elements[1..]));
    } else {
      assert JoinedElements(elements)[1..] == JoinedElements(elements[1..]);
    }
  }

  // The ends

  predicate AllTexts(elements: seq<Element>) {
    forall i :: 0 <= i < |elements| && elements[i].Text? ==> IsText(elements[i].value)
  }

  lemma PrependEnds(text: string, elements: seq<Element>)
    requires if elements == [] then Ends(text) else EndsWell(elements)
    ensures Prepend(text, elements) != [] && EndsWell(Prepend(text, elements))
  {
  }

  lemma {:induction false} ShownEnds(atStart: bool, elements: seq<Element>)
    requires elements != [] && EndsWell(elements)
    ensures Shown(atStart, elements) != [] && EndsWell(Shown(atStart, elements))
    decreases elements
  {
    var more := elements[1..];
    if more != [] {
      ShownEnds(EndsLine(elements[0]), more);
    }
    if elements[0].Text? {
      if more == [] {
        VisibleEnds(elements[0].value, atStart);
      }
      PrependEnds(Visible(elements[0].value, atStart), Shown(EndsLine(elements[0]), more));
    }
  }

  lemma {:induction false} VisibleEnds(value: string, atStart: bool)
    requires Ends(value)
    ensures Ends(Visible(value, atStart))
  {
    TrimStartIs(value);
    var n := |value| - |TrimStart(value)|;
    var last := value[|value| - 1];
    assert TrimStart(value) == "" ==> last == ' ';
    assert value[n..][|value| - n - 1] == value[|value| - 1];
  }

  predicate NoNewlineFirst(elements: seq<Element>) {
    elements != [] && elements[0].Text? ==> elements[0].value != "" && elements[0].value[0] != '\n'
  }

  lemma {:induction false} ShownStarts(elements: seq<Element>)
    requires elements != [] && StartsWell(elements)
    ensures NoNewlineFirst(Shown(true, elements))
  {
    if elements[0].Text? && TrimStart(elements[0].value) == "" {
      assert elements[1..][0] == elements[1];
      TrimStartIs(elements[0].value);
    }
  }

  lemma {:induction false} BreakIsTrimmed(elements: seq<Element>)
    requires NoNewlineFirst(elements)
    ensures WithoutFirst(Prepend("\n", elements)) == elements
  {
    if elements != [] && elements[0].Text? {
      var text := "\n" + elements[0].value;
      assert text[1..] == elements[0].value;
      assert TrimNewlines(text) == elements[0].value;
    } else {
      assert "\n"[1..] == "";
      assert TrimNewlines("\n") == "";
    }
  }

  lemma {:induction false} NoSpaceIsTrimmed(elements: seq<Element>)
    requires EndsWell(elements)
    ensures WithoutLast(elements) == elements
  {
  }

  lemma {:induction false} NothingIsTrimmed(elements: seq<Element>)
    requires NoNewlineFirst(elements)
    ensures WithoutFirst(elements) == elements
  {
  }

  // Lines that start with what starts a variant

  lemma NotCleanAfter(text: string, more: string)
    requires !Clean(more)
    ensures !Clean(text + more)
  {
    var i, k :| 0 <= i < k < |more| && more[i] == '\n' && BlankBetween(more, i, k) && !MayStartLine(more[k]);
    var whole := text + more;
    assert whole[|text| + i] == more[i] && whole[|text| + k] == more[k];
    assert BlankBetween(whole, |text| + i, |text| + k) by {
      assert forall j :: |text| + i < j < |text| + k ==> whole[j] == more[j - |text|];
    }
  }

  lemma NotCleanBefore(text: string, more: string)
    requires !Clean(text)
    ensures !Clean(text + more)
  {
    var i, k :| 0 <= i < k < |text| && text[i] == '\n' && BlankBetween(text, i, k) && !MayStartLine(text[k]);
    var whole := text + more;
    assert whole[i] == text[i] && whole[k] == text[k];
    assert BlankBetween(whole, i, k);
  }

  lemma PrependNotClean(text: string, elements: seq<Element>)
    requires !AllClean(elements)
    ensures !AllClean(Prepend(text, elements))
  {
    var i :| 0 <= i < |elements| && elements[i].Text? && !Clean(elements[i].value);
    var r := Prepend(text, elements);
    if text == "" {
    } else if elements[0].Text? {
      if i == 0 {
        NotCleanAfter(text, elements[0].value);
        assert r[0].Text? && !Clean(r[0].value);
      } else {
        assert r[i] == elements[i];
      }
    } else {
      assert r[i + 1] == elements[i];
    }
  }

  lemma ConsNotClean(element: Element, elements: seq<Element>)
    requires !AllClean(elements)
    ensures !AllClean([element] + elements)
  {
    var i :| 0 <= i < |elements| && elements[i].Text? && !Clean(elements[i].value);
    assert ([element] + elements)[i + 1] == elements[i];
  }

  /** A line end before a text that does not start a line plainly. */
  lemma {:induction false} BadLine(line: string, next: Element, more: seq<Element>)
    requires AtLineStart(line) && !MayStart(next)
    ensures !AllClean(Prepend(line, Prepend(next.value, more)))
  {
    var value := next.value;
    TrimStartIs(value);
    var text := line + value;
    var i, k := |line| - 1, |line| + |value| - |TrimStart(value)|;
    assert text[k] == value[k - |line|] == TrimStart(value)[0];
    assert forall j :: i < j < k ==> text[j] == value[j - |line|];
    assert text[i] == '\n' && BlankBetween(text, i, k);
    PrependTwice(line, value, more);
    if more != [] && more[0].Text? {
      NotCleanBefore(text, more[0].value);
    }
    assert Prepend(text, more)[0].Text? && !Clean(Prepend(text, more)[0].value);
  }

  /** A line after the first that does not start plainly shows in the joined elements. */
  lemma {:induction false} BadLineShows(elements: seq<Element>)
    requires elements != [] && !LinesPlain(EndsLine(elements[0]), elements[1..])
    ensures !AllClean(JoinedElements(elements))
    decreases elements
  {
    var first, more := elements[0], elements[1..];
    if EndsLine(first) && !MayStart(more[0]) {
      BadLine(first.value, more[0], JoinedElements(more[1..]));
    } else {
      BadLineShows(more);
      if first.Text? {
        PrependNotClean(first.value, JoinedElements(more));
      } else {
        ConsNotClean(JoinedElement(first), JoinedElements(more));
      }
    }
  }
}
