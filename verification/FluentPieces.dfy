/** What a pattern's text is read as, piece by piece, and what the pieces are joined to. */
module FluentPieces {
  import opened Common
  import opened FluentSyntax
  import opened FluentSerializer
  import opened FluentReading
  import opened FluentPatterns

  // Words

  predicate IsPlain(text: string) { forall i :: 0 <= i < |text| ==> text[i] !in "{}\n\r" }

  lemma {:induction false} TextLengthOf(text: string, t: string)
    requires IsPlain(text)
    ensures TextLength(text + t) == |text| + TextLength(t)
  {
    if text == "" {
      assert text + t == t;
    } else {
      assert (text + t)[1..] == text[1..] + t;
      TextLengthOf(text[1..], t);
    }
  }

  function AddWords(text: string, pieces: seq<Piece>): seq<Piece> {
    if text == "" then pieces
    else if pieces != [] && pieces[0].Words? then [Words(text + pieces[0].text)] + pieces[1..]
    else [Words(text)] + pieces
  }

  lemma {:induction false} ReadWords(text: string, t: string)
    requires IsPlain(text) && text != ""
    ensures var n := TextLength(t);
            ReadPieces(text + t) == FluentPatterns.Before(Words(text + t[..n]), ReadPieces(t[n..]))
  {
    var n := TextLength(t);
    TextLengthOf(text, t);
    assert (text + t)[..|text| + n] == text + t[..n] && (text + t)[|text| + n..] == t[n..];
  }

  /** Words before what is read are more of its first words, or words of their own. */
  lemma {:induction false} WordsRead(text: string, t: string)
    requires IsPlain(text)
    ensures ReadPieces(text + t)
         == match ReadPieces(t)
            case Some((pieces, rest)) => Some((AddWords(text, pieces), rest))
            case None => None
  {
    if text == "" {
      assert text + t == t;
    } else {
      ReadWords(text, t);
      if TextLength(t) == 0 {
        assert text + t[..0] == text && t[0..] == t;
      }
    }
  }

  // Breaks

  lemma {:induction false} BlanksShift(s: string, lines: nat, indent: nat, k: nat)
    ensures var b := Blanks(s, lines, indent);
            Blanks(s, lines + k, indent) == (b.0 + k, b.1, b.2)
    decreases |s|
  {
    if Starts(s, ' ') {
      BlanksShift(s[1..], lines, indent + 1, k);
    } else if LineEnd(s).Some? {
      BlanksShift(LineEnd(s).value, lines + 1, 0, k);
    }
  }

  lemma {:induction false} BlanksOfSpaces(n: nat, t: string, lines: nat, indent: nat)
    ensures Blanks(Spaces(n) + t, lines, indent) == Blanks(t, lines, indent + n)
    decreases n
  {
    if n == 0 {
      assert Spaces(n) + t == t;
    } else {
      assert (Spaces(n) + t)[1..] == Spaces(n - 1) + t;
      BlanksOfSpaces(n - 1, t, lines, indent + 1);
    }
  }

  lemma {:induction false} NewlineThen(t: string)
    ensures LineEnd("\n" + t) == Some(t) && SkipBlank("\n" + t) == SkipBlank(t) && SkipInline("\n" + t) == "\n" + t
    ensures Blanks("\n" + t, 0, 0) == Blanks(t, 1, 0)
  {
    assert ("\n" + t)[1..] == t;
  }

  /** Neither blank nor the end of a placeable. */
  predicate Begins(text: string) { text != "" && text[0] !in " }\n\r" }

  lemma BeginsBlanks(text: string, lines: nat, indent: nat)
    requires Begins(text)
    ensures Blanks(text, lines, indent) == (lines, indent, text) && SkipInline(text) == text && LineEnd(text).None?
    ensures text[0] == '{' || TextLength(text) > 0
  {
  }

  function AddBreak(indent: nat, pieces: seq<Piece>): seq<Piece> {
    if pieces != [] && pieces[0].Break? then [Break(pieces[0].lines + 1, pieces[0].indent)] + pieces[1..]
    else [Break(1, indent)] + pieces
  }

  predicate GoesOn(t: string) {
    (Begins(t) && MayStartLine(t[0])) || (Starts(t, '\n') && Block(t).Some?)
  }

  lemma {:induction false} BlockOf(n: nat, t: string)
    requires n > 0
    ensures var s := "\n" + (Spaces(n) + t);
            && (Begins(t) && MayStartLine(t[0]) ==> Block(s) == Some((1, n, t)))
            && (Begins(t) && !MayStartLine(t[0]) ==> Block(s) == None)
            && (Starts(t, '\n') && Block(t).Some? ==>
                  Block(s) == Some((Block(t).value.0 + 1, Block(t).value.1, Block(t).value.2)))
  {
    var s := "\n" + (Spaces(n) + t);
    NewlineThen(Spaces(n) + t);
    BlanksOfSpaces(n, t, 1, 0);
    if Begins(t) {
      BeginsBlanks(t, 1, n);
    } else if Starts(t, '\n') {
      BlanksShift(t[1..], 1, 0, 1);
    }
  }

  lemma {:induction false} ReadBreak(s: string)
    requires Starts(s, '\n')
    ensures ReadPieces(s) == match Block(s)
                             case Some((lines, indent, t)) => FluentPatterns.Before(Break(lines, indent), ReadPieces(t))
                             case None => Some(([], s))
  {
  }

  /** What goes on after a break, or a break before a blank line. */
  lemma {:induction false} BreakRead(n: nat, t: string)
    requires n > 0 && GoesOn(t)
    ensures var s := "\n" + (Spaces(n) + t);
            && Block(s).Some?
            && ReadPieces(s) == match ReadPieces(t)
                                case Some((pieces, rest)) => Some((AddBreak(n, pieces), rest))
                                case None => None
  {
    BlockOf(n, t);
    ReadBreak("\n" + (Spaces(n) + t));
    if Starts(t, '\n') {
      ReadBreak(t);
    } else {
      NoBreakFirst(t);
    }
  }

  lemma {:induction false} NoBreakFirst(t: string)
    requires Begins(t)
    ensures ReadPieces(t).Some? ==> ReadPieces(t).value.0 != [] && !ReadPieces(t).value.0[0].Break?
  {
    BeginsBlanks(t, 0, 0);
  }

  lemma {:induction false} NoBlockRead(n: nat, t: string)
    requires n > 0 && Begins(t) && !MayStartLine(t[0])
    ensures var s := "\n" + (Spaces(n) + t);
            ReadPieces(s) == Some(([], s))
  {
    BlockOf(n, t);
    ReadBreak("\n" + (Spaces(n) + t));
  }

  // Joining

  predicate AllIndented(pieces: seq<Piece>, n: nat) {
    forall i :: 0 <= i < |pieces| && pieces[i].Break? ==> pieces[i].indent == n
  }

  lemma PrependTwice(a: string, b: string, elements: seq<Element>)
    ensures Prepend(a, Prepend(b, elements)) == Prepend(a + b, elements)
  {
    if a == "" {
      assert a + b == b;
    } else if b == "" {
      assert a + b == a;
    } else if elements != [] && elements[0].Text? {
      Associative(a, b, elements[0].value);
    }
  }

  lemma {:induction false} JoinAddWords(text: string, pieces: seq<Piece>, common: nat)
    ensures Join(AddWords(text, pieces), common) == Prepend(text, Join(pieces, common))
    ensures AllIndented(pieces, common) ==> AllIndented(AddWords(text, pieces), common)
  {
    if text != "" {
      var more := if pieces != [] && pieces[0].Words? then pieces[1..] else pieces;
      var words := if pieces != [] && pieces[0].Words? then text + pieces[0].text else text;
      assert AddWords(text, pieces)[1..] == more;
      assert Join(AddWords(text, pieces), common) == Prepend(words, Join(more, common));
      if pieces != [] && pieces[0].Words? {
        PrependTwice(text, pieces[0].text, Join(more, common));
      }
    }
  }

  lemma BreakText(lines: nat, n: nat)
    ensures PieceText(Break(lines + 1, n), n) == "\n" + PieceText(Break(lines, n), n)
    ensures PieceText(Break(1, n), n) == "\n"
  {
  }

  lemma {:induction false} JoinAddBreak(n: nat, pieces: seq<Piece>)
    requires AllIndented(pieces, n)
    ensures Join(AddBreak(n, pieces), n) == Prepend("\n", Join(pieces, n)) && AllIndented(AddBreak(n, pieces), n)
  {
    var added := AddBreak(n, pieces);
    if pieces != [] && pieces[0].Break? {
      assert added[1..] == pieces[1..] && pieces[0].indent == n;
      BreakText(pieces[0].lines, n);
      PrependTwice("\n", PieceText(pieces[0], n), Join(pieces[1..], n));
    } else {
      assert added[1..] == pieces;
      BreakText(0, n);
    }
  }

  lemma {:induction false} CommonIndentIs(pieces: seq<Piece>, n: nat)
    requires AllIndented(pieces, n)
    ensures CommonIndent(pieces).Some? ==> CommonIndent(pieces).value == n
    ensures CommonIndent(pieces).None? ==> forall c :: Join(pieces, c) == Join(pieces, n)
  {
    if pieces != [] {
      CommonIndentIs(pieces[1..], n);
      assert CommonIndent(pieces).None? ==> CommonIndent(pieces[1..]).None? && !pieces[0].Break?;
    }
  }

  // Placeables

  function Expressions(pieces: seq<Piece>): seq<Expression> {
    if pieces == [] then []
    else (if pieces[0].Brace? then [pieces[0].expression] else []) + Expressions(pieces[1..])
  }

  function ElementExpressions(elements: seq<Element>): seq<Expression> {
    if elements == [] then []
    else (if elements[0].Placed? then [elements[0].expression] else []) + ElementExpressions(elements[1..])
  }

  lemma {:induction false} PrependExpressions(text: string, elements: seq<Element>)
    ensures ElementExpressions(Prepend(text, elements)) == ElementExpressions(elements)
  {
    if text != "" {
      var more := if elements != [] && elements[0].Text? then elements[1..] else elements;
      assert Prepend(text, elements)[1..] == more;
    }
  }

  lemma {:induction false} JoinExpressions(pieces: seq<Piece>, common: nat)
    ensures ElementExpressions(Join(pieces, common)) == Expressions(pieces)
  {
    if pieces != [] {
      JoinExpressions(pieces[1..], common);
      if pieces[0].Brace? {
        assert Join(pieces, common)[1..] == Join(pieces[1..], common);
      } else {
        PrependExpressions(PieceText(pieces[0], common), Join(pieces[1..], common));
      }
    }
  }

  lemma {:induction false} LastExpressions(front: seq<Element>, last: seq<Element>)
    ensures ElementExpressions(front + last) == ElementExpressions(front) + ElementExpressions(last)
  {
    if front == [] {
      assert front + last == last;
    } else {
      assert (front + last)[1..] == front[1..] + last;
      LastExpressions(front[1..], last);
      Associative(if front[0].Placed? then [front[0].expression] else [], ElementExpressions(front[1..]),
                  ElementExpressions(last));
    }
  }

  lemma {:induction false} WithoutFirstExpressions(elements: seq<Element>)
    ensures ElementExpressions(WithoutFirst(elements)) == ElementExpressions(elements)
  {
    if elements != [] && elements[0].Text? {
      var text := TrimNewlines(elements[0].value);
      LastExpressions(if text == "" then [] else [Text(text)], elements[1..]);
      LastExpressions([elements[0]], elements[1..]);
      assert [elements[0]] + elements[1..] == elements;
    }
  }

  lemma {:induction false} WithoutLastExpressions(elements: seq<Element>)
    ensures ElementExpressions(WithoutLast(elements)) == ElementExpressions(elements)
  {
    if elements != [] && elements[|elements| - 1].Text? {
      var front, last := elements[..|elements| - 1], elements[|elements| - 1];
      var text := TrimEnd(last.value);
      LastExpressions(front, [last]);
      LastExpressions(front, if text == "" then [] else [Text(text)]);
      assert front + [last] == elements;
    }
  }

  lemma {:induction false} AssembledExpressions(pieces: seq<Piece>)
    ensures ElementExpressions(Assembled(pieces)) == Expressions(pieces)
  {
    var common := CommonIndent(pieces);
    var joined := Join(pieces, if common.None? then 0 else common.value);
    JoinExpressions(pieces, if common.None? then 0 else common.value);
    WithoutFirstExpressions(joined);
    WithoutLastExpressions(WithoutFirst(joined));
  }

  lemma {:induction false} AddedExpressions(text: string, n: nat, pieces: seq<Piece>)
    ensures Expressions(AddWords(text, pieces)) == Expressions(pieces) == Expressions(AddBreak(n, pieces))
  {
    if text != "" {
      assert AddWords(text, pieces)[1..] == if pieces != [] && pieces[0].Words? then pieces[1..] else pieces;
    }
    assert AddBreak(n, pieces)[1..] == if pieces != [] && pieces[0].Break? then pieces[1..] else pieces;
  }

  // What no pattern that is read holds

  /** After a line break and spaces there is nothing that starts a variant or an attribute. */
  predicate Clean(text: string) {
    forall i, k :: 0 <= i < k < |text| && text[i] == '\n' && BlankBetween(text, i, k) ==> MayStartLine(text[k])
  }

  predicate BlankBetween(text: string, i: nat, k: nat)
    requires k <= |text|
  {
    forall j :: i < j < k ==> text[j] == ' '
  }

  predicate AllClean(elements: seq<Element>) {
    forall i :: 0 <= i < |elements| && elements[i].Text? ==> Clean(elements[i].value)
  }

  /** A break goes before a placeable, or before words that may start a line. */
  predicate CleanPieces(pieces: seq<Piece>) {
    && (forall i :: 0 <= i < |pieces| && pieces[i].Words? ==> '\n' !in pieces[i].text && pieces[i].text != "")
    && (forall i :: 0 <= i < |pieces| && pieces[i].Break? && i + 1 < |pieces| ==> MayFollow(pieces[i + 1]))
  }

  predicate MayFollow(piece: Piece) {
    match piece
    case Words(text) => text != "" && text[0] != ' ' && MayStartLine(text[0])
    case Break(_, _) => false
    case Brace(_) => true
  }

  lemma {:induction false} NoNewlineInText(s: string)
    ensures '\n' !in s[..TextLength(s)]
  {
    if TextLength(s) > 0 {
      NoNewlineInText(s[1..]);
      assert s[..TextLength(s)] == [s[0]] + s[1..][..TextLength(s[1..])];
    }
  }

  lemma {:induction false} BlanksEnd(s: string, lines: nat, indent: nat)
    ensures !Starts(Blanks(s, lines, indent).2, ' ')
    decreases |s|
  {
    if Starts(s, ' ') {
      BlanksEnd(s[1..], lines, indent + 1);
    } else if LineEnd(s).Some? {
      BlanksEnd(LineEnd(s).value, lines + 1, 0);
    }
  }

  lemma {:induction false} FirstOfBlock(t: string)
    requires Starts(t, '{') || (TextLength(t) > 0 && MayStartLine(t[0]))
    requires !Starts(t, ' ') && ReadPieces(t).Some?
    ensures ReadPieces(t).value.0 != [] && MayFollow(ReadPieces(t).value.0[0])
  {
  }

  lemma {:induction false} PiecesAreClean(s: string)
    requires ReadPieces(s).Some?
    ensures CleanPieces(ReadPieces(s).value.0)
    decreases |s|
  {
    if Starts(s, '{') {
      PiecesAreClean(ReadPlaced(s).value.1);
    } else if TextLength(s) > 0 {
      PiecesAreClean(s[TextLength(s)..]);
      NoNewlineInText(s);
    } else if Block(s).Some? {
      var t := Block(s).value.2;
      PiecesAreClean(t);
      BlanksEnd(s, 0, 0);
      FirstOfBlock(t);
    }
  }

  lemma CleanAfter(text: string, more: string)
    requires '\n' !in text && Clean(more)
    ensures Clean(text + more)
  {
    var whole := text + more;
    forall i, k | 0 <= i < k < |whole| && whole[i] == '\n' && BlankBetween(whole, i, k)
      ensures MayStartLine(whole[k])
    {
      assert i >= |text|;
      assert BlankBetween(more, i - |text|, k - |text|) by {
        assert forall j :: i - |text| < j < k - |text| ==> more[j] == whole[j + |text|];
      }
    }
  }

  lemma CleanBreak(lines: nat, indent: nat, more: string)
    requires Clean(more) && (more != "" ==> more[0] != ' ' && MayStartLine(more[0]))
    ensures Clean(Newlines(lines) + Spaces(indent) + more)
  {
    var start := Newlines(lines) + Spaces(indent);
    var whole := start + more;
    assert more != "" ==> whole[|start|] == more[0];
    forall i, k | 0 <= i < k < |whole| && whole[i] == '\n' && BlankBetween(whole, i, k)
      ensures MayStartLine(whole[k])
    {
      if i >= |start| {
        assert BlankBetween(more, i - |start|, k - |start|) by {
          assert forall j :: i - |start| < j < k - |start| ==> more[j] == whole[j + |start|];
        }
      }
    }
  }

  lemma CleanPart(text: string, from: nat, to: nat)
    requires Clean(text) && from <= to <= |text|
    ensures Clean(text[from..to])
  {
    var part := text[from..to];
    forall i, k | 0 <= i < k < |part| && part[i] == '\n' && BlankBetween(part, i, k)
      ensures MayStartLine(part[k])
    {
      assert BlankBetween(text, from + i, from + k) by {
        assert forall j :: from + i < j < from + k ==> text[j] == part[j - from];
      }
    }
  }

  /** How the first element of what pieces are joined to starts. */
  predicate StartsAs(piece: Piece, elements: seq<Element>) {
    elements != []
    && match piece
       case Words(text) =>
         text != "" ==> elements[0].Text? && elements[0].value != "" && elements[0].value[0] == text[0]
       case Break(_, _) => true
       case Brace(_) => elements[0].Placed?
  }

  lemma {:induction false} JoinIsClean(pieces: seq<Piece>, common: nat)
    requires CleanPieces(pieces)
    ensures AllClean(Join(pieces, common))
    ensures pieces != [] && !pieces[0].Break? ==> StartsAs(pieces[0], Join(pieces, common))
  {
    if pieces != [] {
      var more := pieces[1..];
      assert CleanPieces(more);
      JoinIsClean(more, common);
      if !pieces[0].Brace? {
        PieceIsClean(pieces[0], more, Join(more, common), common);
      }
    }
  }

  function FirstText(elements: seq<Element>): string {
    if elements != [] && elements[0].Text? then elements[0].value else ""
  }

  lemma PrependIsClean(text: string, elements: seq<Element>)
    requires Clean(text + FirstText(elements)) && AllClean(elements)
    ensures AllClean(Prepend(text, elements))
  {
    assert text + "" == text;
  }

  lemma {:induction false} PieceIsClean(piece: Piece, more: seq<Piece>, joined: seq<Element>, common: nat)
    requires !piece.Brace? && AllClean(joined)
    requires if piece.Words? then '\n' !in piece.text else more != [] ==> MayFollow(more[0])
    requires if more == [] then joined == [] else !more[0].Break? ==> StartsAs(more[0], joined)
    ensures AllClean(Prepend(PieceText(piece, common), joined))
  {
    assert Clean("") && Clean(FirstText(joined));
    if piece.Words? {
      CleanAfter(piece.text, FirstText(joined));
    } else {
      var indent := if piece.indent > common then piece.indent - common else 0;
      CleanBreak(piece.lines, indent, FirstText(joined));
      assert Spaces(0) == "";
      assert PieceText(piece, common) == Newlines(piece.lines) + Spaces(indent);
    }
    PrependIsClean(PieceText(piece, common), joined);
  }

  lemma {:induction false} TrimsAreClean(text: string)
    requires Clean(text)
    ensures Clean(TrimNewlines(text)) && Clean(TrimEnd(text))
    decreases |text|
  {
    if Starts(text, '\n') {
      CleanPart(text, 1, |text|);
      TrimsAreClean(text[1..]);
    }
    if text != "" && text[|text| - 1] == ' ' {
      CleanPart(text, 0, |text| - 1);
      TrimsAreClean(text[..|text| - 1]);
    }
  }

  lemma {:induction false} AssembledIsClean(pieces: seq<Piece>)
    requires CleanPieces(pieces)
    ensures AllClean(Assembled(pieces))
  {
    var common := CommonIndent(pieces);
    var joined := Join(pieces, if common.None? then 0 else common.value);
    JoinIsClean(pieces, if common.None? then 0 else common.value);
    FirstIsClean(joined);
    LastIsClean(WithoutFirst(joined));
  }

  lemma {:induction false} FirstIsClean(elements: seq<Element>)
    requires AllClean(elements)
    ensures AllClean(WithoutFirst(elements))
  {
    if elements != [] && elements[0].Text? {
      TrimsAreClean(elements[0].value);
    }
  }

  lemma {:induction false} LastIsClean(elements: seq<Element>)
    requires AllClean(elements)
    ensures AllClean(WithoutLast(elements))
  {
    if elements != [] && elements[|elements| - 1].Text? {
      TrimsAreClean(elements[|elements| - 1].value);
    }
  }
}
