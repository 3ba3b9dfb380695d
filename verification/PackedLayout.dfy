/** Where each field of a review is in the packed request, byte by byte. */
module PackedLayout {
  import opened Common
  import opened LittleEndian
  import opened PackedReviews
  import opened PackedParser

  /** The bytes from one place of a row to another, as a word: the first byte counts ones. */
  function WordAt(row: seq<Byte>, from: nat, to: nat): nat
    requires from <= to <= |row|
  {
    FromBytes(row[from..to])
  }

  lemma RowWord(input: ReviewInput, k: nat)
    requires k < 17
    ensures PlaceOf(k) + WidthOf(k) <= ROW_BYTES
    ensures WordAt(Row(input), PlaceOf(k), PlaceOf(k) + WidthOf(k)) == Values(input)[k]
  {
    var row := Row(input);
    assert row[0..ROW_BYTES] == row;
    WordsOfInput(input);
    WordOfRow(row, 0, k);
  }

  lemma ValuesAre(input: ReviewInput)
    ensures var v := Values(input);
            && v[0] == Flags(Present(input)) && v[1] == ToWord(input.cardId) && v[2] == Signed(input.noteId)
            && v[3] == Signed(input.deckId) && v[4] == Signed(input.presetId) && v[5] == Word(input.isQuery)
            && v[6] == Plain(input.ease) && v[7] == Signed(input.durationMillis) && v[8] == Signed(input.cardType)
            && v[9] == Signed(input.dayOffset) && v[10] == Signed(input.elapsedDays)
            && v[11] == Signed(input.elapsedSeconds) && v[12] == Plain(input.retentionAgain)
            && v[13] == Plain(input.retentionHard) && v[14] == Plain(input.retentionGood)
            && v[15] == Plain(input.retentionEasy) && v[16] == Word(input.enforceGradeOrder)
  {
    RowWords(
      Flags(Present(input)),
      [ToWord(input.cardId), Signed(input.noteId), Signed(input.deckId), Signed(input.presetId)],
      input.isQuery, Plain(input.ease),
      [ Signed(input.durationMillis), Signed(input.cardType), Signed(input.dayOffset),
        Signed(input.elapsedDays), Signed(input.elapsedSeconds) ],
      [ Plain(input.retentionAgain), Plain(input.retentionHard), Plain(input.retentionGood),
        Plain(input.retentionEasy) ],
      input.enforceGradeOrder);
  }

  /** The identifiers, the two flags and the ease. */
  lemma HeadIsAt(input: ReviewInput)
    ensures WordAt(Row(input), 0, 4) == Flags(Present(input))
    ensures WordAt(Row(input), 4, 12) == ToWord(input.cardId)
    ensures WordAt(Row(input), 12, 20) == Signed(input.noteId)
    ensures WordAt(Row(input), 20, 28) == Signed(input.deckId)
    ensures WordAt(Row(input), 28, 36) == Signed(input.presetId)
    ensures WordAt(Row(input), 36, 37) == (if input.isQuery then 1 else 0)
    ensures WordAt(Row(input), 37, 38) == Plain(input.ease)
    ensures WordAt(Row(input), 94, 95) == if input.enforceGradeOrder then 1 else 0
  {
    ValuesAre(input);
    RowWord(input, 0); RowWord(input, 1); RowWord(input, 2); RowWord(input, 3); RowWord(input, 4);
    RowWord(input, 5); RowWord(input, 6); RowWord(input, 16);
  }

  /** The numbers after the ease, and the retentions. */
  lemma TailIsAt(input: ReviewInput)
    ensures WordAt(Row(input), 38, 46) == Signed(input.durationMillis)
    ensures WordAt(Row(input), 46, 54) == Signed(input.cardType)
    ensures WordAt(Row(input), 54, 62) == Signed(input.dayOffset)
    ensures WordAt(Row(input), 62, 70) == Signed(input.elapsedDays)
    ensures WordAt(Row(input), 70, 78) == Signed(input.elapsedSeconds)
    ensures WordAt(Row(input), 78, 82) == Plain(input.retentionAgain)
    ensures WordAt(Row(input), 82, 86) == Plain(input.retentionHard)
    ensures WordAt(Row(input), 86, 90) == Plain(input.retentionGood)
    ensures WordAt(Row(input), 90, 94) == Plain(input.retentionEasy)
  {
    ValuesAre(input);
    RowWord(input, 7); RowWord(input, 8); RowWord(input, 9); RowWord(input, 10); RowWord(input, 11);
    RowWord(input, 12); RowWord(input, 13); RowWord(input, 14); RowWord(input, 15);
  }

  lemma FirstFour(input: ReviewInput)
    ensures var f := Present(input);
            && f[0] == input.noteId.Some? && f[1] == input.deckId.Some? && f[2] == input.presetId.Some?
            && f[3] == input.ease.Some?
  {
  }

  lemma NextFive(input: ReviewInput)
    ensures var f := Present(input);
            && f[4] == input.durationMillis.Some? && f[5] == input.cardType.Some? && f[6] == input.dayOffset.Some?
            && f[7] == input.elapsedDays.Some? && f[8] == input.elapsedSeconds.Some?
  {
  }

  lemma LastFour(input: ReviewInput)
    ensures var f := Present(input);
            && f[9] == input.retentionAgain.Some? && f[10] == input.retentionHard.Some?
            && f[11] == input.retentionGood.Some? && f[12] == input.retentionEasy.Some?
  {
  }

  lemma BitIs(input: ReviewInput, k: nat)
    ensures Bit(WordAt(Row(input), 0, 4), k) <==> k < 13 && Present(input)[k]
  {
    RowWord(input, 0);
    ValuesAre(input);
    FlagBits(Present(input), k);
  }

  /** Which bit of a row's first word says that a field is there. */
  lemma BitsAre(input: ReviewInput)
    ensures var presence := WordAt(Row(input), 0, 4);
            && (Bit(presence, 0) <==> input.noteId.Some?) && (Bit(presence, 1) <==> input.deckId.Some?)
            && (Bit(presence, 2) <==> input.presetId.Some?) && (Bit(presence, 3) <==> input.ease.Some?)
            && (Bit(presence, 4) <==> input.durationMillis.Some?) && (Bit(presence, 5) <==> input.cardType.Some?)
            && (Bit(presence, 6) <==> input.dayOffset.Some?) && (Bit(presence, 7) <==> input.elapsedDays.Some?)
            && (Bit(presence, 8) <==> input.elapsedSeconds.Some?)
            && (Bit(presence, 9) <==> input.retentionAgain.Some?)
            && (Bit(presence, 10) <==> input.retentionHard.Some?)
            && (Bit(presence, 11) <==> input.retentionGood.Some?)
            && (Bit(presence, 12) <==> input.retentionEasy.Some?)
            && forall k: nat :: k >= 13 ==> !Bit(presence, k)
  {
    FirstFour(input);
    NextFive(input);
    LastFour(input);
    forall k: nat
      ensures Bit(WordAt(Row(input), 0, 4), k) <==> k < 13 && Present(input)[k]
    {
      BitIs(input, k);
    }
  }

  /** The request is the eight bytes ARWKVWU2, the count, and a row every 95 bytes. */
  lemma RequestIs(inputs: seq<ReviewInput>, i: nat)
    requires i < |inputs| < 0x1_0000_0000
    ensures var bytes := Packed(inputs);
            && |bytes| == 12 + 95 * |inputs|
            && bytes[..8] == ['A' as nat, 'R' as nat, 'W' as nat, 'K' as nat, 'V' as nat, 'W' as nat, 'U' as nat,
                              '2' as nat]
            && WordAt(bytes, 8, 12) == |inputs|
            && 12 + 95 * i + 95 <= |bytes| && bytes[12 + 95 * i..12 + 95 * i + 95] == Row(inputs[i])
  {
    PackedHeader(inputs);
    PackedPart(inputs, i);
  }

  // The same for the object that is packed

  /** A number is there as 64 bits, an absent one as zero. */
  predicate Holds(word: nat, field: Field) {
    match field
    case Absent => word == 0
    case Given(value) => IsI64(value) && word == ToWord(value)
    case Unconvertible => false
  }

  predicate HoldsFloat(word: nat, field: FloatField) {
    match field
    case NoFloat => word == 0
    case Bits(bits) => word == bits
    case FloatError => false
  }

  /** The row that is packed for an object holds each of its fields at its place. */
  lemma ReviewHeadIsAt(r: Review)
    requires InRange(r)
    ensures var row := Row(InputOf(r));
            && Holds(WordAt(row, 4, 12), r.cardId) && Holds(WordAt(row, 12, 20), r.noteId)
            && Holds(WordAt(row, 20, 28), r.deckId) && Holds(WordAt(row, 28, 36), r.presetId)
            && WordAt(row, 36, 37) == (if r.isQuery then 1 else 0)
            && WordAt(row, 37, 38) == (if r.ease.Given? then r.ease.value else 0)
            && WordAt(row, 94, 95) == (if r.enforceGradeOrder then 1 else 0)
  {
    HeadIsAt(InputOf(r));
  }

  lemma ReviewTailIsAt(r: Review)
    requires InRange(r)
    ensures var row := Row(InputOf(r));
            && Holds(WordAt(row, 38, 46), r.durationMillis) && Holds(WordAt(row, 46, 54), r.cardType)
            && Holds(WordAt(row, 54, 62), r.dayOffset) && Holds(WordAt(row, 62, 70), r.elapsedDays)
            && Holds(WordAt(row, 70, 78), r.elapsedSeconds)
            && HoldsFloat(WordAt(row, 78, 82), r.retentionAgain) && HoldsFloat(WordAt(row, 82, 86), r.retentionHard)
            && HoldsFloat(WordAt(row, 86, 90), r.retentionGood) && HoldsFloat(WordAt(row, 90, 94), r.retentionEasy)
  {
    TailIsAt(InputOf(r));
  }

  /** And the bits say which of them are there. */
  lemma ReviewBitsAre(r: Review)
    requires InRange(r)
    ensures var presence := WordAt(Row(InputOf(r)), 0, 4);
            && (Bit(presence, 0) <==> !r.noteId.Absent?) && (Bit(presence, 1) <==> !r.deckId.Absent?)
            && (Bit(presence, 2) <==> !r.presetId.Absent?) && (Bit(presence, 3) <==> !r.ease.Absent?)
            && (Bit(presence, 4) <==> !r.durationMillis.Absent?) && (Bit(presence, 5) <==> !r.cardType.Absent?)
            && (Bit(presence, 6) <==> !r.dayOffset.Absent?) && (Bit(presence, 7) <==> !r.elapsedDays.Absent?)
            && (Bit(presence, 8) <==> !r.elapsedSeconds.Absent?)
            && (Bit(presence, 9) <==> !r.retentionAgain.NoFloat?)
            && (Bit(presence, 10) <==> !r.retentionHard.NoFloat?)
            && (Bit(presence, 11) <==> !r.retentionGood.NoFloat?)
            && (Bit(presence, 12) <==> !r.retentionEasy.NoFloat?)
  {
    BitsAre(InputOf(r));
  }

  // Which error a request is refused with

  /** The row at this place is there, and both its booleans are 0 or 1. */
  ghost predicate GoodRow(bytes: seq<Byte>, at: nat) {
    at + 95 <= |bytes| && bytes[at + 36] <= 1 && bytes[at + 94] <= 1
  }

  /** A boolean of the row is something else, where the first is looked at before the rest of
      the row is known to be there. */
  ghost predicate BadBool(bytes: seq<Byte>, at: nat) {
    (at + 37 <= |bytes| && bytes[at + 36] > 1) || (at + 95 <= |bytes| && bytes[at + 94] > 1)
  }

  ghost predicate GoodRows(bytes: seq<Byte>, n: nat) { forall i: nat :: i < n ==> GoodRow(bytes, 12 + 95 * i) }

  lemma RowIs(bytes: seq<Byte>, i: nat)
    ensures RowStart(i) == 12 + 95 * i
    ensures RowAt(bytes, RowStart(i)).Ok? <==> GoodRow(bytes, 12 + 95 * i)
    ensures RowAt(bytes, RowStart(i)) == Err(InvalidBool) <==> BadBool(bytes, 12 + 95 * i)
    ensures RowAt(bytes, RowStart(i)).Err? ==> RowAt(bytes, RowStart(i)).error in {InvalidBool, Truncated}
  {
  }

  lemma {:induction false} FirstError<T>(results: seq<Result<T>>) returns (i: nat)
    requires Collect(results).Err?
    ensures i < |results| && results[i] == Err(Collect(results).error)
    ensures forall j :: 0 <= j < i ==> results[j].Ok?
  {
    var front := results[..|results| - 1];
    if Collect(front).Err? {
      i := FirstError(front);
      assert forall j :: 0 <= j <= i ==> front[j] == results[j];
    } else {
      i := |results| - 1;
      CollectOk(front);
    }
  }

  lemma OnlyFirst<T>(results: seq<Result<T>>, i: nat)
    requires i < |results| && results[i].Err? && forall j :: 0 <= j < i ==> results[j].Ok?
    ensures Collect(results) == Err(results[i].error)
  {
    var front := results[..i + 1];
    assert front[..i] == results[..i] && front[i] == results[i];
    CollectOk(results[..i]);
    CollectErr(results, i + 1);
  }

  predicate HasHeader(bytes: seq<Byte>) { |bytes| >= 12 && bytes[..8] == MAGIC }

  /** How many rows the header says there are. */
  function Promised(bytes: seq<Byte>): nat
    requires HasHeader(bytes)
  {
    WordAt(bytes, 8, 12)
  }

  /** Rows with an error, by the first of them. */
  lemma RowsRefused(bytes: seq<Byte>, i: nat)
    requires HasHeader(bytes) && i < Promised(bytes) && GoodRows(bytes, i) && !GoodRow(bytes, 12 + 95 * i)
    ensures Parsed(bytes) == Err(if BadBool(bytes, 12 + 95 * i) then InvalidBool else Truncated)
  {
    var results := RowResults(bytes, PackedParser.Count(bytes));
    RowIs(bytes, i);
    forall j: nat | j < i
      ensures results[j].Ok?
    {
      RowIs(bytes, j);
    }
    OnlyFirst(results, i);
  }

  lemma RowsAccepted(bytes: seq<Byte>)
    requires HasHeader(bytes) && GoodRows(bytes, Promised(bytes))
    ensures if |bytes| == 12 + 95 * Promised(bytes) then Parsed(bytes).Ok? else Parsed(bytes) == Err(TrailingBytes)
  {
    var results := RowResults(bytes, PackedParser.Count(bytes));
    forall j: nat | j < Promised(bytes)
      ensures results[j].Ok?
    {
      RowIs(bytes, j);
    }
    CollectOk(results);
  }

  lemma {:induction false} FirstBadRow(bytes: seq<Byte>, n: nat) returns (i: nat)
    ensures i <= n && GoodRows(bytes, i) && (i < n ==> !GoodRow(bytes, 12 + 95 * i))
  {
    i := 0;
    if n > 0 {
      i := FirstBadRow(bytes, n - 1);
      if i == n - 1 && GoodRow(bytes, 12 + 95 * i) {
        i := n;
      }
    }
  }

  /** A request is refused for its header when it is long enough to have one and has another;
      for a boolean, or for being too short, by its first row that is not good; and for what is
      left over only if every row it promises is. */
  lemma WhyRefused(bytes: seq<Byte>)
    ensures |bytes| < 8 ==> Parsed(bytes) == Err(Truncated)
    ensures |bytes| >= 8 ==> (Parsed(bytes) == Err(InvalidHeader) <==> bytes[..8] != MAGIC)
    ensures 8 <= |bytes| < 12 && bytes[..8] == MAGIC ==> Parsed(bytes) == Err(Truncated)
    ensures HasHeader(bytes) ==>
              (Parsed(bytes) == Err(TrailingBytes) <==>
                 GoodRows(bytes, Promised(bytes)) && |bytes| != 12 + 95 * Promised(bytes))
    ensures HasHeader(bytes) ==>
              (Parsed(bytes) == Err(InvalidBool) <==>
                 exists i: nat :: i < Promised(bytes) && GoodRows(bytes, i) && BadBool(bytes, 12 + 95 * i))
    ensures HasHeader(bytes) ==>
              (Parsed(bytes) == Err(Truncated) <==>
                 exists i: nat :: i < Promised(bytes) && GoodRows(bytes, i) && !GoodRow(bytes, 12 + 95 * i)
                   && !BadBool(bytes, 12 + 95 * i))
  {
    if HasHeader(bytes) {
      var n := Promised(bytes);
      var first := FirstBadRow(bytes, n);
      if first < n {
        RowsRefused(bytes, first);
      } else {
        RowsAccepted(bytes);
      }
      forall i: nat | i < n && GoodRows(bytes, i) && !GoodRow(bytes, 12 + 95 * i)
        ensures i == first
      {
      }
      assert forall at: nat :: BadBool(bytes, at) ==> !GoodRow(bytes, at);
    }
  }
}
