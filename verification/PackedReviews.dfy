/** The packed warm-up request of RWKV review inputs: the packer, the parser that was
    written apart from it, and how they undo each other. Floats are opaque 32-bit words. */
module PackedReviews {
  import opened Common
  import opened LittleEndian

  datatype Result<+T> = Ok(value: T) | Err(error: ParseError) {
    predicate IsFailure() { Err? }
    function PropagateFailure<U>(): Result<U>
      requires Err?
    {
      Err(error)
    }
    function Extract(): T
      requires Ok?
    {
      value
    }
  }

  datatype ParseError = Truncated | InvalidHeader | InvalidBool | TrailingBytes | NoReviewDay

  // A parsed review

  datatype ReviewInput = ReviewInput(
    cardId: I64,
    noteId: Option<I64>,
    deckId: Option<I64>,
    presetId: Option<I64>,
    isQuery: bool,
    ease: Option<Byte>,
    durationMillis: Option<I64>,
    cardType: Option<I64>,
    dayOffset: Option<I64>,
    elapsedDays: Option<I64>,
    elapsedSeconds: Option<I64>,
    retentionAgain: Option<Word32>,
    retentionHard: Option<Word32>,
    retentionGood: Option<Word32>,
    retentionEasy: Option<Word32>,
    enforceGradeOrder: bool)

  // A review as Python has it: a field may be absent, or fail to convert

  datatype Field = Absent | Given(value: int) | Unconvertible

  /** A float is given by the bits of the f32 it packs to; too large a one is an error. */
  datatype FloatField = NoFloat | Bits(word: Word32) | FloatError

  datatype Review = Review(
    cardId: Field,
    noteId: Field,
    deckId: Field,
    presetId: Field,
    isQuery: bool,
    ease: Field,
    durationMillis: Field,
    cardType: Field,
    dayOffset: Field,
    elapsedDays: Field,
    elapsedSeconds: Field,
    retentionAgain: FloatField,
    retentionHard: FloatField,
    retentionGood: FloatField,
    retentionEasy: FloatField,
    enforceGradeOrder: bool)

  predicate IsI64(value: int) { -0x8000_0000_0000_0000 <= value < 0x8000_0000_0000_0000 }

  predicate FitsI64(field: Field) { field.Absent? || (field.Given? && IsI64(field.value)) }

  /** What the row's format can hold. */
  predicate InRange(r: Review) {
    && r.cardId.Given? && IsI64(r.cardId.value)
    && FitsI64(r.noteId) && FitsI64(r.deckId) && FitsI64(r.presetId)
    && (r.ease.Absent? || (r.ease.Given? && 0 <= r.ease.value < 256))
    && FitsI64(r.durationMillis) && FitsI64(r.cardType) && FitsI64(r.dayOffset)
    && FitsI64(r.elapsedDays) && FitsI64(r.elapsedSeconds)
    && !r.retentionAgain.FloatError? && !r.retentionHard.FloatError?
    && !r.retentionGood.FloatError? && !r.retentionEasy.FloatError?
  }

  function AsI64(field: Field): Option<I64>
    requires FitsI64(field)
  {
    if field.Absent? then None else Some(field.value)
  }

  function AsWord(field: FloatField): Option<Word32> {
    if field.Bits? then Some(field.word) else None
  }

  /** The review input the model is to see. */
  function InputOf(r: Review): ReviewInput
    requires InRange(r)
  {
    ReviewInput(r.cardId.value, AsI64(r.noteId), AsI64(r.deckId), AsI64(r.presetId), r.isQuery,
                if r.ease.Absent? then None else Some(r.ease.value),
                AsI64(r.durationMillis), AsI64(r.cardType), AsI64(r.dayOffset),
                AsI64(r.elapsedDays), AsI64(r.elapsedSeconds),
                AsWord(r.retentionAgain), AsWord(r.retentionHard), AsWord(r.retentionGood),
                AsWord(r.retentionEasy), r.enforceGradeOrder)
  }

  // The row format

  const ROW_BYTES: nat := 95

  /** presence; card, note, deck, preset ids; is_query; ease; duration, type, day, elapsed
      days, elapsed seconds; four retentions; enforce_grade_order */
  const WIDTHS: seq<nat> := [4] + Same(8, 4) + [1] + [1] + Same(8, 5) + Same(4, 4) + [1]

  const MAGIC: seq<Byte> := [65, 82, 87, 75, 86, 87, 85, 50]   // "ARWKVWU2"

  function Signed(value: Option<I64>): nat { if value.None? then 0 else ToWord(value.value) }

  function Plain(value: Option<nat>): nat { if value.None? then 0 else value.value }

  /** Which of the thirteen optional fields are there. */
  function Present(input: ReviewInput): (flags: seq<bool>)
    ensures |flags| == 13
  {
    [input.noteId.Some?, input.deckId.Some?, input.presetId.Some?, input.ease.Some?]
    + [ input.durationMillis.Some?, input.cardType.Some?, input.dayOffset.Some?,
        input.elapsedDays.Some?, input.elapsedSeconds.Some? ]
    + [ input.retentionAgain.Some?, input.retentionHard.Some?, input.retentionGood.Some?,
        input.retentionEasy.Some? ]
  }

  function Word(flag: bool): nat { if flag then 1 else 0 }

  /** The seventeen words of a row, in the order of the format. */
  function RowValues(presence: nat, ids: seq<nat>, isQuery: bool, ease: nat, times: seq<nat>,
                     retentions: seq<nat>, enforce: bool): (values: seq<nat>)
    requires |ids| == 4 && |times| == 5 && |retentions| == 4
    ensures |values| == 17
  {
    [presence] + ids + [Word(isQuery)] + [ease] + times + retentions + [Word(enforce)]
  }

  function Values(input: ReviewInput): (values: seq<nat>)
    ensures |values| == 17
  {
    RowValues(Flags(Present(input)),
              [ToWord(input.cardId), Signed(input.noteId), Signed(input.deckId), Signed(input.presetId)],
              input.isQuery,
              Plain(input.ease),
              [ Signed(input.durationMillis), Signed(input.cardType), Signed(input.dayOffset),
                Signed(input.elapsedDays), Signed(input.elapsedSeconds) ],
              [ Plain(input.retentionAgain), Plain(input.retentionHard), Plain(input.retentionGood),
                Plain(input.retentionEasy) ],
              input.enforceGradeOrder)
  }

  function Row(input: ReviewInput): (bytes: seq<Byte>)
    ensures |bytes| == ROW_BYTES
  {
    WidthOfRow();
    RowToBytes(Values(input), WIDTHS)
  }

  lemma WidthOfRow()
    ensures Width(WIDTHS) == ROW_BYTES && |WIDTHS| == 17
  {
    assert Width(WIDTHS[16..]) == 1;
    assert Width(WIDTHS[14..]) == 9;
    assert Width(WIDTHS[12..]) == 17;
    assert Width(WIDTHS[10..]) == 33;
    assert Width(WIDTHS[8..]) == 49;
    assert Width(WIDTHS[6..]) == 58;
    assert Width(WIDTHS[4..]) == 67;
    assert Width(WIDTHS[2..]) == 83;
  }

  function Rows(inputs: seq<ReviewInput>): seq<Byte> {
    if inputs == [] then [] else Rows(inputs[..|inputs| - 1]) + Row(inputs[|inputs| - 1])
  }

  function Packed(inputs: seq<ReviewInput>): seq<Byte> { MAGIC + ToBytes(|inputs|, 4) + Rows(inputs) }

  // The packer

  class Output {
    var bytes: seq<Byte>

    constructor ()
      ensures bytes == []
    {
      bytes := [];
    }

    method Put(value: nat, width: nat)
      modifies this
      ensures bytes == old(bytes) + RowToBytes([value], [width])
    {
      bytes := bytes + ToBytes(value, width);
    }

    method PutAll(values: seq<nat>, width: nat)
      modifies this
      ensures bytes == old(bytes) + RowToBytes(values, Same(width, |values|))
    {
      for i := 0 to |values|
        invariant bytes == old(bytes) + RowToBytes(values[..i], Same(width, i))
      {
        Put(values[i], width);
        RowAppend(values[..i], Same(width, i), [values[i]], [width]);
        assert values[..i + 1] == values[..i] + [values[i]];
        assert Same(width, i + 1) == Same(width, i) + [width];
      }
      assert values[..|values|] == values;
    }
  }

  /** An integer as "q" packs it. */
  function PackableI64(field: Field): Option<I64> {
    if field.Given? && IsI64(field.value) then Some(field.value) else None
  }

  /** The value of an optional integer field, and the presence word with its bit.
      `flags` are the presence flags of the fields before it. */
  method OptionalI64(field: Field, bit: nat, presence: nat, ghost flags: seq<bool>)
      returns (value: Option<I64>, presence': nat)
    requires presence == Flags(flags) && bit == |flags|
    ensures value.Some? <==> FitsI64(field)
    ensures value.Some? ==> value.value == if field.Absent? then 0 else field.value
    ensures presence' == Flags(flags + [!field.Absent?])
  {
    FlagSnoc(flags, !field.Absent?);
    if field.Absent? {
      return Some(0), presence;
    }
    presence' := SetBit(presence, bit);
    value := PackableI64(field);
  }

  method OptionalF32(field: FloatField, bit: nat, presence: nat, ghost flags: seq<bool>)
      returns (word: Option<Word32>, presence': nat)
    requires presence == Flags(flags) && bit == |flags|
    ensures word.Some? <==> !field.FloatError?
    ensures word.Some? ==> word.value == if field.Bits? then field.word else 0
    ensures presence' == Flags(flags + [!field.NoFloat?])
  {
    FlagSnoc(flags, !field.NoFloat?);
    if field.NoFloat? {
      return Some(0), presence;
    }
    presence' := SetBit(presence, bit);
    word := if field.Bits? then Some(field.word) else None;
  }

  ghost function IdFlags(r: Review): seq<bool> {
    [!r.noteId.Absent?, !r.deckId.Absent?, !r.presetId.Absent?, !r.ease.Absent?]
  }

  ghost function TimeFlags(r: Review): seq<bool> {
    [ !r.durationMillis.Absent?, !r.cardType.Absent?, !r.dayOffset.Absent?,
      !r.elapsedDays.Absent?, !r.elapsedSeconds.Absent? ]
  }

  function RetentionsOf(r: Review): seq<FloatField> {
    [r.retentionAgain, r.retentionHard, r.retentionGood, r.retentionEasy]
  }

  ghost function RetentionFlags(fields: seq<FloatField>): seq<bool> {
    seq(|fields|, i requires 0 <= i < |fields| => !fields[i].NoFloat?)
  }

  predicate IdsFit(r: Review) {
    FitsI64(r.noteId) && FitsI64(r.deckId) && FitsI64(r.presetId) && FitsI64(r.ease)
  }

  predicate TimesFit(r: Review) {
    && FitsI64(r.durationMillis) && FitsI64(r.cardType) && FitsI64(r.dayOffset)
    && FitsI64(r.elapsedDays) && FitsI64(r.elapsedSeconds)
  }

  /** 0 for an absent field. */
  function Or0(field: Field): int { if field.Given? then field.value else 0 }

  method ReadIds(r: Review) returns (ids: Option<(I64, I64, I64, I64)>, presence: nat)
    ensures ids.Some? <==> IdsFit(r)
    ensures ids.Some? ==> ids.value == (Or0(r.noteId), Or0(r.deckId), Or0(r.presetId), Or0(r.ease))
    ensures ids.Some? ==> presence == Flags(IdFlags(r))
  {
    presence := 0;
    ghost var flags: seq<bool> := [];
    var noteId; noteId, presence := OptionalI64(r.noteId, 0, presence, flags);
    if noteId.None? {
      return None, presence;
    }
    flags := flags + [!r.noteId.Absent?];
    var deckId; deckId, presence := OptionalI64(r.deckId, 1, presence, flags);
    if deckId.None? {
      return None, presence;
    }
    flags := flags + [!r.deckId.Absent?];
    var presetId; presetId, presence := OptionalI64(r.presetId, 2, presence, flags);
    if presetId.None? {
      return None, presence;
    }
    flags := flags + [!r.presetId.Absent?];
    var ease; ease, presence := OptionalI64(r.ease, 3, presence, flags);
    if ease.None? {
      return None, presence;
    }
    flags := flags + [!r.ease.Absent?];
    assert flags == IdFlags(r);
    ids := Some((noteId.value, deckId.value, presetId.value, ease.value));
  }

  lemma FiveMore(flags: seq<bool>, a: bool, b: bool, c: bool, d: bool, e: bool)
    ensures flags + [a] + [b] + [c] + [d] + [e] == flags + [a, b, c, d, e]
  {
  }

  method ReadTimes(r: Review, before: nat, ghost idFlags: seq<bool>)
      returns (times: Option<seq<I64>>, presence: nat)
    requires |idFlags| == 4 && before == Flags(idFlags)
    ensures times.Some? <==> TimesFit(r)
    ensures times.Some? ==> times.value == [ Or0(r.durationMillis), Or0(r.cardType), Or0(r.dayOffset),
                                             Or0(r.elapsedDays), Or0(r.elapsedSeconds) ]
    ensures times.Some? ==> presence == Flags(idFlags + TimeFlags(r))
  {
    presence := before;
    ghost var flags := idFlags;
    var durationMillis; durationMillis, presence := OptionalI64(r.durationMillis, 4, presence, flags);
    if durationMillis.None? {
      return None, presence;
    }
    flags := flags + [!r.durationMillis.Absent?];
    var cardType; cardType, presence := OptionalI64(r.cardType, 5, presence, flags);
    if cardType.None? {
      return None, presence;
    }
    flags := flags + [!r.cardType.Absent?];
    var dayOffset; dayOffset, presence := OptionalI64(r.dayOffset, 6, presence, flags);
    if dayOffset.None? {
      return None, presence;
    }
    flags := flags + [!r.dayOffset.Absent?];
    var elapsedDays; elapsedDays, presence := OptionalI64(r.elapsedDays, 7, presence, flags);
    if elapsedDays.None? {
      return None, presence;
    }
    flags := flags + [!r.elapsedDays.Absent?];
    var elapsedSeconds; elapsedSeconds, presence := OptionalI64(r.elapsedSeconds, 8, presence, flags);
    if elapsedSeconds.None? {
      return None, presence;
    }
    flags := flags + [!r.elapsedSeconds.Absent?];
    FiveMore(idFlags, !r.durationMillis.Absent?, !r.cardType.Absent?, !r.dayOffset.Absent?,
             !r.elapsedDays.Absent?, !r.elapsedSeconds.Absent?);
    times := Some([ durationMillis.value, cardType.value, dayOffset.value, elapsedDays.value,
                    elapsedSeconds.value ]);
  }

  method ReadRetentions(fields: seq<FloatField>, before: nat, ghost flags: seq<bool>)
      returns (retentions: Option<seq<Word32>>, presence: nat)
    requires |flags| == 9 && before == Flags(flags)
    ensures retentions.Some? <==> forall i :: 0 <= i < |fields| ==> !fields[i].FloatError?
    ensures retentions.Some? ==> |retentions.value| == |fields|
    ensures retentions.Some? ==>
      forall i :: 0 <= i < |fields| ==> retentions.value[i] == Plain(AsWord(fields[i]))
    ensures retentions.Some? ==> presence == Flags(flags + RetentionFlags(fields))
  {
    presence := before;
    var words: seq<Word32> := [];
    assert flags + RetentionFlags(fields[..0]) == flags;
    for i := 0 to |fields|
      invariant |words| == i && presence == Flags(flags + RetentionFlags(fields[..i]))
      invariant forall j :: 0 <= j < i ==> !fields[j].FloatError? && words[j] == Plain(AsWord(fields[j]))
    {
      var word;
      word, presence := OptionalF32(fields[i], 9 + i, presence, flags + RetentionFlags(fields[..i]));
      if word.None? {
        return None, presence;
      }
      words := words + [word.value];
      assert flags + RetentionFlags(fields[..i]) + [!fields[i].NoFloat?] == flags + RetentionFlags(fields[..i + 1]);
    }
    assert fields[..|fields|] == fields;
    retentions := Some(words);
  }

  lemma RetentionFlagsAre(fields: seq<FloatField>)
    requires |fields| == 4
    ensures RetentionFlags(fields)
         == [!fields[0].NoFloat?, !fields[1].NoFloat?, !fields[2].NoFloat?, !fields[3].NoFloat?]
  {
  }

  lemma RetentionsPresent(r: Review)
    requires InRange(r)
    ensures RetentionFlags(RetentionsOf(r))
         == [ InputOf(r).retentionAgain.Some?, InputOf(r).retentionHard.Some?,
              InputOf(r).retentionGood.Some?, InputOf(r).retentionEasy.Some? ]
  {
    RetentionFlagsAre(RetentionsOf(r));
  }

  lemma IdsPresent(r: Review)
    requires InRange(r)
    ensures IdFlags(r)
         == [InputOf(r).noteId.Some?, InputOf(r).deckId.Some?, InputOf(r).presetId.Some?, InputOf(r).ease.Some?]
  {
  }

  lemma TimesPresent(r: Review)
    requires InRange(r)
    ensures TimeFlags(r)
         == [ InputOf(r).durationMillis.Some?, InputOf(r).cardType.Some?, InputOf(r).dayOffset.Some?,
              InputOf(r).elapsedDays.Some?, InputOf(r).elapsedSeconds.Some? ]
  {
  }

  lemma FlagsOfReview(r: Review)
    requires InRange(r)
    ensures IdFlags(r) + TimeFlags(r) + RetentionFlags(RetentionsOf(r)) == Present(InputOf(r))
  {
    IdsPresent(r);
    TimesPresent(r);
    RetentionsPresent(r);
  }

  /** The bytes of a row, group by group. */
  lemma RowOfGroups(presence: nat, ids: seq<nat>, isQuery: bool, ease: nat, times: seq<nat>,
                    retentions: seq<nat>, enforce: bool)
    requires |ids| == 4 && |times| == 5 && |retentions| == 4
    ensures RowToBytes(RowValues(presence, ids, isQuery, ease, times, retentions, enforce), WIDTHS)
         == RowToBytes([presence], [4]) + RowToBytes(ids, Same(8, 4)) + RowToBytes([Word(isQuery)], [1])
            + RowToBytes([ease], [1]) + RowToBytes(times, Same(8, 5))
            + RowToBytes(retentions, Same(4, 4)) + RowToBytes([Word(enforce)], [1])
  {
    RowAppend([presence], [4], ids, Same(8, 4));
    RowAppend([presence] + ids, [4] + Same(8, 4), [Word(isQuery)], [1]);
    RowAppend([presence] + ids + [Word(isQuery)], [4] + Same(8, 4) + [1], [ease], [1]);
    var values := [presence] + ids + [Word(isQuery)] + [ease];
    var widths := [4] + Same(8, 4) + [1] + [1];
    RowAppend(values, widths, times, Same(8, 5));
    RowAppend(values + times, widths + Same(8, 5), retentions, Same(4, 4));
    RowAppend(values + times + retentions, widths + Same(8, 5) + Same(4, 4), [Word(enforce)], [1]);
  }

  lemma SevenMore(before: seq<Byte>, a: seq<Byte>, b: seq<Byte>, c: seq<Byte>, d: seq<Byte>, e: seq<Byte>,
                  f: seq<Byte>, g: seq<Byte>)
    ensures before + a + b + c + d + e + f + g == before + (a + b + c + d + e + f + g)
  {
    assert before + a + b + c + d == before + (a + b + c + d);
    assert before + (a + b + c + d) + e + f + g == before + (a + b + c + d + e + f + g);
  }

  method WriteRow(presence: nat, ids: seq<nat>, isQuery: bool, ease: nat, times: seq<nat>,
                  retentions: seq<nat>, enforce: bool, out: Output)
    requires |ids| == 4 && |times| == 5 && |retentions| == 4
    modifies out
    ensures out.bytes == old(out.bytes)
              + RowToBytes(RowValues(presence, ids, isQuery, ease, times, retentions, enforce), WIDTHS)
  {
    out.Put(presence, 4);
    out.PutAll(ids, 8);
    out.Put(Word(isQuery), 1);
    out.Put(ease, 1);
    out.PutAll(times, 8);
    out.PutAll(retentions, 4);
    out.Put(Word(enforce), 1);
    RowOfGroups(presence, ids, isQuery, ease, times, retentions, enforce);
    SevenMore(old(out.bytes), RowToBytes([presence], [4]), RowToBytes(ids, Same(8, 4)),
              RowToBytes([Word(isQuery)], [1]), RowToBytes([ease], [1]), RowToBytes(times, Same(8, 5)),
              RowToBytes(retentions, Same(4, 4)), RowToBytes([Word(enforce)], [1]));
  }

  lemma RetentionsFit(r: Review)
    ensures (forall i :: 0 <= i < 4 ==> !RetentionsOf(r)[i].FloatError?)
       <==> !r.retentionAgain.FloatError? && !r.retentionHard.FloatError?
            && !r.retentionGood.FloatError? && !r.retentionEasy.FloatError?
  {
    var fields := RetentionsOf(r);
    assert fields[0] == r.retentionAgain && fields[1] == r.retentionHard;
    assert fields[2] == r.retentionGood && fields[3] == r.retentionEasy;
  }

  lemma ValuesOfReview(r: Review, ids: seq<nat>, times: seq<nat>, retentions: seq<nat>)
    requires InRange(r) && |retentions| == 4
    requires ids == [ToWord(r.cardId.value), ToWord(Or0(r.noteId)), ToWord(Or0(r.deckId)), ToWord(Or0(r.presetId))]
    requires times == [ ToWord(Or0(r.durationMillis)), ToWord(Or0(r.cardType)), ToWord(Or0(r.dayOffset)),
                        ToWord(Or0(r.elapsedDays)), ToWord(Or0(r.elapsedSeconds)) ]
    requires forall i :: 0 <= i < 4 ==> retentions[i] == Plain(AsWord(RetentionsOf(r)[i]))
    ensures Values(InputOf(r))
         == RowValues(Flags(Present(InputOf(r))), ids, r.isQuery, Or0(r.ease), times, retentions, r.enforceGradeOrder)
  {
    var fields := RetentionsOf(r);
    assert retentions == [ Plain(AsWord(fields[0])), Plain(AsWord(fields[1])),
                           Plain(AsWord(fields[2])), Plain(AsWord(fields[3])) ];
  }

  /** Append the row of one review; a value its field cannot hold appends nothing. */
  method Pack(r: Review, out: Output) returns (ok: bool)
    modifies out
    ensures ok <==> InRange(r)
    ensures out.bytes == old(out.bytes) + if ok then Row(InputOf(r)) else []
  {
    var ids, presence := ReadIds(r);
    if ids.None? {
      return false;
    }
    var times, presence' := ReadTimes(r, presence, IdFlags(r));
    if times.None? {
      return false;
    }
    var retentions, presence'' := ReadRetentions(RetentionsOf(r), presence', IdFlags(r) + TimeFlags(r));
    var cardId := PackableI64(r.cardId);
    RetentionsFit(r);
    if retentions.None? || cardId.None? || !(0 <= ids.value.3 < 256) {
      return false;
    }
    FlagsOfReview(r);
    var (noteId, deckId, presetId, ease) := ids.value;
    var idWords := [ToWord(cardId.value), ToWord(noteId), ToWord(deckId), ToWord(presetId)];
    var t := times.value;
    var timeWords := [ToWord(t[0]), ToWord(t[1]), ToWord(t[2]), ToWord(t[3]), ToWord(t[4])];
    ValuesOfReview(r, idWords, timeWords, retentions.value);
    WriteRow(presence'', idWords, r.isQuery, ease, timeWords, retentions.value, r.enforceGradeOrder, out);
    return true;
  }

  /** The inputs of reviews that all fit the format. */
  function InputsOf(reviews: seq<Review>): (inputs: seq<ReviewInput>)
    requires AllInRange(reviews)
    ensures |inputs| == |reviews|
  {
    seq(|reviews|, i requires 0 <= i < |reviews| => InputOf(reviews[i]))
  }

  predicate AllInRange(reviews: seq<Review>) { forall i :: 0 <= i < |reviews| ==> InRange(reviews[i]) }

  lemma InputsSnoc(reviews: seq<Review>, i: nat)
    requires i < |reviews| && AllInRange(reviews[..i]) && InRange(reviews[i])
    ensures AllInRange(reviews[..i + 1])
    ensures InputsOf(reviews[..i + 1]) == InputsOf(reviews[..i]) + [InputOf(reviews[i])]
  {
    assert reviews[..i + 1] == reviews[..i] + [reviews[i]];
  }

  predicate Packable(reviews: seq<Review>) {
    |reviews| < 0x1_0000_0000 && AllInRange(reviews)
  }

  method PackRows(reviews: seq<Review>, out: Output) returns (ok: bool)
    modifies out
    ensures ok <==> AllInRange(reviews)
    ensures ok ==> out.bytes == old(out.bytes) + Rows(InputsOf(reviews))
  {
    for i := 0 to |reviews|
      invariant AllInRange(reviews[..i])
      invariant out.bytes == old(out.bytes) + Rows(InputsOf(reviews[..i]))
    {
      ok := Pack(reviews[i], out);
      if !ok {
        return;
      }
      InputsSnoc(reviews, i);
      RowsSnoc(old(out.bytes), InputsOf(reviews[..i]), InputOf(reviews[i]));
    }
    assert reviews[..|reviews|] == reviews;
    ok := true;
  }

  /** packed_warm_up_reviews: fails, and gives nothing, when some review does not fit. */
  method PackReviews(reviews: seq<Review>) returns (packed: Option<seq<Byte>>)
    ensures packed.Some? <==> Packable(reviews)
    ensures packed.Some? ==> packed.value == Packed(InputsOf(reviews))
  {
    if |reviews| >= 0x1_0000_0000 {
      return None;
    }
    var out := new Output();
    out.bytes := MAGIC + ToBytes(|reviews|, 4);
    var ok := PackRows(reviews, out);
    return if ok then Some(out.bytes) else None;
  }

  lemma RowsSnoc(before: seq<Byte>, inputs: seq<ReviewInput>, input: ReviewInput)
    ensures Rows(inputs + [input]) == Rows(inputs) + Row(input)
    ensures before + Rows(inputs) + Row(input) == before + Rows(inputs + [input])
  {
    assert (inputs + [input])[..|inputs|] == inputs;
  }
}
