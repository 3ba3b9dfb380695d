/** The parser of the packed warm-up request, and the two directions of the round trip. */
module PackedParser {
  import opened Common
  import opened LittleEndian
  import opened PackedReviews

  // What the bytes of a row mean

  function Optional<T>(presence: nat, bit: nat, value: T): Option<T> {
    if Bit(presence, bit) then Some(value) else None
  }

  function OptionalWord(presence: nat, bit: nat, word: nat): Option<I64>
    requires word < Range(8)
  {
    Optional(presence, bit, FromWord(word))
  }

  predicate IsRow(values: seq<nat>) {
    && |values| == 17
    && (forall i :: 1 <= i < 5 ==> values[i] < Range(8))
    && (forall i :: 7 <= i < 12 ==> values[i] < Range(8))
    && values[5] <= 1 && values[6] < 256 && values[16] <= 1
    && (forall i :: 12 <= i < 16 ==> values[i] < 0x1_0000_0000)
  }

  function InputOfRow(v: seq<nat>): ReviewInput
    requires IsRow(v)
  {
    ReviewInput(FromWord(v[1]), OptionalWord(v[0], 0, v[2]), OptionalWord(v[0], 1, v[3]),
                OptionalWord(v[0], 2, v[4]), v[5] == 1, Optional(v[0], 3, v[6]),
                OptionalWord(v[0], 4, v[7]), OptionalWord(v[0], 5, v[8]), OptionalWord(v[0], 6, v[9]),
                OptionalWord(v[0], 7, v[10]), OptionalWord(v[0], 8, v[11]),
                Optional(v[0], 9, v[12]), Optional(v[0], 10, v[13]), Optional(v[0], 11, v[14]),
                Optional(v[0], 12, v[15]), v[16] == 1)
  }

  // The cursor

  class Cursor {
    const bytes: seq<Byte>
    var offset: nat

    ghost predicate Valid() reads this { offset <= |bytes| }

    constructor (bytes: seq<Byte>)
      ensures Valid() && this.bytes == bytes && offset == 0
    {
      this.bytes := bytes;
      offset := 0;
    }

    method ReadBytes(length: nat) returns (r: Result<seq<Byte>>)
      requires Valid()
      modifies this
      ensures Valid()
      ensures if old(offset) + length <= |bytes|
              then offset == old(offset) + length && r == Ok(bytes[old(offset)..offset])
              else offset == old(offset) && r == Err(Truncated)
    {
      if offset + length > |bytes| {
        return Err(Truncated);
      }
      r := Ok(bytes[offset..offset + length]);
      offset := offset + length;
    }

    method ReadWord(width: nat) returns (r: Result<nat>)
      requires Valid()
      modifies this
      ensures Valid()
      ensures if old(offset) + width <= |bytes|
              then offset == old(offset) + width && r == Ok(FromBytes(bytes[old(offset)..offset]))
              else offset == old(offset) && r == Err(Truncated)
    {
      var word :- ReadBytes(width);
      return Ok(FromBytes(word));
    }

    method ReadBool() returns (r: Result<bool>)
      requires Valid()
      modifies this
      ensures Valid()
      ensures if old(offset) < |bytes|
              then offset == old(offset) + 1
                   && r == (if bytes[old(offset)] > 1 then Err(InvalidBool) else Ok(bytes[old(offset)] == 1))
              else offset == old(offset) && r == Err(Truncated)
    {
      var byte :- ReadBytes(1);
      return if byte[0] == 0 then Ok(false) else if byte[0] == 1 then Ok(true) else Err(InvalidBool);
    }
  }

  // A row of the buffer

  /** The words of the row at offset. */
  function WordsAt(bytes: seq<Byte>, offset: nat): (values: seq<nat>)
    requires offset + ROW_BYTES <= |bytes|
    ensures |values| == 17
  {
    WidthOfRow();
    RowFromBytes(bytes[offset..offset + ROW_BYTES], WIDTHS)
  }

  /** A 0 or 1 where the row has its two booleans. */
  predicate GoodBools(bytes: seq<Byte>, offset: nat)
    requires offset + ROW_BYTES <= |bytes|
  {
    bytes[offset + 36] <= 1 && bytes[offset + 94] <= 1
  }

  /** Where word k of a row starts, and how wide it is. */
  function PlaceOf(k: nat): nat {
    if k == 0 then 0 else if k <= 5 then 8 * k - 4 else if k == 6 then 37
    else if k <= 12 then 8 * k - 18 else 4 * k + 30
  }

  function WidthOf(k: nat): nat {
    if k == 0 then 4 else if k < 5 then 8 else if k < 7 then 1
    else if k < 12 then 8 else if k < 16 then 4 else 1
  }

  lemma WidthIs(k: nat)
    requires k < 17
    ensures |WIDTHS| == 17 && WIDTHS[k] == WidthOf(k)
  {
  }

  lemma {:induction false} PlaceIs(k: nat)
    requires k < 17
    ensures |WIDTHS| == 17 && Offset(WIDTHS, k) == PlaceOf(k)
  {
    WidthOfRow();
    if k > 0 {
      PlaceIs(k - 1);
      WidthIs(k - 1);
      NextOffset(WIDTHS, k - 1);
    }
  }

  lemma {:induction false} NextOffset(widths: seq<nat>, k: nat)
    requires k < |widths|
    ensures Offset(widths, k + 1) == Offset(widths, k) + widths[k]
    decreases k
  {
    if k > 0 {
      NextOffset(widths[1..], k - 1);
    }
  }

  lemma WordOfRow(bytes: seq<Byte>, offset: nat, k: nat)
    requires offset + ROW_BYTES <= |bytes| && k < 17
    ensures PlaceOf(k) + WidthOf(k) <= ROW_BYTES
    ensures var at := offset + PlaceOf(k);
            WordsAt(bytes, offset)[k] == FromBytes(bytes[at..at + WidthOf(k)]) < Range(WidthOf(k))
  {
    WidthOfRow();
    PlaceIs(k);
    WidthIs(k);
    WordInBuffer(bytes, offset, ROW_BYTES, WIDTHS, k, PlaceOf(k));
  }

  lemma RowIsRow(bytes: seq<Byte>, offset: nat)
    requires offset + ROW_BYTES <= |bytes|
    ensures WordsAt(bytes, offset)[5] == bytes[offset + 36] && WordsAt(bytes, offset)[16] == bytes[offset + 94]
    ensures GoodBools(bytes, offset) <==> IsRow(WordsAt(bytes, offset))
  {
    Ranges();
    WordOfRow(bytes, offset, 5);
    WordOfRow(bytes, offset, 16);
    assert bytes[offset + 36..offset + 37] == [bytes[offset + 36]];
    assert bytes[offset + 94..offset + 95] == [bytes[offset + 94]];
    forall k: nat | k < 17
      ensures WordsAt(bytes, offset)[k] < Range(WidthOf(k))
    {
      WordOfRow(bytes, offset, k);
    }
  }

  /** read_packed_rwkv_review_input, started at offset: its fields are read in order, so
      the first boolean is looked at before the end of the row. */
  function RowAt(bytes: seq<Byte>, offset: nat): Result<ReviewInput> {
    var rest := |bytes| - offset;
    if rest < 37 then Err(Truncated)
    else if bytes[offset + 36] > 1 then Err(InvalidBool)
    else if rest < ROW_BYTES then Err(Truncated)
    else if bytes[offset + 94] > 1 then Err(InvalidBool)
    else
      RowIsRow(bytes, offset);
      Ok(InputOfRow(WordsAt(bytes, offset)))
  }

  /** Read word k of the row that starts at `start`. */
  method ReadNext(cursor: Cursor, width: nat, ghost start: nat, ghost k: nat) returns (r: Result<nat>)
    requires cursor.Valid() && k < 16 && width == WidthOf(k) && cursor.offset == start + PlaceOf(k)
    modifies cursor
    ensures cursor.Valid()
    ensures if start + PlaceOf(k + 1) <= |cursor.bytes| then r.Ok? else r == Err(Truncated)
    ensures r.Ok? ==> cursor.offset == start + PlaceOf(k + 1) && r.value < Range(width)
    ensures r.Ok? && start + ROW_BYTES <= |cursor.bytes| ==>
              r.value == WordsAt(cursor.bytes, start)[k]
  {
    r := cursor.ReadWord(width);
    if start + ROW_BYTES <= |cursor.bytes| {
      WordOfRow(cursor.bytes, start, k);
    }
  }

  datatype Head = Head(presence: nat, ids: seq<nat>, isQuery: bool, ease: nat)
  datatype Tail = Tail(times: seq<nat>, retentions: seq<nat>, enforce: bool)

  /** The fields up to the ease. */
  method ReadHead(cursor: Cursor) returns (r: Result<Head>)
    requires cursor.Valid()
    modifies cursor
    ensures cursor.Valid()
    ensures var start, rest := old(cursor.offset), |cursor.bytes| - old(cursor.offset);
            if rest < 37 then r == Err(Truncated)
            else if cursor.bytes[start + 36] > 1 then r == Err(InvalidBool)
            else if rest < 38 then r == Err(Truncated)
            else r.Ok? && cursor.offset == start + 38
    ensures r.Ok? && old(cursor.offset) + ROW_BYTES <= |cursor.bytes| ==>
              var v := WordsAt(cursor.bytes, old(cursor.offset));
              r.value == Head(v[0], [v[1], v[2], v[3], v[4]], v[5] == 1, v[6])
  {
    ghost var start := cursor.offset;
    var presence :- ReadNext(cursor, 4, start, 0);
    var cardId :- ReadNext(cursor, 8, start, 1);
    var noteId :- ReadNext(cursor, 8, start, 2);
    var deckId :- ReadNext(cursor, 8, start, 3);
    var presetId :- ReadNext(cursor, 8, start, 4);
    var isQuery :- cursor.ReadBool();
    var ease :- ReadNext(cursor, 1, start, 6);
    if start + ROW_BYTES <= |cursor.bytes| {
      RowIsRow(cursor.bytes, start);
    }
    return Ok(Head(presence, [cardId, noteId, deckId, presetId], isQuery, ease));
  }

  /** The fields after the ease, of a row that began 38 bytes before. */
  method ReadTail(cursor: Cursor, ghost start: nat) returns (r: Result<Tail>)
    requires cursor.Valid() && cursor.offset == start + 38
    modifies cursor
    ensures cursor.Valid()
    ensures if |cursor.bytes| < start + ROW_BYTES then r == Err(Truncated)
            else if cursor.bytes[start + 94] > 1 then r == Err(InvalidBool)
            else
              var v := WordsAt(cursor.bytes, start);
              && cursor.offset == start + ROW_BYTES
              && r == Ok(Tail([v[7], v[8], v[9], v[10], v[11]], [v[12], v[13], v[14], v[15]], v[16] == 1))
  {
    var durationMillis :- ReadNext(cursor, 8, start, 7);
    var cardType :- ReadNext(cursor, 8, start, 8);
    var dayOffset :- ReadNext(cursor, 8, start, 9);
    var elapsedDays :- ReadNext(cursor, 8, start, 10);
    var elapsedSeconds :- ReadNext(cursor, 8, start, 11);
    var again :- ReadNext(cursor, 4, start, 12);
    var hard :- ReadNext(cursor, 4, start, 13);
    var good :- ReadNext(cursor, 4, start, 14);
    var easy :- ReadNext(cursor, 4, start, 15);
    var enforce :- cursor.ReadBool();
    RowIsRow(cursor.bytes, start);
    return Ok(Tail([durationMillis, cardType, dayOffset, elapsedDays, elapsedSeconds],
                   [again, hard, good, easy], enforce));
  }

  method ReadRow(cursor: Cursor) returns (r: Result<ReviewInput>)
    requires cursor.Valid()
    modifies cursor
    ensures cursor.Valid()
    ensures r == RowAt(cursor.bytes, old(cursor.offset))
    ensures r.Ok? ==> cursor.offset == old(cursor.offset) + ROW_BYTES
  {
    ghost var start := cursor.offset;
    var head :- ReadHead(cursor);
    var tail :- ReadTail(cursor, start);
    RowIsRow(cursor.bytes, start);
    var Head(presence, ids, isQuery, ease) := head;
    var Tail(times, retentions, enforce) := tail;
    return Ok(ReviewInput(
      FromWord(ids[0]), OptionalWord(presence, 0, ids[1]), OptionalWord(presence, 1, ids[2]),
      OptionalWord(presence, 2, ids[3]), isQuery, Optional(presence, 3, ease),
      OptionalWord(presence, 4, times[0]), OptionalWord(presence, 5, times[1]),
      OptionalWord(presence, 6, times[2]), OptionalWord(presence, 7, times[3]),
      OptionalWord(presence, 8, times[4]),
      Optional(presence, 9, retentions[0]), Optional(presence, 10, retentions[1]),
      Optional(presence, 11, retentions[2]), Optional(presence, 12, retentions[3]), enforce));
  }

  // The whole buffer

  const HEADER_BYTES: nat := 12

  function RowStart(i: nat): nat { HEADER_BYTES + ROW_BYTES * i }

  /** All the values, or the first error. */
  function Collect<T>(results: seq<Result<T>>): (r: Result<seq<T>>)
    ensures r.Ok? ==> |r.value| == |results|
  {
    if results == [] then Ok([])
    else
      var front :- Collect(results[..|results| - 1]);
      var last :- results[|results| - 1];
      Ok(front + [last])
  }

  lemma {:induction false} CollectErr<T>(results: seq<Result<T>>, n: nat)
    requires n <= |results| && Collect(results[..n]).Err?
    ensures Collect(results) == Err(Collect(results[..n]).error)
  {
    if n < |results| {
      var front := results[..|results| - 1];
      assert front[..n] == results[..n];
      CollectErr(front, n);
    } else {
      assert results[..n] == results;
    }
  }

  lemma {:induction false} CollectOk<T>(results: seq<Result<T>>)
    ensures Collect(results).Ok? <==> forall i :: 0 <= i < |results| ==> results[i].Ok?
    ensures Collect(results).Ok? ==> forall i :: 0 <= i < |results| ==> results[i] == Ok(Collect(results).value[i])
  {
    if results != [] {
      CollectOk(results[..|results| - 1]);
    }
  }

  function RowResults(bytes: seq<Byte>, n: nat): seq<Result<ReviewInput>> {
    seq(n, i requires 0 <= i < n => RowAt(bytes, RowStart(i)))
  }

  function Count(bytes: seq<Byte>): nat
    requires |bytes| >= HEADER_BYTES
  {
    FromBytes(bytes[8..12])
  }

  /** parse_packed_rwkv_review_inputs */
  function Parsed(bytes: seq<Byte>): Result<seq<ReviewInput>> {
    if |bytes| < 8 then Err(Truncated)
    else if bytes[..8] != MAGIC then Err(InvalidHeader)
    else if |bytes| < HEADER_BYTES then Err(Truncated)
    else
      var rows :- Collect(RowResults(bytes, Count(bytes)));
      if |bytes| != RowStart(Count(bytes)) then Err(TrailingBytes) else Ok(rows)
  }

  method Parse(bytes: seq<Byte>) returns (r: Result<seq<ReviewInput>>)
    ensures r == Parsed(bytes)
  {
    var cursor := new Cursor(bytes);
    var magic :- cursor.ReadBytes(8);
    assert bytes[0..8] == bytes[..8];
    if magic != MAGIC {
      return Err(InvalidHeader);
    }
    var count :- cursor.ReadWord(4);
    var parsed: seq<ReviewInput> := [];
    ghost var results := RowResults(bytes, count);
    for i := 0 to count
      invariant cursor.Valid() && cursor.bytes == bytes
      invariant cursor.offset == RowStart(i)
      invariant Collect(results[..i]) == Ok(parsed)
    {
      var row := ReadRow(cursor);
      assert results[..i + 1][..i] == results[..i] && results[i] == row;
      if row.Err? {
        CollectErr(results, i + 1);
        return Err(row.error);
      }
      parsed := parsed + [row.value];
    }
    assert results[..count] == results;
    if cursor.offset != |bytes| {
      return Err(TrailingBytes);
    }
    return Ok(parsed);
  }

  // What the parser accepts

  ghost predicate WellFormed(bytes: seq<Byte>) {
    && |bytes| >= HEADER_BYTES && bytes[..8] == MAGIC
    && |bytes| == RowStart(Count(bytes))
    && forall i :: 0 <= i < Count(bytes) ==> GoodBools(bytes, RowStart(i))
  }

  lemma RowAccepted(bytes: seq<Byte>, offset: nat)
    requires offset + ROW_BYTES <= |bytes|
    ensures RowAt(bytes, offset).Ok? <==> GoodBools(bytes, offset)
    ensures GoodBools(bytes, offset) ==>
              IsRow(WordsAt(bytes, offset)) && RowAt(bytes, offset) == Ok(InputOfRow(WordsAt(bytes, offset)))
  {
    RowIsRow(bytes, offset);
  }

  /** Row i is the input its words mean. */
  ghost predicate RowMeans(bytes: seq<Byte>, i: nat, input: ReviewInput)
    requires RowStart(i) + ROW_BYTES <= |bytes|
  {
    IsRow(WordsAt(bytes, RowStart(i))) && input == InputOfRow(WordsAt(bytes, RowStart(i)))
  }

  /** The parser accepts exactly a header followed by as many rows as it says, with 0 or 1
      for each boolean, and gives what the words of each row mean. */
  lemma Accepts(bytes: seq<Byte>)
    ensures Parsed(bytes).Ok? <==> WellFormed(bytes)
    ensures WellFormed(bytes) ==>
              && |Parsed(bytes).value| == Count(bytes)
              && forall i :: 0 <= i < Count(bytes) ==> RowMeans(bytes, i, Parsed(bytes).value[i])
  {
    if |bytes| >= HEADER_BYTES && |bytes| == RowStart(Count(bytes)) {
      var n := Count(bytes);
      var results := RowResults(bytes, n);
      CollectOk(results);
      forall i: nat | i < n
        ensures results[i].Ok? <==> GoodBools(bytes, RowStart(i))
        ensures results[i].Ok? ==> RowMeans(bytes, i, results[i].value)
      {
        RowAccepted(bytes, RowStart(i));
      }
    }
  }

  // Parsing what was packed

  /** Where the value of optional field k lies in a row. */
  function SlotOf(k: nat): nat { if k < 3 then k + 2 else k + 3 }

  lemma FlagsAreBits(flags: seq<bool>)
    requires |flags| == 13
    ensures var n := Flags(flags);
            && n < Range(4)
            && Bit(n, 0) == flags[0] && Bit(n, 1) == flags[1] && Bit(n, 2) == flags[2]
            && Bit(n, 3) == flags[3] && Bit(n, 4) == flags[4] && Bit(n, 5) == flags[5]
            && Bit(n, 6) == flags[6] && Bit(n, 7) == flags[7] && Bit(n, 8) == flags[8]
            && Bit(n, 9) == flags[9] && Bit(n, 10) == flags[10] && Bit(n, 11) == flags[11]
            && Bit(n, 12) == flags[12]
  {
    Ranges();
    FlagBits(flags, 0); FlagBits(flags, 1); FlagBits(flags, 2); FlagBits(flags, 3);
    FlagBits(flags, 4); FlagBits(flags, 5); FlagBits(flags, 6); FlagBits(flags, 7);
    FlagBits(flags, 8); FlagBits(flags, 9); FlagBits(flags, 10); FlagBits(flags, 11);
    FlagBits(flags, 12);
    PresenceBits();
  }

  lemma PresenceBits()
    ensures Power2(13) == 8192
  {
    assert Power2(4) == 16;
    assert Power2(7) == 128;
    assert Power2(10) == 1024;
  }

  lemma WordsFit(input: ReviewInput)
    ensures ToWord(input.cardId) < Range(8)
    ensures Signed(input.noteId) < Range(8) && Signed(input.deckId) < Range(8) && Signed(input.presetId) < Range(8)
    ensures Signed(input.durationMillis) < Range(8) && Signed(input.cardType) < Range(8)
    ensures Signed(input.dayOffset) < Range(8) && Signed(input.elapsedDays) < Range(8)
    ensures Signed(input.elapsedSeconds) < Range(8)
  {
    Ranges();
  }

  lemma RowIsFit(v: seq<nat>)
    requires IsRow(v) && v[0] < Range(4)
    ensures |WIDTHS| == 17 && Fit(v, WIDTHS)
  {
    Ranges();
    forall k: nat | k < 17
      ensures |WIDTHS| == 17 && v[k] < Range(WIDTHS[k])
    {
      WidthIs(k);
    }
  }

  /** The words of a row, one by one. */
  lemma RowWords(presence: nat, ids: seq<nat>, isQuery: bool, ease: nat, times: seq<nat>,
                 retentions: seq<nat>, enforce: bool)
    requires |ids| == 4 && |times| == 5 && |retentions| == 4
    ensures var v := RowValues(presence, ids, isQuery, ease, times, retentions, enforce);
            && v[0] == presence && v[1] == ids[0] && v[2] == ids[1] && v[3] == ids[2] && v[4] == ids[3]
            && v[5] == Word(isQuery) && v[6] == ease
            && v[7] == times[0] && v[8] == times[1] && v[9] == times[2] && v[10] == times[3] && v[11] == times[4]
            && v[12] == retentions[0] && v[13] == retentions[1] && v[14] == retentions[2]
            && v[15] == retentions[3] && v[16] == Word(enforce)
  {
  }

  lemma RowValuesFit(presence: nat, ids: seq<nat>, isQuery: bool, ease: nat, times: seq<nat>,
                     retentions: seq<nat>, enforce: bool)
    requires |ids| == 4 && |times| == 5 && |retentions| == 4
    requires presence < Range(4) && ease < 256
    requires forall i :: 0 <= i < 4 ==> ids[i] < Range(8)
    requires forall i :: 0 <= i < 5 ==> times[i] < Range(8)
    requires forall i :: 0 <= i < 4 ==> retentions[i] < 0x1_0000_0000
    ensures var v := RowValues(presence, ids, isQuery, ease, times, retentions, enforce);
            IsRow(v) && |WIDTHS| == 17 && Fit(v, WIDTHS)
  {
    RowWords(presence, ids, isQuery, ease, times, retentions, enforce);
    RowIsFit(RowValues(presence, ids, isQuery, ease, times, retentions, enforce));
  }

  lemma ValuesAreRow(input: ReviewInput)
    ensures IsRow(Values(input)) && |WIDTHS| == 17 && Fit(Values(input), WIDTHS)
  {
    WordsFit(input);
    FlagsAreBits(Present(input));
    RowValuesFit(
      Flags(Present(input)),
      [ToWord(input.cardId), Signed(input.noteId), Signed(input.deckId), Signed(input.presetId)],
      input.isQuery, Plain(input.ease),
      [ Signed(input.durationMillis), Signed(input.cardType), Signed(input.dayOffset),
        Signed(input.elapsedDays), Signed(input.elapsedSeconds) ],
      [ Plain(input.retentionAgain), Plain(input.retentionHard), Plain(input.retentionGood),
        Plain(input.retentionEasy) ],
      input.enforceGradeOrder);
  }

  lemma WordMeans(value: Option<I64>)
    ensures Signed(value) < Range(8)
    ensures (if value.Some? then Some(FromWord(Signed(value))) else None) == value
  {
    Ranges();
  }

  lemma ValuesMeanInput(input: ReviewInput)
    ensures IsRow(Values(input)) && InputOfRow(Values(input)) == input
  {
    ValuesAreRow(input);
    FlagsAreBits(Present(input));
    SignedRoundTrip(input.cardId, 0);
    WordMeans(input.noteId); WordMeans(input.deckId); WordMeans(input.presetId);
    WordMeans(input.durationMillis); WordMeans(input.cardType); WordMeans(input.dayOffset);
    WordMeans(input.elapsedDays); WordMeans(input.elapsedSeconds);
    RowWords(
      Flags(Present(input)),
      [ToWord(input.cardId), Signed(input.noteId), Signed(input.deckId), Signed(input.presetId)],
      input.isQuery, Plain(input.ease),
      [ Signed(input.durationMillis), Signed(input.cardType), Signed(input.dayOffset),
        Signed(input.elapsedDays), Signed(input.elapsedSeconds) ],
      [ Plain(input.retentionAgain), Plain(input.retentionHard), Plain(input.retentionGood),
        Plain(input.retentionEasy) ],
      input.enforceGradeOrder);
  }

  lemma PartAfter(front: seq<Byte>, back: seq<Byte>, i: nat, n: nat)
    requires i + n <= |back|
    ensures (front + back)[|front| + i..|front| + i + n] == back[i..i + n]
  {
  }

  lemma PartOfRows(rows: seq<Byte>, row: seq<Byte>, n: nat, i: nat)
    requires |rows| == ROW_BYTES * n && |row| == ROW_BYTES && i <= n
    ensures |rows + row| == ROW_BYTES * (n + 1)
    ensures var part := (rows + row)[ROW_BYTES * i..ROW_BYTES * i + ROW_BYTES];
            part == if i < n then rows[ROW_BYTES * i..ROW_BYTES * i + ROW_BYTES] else row
  {
  }

  lemma {:induction false} RowsAt(inputs: seq<ReviewInput>, i: nat)
    requires i < |inputs|
    ensures |Rows(inputs)| == ROW_BYTES * |inputs|
    ensures Rows(inputs)[ROW_BYTES * i..ROW_BYTES * i + ROW_BYTES] == Row(inputs[i])
    decreases |inputs|
  {
    var n := |inputs| - 1;
    if n > 0 {
      RowsAt(inputs[..n], if i < n then i else 0);
    }
    PartOfRows(Rows(inputs[..n]), Row(inputs[n]), n, i);
  }

  lemma RowsLength(inputs: seq<ReviewInput>)
    ensures |Rows(inputs)| == ROW_BYTES * |inputs|
  {
    if inputs != [] {
      RowsAt(inputs, 0);
    }
  }

  lemma PackedHeader(inputs: seq<ReviewInput>)
    requires |inputs| < 0x1_0000_0000
    ensures var bytes := Packed(inputs);
            |bytes| == RowStart(|inputs|) && bytes[..8] == MAGIC && Count(bytes) == |inputs|
  {
    Ranges();
    RowsLength(inputs);
    WordRoundTrip(|inputs|, 4);
    assert Packed(inputs)[8..12] == ToBytes(|inputs|, 4);
  }

  lemma PartAfterHeader(count: nat, rows: seq<Byte>, i: nat, n: nat)
    requires i + n <= |rows|
    ensures (MAGIC + ToBytes(count, 4) + rows)[HEADER_BYTES + i..HEADER_BYTES + i + n] == rows[i..i + n]
  {
    PartAfter(MAGIC + ToBytes(count, 4), rows, i, n);
  }

  lemma PackedPart(inputs: seq<ReviewInput>, i: nat)
    requires i < |inputs|
    ensures RowStart(i) + ROW_BYTES <= |Packed(inputs)|
    ensures Packed(inputs)[RowStart(i)..RowStart(i) + ROW_BYTES] == Row(inputs[i])
  {
    RowsAt(inputs, i);
    PartAfterHeader(|inputs|, Rows(inputs), ROW_BYTES * i, ROW_BYTES);
  }

  lemma WordsOfInput(input: ReviewInput)
    ensures |Row(input)| == Width(WIDTHS) && RowFromBytes(Row(input), WIDTHS) == Values(input)
  {
    ValuesAreRow(input);
    RowRoundTrip(Values(input), WIDTHS);
  }

  lemma PackedRow(inputs: seq<ReviewInput>, i: nat)
    requires i < |inputs|
    ensures RowStart(i) + ROW_BYTES <= |Packed(inputs)|
    ensures WordsAt(Packed(inputs), RowStart(i)) == Values(inputs[i])
  {
    PackedPart(inputs, i);
    WordsOfInput(inputs[i]);
  }

  lemma PackedRowMeans(inputs: seq<ReviewInput>, i: nat)
    requires i < |inputs|
    ensures RowStart(i) + ROW_BYTES <= |Packed(inputs)| && GoodBools(Packed(inputs), RowStart(i))
    ensures RowMeans(Packed(inputs), i, inputs[i])
  {
    PackedRow(inputs, i);
    ValuesMeanInput(inputs[i]);
    RowIsRow(Packed(inputs), RowStart(i));
  }

  lemma RowMeansOne(bytes: seq<Byte>, i: nat, one: ReviewInput, other: ReviewInput)
    requires RowStart(i) + ROW_BYTES <= |bytes| && RowMeans(bytes, i, one) && RowMeans(bytes, i, other)
    ensures one == other
  {
  }

  /** Parsing what was packed gives the inputs back. */
  lemma RoundTrip(inputs: seq<ReviewInput>)
    requires |inputs| < 0x1_0000_0000
    ensures Parsed(Packed(inputs)) == Ok(inputs)
  {
    var bytes := Packed(inputs);
    PackedHeader(inputs);
    forall i: nat | i < |inputs|
      ensures GoodBools(bytes, RowStart(i)) && RowMeans(bytes, i, inputs[i])
    {
      PackedRowMeans(inputs, i);
    }
    Accepts(bytes);
    var parsed := Parsed(bytes).value;
    forall i: nat | i < |inputs|
      ensures parsed[i] == inputs[i]
    {
      RowMeansOne(bytes, i, parsed[i], inputs[i]);
    }
    assert parsed == inputs;
  }

  /** The packer and the parser, one after the other: every list of reviews that fits the
      format reaches the model as it was, and the others are refused before that. */
  method Send(reviews: seq<Review>) returns (received: Option<seq<ReviewInput>>)
    ensures received == if Packable(reviews) then Some(InputsOf(reviews)) else None
  {
    var packed := PackReviews(reviews);
    if packed.None? {
      return None;
    }
    var parsed := Parse(packed.value);
    RoundTrip(InputsOf(reviews));
    return Some(parsed.value);
  }

  // Packing what was parsed

  /** A row with nothing where it says there is nothing, and no bit for a field it lacks. */
  predicate CanonicalRow(v: seq<nat>)
    requires |v| == 17
  {
    v[0] < 8192 && forall k: nat :: k < 13 && !Bit(v[0], k) ==> v[SlotOf(k)] == 0
  }

  ghost predicate Canonical(bytes: seq<Byte>)
    requires WellFormed(bytes)
  {
    forall i: nat :: i < Count(bytes) ==> CanonicalRow(WordsAt(bytes, RowStart(i)))
  }

  lemma Regroup(f: seq<bool>)
    requires |f| == 13
    ensures [f[0], f[1], f[2], f[3]] + [f[4], f[5], f[6], f[7], f[8]] + [f[9], f[10], f[11], f[12]] == f
  {
    assert [f[0], f[1], f[2], f[3]] == f[..4];
    assert [f[4], f[5], f[6], f[7], f[8]] == f[4..9];
    assert [f[9], f[10], f[11], f[12]] == f[9..];
  }

  lemma PresentIs(input: ReviewInput, f: seq<bool>)
    requires |f| == 13
    requires f[0] == input.noteId.Some? && f[1] == input.deckId.Some? && f[2] == input.presetId.Some?
    requires f[3] == input.ease.Some? && f[4] == input.durationMillis.Some? && f[5] == input.cardType.Some?
    requires f[6] == input.dayOffset.Some? && f[7] == input.elapsedDays.Some?
    requires f[8] == input.elapsedSeconds.Some? && f[9] == input.retentionAgain.Some?
    requires f[10] == input.retentionHard.Some? && f[11] == input.retentionGood.Some?
    requires f[12] == input.retentionEasy.Some?
    ensures Present(input) == f
  {
    Regroup(f);
  }

  lemma RepackedPresence(v: seq<nat>)
    requires IsRow(v)
    ensures Present(InputOfRow(v)) == BitsOf(v[0], 13)
  {
    PresentIs(InputOfRow(v), BitsOf(v[0], 13));
  }

  lemma RepackedWord(presence: nat, bit: nat, word: nat)
    requires word < Range(8)
    ensures Signed(OptionalWord(presence, bit, word)) == if Bit(presence, bit) then word else 0
  {
    Ranges();
  }

  function Masked(v: seq<nat>, k: nat): nat
    requires |v| == 17 && k < 13
  {
    if Bit(v[0], k) then v[SlotOf(k)] else 0
  }

  /** What a row becomes when it is parsed and packed again. */
  lemma RepackedValues(v: seq<nat>)
    requires IsRow(v)
    ensures var w := Values(InputOfRow(v));
            && w[0] == Flags(BitsOf(v[0], 13)) && w[1] == v[1] && w[5] == v[5] && w[16] == v[16]
            && w[2] == Masked(v, 0) && w[3] == Masked(v, 1) && w[4] == Masked(v, 2) && w[6] == Masked(v, 3)
            && w[7] == Masked(v, 4) && w[8] == Masked(v, 5) && w[9] == Masked(v, 6) && w[10] == Masked(v, 7)
            && w[11] == Masked(v, 8) && w[12] == Masked(v, 9) && w[13] == Masked(v, 10)
            && w[14] == Masked(v, 11) && w[15] == Masked(v, 12)
  {
    Ranges();
    var input := InputOfRow(v);
    RepackedPresence(v);
    SignedRoundTrip(0, v[1]);
    RepackedWord(v[0], 0, v[2]); RepackedWord(v[0], 1, v[3]); RepackedWord(v[0], 2, v[4]);
    RepackedWord(v[0], 4, v[7]); RepackedWord(v[0], 5, v[8]); RepackedWord(v[0], 6, v[9]);
    RepackedWord(v[0], 7, v[10]); RepackedWord(v[0], 8, v[11]);
    RowWords(
      Flags(Present(input)),
      [ToWord(input.cardId), Signed(input.noteId), Signed(input.deckId), Signed(input.presetId)],
      input.isQuery, Plain(input.ease),
      [ Signed(input.durationMillis), Signed(input.cardType), Signed(input.dayOffset),
        Signed(input.elapsedDays), Signed(input.elapsedSeconds) ],
      [ Plain(input.retentionAgain), Plain(input.retentionHard), Plain(input.retentionGood),
        Plain(input.retentionEasy) ],
      input.enforceGradeOrder);
  }

  /** Parsing and packing a row gives it back exactly when it is canonical. */
  lemma RowRepacks(v: seq<nat>)
    requires IsRow(v)
    ensures Values(InputOfRow(v)) == v <==> CanonicalRow(v)
  {
    var w := Values(InputOfRow(v));
    RepackedValues(v);
    BitsAreWord(v[0], 13);
    PresenceBits();
    MaskedIsRow(v, w);
  }

  lemma MaskedIsRow(v: seq<nat>, w: seq<nat>)
    requires |v| == 17 && |w| == 17
    requires w[0] == v[0] <==> v[0] < 8192
    requires w[1] == v[1] && w[5] == v[5] && w[16] == v[16]
    requires w[2] == Masked(v, 0) && w[3] == Masked(v, 1) && w[4] == Masked(v, 2) && w[6] == Masked(v, 3)
    requires w[7] == Masked(v, 4) && w[8] == Masked(v, 5) && w[9] == Masked(v, 6) && w[10] == Masked(v, 7)
    requires w[11] == Masked(v, 8) && w[12] == Masked(v, 9) && w[13] == Masked(v, 10)
    requires w[14] == Masked(v, 11) && w[15] == Masked(v, 12)
    ensures w == v <==> CanonicalRow(v)
  {
    forall k: nat | k < 13
      ensures w[SlotOf(k)] == v[SlotOf(k)] <==> Bit(v[0], k) || v[SlotOf(k)] == 0
    {
      assert w[SlotOf(k)] == Masked(v, k);
    }
    if CanonicalRow(v) {
      forall j: nat | j < 17
        ensures w[j] == v[j]
      {
        if j != 0 && j != 1 && j != 5 && j != 16 {
          assert SlotOf(if j < 5 then j - 2 else j - 3) == j;
        }
      }
    }
  }

  lemma RowGivesBack(bytes: seq<Byte>, offset: nat, input: ReviewInput)
    requires offset + ROW_BYTES <= |bytes|
    ensures bytes[offset..offset + ROW_BYTES] == Row(input) <==> WordsAt(bytes, offset) == Values(input)
  {
    WidthOfRow();
    ValuesAreRow(input);
    SameRow(bytes[offset..offset + ROW_BYTES], Values(input), WIDTHS);
  }

  lemma RowMeansInput(bytes: seq<Byte>, i: nat, input: ReviewInput)
    requires RowStart(i) + ROW_BYTES <= |bytes| && RowMeans(bytes, i, input)
    ensures bytes[RowStart(i)..RowStart(i) + ROW_BYTES] == Row(input)
       <==> CanonicalRow(WordsAt(bytes, RowStart(i)))
  {
    RowRepacks(WordsAt(bytes, RowStart(i)));
    RowGivesBack(bytes, RowStart(i), input);
  }

  /** Two buffers of n rows with one header are equal when their rows are. */
  lemma RowByRow(one: seq<Byte>, other: seq<Byte>, n: nat)
    requires |one| == RowStart(n) == |other| && one[..HEADER_BYTES] == other[..HEADER_BYTES]
    requires forall i: nat :: i < n ==>
      one[RowStart(i)..RowStart(i) + ROW_BYTES] == other[RowStart(i)..RowStart(i) + ROW_BYTES]
    ensures one == other
  {
    forall j: nat | j < |one|
      ensures one[j] == other[j]
    {
      if j < HEADER_BYTES {
        assert one[j] == one[..HEADER_BYTES][j];
      } else {
        var i := (j - HEADER_BYTES) / ROW_BYTES;
        var k := j - RowStart(i);
        assert one[j] == one[RowStart(i)..RowStart(i) + ROW_BYTES][k];
      }
    }
  }

  /** Packing what was parsed gives the buffer back exactly when every row is canonical. */
  lemma Repack(bytes: seq<Byte>)
    requires WellFormed(bytes)
    ensures Parsed(bytes).Ok?
    ensures Packed(Parsed(bytes).value) == bytes <==> Canonical(bytes)
  {
    Accepts(bytes);
    Ranges();
    var inputs := Parsed(bytes).value;
    var packed := Packed(inputs);
    PackedHeader(inputs);
    BytesRoundTrip(bytes[8..12]);
    assert packed[..12] == MAGIC + ToBytes(|inputs|, 4);
    assert bytes[..12] == bytes[..8] + bytes[8..12];
    forall i: nat | i < |inputs|
      ensures bytes[RowStart(i)..RowStart(i) + ROW_BYTES] == packed[RowStart(i)..RowStart(i) + ROW_BYTES]
         <==> CanonicalRow(WordsAt(bytes, RowStart(i)))
    {
      PackedPart(inputs, i);
      RowMeansInput(bytes, i, inputs[i]);
    }
    if Canonical(bytes) {
      RowByRow(bytes, packed, |inputs|);
    }
  }
}
