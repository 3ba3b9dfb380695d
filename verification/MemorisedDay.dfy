/** The query inputs of one day, made in place from rows that were packed once. */
module MemorisedDay {
  import opened Common
  import opened LittleEndian
  import opened PackedReviews
  import PackedParser

  const SECONDS_IN_A_DAY := 86_400

  /** Two's complement wrap-around, which a release build does. */
  function Wrap(x: int): I64 {
    (x + 0x8000_0000_0000_0000) % 0x1_0000_0000_0000_0000 - 0x8000_0000_0000_0000
  }

  function ElapsedDays(day: I64, reviewDay: I64): (days: I64)
    ensures days >= 0
  {
    if Wrap(day - reviewDay) > 0 then Wrap(day - reviewDay) else 0
  }

  function OnDay(input: ReviewInput, day: I64): ReviewInput
    requires input.dayOffset.Some?
  {
    var elapsed := ElapsedDays(day, input.dayOffset.value);
    input.(isQuery := true, ease := None, durationMillis := None, dayOffset := Some(day),
           elapsedDays := Some(elapsed), elapsedSeconds := Some(Wrap(elapsed * SECONDS_IN_A_DAY)))
  }

  predicate HaveDays(inputs: seq<ReviewInput>) {
    forall i :: 0 <= i < |inputs| ==> inputs[i].dayOffset.Some?
  }

  function AllOnDay(inputs: seq<ReviewInput>, day: I64): (moved: seq<ReviewInput>)
    requires HaveDays(inputs)
    ensures |moved| == |inputs|
  {
    seq(|inputs|, i requires 0 <= i < |inputs| => OnDay(inputs[i], day))
  }

  /** parse_packed_rwkv_memorised_day_inputs */
  function ParsedForDay(bytes: seq<Byte>, day: I64): Result<seq<ReviewInput>> {
    var inputs :- PackedParser.Parsed(bytes);
    if HaveDays(inputs) then Ok(AllOnDay(inputs, day)) else Err(NoReviewDay)
  }

  method ParseForDay(bytes: seq<Byte>, day: I64) returns (r: Result<seq<ReviewInput>>)
    ensures r == ParsedForDay(bytes, day)
  {
    var parsed :- PackedParser.Parse(bytes);
    r := Rewrite(parsed, day);
  }

  /** The loop over the parsed inputs, which rewrites them in place. */
  method Rewrite(parsed: seq<ReviewInput>, day: I64) returns (r: Result<seq<ReviewInput>>)
    ensures r == if HaveDays(parsed) then Ok(AllOnDay(parsed, day)) else Err(NoReviewDay)
  {
    var inputs := new ReviewInput[|parsed|](i requires 0 <= i < |parsed| => parsed[i]);
    for i := 0 to inputs.Length
      invariant forall j :: 0 <= j < i ==> parsed[j].dayOffset.Some? && inputs[j] == OnDay(parsed[j], day)
      invariant forall j :: i <= j < inputs.Length ==> inputs[j] == parsed[j]
    {
      if inputs[i].dayOffset.None? {
        return Err(NoReviewDay);
      }
      inputs[i] := OnDay(inputs[i], day);
    }
    assert inputs[..] == AllOnDay(parsed, day);
    return Ok(inputs[..]);
  }

  /** Rows packed once give on any day the inputs of rows packed for that day. */
  lemma SameAsPackedForTheDay(inputs: seq<ReviewInput>, day: I64)
    requires HaveDays(inputs) && |inputs| < 0x1_0000_0000
    ensures ParsedForDay(Packed(inputs), day) == PackedParser.Parsed(Packed(AllOnDay(inputs, day)))
  {
    PackedParser.RoundTrip(inputs);
    PackedParser.RoundTrip(AllOnDay(inputs, day));
  }

  /** From one day to another only the day and the two elapsed times change. */
  lemma DaysDifferInThreeFields(bytes: seq<Byte>, day: I64, other: I64, i: nat)
    requires ParsedForDay(bytes, day).Ok? && i < |ParsedForDay(bytes, day).value|
    ensures ParsedForDay(bytes, other).Ok? && i < |ParsedForDay(bytes, other).value|
    ensures var one, two := ParsedForDay(bytes, day).value[i], ParsedForDay(bytes, other).value[i];
            two == one.(dayOffset := two.dayOffset, elapsedDays := two.elapsedDays,
                        elapsedSeconds := two.elapsedSeconds)
  {
  }

  /** An input of the day is a query of the same card, note, deck and preset, in the same state
      and with the same retentions, on that day, so many days and seconds after its review. */
  lemma OnDayIs(input: ReviewInput, day: I64, reviewDay: I64)
    requires input.dayOffset == Some(reviewDay)
    requires IsI64(day - reviewDay) && IsI64(TrueDays(day, reviewDay) * 86_400)
    ensures OnDay(input, day)
         == ReviewInput(input.cardId, input.noteId, input.deckId, input.presetId, true, None, None, input.cardType,
                        Some(day), Some(TrueDays(day, reviewDay)), Some(TrueDays(day, reviewDay) * 86_400),
                        input.retentionAgain, input.retentionHard, input.retentionGood, input.retentionEasy,
                        input.enforceGradeOrder)
  {
    ElapsedIsTrue(day, reviewDay);
  }

  function TrueDays(day: I64, reviewDay: I64): nat { if day > reviewDay then day - reviewDay else 0 }

  /** The two elapsed times are the days that have passed, and none before the review,
      exactly when neither the difference nor its seconds overflow. */
  lemma ElapsedIsTrue(day: I64, reviewDay: I64)
    ensures ElapsedDays(day, reviewDay) == TrueDays(day, reviewDay)
            && Wrap(ElapsedDays(day, reviewDay) * SECONDS_IN_A_DAY) == TrueDays(day, reviewDay) * SECONDS_IN_A_DAY
       <==> IsI64(day - reviewDay) && IsI64(TrueDays(day, reviewDay) * SECONDS_IN_A_DAY)
  {
    if !IsI64(day - reviewDay) {
      if day > reviewDay {
        assert Wrap(day - reviewDay) == day - reviewDay - 0x1_0000_0000_0000_0000;
      } else {
        assert Wrap(day - reviewDay) == day - reviewDay + 0x1_0000_0000_0000_0000;
      }
    }
  }
}
