/** What each entry of a row becomes in its review input, in terms of the row alone. */
module ReviewInputs {
  import opened Common
  import opened LittleEndian
  import opened ReviewRows

  // The retention, as the number that its 32 bits stand for in IEEE 754

  /** The bits of the exponent and of the fraction, and the sign. */
  function Exponent(bits: Word32): nat { bits / 0x80_0000 % 256 }

  function Fraction(bits: Word32): nat { bits % 0x80_0000 }

  predicate IsNegative(bits: Word32) { bits >= 0x8000_0000 }

  /** The absolute value of a finite number, counted in units of the smallest one, 2 ** -149. */
  function Magnitude(bits: Word32): nat {
    if Exponent(bits) == 0 then Fraction(bits)
    else (Fraction(bits) + 0x80_0000) * Power2(Exponent(bits) - 1)
  }

  predicate IsFinite(bits: Word32) { Exponent(bits) != 255 }

  function NumberOf(bits: Word32): int { if IsNegative(bits) then -(Magnitude(bits) as int) else Magnitude(bits) }

  lemma {:induction false} PowerOfSum(a: nat, b: nat)
    ensures Power2(a + b) == Power2(a) * Power2(b) && Power2(a) > 0
  {
    if a > 0 {
      PowerOfSum(a - 1, b);
    }
  }

  lemma Power23()
    ensures Power2(23) == 0x80_0000 && Power2(24) == 0x100_0000
  {
    assert Power2(8) == 256;
    assert Power2(16) == 65536;
  }

  lemma Product(a: nat, b: nat, c: nat, d: nat)
    requires a <= c && b <= d
    ensures a * b <= c * d
  {
    assert a * b <= c * b;
    assert c * b <= c * d;
  }

  lemma {:induction false} PowersGrow(a: nat, b: nat)
    requires a <= b
    ensures 0 < Power2(a) <= Power2(b)
  {
    PowerOfSum(a, b - a);
    PowerOfSum(b - a, 0);
    Product(Power2(a), 1, Power2(a), Power2(b - a));
  }

  lemma BelowOne(e: nat, f: nat)
    requires 0 < e < 127 && f < 0x80_0000
    ensures (f + 0x80_0000) * Power2(e - 1) <= Power2(149)
  {
    Power23();
    PowersGrow(e - 1, 125);
    Product(f + 0x80_0000, Power2(e - 1), 0x100_0000, Power2(125));
    PowerOfSum(24, 125);
  }

  lemma AtOne(f: nat)
    ensures (f + 0x80_0000) * Power2(126) <= Power2(149) <==> f == 0
  {
    Power23();
    PowerOfSum(23, 126);
    PowerOfSum(126, 0);
    assert (f + 0x80_0000) * Power2(126) == f * Power2(126) + 0x80_0000 * Power2(126);
    if f > 0 {
      Product(1, Power2(126), f, Power2(126));
    }
  }

  lemma AboveOne(e: nat, f: nat)
    requires e > 127
    ensures (f + 0x80_0000) * Power2(e - 1) > Power2(149)
  {
    Power23();
    PowersGrow(127, e - 1);
    Product(0x80_0000, Power2(127), f + 0x80_0000, Power2(e - 1));
    PowerOfSum(23, 127);
    PowersGrow(149, 149);
    assert Power2(150) == 2 * Power2(149);
  }

  /** One is exponent 127 and no fraction. */
  lemma NotAboveOne(bits: Word32)
    ensures Magnitude(bits) <= Power2(149) <==>
              Exponent(bits) < 127 || (Exponent(bits) == 127 && Fraction(bits) == 0)
  {
    var e, f := Exponent(bits), Fraction(bits);
    if e == 0 {
      Power23();
      PowersGrow(23, 149);
    } else if e < 127 {
      BelowOne(e, f);
    } else if e == 127 {
      AtOne(f);
    } else {
      AboveOne(e, f);
    }
  }

  lemma BitsBelowOne(bits: Word32)
    requires !IsNegative(bits)
    ensures bits <= 0x3F80_0000 <==> Exponent(bits) < 127 || (Exponent(bits) == 127 && Fraction(bits) == 0)
  {
  }

  lemma PositiveIs(bits: Word32)
    requires !IsNegative(bits)
    ensures IsProbability(bits) <==> IsFinite(bits) && 0 <= NumberOf(bits) <= Power2(149)
  {
    NotAboveOne(bits);
    BitsBelowOne(bits);
  }

  lemma NegativeIs(bits: Word32)
    requires IsNegative(bits)
    ensures IsProbability(bits) <==> IsFinite(bits) && 0 <= NumberOf(bits) <= Power2(149)
  {
    ZeroIs(bits);
  }

  /** The retention of a row is used exactly when it is a finite number from zero to one. */
  lemma ProbabilityIs(bits: Word32)
    ensures IsProbability(bits) <==> IsFinite(bits) && 0 <= NumberOf(bits) <= Power2(149)
  {
    if IsNegative(bits) {
      NegativeIs(bits);
    } else {
      PositiveIs(bits);
    }
  }

  lemma ZeroIs(bits: Word32)
    requires IsNegative(bits)
    ensures Magnitude(bits) == 0 <==> bits == 0x8000_0000
  {
    if Exponent(bits) > 0 {
      PowerOfSum(Exponent(bits) - 1, 0);
    }
  }

  // The rest of a row

  /** The review states by the names of a row's kinds. */
  const STATES: map<string, CardType> :=
    map["new" := New, "learning" := Learning, "review" := Review, "relearning" := Relearning]

  /** The review state is that of a filtered deck, or that of the kind's name, or the card's type. */
  lemma CardTypeIs(row: Row)
    ensures CardTypeOf(row) == if row.stateKind == "filtered" then Filtered
                               else if row.normalStateKind in STATES then STATES[row.normalStateKind]
                               else Number(row.cardType)
  {
  }

  /** The retention counts four times, if it is a number from zero to one. */
  lemma RetentionsAre(bits: Word32)
    ensures RetentionsOf(bits)
         == var retention := if IsFinite(bits) && 0 <= NumberOf(bits) <= Power2(149) then Given(bits)
                             else DefaultRetention;
            [retention, retention, retention, retention]
  {
    ProbabilityIs(bits);
  }

  function KindOrNone(kind: string): Option<string> { if kind == "" then None else Some(kind) }

  /** Every entry of a row's input. */
  lemma InputIs(settings: Settings, row: Row)
    requires Converts(settings, row)
    ensures var input := InputOf(settings, row);
            && input.cardId == row.cardId && input.noteId == row.noteId && input.deckId == row.deckId
            && input.presetId == (if row.presetId == "" then None else settings.stablePresetId(row.presetId))
            && input.isQuery && input.cardType == CardTypeOf(row)
            && input.stateKind == KindOrNone(row.stateKind) && input.normalStateKind == KindOrNone(row.normalStateKind)
            && input.targetRetentions == RetentionsOf(row.targetRetention)
            && (input.enforceGradeOrder <==> row.enforceGradeOrder.Some? ==> row.enforceGradeOrder.value)
            && input.schedule == row.schedule
  {
    PresetIs(settings, row.presetId);
  }

  lemma PresetIs(settings: Settings, presetId: string)
    ensures PresetOf(settings, presetId).Some? ==>
              PresetOf(settings, presetId).value == if presetId == "" then None else settings.stablePresetId(presetId)
  {
    match settings.stablePresetId(presetId)
    case None =>
    case Some(_) =>
  }

  /** A row converts unless the call for its preset fails. */
  lemma ConvertsWhen(settings: Settings, row: Row)
    ensures Converts(settings, row) <==> (row.presetId == "" || settings.stablePresetId(row.presetId).Some?)
  {
    match settings.stablePresetId(row.presetId)
    case None =>
    case Some(_) =>
  }

  /** A row's batch size counts when it is between the bounds, both included. */
  lemma BatchSizeIs(settings: Settings, row: Row)
    ensures BatchSize(settings, row) == row.batchSize || BatchSize(settings, row) == settings.defaultBatchSize
    ensures row.batchSize < settings.minBatchSize || row.batchSize > settings.maxBatchSize ==>
              BatchSize(settings, row) == settings.defaultBatchSize
    ensures row.batchSize >= settings.minBatchSize && row.batchSize <= settings.maxBatchSize ==>
              BatchSize(settings, row) == row.batchSize
  {
  }
}
