/** The review inputs of the backend's rows, made with memo tables and grouped by batch size. */
module ReviewRows {
  import opened Common
  import opened Picks

  /** A Python object that is only passed on. */
  type Object = int

  /** The entries of a row that go into its input as they are. */
  datatype Schedule = Schedule(
    cardQueue: int, cardDue: int, intervalDays: int, easeFactor: int, reps: int, lapses: int, dayOffset: int,
    elapsedDays: Option<int>, elapsedSeconds: Option<int>)

  datatype Row = Row(
    cardId: int, noteId: int, deckId: int, presetId: string, stateKind: string, normalStateKind: string,
    cardType: int, targetRetention: Word32, batchSize: nat, enforceGradeOrder: Option<bool>, schedule: Schedule)

  datatype CardType = Filtered | New | Learning | Review | Relearning | Number(value: int)

  datatype Retention = Given(bits: Word32) | DefaultRetention

  datatype Input = Input(
    cardId: int, noteId: int, deckId: int, presetId: Option<Object>, isQuery: bool, cardType: CardType,
    stateKind: Option<string>, normalStateKind: Option<string>, targetRetentions: seq<Retention>,
    enforceGradeOrder: bool, schedule: Schedule)

  datatype Settings = Settings(
    stablePresetId: string -> Option<Object>,
    batchSizeOverride: Option<Object>,
    defaultBatchSize: nat, minBatchSize: nat, maxBatchSize: nat)

  // A row by itself

  /** The f32 with these bits is a finite number from 0 to 1, or minus zero. */
  predicate IsProbability(bits: Word32) { bits <= 0x3F80_0000 || bits == 0x8000_0000 }

  function RetentionsOf(bits: Word32): seq<Retention> {
    var retention := if IsProbability(bits) then Given(bits) else DefaultRetention;
    [retention, retention, retention, retention]
  }

  function KindOf(kind: string): Option<string> { if kind == "" then None else Some(kind) }

  function CardTypeOf(row: Row): CardType {
    if row.stateKind == "filtered" then Filtered
    else if row.normalStateKind == "new" then New
    else if row.normalStateKind == "learning" then Learning
    else if row.normalStateKind == "review" then Review
    else if row.normalStateKind == "relearning" then Relearning
    else Number(row.cardType)
  }

  /** The row's preset, or None when the call for it fails. */
  function PresetOf(settings: Settings, presetId: string): Option<Option<Object>> {
    if presetId == "" then Some(None)
    else
      match settings.stablePresetId(presetId)
      case None => None
      case Some(preset) => Some(Some(preset))
  }

  predicate Converts(settings: Settings, row: Row) { PresetOf(settings, row.presetId).Some? }

  function InputOf(settings: Settings, row: Row): Input
    requires Converts(settings, row)
  {
    Input(row.cardId, row.noteId, row.deckId, PresetOf(settings, row.presetId).value, true, CardTypeOf(row),
          KindOf(row.stateKind), KindOf(row.normalStateKind), RetentionsOf(row.targetRetention),
          row.enforceGradeOrder != Some(false), row.schedule)
  }

  function BatchSize(settings: Settings, row: Row): nat {
    if settings.minBatchSize <= row.batchSize <= settings.maxBatchSize then row.batchSize
    else settings.defaultBatchSize
  }

  // The groups of rows

  predicate AllConvert(settings: Settings, rows: seq<Row>) {
    forall i :: 0 <= i < |rows| ==> Converts(settings, rows[i])
  }

  function Inputs(settings: Settings, rows: seq<Row>): (inputs: seq<Input>)
    requires AllConvert(settings, rows)
    ensures |inputs| == |rows|
  {
    seq(|rows|, i requires 0 <= i < |rows| => InputOf(settings, rows[i]))
  }

  function InputsOfSize(settings: Settings, rows: seq<Row>, size: nat): seq<Input>
    requires AllConvert(settings, rows)
  {
    if rows == [] then []
    else
      InputsOfSize(settings, rows[..|rows| - 1], size)
      + if BatchSize(settings, rows[|rows| - 1]) == size then [InputOf(settings, rows[|rows| - 1])] else []
  }

  /** The batch sizes, in the order their first rows come. */
  function Sizes(settings: Settings, rows: seq<Row>): seq<nat> {
    if rows == [] then []
    else
      var before, size := Sizes(settings, rows[..|rows| - 1]), BatchSize(settings, rows[|rows| - 1]);
      if size in before then before else before + [size]
  }

  lemma SizesNext(settings: Settings, rows: seq<Row>, row: Row)
    ensures Sizes(settings, rows + [row])
         == var before := Sizes(settings, rows);
            if BatchSize(settings, row) in before then before else before + [BatchSize(settings, row)]
  {
    assert (rows + [row])[..|rows|] == rows;
  }

  lemma InputsNext(settings: Settings, rows: seq<Row>, row: Row, size: nat)
    requires AllConvert(settings, rows) && Converts(settings, row)
    ensures AllConvert(settings, rows + [row])
    ensures InputsOfSize(settings, rows + [row], size)
         == InputsOfSize(settings, rows, size)
            + if BatchSize(settings, row) == size then [InputOf(settings, row)] else []
  {
    assert (rows + [row])[..|rows|] == rows;
  }

  /** The sizes are those of the rows, each once. */
  lemma {:induction false} SizesAre(settings: Settings, rows: seq<Row>)
    ensures forall size :: size in Sizes(settings, rows) <==>
              exists i :: 0 <= i < |rows| && BatchSize(settings, rows[i]) == size
    ensures forall a, b :: 0 <= a < b < |Sizes(settings, rows)| ==>
              Sizes(settings, rows)[a] != Sizes(settings, rows)[b]
  {
    if rows != [] {
      var front, last := rows[..|rows| - 1], |rows| - 1;
      SizesAre(settings, front);
      forall size
        ensures size in Sizes(settings, rows) <==>
                  exists i :: 0 <= i < |rows| && BatchSize(settings, rows[i]) == size
      {
        if i :| 0 <= i < |front| && BatchSize(settings, front[i]) == size {
          assert BatchSize(settings, rows[i]) == size;
        }
        if i :| 0 <= i < |rows| && BatchSize(settings, rows[i]) == size {
          assert i < last ==> BatchSize(settings, front[i]) == size;
        }
      }
    }
  }

  /** Row i is the first of its size. */
  predicate IsFirst(settings: Settings, rows: seq<Row>, i: nat) {
    i < |rows| && forall j :: 0 <= j < i ==> BatchSize(settings, rows[j]) != BatchSize(settings, rows[i])
  }

  lemma {:induction false} SizesComeInOrder(settings: Settings, rows: seq<Row>, a: nat, b: nat) returns (i: nat, j: nat)
    requires a < b < |Sizes(settings, rows)|
    ensures i < j && IsFirst(settings, rows, i) && IsFirst(settings, rows, j)
    ensures BatchSize(settings, rows[i]) == Sizes(settings, rows)[a]
    ensures BatchSize(settings, rows[j]) == Sizes(settings, rows)[b]
  {
    i := FirstOf(settings, rows, a);
    j := FirstOf(settings, rows, b);
    FirstsInOrder(settings, rows, a, b, i, j);
  }

  lemma {:induction false} FirstOf(settings: Settings, rows: seq<Row>, a: nat) returns (i: nat)
    requires a < |Sizes(settings, rows)|
    ensures IsFirst(settings, rows, i) && BatchSize(settings, rows[i]) == Sizes(settings, rows)[a]
    ensures |Sizes(settings, rows[..i])| == a
  {
    var front := rows[..|rows| - 1];
    if a < |Sizes(settings, front)| {
      i := FirstOf(settings, front, a);
      assert front[..i] == rows[..i];
    } else {
      i := |rows| - 1;
      SizesAre(settings, front);
    }
  }

  lemma {:induction false} SizesGrow(settings: Settings, rows: seq<Row>, i: nat, j: nat)
    requires j <= i <= |rows|
    ensures |Sizes(settings, rows[..j])| <= |Sizes(settings, rows[..i])|
    decreases i
  {
    if j < i {
      SizesGrow(settings, rows, i - 1, j);
      assert rows[..i][..i - 1] == rows[..i - 1];
    }
  }

  lemma FirstsInOrder(settings: Settings, rows: seq<Row>, a: nat, b: nat, i: nat, j: nat)
    requires a < b && i <= |rows| && j <= |rows|
    requires |Sizes(settings, rows[..i])| == a && |Sizes(settings, rows[..j])| == b
    ensures i < j
  {
    if j <= i {
      SizesGrow(settings, rows, i, j);
    }
  }

  /** A group holds the inputs of just the rows of its size, in the order of the rows. */
  lemma {:induction false} GroupsAreStable(settings: Settings, rows: seq<Row>, size: nat)
    requires AllConvert(settings, rows)
    ensures var places := Picked(SizeFlags(settings, rows, size));
            && |InputsOfSize(settings, rows, size)| == |places|
            && forall k :: 0 <= k < |places| ==>
                 places[k] < |rows| && InputsOfSize(settings, rows, size)[k] == InputOf(settings, rows[places[k]])
  {
    if rows != [] {
      var front, last := rows[..|rows| - 1], rows[|rows| - 1];
      GroupsAreStable(settings, front, size);
      assert SizeFlags(settings, rows, size)
          == SizeFlags(settings, front, size) + [BatchSize(settings, last) == size];
      PickedNext(SizeFlags(settings, front, size), BatchSize(settings, last) == size);
    }
  }

  function SizeFlags(settings: Settings, rows: seq<Row>, size: nat): seq<bool> {
    seq(|rows|, i requires 0 <= i < |rows| => BatchSize(settings, rows[i]) == size)
  }

  /** All the inputs of the groups with these sizes. */
  function Together(settings: Settings, rows: seq<Row>, sizes: seq<nat>): multiset<Input>
    requires AllConvert(settings, rows)
  {
    if sizes == [] then multiset{}
    else
      Together(settings, rows, sizes[..|sizes| - 1])
      + multiset(InputsOfSize(settings, rows, sizes[|sizes| - 1]))
  }

  lemma {:induction false} TogetherNext(settings: Settings, rows: seq<Row>, row: Row, sizes: seq<nat>)
    requires AllConvert(settings, rows) && Converts(settings, row)
    requires forall a, b :: 0 <= a < b < |sizes| ==> sizes[a] != sizes[b]
    ensures AllConvert(settings, rows + [row])
    ensures Together(settings, rows + [row], sizes)
         == Together(settings, rows, sizes)
            + if BatchSize(settings, row) in sizes then multiset{InputOf(settings, row)} else multiset{}
  {
    if sizes != [] {
      var front, last := sizes[..|sizes| - 1], sizes[|sizes| - 1];
      TogetherNext(settings, rows, row, front);
      GroupNext(settings, rows, row, last);
      LastAndFront(sizes, BatchSize(settings, row));
      MoveOver(Together(settings, rows, front), multiset(InputsOfSize(settings, rows, last)),
               multiset{InputOf(settings, row)});
    }
  }

  lemma LastAndFront(sizes: seq<nat>, size: nat)
    requires sizes != [] && forall a, b :: 0 <= a < b < |sizes| ==> sizes[a] != sizes[b]
    ensures var front, last := sizes[..|sizes| - 1], sizes[|sizes| - 1];
            (size in sizes <==> size in front || size == last) && !(size in front && size == last)
  {
  }

  lemma MoveOver<T>(a: multiset<T>, b: multiset<T>, c: multiset<T>)
    ensures a + c + b == a + b + c && a + (b + c) == a + b + c
    ensures a + multiset{} + (b + multiset{}) == a + b + multiset{}
  {
  }

  lemma GroupNext(settings: Settings, rows: seq<Row>, row: Row, size: nat)
    requires AllConvert(settings, rows) && Converts(settings, row)
    ensures AllConvert(settings, rows + [row])
    ensures multiset(InputsOfSize(settings, rows + [row], size))
         == multiset(InputsOfSize(settings, rows, size))
            + if BatchSize(settings, row) == size then multiset{InputOf(settings, row)} else multiset{}
  {
    InputsNext(settings, rows, row, size);
    Grown(InputsOfSize(settings, rows, size), InputOf(settings, row), BatchSize(settings, row) == size);
  }

  /** One row more, in a group that was there or in one of its own. */
  lemma TogetherLast(settings: Settings, rows: seq<Row>, row: Row)
    requires AllConvert(settings, rows) && Converts(settings, row)
    ensures AllConvert(settings, rows + [row])
    ensures Together(settings, rows + [row], Sizes(settings, rows + [row]))
         == Together(settings, rows, Sizes(settings, rows)) + multiset{InputOf(settings, row)}
  {
    var sizes, size := Sizes(settings, rows), BatchSize(settings, row);
    SizesAre(settings, rows);
    SizesNext(settings, rows, row);
    TogetherNext(settings, rows, row, sizes);
    if size !in sizes {
      NoInputs(settings, rows, size);
      InputsNext(settings, rows, row, size);
      assert (sizes + [size])[..|sizes|] == sizes;
    }
  }

  /** Nothing is lost, and nothing is there twice. */
  lemma {:induction false} GroupsArePartition(settings: Settings, rows: seq<Row>)
    requires AllConvert(settings, rows)
    ensures Together(settings, rows, Sizes(settings, rows)) == multiset(Inputs(settings, rows))
  {
    if rows != [] {
      var front, last := rows[..|rows| - 1], rows[|rows| - 1];
      assert front + [last] == rows;
      GroupsArePartition(settings, front);
      TogetherLast(settings, front, last);
      InputsSnoc(settings, front, last);
    }
  }

  lemma InputsSnoc(settings: Settings, rows: seq<Row>, row: Row)
    requires AllConvert(settings, rows) && Converts(settings, row)
    ensures AllConvert(settings, rows + [row])
    ensures Inputs(settings, rows + [row]) == Inputs(settings, rows) + [InputOf(settings, row)]
    ensures multiset(Inputs(settings, rows + [row]))
         == multiset(Inputs(settings, rows)) + multiset{InputOf(settings, row)}
  {
    assert Inputs(settings, rows + [row]) == Inputs(settings, rows) + [InputOf(settings, row)];
  }

  lemma {:induction false} NoInputs(settings: Settings, rows: seq<Row>, size: nat)
    requires AllConvert(settings, rows) && size !in Sizes(settings, rows)
    ensures InputsOfSize(settings, rows, size) == []
  {
    if rows != [] {
      NoInputs(settings, rows[..|rows| - 1], size);
    }
  }

  // The memo tables

  class Memos {
    const settings: Settings
    var presets: map<string, Object>
    var kinds: map<string, string>
    var retentions: map<Word32, seq<Retention>>

    /** Each table holds what its values are without it. */
    ghost predicate Valid()
      reads this
    {
      && (forall p :: p in presets ==> p != "" && PresetOf(settings, p) == Some(Some(presets[p])))
      && (forall k :: k in kinds ==> kinds[k] == k)
      && (forall bits :: bits in retentions ==> retentions[bits] == RetentionsOf(bits))
    }

    constructor (settings: Settings)
      ensures Valid() && this.settings == settings
    {
      this.settings := settings;
      presets, kinds, retentions := map[], map[], map[];
    }

    method PresetObject(presetId: string) returns (preset: Option<Option<Object>>)
      requires Valid()
      modifies this
      ensures Valid() && preset == PresetOf(settings, presetId)
    {
      if presetId == "" {
        return Some(None);
      }
      if presetId in presets {
        return Some(Some(presets[presetId]));
      }
      var made := settings.stablePresetId(presetId);
      if made.None? {
        return None;
      }
      presets := presets[presetId := made.value];
      return Some(Some(made.value));
    }

    /** state_kind_object */
    method StateKindObject(kind: string) returns (object_: Option<string>)
      requires Valid()
      modifies this
      ensures Valid() && object_ == KindOf(kind)
    {
      if kind == "" {
        return None;
      }
      if kind !in kinds {
        kinds := kinds[kind := kind];
      }
      return Some(kinds[kind]);
    }

    method TargetRetentions(bits: Word32) returns (tuple: seq<Retention>)
      requires Valid()
      modifies this
      ensures Valid() && tuple == RetentionsOf(bits)
    {
      if bits !in retentions {
        var retention := if IsProbability(bits) then Given(bits) else DefaultRetention;
        retentions := retentions[bits := [retention, retention, retention, retention]];
      }
      return retentions[bits];
    }

    /** The input of one row, or None when its preset fails. */
    method Convert(row: Row) returns (input: Option<Input>)
      requires Valid()
      modifies this
      ensures Valid()
      ensures input == if Converts(settings, row) then Some(InputOf(settings, row)) else None
    {
      var preset := PresetObject(row.presetId);
      if preset.None? {
        return None;
      }
      var stateKind := StateKindObject(row.stateKind);
      var normalStateKind := StateKindObject(row.normalStateKind);
      var targetRetentions := TargetRetentions(row.targetRetention);
      return Some(Input(row.cardId, row.noteId, row.deckId, preset.value, true, CardTypeOf(row), stateKind,
                        normalStateKind, targetRetentions, row.enforceGradeOrder != Some(false), row.schedule));
    }
  }

  // The groups, which grow in place

  class Group {
    var inputs: seq<Input>

    constructor ()
      ensures inputs == []
    {
      inputs := [];
    }
  }

  datatype SizedGroup = SizedGroup(size: nat, group: Group)

  ghost predicate Grouped(settings: Settings, rows: seq<Row>, groups: seq<SizedGroup>)
    requires AllConvert(settings, rows)
    reads set i | 0 <= i < |groups| :: groups[i].group
  {
    && |groups| == |Sizes(settings, rows)|
    && (forall k :: 0 <= k < |groups| ==> groups[k].size == Sizes(settings, rows)[k])
    && (forall k :: 0 <= k < |groups| ==> groups[k].group.inputs == InputsOfSize(settings, rows, groups[k].size))
    && (forall j, k :: 0 <= j < k < |groups| ==> groups[j].group != groups[k].group)
  }

  method Position(groups: seq<SizedGroup>, size: nat) returns (at: Option<nat>)
    ensures match at
            case Some(k) => k < |groups| && groups[k].size == size
            case None => forall k :: 0 <= k < |groups| ==> groups[k].size != size
  {
    for k := 0 to |groups|
      invariant forall j :: 0 <= j < k ==> groups[j].size != size
    {
      if groups[k].size == size {
        return Some(k);
      }
    }
    return None;
  }

  lemma AllInputsNext(settings: Settings, rows: seq<Row>, row: Row)
    requires AllConvert(settings, rows) && Converts(settings, row)
    ensures AllConvert(settings, rows + [row])
    ensures forall size :: InputsOfSize(settings, rows + [row], size)
              == InputsOfSize(settings, rows, size)
                 + if BatchSize(settings, row) == size then [InputOf(settings, row)] else []
  {
    forall size
      ensures InputsOfSize(settings, rows + [row], size)
           == InputsOfSize(settings, rows, size)
              + if BatchSize(settings, row) == size then [InputOf(settings, row)] else []
    {
      InputsNext(settings, rows, row, size);
    }
  }

  /** The row's group is there. */
  method AppendToOld(settings: Settings, row: Row, input: Input, groups: seq<SizedGroup>, k: nat,
                     ghost rows: seq<Row>)
    requires AllConvert(settings, rows) && Converts(settings, row) && input == InputOf(settings, row)
    requires Grouped(settings, rows, groups)
    requires k < |groups| && groups[k].size == BatchSize(settings, row)
    modifies groups[k].group
    ensures AllConvert(settings, rows + [row]) && Grouped(settings, rows + [row], groups)
  {
    SizesAre(settings, rows);
    SizesNext(settings, rows, row);
    assert Sizes(settings, rows)[k] == BatchSize(settings, row);
    AllInputsNext(settings, rows, row);
    var group := groups[k].group;
    group.inputs := group.inputs + [input];
  }

  /** It is not. */
  method AppendToNew(settings: Settings, row: Row, input: Input, groups: seq<SizedGroup>, ghost rows: seq<Row>)
    returns (group: Group)
    requires AllConvert(settings, rows) && Converts(settings, row) && input == InputOf(settings, row)
    requires Grouped(settings, rows, groups)
    requires BatchSize(settings, row) !in Sizes(settings, rows)
    ensures fresh(group) && AllConvert(settings, rows + [row])
    ensures Grouped(settings, rows + [row], groups + [SizedGroup(BatchSize(settings, row), group)])
  {
    group := new Group();
    group.inputs := group.inputs + [input];
    NewGroup(settings, rows, row, groups, group);
  }

  lemma NewGroup(settings: Settings, rows: seq<Row>, row: Row, groups: seq<SizedGroup>, group: Group)
    requires AllConvert(settings, rows) && Converts(settings, row) && Grouped(settings, rows, groups)
    requires BatchSize(settings, row) !in Sizes(settings, rows)
    requires group.inputs == [InputOf(settings, row)] && forall k :: 0 <= k < |groups| ==> groups[k].group != group
    ensures AllConvert(settings, rows + [row])
    ensures Grouped(settings, rows + [row], groups + [SizedGroup(BatchSize(settings, row), group)])
  {
    SizesNext(settings, rows, row);
    NoInputs(settings, rows, BatchSize(settings, row));
    AllInputsNext(settings, rows, row);
    assert forall k :: 0 <= k < |groups| ==> groups[k].size in Sizes(settings, rows);
  }

  /** Append one input to its group, which is made if need be. */
  method AppendToGroup(settings: Settings, row: Row, input: Input, groups: seq<SizedGroup>, ghost rows: seq<Row>)
    returns (groups': seq<SizedGroup>)
    requires AllConvert(settings, rows) && Converts(settings, row) && input == InputOf(settings, row)
    requires Grouped(settings, rows, groups)
    modifies set i | 0 <= i < |groups| :: groups[i].group
    ensures AllConvert(settings, rows + [row]) && Grouped(settings, rows + [row], groups')
    ensures forall k :: 0 <= k < |groups'| ==> groups'[k] in groups || fresh(groups'[k].group)
  {
    var size := BatchSize(settings, row);
    var at := Position(groups, size);
    if at.Some? {
      AppendToOld(settings, row, input, groups, at.value, rows);
      return groups;
    }
    assert forall k :: 0 <= k < |groups| ==> Sizes(settings, rows)[k] != size;
    var group := AppendToNew(settings, row, input, groups, rows);
    return groups + [SizedGroup(size, group)];
  }

  datatype Key = Override(object_: Object) | Size(size: nat)

  datatype KeyedGroup = KeyedGroup(key: Key, inputs: seq<Input>)

  /** The groups as the caller gets them. */
  function GroupsOf(settings: Settings, rows: seq<Row>): seq<KeyedGroup>
    requires AllConvert(settings, rows)
  {
    match settings.batchSizeOverride
    case Some(key) => if rows == [] then [] else [KeyedGroup(Override(key), Inputs(settings, rows))]
    case None =>
      var sizes := Sizes(settings, rows);
      seq(|sizes|, k requires 0 <= k < |sizes| =>
        KeyedGroup(Size(sizes[k]), InputsOfSize(settings, rows, sizes[k])))
  }

  /** The dictionary of the groups. */
  method KeyedGroups(settings: Settings, groups: seq<SizedGroup>, ghost rows: seq<Row>)
    returns (result: seq<KeyedGroup>)
    requires settings.batchSizeOverride.None? && AllConvert(settings, rows) && Grouped(settings, rows, groups)
    ensures result == GroupsOf(settings, rows)
  {
    result := [];
    for k := 0 to |groups|
      invariant |result| == k
      invariant forall j :: 0 <= j < k ==> result[j] == KeyedGroup(Size(groups[j].size), groups[j].group.inputs)
    {
      result := result + [KeyedGroup(Size(groups[k].size), groups[k].group.inputs)];
    }
  }

  /** The groups after some of the rows: one with an override, or one a size. */
  ghost predicate Collected(settings: Settings, rows: seq<Row>, overrideGroup: Group, groups: seq<SizedGroup>)
    reads overrideGroup, set i | 0 <= i < |groups| :: groups[i].group
  {
    && AllConvert(settings, rows)
    && if settings.batchSizeOverride.Some? then overrideGroup.inputs == Inputs(settings, rows) && groups == []
       else Grouped(settings, rows, groups)
  }

  method Collect(settings: Settings, row: Row, input: Input, overrideGroup: Group, groups: seq<SizedGroup>,
                 ghost rows: seq<Row>)
    returns (groups': seq<SizedGroup>)
    requires Collected(settings, rows, overrideGroup, groups)
    requires Converts(settings, row) && input == InputOf(settings, row)
    modifies overrideGroup, set i | 0 <= i < |groups| :: groups[i].group
    ensures Collected(settings, rows + [row], overrideGroup, groups')
    ensures forall k :: 0 <= k < |groups'| ==> groups'[k] in groups || fresh(groups'[k].group)
  {
    if settings.batchSizeOverride.Some? {
      InputsSnoc(settings, rows, row);
      overrideGroup.inputs := overrideGroup.inputs + [input];
      groups' := groups;
    } else {
      groups' := AppendToGroup(settings, row, input, groups, rows);
    }
  }

  /** The one group of the override, unless it is empty, or the groups by size. */
  method Finish(settings: Settings, overrideGroup: Group, groups: seq<SizedGroup>, ghost rows: seq<Row>)
    returns (result: seq<KeyedGroup>)
    requires Collected(settings, rows, overrideGroup, groups)
    ensures result == GroupsOf(settings, rows)
  {
    match settings.batchSizeOverride
    case Some(key) =>
      result := if overrideGroup.inputs == [] then [] else [KeyedGroup(Override(key), overrideGroup.inputs)];
    case None =>
      result := KeyedGroups(settings, groups, rows);
  }

  /** review_inputs; None when a preset fails. */
  method ReviewInputs(settings: Settings, rows: seq<Row>) returns (r: Option<seq<KeyedGroup>>)
    ensures r == if AllConvert(settings, rows) then Some(GroupsOf(settings, rows)) else None
  {
    var memos := new Memos(settings);
    var groups: seq<SizedGroup> := [];
    var overrideGroup := new Group();
    for i := 0 to |rows|
      invariant memos.Valid() && fresh(memos)
      invariant Collected(settings, rows[..i], overrideGroup, groups)
      invariant forall k :: 0 <= k < |groups| ==> fresh(groups[k].group)
    {
      var input := memos.Convert(rows[i]);
      if input.None? {
        return None;
      }
      assert rows[..i + 1] == rows[..i] + [rows[i]];
      groups := Collect(settings, rows[i], input.value, overrideGroup, groups, rows[..i]);
    }
    assert rows[..|rows|] == rows;
    var result := Finish(settings, overrideGroup, groups, rows);
    return Some(result);
  }
}
