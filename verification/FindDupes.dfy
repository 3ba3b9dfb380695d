/** The duplicate finder, which hands out its lists of notes before they are complete. */
module FindDupes {
  import opened Common

  /** The exceptions a row can end the search with: its notetype is gone, or has no field of
      that name, or the note has fewer fields than that. */
  datatype Error = NoNotetype | NoField | NoValue

  datatype Result<+T> = Ok(value: T) | Err(error: Error)

  datatype Row = Row(nid: int, mid: int, fields: seq<string>)

  /** A list that both the table of values and the result hold. */
  class NidList {
    var nids: seq<int>

    constructor ()
      ensures nids == []
    {
      nids := [];
    }
  }

  /** What the finder takes from elsewhere: the notetypes' field names, the field's name,
      and the two functions it calls on text. */
  datatype Search = Search(models: map<int, seq<string>>, fieldName: string,
                           lower: string -> string, strip: string -> string)

  // The value of a row

  predicate Matches(search: Search, name: string) { search.lower(name) == search.lower(search.fieldName) }

  predicate FirstMatch(search: Search, names: seq<string>, i: nat) {
    i < |names| && Matches(search, names[i]) && forall j :: 0 <= j < i ==> !Matches(search, names[j])
  }

  ghost function OrdOf(search: Search, mid: int): Result<nat> {
    if mid !in search.models then Err(NoNotetype)
    else if i: nat :| FirstMatch(search, search.models[mid], i) then Ok(i)
    else Err(NoField)
  }

  lemma OneFirst(search: Search, names: seq<string>, i: nat, j: nat)
    requires FirstMatch(search, names, i) && FirstMatch(search, names, j)
    ensures i == j
  {
  }

  ghost function ValueOf(search: Search, row: Row): Result<string> {
    match OrdOf(search, row.mid)
    case Err(error) => Err(error)
    case Ok(ord) => if ord < |row.fields| then Ok(search.strip(row.fields[ord])) else Err(NoValue)
  }

  datatype Note = Note(nid: int, value: string)

  /** The notes with their values, or the error of the first row that has one. */
  ghost function NotesOf(search: Search, rows: seq<Row>): (r: Result<seq<Note>>)
    ensures r.Ok? ==> |r.value| == |rows|
  {
    if rows == [] then Ok([])
    else
      match NotesOf(search, rows[..|rows| - 1])
      case Err(error) => Err(error)
      case Ok(notes) =>
        match ValueOf(search, rows[|rows| - 1])
        case Err(error) => Err(error)
        case Ok(value) => Ok(notes + [Note(rows[|rows| - 1].nid, value)])
  }

  /** The value of a row is that of the first field whose lowered name is the lowered name asked
      for, if the note has that many. */
  lemma ValueIs(search: Search, row: Row, ord: nat)
    requires row.mid in search.models && ord < |search.models[row.mid]|
    requires search.lower(search.models[row.mid][ord]) == search.lower(search.fieldName)
    requires forall j :: 0 <= j < ord ==>
               search.lower(search.models[row.mid][j]) != search.lower(search.fieldName)
    ensures ValueOf(search, row) == if ord < |row.fields| then Ok(search.strip(row.fields[ord])) else Err(NoValue)
  {
    assert FirstMatch(search, search.models[row.mid], ord);
    OrdIs(search, row.mid, ord);
  }

  /** The two other errors have a reason each. */
  lemma NoValueWhen(search: Search, row: Row)
    ensures ValueOf(search, row) == Err(NoNotetype) <==> row.mid !in search.models
    ensures ValueOf(search, row) == Err(NoField)
       <==> (row.mid in search.models
             && forall i :: 0 <= i < |search.models[row.mid]| ==>
                  search.lower(search.models[row.mid][i]) != search.lower(search.fieldName))
  {
    if row.mid in search.models {
      NoFieldWhen(search, row.mid);
    }
  }

  lemma NoFieldWhen(search: Search, mid: int)
    requires mid in search.models
    ensures var names := search.models[mid];
            OrdOf(search, mid).Err? <==> forall i :: 0 <= i < |names| ==> !Matches(search, names[i])
  {
    var names := search.models[mid];
    forall i | 0 <= i < |names| && Matches(search, names[i])
      ensures OrdOf(search, mid).Ok?
    {
      SomeFirst(search, names, i);
    }
  }

  lemma {:induction false} SomeFirst(search: Search, names: seq<string>, n: nat)
    requires n < |names| && Matches(search, names[n])
    ensures exists i: nat :: FirstMatch(search, names, i)
    decreases n
  {
    if !FirstMatch(search, names, n) {
      var j :| 0 <= j < n && Matches(search, names[j]);
      SomeFirst(search, names, j);
    }
  }

  /** Row i is the first with an error. */
  ghost predicate FirstBad(search: Search, rows: seq<Row>, i: nat) {
    i < |rows| && ValueOf(search, rows[i]).Err? && forall j :: 0 <= j < i ==> ValueOf(search, rows[j]).Ok?
  }

  ghost predicate AllRead(search: Search, rows: seq<Row>, notes: seq<Note>)
    requires |notes| == |rows|
  {
    forall i :: 0 <= i < |rows| ==> notes[i].nid == rows[i].nid && ValueOf(search, rows[i]) == Ok(notes[i].value)
  }

  lemma AllReadNext(search: Search, rows: seq<Row>, row: Row, notes: seq<Note>, value: string)
    requires |notes| == |rows| && AllRead(search, rows, notes) && ValueOf(search, row) == Ok(value)
    ensures AllRead(search, rows + [row], notes + [Note(row.nid, value)])
  {
  }

  lemma FirstBadNext(search: Search, rows: seq<Row>, row: Row, i: nat)
    requires FirstBad(search, rows, i)
    ensures FirstBad(search, rows + [row], i)
  {
  }

  lemma LastIsBad(search: Search, rows: seq<Row>, row: Row, notes: seq<Note>)
    requires |notes| == |rows| && AllRead(search, rows, notes) && ValueOf(search, row).Err?
    ensures FirstBad(search, rows + [row], |rows|)
  {
  }

  /** Every row gives its note, or the first row with an error ends the search. */
  lemma {:induction false} NotesAre(search: Search, rows: seq<Row>)
    ensures match NotesOf(search, rows)
            case Ok(notes) => AllRead(search, rows, notes)
            case Err(error) => exists i: nat :: FirstBad(search, rows, i) && ValueOf(search, rows[i]) == Err(error)
  {
    if rows != [] {
      var front, last := rows[..|rows| - 1], rows[|rows| - 1];
      assert front + [last] == rows;
      NotesAre(search, front);
      match NotesOf(search, front) {
        case Ok(notes) =>
          if ValueOf(search, last).Ok? {
            AllReadNext(search, front, last, notes, ValueOf(search, last).value);
          } else {
            LastIsBad(search, front, last, notes);
          }
        case Err(error) =>
          var i: nat :| FirstBad(search, front, i) && ValueOf(search, front[i]) == Err(error);
          FirstBadNext(search, front, last, i);
      }
    }
  }

  // What the duplicates are

  /** The notes with this value, in the order of the rows. */
  function NidsWith(notes: seq<Note>, value: string): seq<int> {
    if notes == [] then []
    else
      NidsWith(notes[..|notes| - 1], value)
      + if notes[|notes| - 1].value == value then [notes[|notes| - 1].nid] else []
  }

  /** Every place with this value, in order, and whose notes they are. */
  ghost predicate PlacesAre(notes: seq<Note>, value: string, nids: seq<int>, places: seq<nat>) {
    && |places| == |nids|
    && (forall k :: 0 <= k < |places| ==> places[k] < |notes| && nids[k] == notes[places[k]].nid)
    && (forall j, k :: 0 <= j < k < |places| ==> places[j] < places[k])
    && (forall i: nat :: i < |notes| ==> (i in places <==> notes[i].value == value))
  }

  lemma PlacesNext(notes: seq<Note>, note: Note, value: string, nids: seq<int>, places: seq<nat>)
    requires PlacesAre(notes, value, nids, places)
    ensures if note.value == value then PlacesAre(notes + [note], value, nids + [note.nid], places + [|notes|])
            else PlacesAre(notes + [note], value, nids, places)
  {
  }

  /** Where in the notes those with a value are. */
  lemma {:induction false} NidsAre(notes: seq<Note>, value: string) returns (places: seq<nat>)
    ensures PlacesAre(notes, value, NidsWith(notes, value), places)
  {
    places := [];
    if notes != [] {
      var front, last := notes[..|notes| - 1], notes[|notes| - 1];
      places := NidsAre(front, value);
      assert front + [last] == notes;
      PlacesNext(front, last, value, NidsWith(front, value), places);
      NidsNext(front, last, value);
      if last.value == value {
        places := places + [|front|];
      } else {
        assert NidsWith(front, value) + [] == NidsWith(front, value);
      }
    }
  }

  /** Note i is the second to hold its value. */
  predicate IsSecond(notes: seq<Note>, i: nat) {
    i < |notes| && notes[i].value != "" && |NidsWith(notes[..i], notes[i].value)| == 1
  }

  /** The values that a second note holds, in the order of those second notes. */
  function Dupes(notes: seq<Note>): seq<string> {
    if notes == [] then []
    else
      Dupes(notes[..|notes| - 1])
      + if IsSecond(notes, |notes| - 1) then [notes[|notes| - 1].value] else []
  }

  lemma NidsNext(notes: seq<Note>, note: Note, value: string)
    ensures NidsWith(notes + [note], value) == NidsWith(notes, value) + if note.value == value then [note.nid] else []
  {
    assert (notes + [note])[..|notes|] == notes;
  }

  lemma DupesNext(notes: seq<Note>, note: Note)
    ensures Dupes(notes + [note])
         == Dupes(notes) + if note.value != "" && |NidsWith(notes, note.value)| == 1 then [note.value] else []
  {
    assert (notes + [note])[..|notes|] == notes;
  }

  /** Every value but the empty one is listed just when at least two notes hold it. */
  lemma {:induction false} DupesAreHeldTwice(notes: seq<Note>, value: string)
    ensures value in Dupes(notes) <==> value != "" && |NidsWith(notes, value)| >= 2
  {
    if notes != [] {
      var front, last := notes[..|notes| - 1], notes[|notes| - 1];
      assert front + [last] == notes;
      DupesAreHeldTwice(front, value);
      NidsNext(front, last, value);
      DupesNext(front, last);
    }
  }

  /** Where the second notes are. */
  function Seconds(notes: seq<Note>): seq<nat> {
    if notes == [] then []
    else
      Seconds(notes[..|notes| - 1]) + if IsSecond(notes, |notes| - 1) then [|notes| - 1] else []
  }

  lemma {:induction false} SecondsAre(notes: seq<Note>)
    ensures |Seconds(notes)| == |Dupes(notes)|
    ensures forall k :: 0 <= k < |Seconds(notes)| ==>
              IsSecond(notes, Seconds(notes)[k]) && Dupes(notes)[k] == notes[Seconds(notes)[k]].value
    ensures forall j, k :: 0 <= j < k < |Seconds(notes)| ==> Seconds(notes)[j] < Seconds(notes)[k]
  {
    if notes != [] {
      var front := notes[..|notes| - 1];
      SecondsAre(front);
      forall k | 0 <= k < |Seconds(front)|
        ensures IsSecond(notes, Seconds(front)[k])
      {
        assert notes[..Seconds(front)[k]] == front[..Seconds(front)[k]];
      }
    }
  }

  /** The values come in the order of their second notes, each once. */
  lemma DupesInOrder(notes: seq<Note>, j: nat, k: nat)
    requires j < k < |Dupes(notes)|
    ensures Dupes(notes)[j] != Dupes(notes)[k]
    ensures exists m: nat, n: nat :: m < n && IsSecond(notes, m) && IsSecond(notes, n)
              && notes[m].value == Dupes(notes)[j] && notes[n].value == Dupes(notes)[k]
  {
    SecondsAre(notes);
    var m, n := Seconds(notes)[j], Seconds(notes)[k];
    assert IsSecond(notes, m) && IsSecond(notes, n);
    if notes[m].value == notes[n].value {
      assert notes[..m + 1] == notes[..m] + [notes[m]];
      NidsNext(notes[..m], notes[m], notes[m].value);
      NidsGrow(notes, m + 1, n, notes[m].value);
      assert false;
    }
  }

  lemma {:induction false} NidsGrow(notes: seq<Note>, m: nat, n: nat, value: string)
    requires m <= n <= |notes|
    ensures |NidsWith(notes[..m], value)| <= |NidsWith(notes[..n], value)|
    decreases n
  {
    if m < n {
      NidsGrow(notes, m, n - 1, value);
      assert notes[..n][..n - 1] == notes[..n - 1];
    }
  }

  // The finder

  /** ord_for_mid, with the places it has found before. */
  method OrdForMid(search: Search, mid: int, found: map<int, nat>) returns (ord: Result<nat>, found': map<int, nat>)
    requires forall m :: m in found ==> OrdOf(search, m) == Ok(found[m])
    ensures forall m :: m in found' ==> OrdOf(search, m) == Ok(found'[m])
    ensures ord == OrdOf(search, mid)
  {
    found' := found;
    if mid !in found {
      if mid !in search.models {
        return Err(NoNotetype), found';
      }
      var names := search.models[mid];
      for idx := 0 to |names|
        invariant found' == found && forall j :: 0 <= j < idx ==> !Matches(search, names[j])
      {
        if search.lower(names[idx]) == search.lower(search.fieldName) {
          assert FirstMatch(search, names, idx);
          OrdIs(search, mid, idx);
          found' := found'[mid := idx];
          break;
        }
      }
    }
    ord := if mid in found' then Ok(found'[mid]) else Err(NoField);
  }

  lemma OrdIs(search: Search, mid: int, i: nat)
    requires mid in search.models && FirstMatch(search, search.models[mid], i)
    ensures OrdOf(search, mid) == Ok(i)
  {
    var j :| OrdOf(search, mid) == Ok(j) && FirstMatch(search, search.models[mid], j);
    OneFirst(search, search.models[mid], i, j);
  }

  datatype Dupe = Dupe(value: string, list: NidList)

  /** The table holds a list of its own for each value seen, and the result shares the lists
      of the values seen twice. */
  ghost predicate Recorded(notes: seq<Note>, vals: map<string, NidList>, dupes: seq<Dupe>)
    reads vals.Values
  {
    && (forall v :: v in vals <==> v != "" && NidsWith(notes, v) != [])
    && (forall v :: v in vals ==> vals[v].nids == NidsWith(notes, v))
    && (forall v, w :: v in vals && w in vals && v != w ==> vals[v] != vals[w])
    && |dupes| == |Dupes(notes)|
    && (forall k :: 0 <= k < |dupes| ==>
          dupes[k].value == Dupes(notes)[k] && dupes[k].value in vals && dupes[k].list == vals[dupes[k].value])
  }

  /** Note down one note with its value. */
  method Record(nid: int, value: string, vals: map<string, NidList>, dupes: seq<Dupe>, ghost notes: seq<Note>)
    returns (vals': map<string, NidList>, dupes': seq<Dupe>)
    requires Recorded(notes, vals, dupes) && value != ""
    modifies vals.Values
    ensures Recorded(notes + [Note(nid, value)], vals', dupes')
    ensures fresh(vals'.Values - vals.Values)
  {
    ghost var note := Note(nid, value);
    forall v
      ensures NidsWith(notes + [note], v) == NidsWith(notes, v) + if v == value then [nid] else []
    {
      NidsNext(notes, note, v);
    }
    DupesNext(notes, note);
    vals', dupes' := vals, dupes;
    if value !in vals {
      var list := new NidList();
      vals' := vals[value := list];
    }
    var list := vals'[value];
    list.nids := list.nids + [nid];
    if |list.nids| == 2 {
      dupes' := dupes + [Dupe(value, list)];
    }
  }

  /** The value of a row, stripped of its markup. */
  method ReadValue(search: Search, row: Row, found: map<int, nat>)
    returns (value: Result<string>, found': map<int, nat>)
    requires forall m :: m in found ==> OrdOf(search, m) == Ok(found[m])
    ensures forall m :: m in found' ==> OrdOf(search, m) == Ok(found'[m])
    ensures value == ValueOf(search, row)
  {
    var ord;
    ord, found' := OrdForMid(search, row.mid, found);
    if ord.Err? {
      return Err(ord.error), found';
    }
    value := if ord.value < |row.fields| then Ok(search.strip(row.fields[ord.value])) else Err(NoValue);
  }

  /** A note whose value is empty is not noted down. */
  lemma RecordedWithout(nid: int, vals: map<string, NidList>, dupes: seq<Dupe>, notes: seq<Note>)
    requires Recorded(notes, vals, dupes)
    ensures Recorded(notes + [Note(nid, "")], vals, dupes)
  {
    forall v
      ensures v != "" ==> NidsWith(notes + [Note(nid, "")], v) == NidsWith(notes, v)
    {
      NidsNext(notes, Note(nid, ""), v);
    }
    DupesNext(notes, Note(nid, ""));
  }

  method RecordIfAny(nid: int, value: string, vals: map<string, NidList>, dupes: seq<Dupe>, ghost notes: seq<Note>)
    returns (vals': map<string, NidList>, dupes': seq<Dupe>)
    requires Recorded(notes, vals, dupes)
    modifies vals.Values
    ensures Recorded(notes + [Note(nid, value)], vals', dupes')
    ensures fresh(vals'.Values - vals.Values)
  {
    if value == "" {
      RecordedWithout(nid, vals, dupes, notes);
      return vals, dupes;
    }
    vals', dupes' := Record(nid, value, vals, dupes, notes);
  }

  lemma {:induction false} FirstError(search: Search, rows: seq<Row>, n: nat)
    requires n <= |rows| && NotesOf(search, rows[..n]).Err?
    ensures NotesOf(search, rows) == NotesOf(search, rows[..n])
    decreases |rows|
  {
    if n == |rows| {
      assert rows[..n] == rows;
    } else {
      assert rows[..|rows| - 1][..n] == rows[..n];
      FirstError(search, rows[..|rows| - 1], n);
    }
  }

  /** One row more, which is noted down or ends the search. */
  lemma {:induction false} NotesNext(search: Search, rows: seq<Row>, i: nat, notes: seq<Note>)
    requires i < |rows| && NotesOf(search, rows[..i]) == Ok(notes)
    ensures match ValueOf(search, rows[i])
            case Ok(value) => NotesOf(search, rows[..i + 1]) == Ok(notes + [Note(rows[i].nid, value)])
            case Err(error) => NotesOf(search, rows) == Err(error)
  {
    assert rows[..i + 1][..i] == rows[..i];
    if ValueOf(search, rows[i]).Err? {
      FirstError(search, rows, i + 1);
    }
  }

  /** find_dupes, on the rows that its search found. */
  method FindDupes(search: Search, rows: seq<Row>) returns (r: Result<seq<Dupe>>)
    ensures match NotesOf(search, rows)
            case Err(error) => r == Err(error)
            case Ok(notes) =>
              && r.Ok? && |r.value| == |Dupes(notes)|
              && forall k :: 0 <= k < |r.value| ==>
                   r.value[k].value == Dupes(notes)[k] && r.value[k].list.nids == NidsWith(notes, Dupes(notes)[k])
  {
    var vals: map<string, NidList>, dupes: seq<Dupe>, found: map<int, nat> := map[], [], map[];
    ghost var notes: seq<Note> := [];
    for i := 0 to |rows|
      invariant NotesOf(search, rows[..i]) == Ok(notes)
      invariant Recorded(notes, vals, dupes) && fresh(vals.Values)
      invariant forall m :: m in found ==> OrdOf(search, m) == Ok(found[m])
    {
      NotesNext(search, rows, i, notes);
      var row := rows[i];
      var value;
      value, found := ReadValue(search, row, found);
      if value.Err? {
        return Err(value.error);
      }
      vals, dupes := RecordIfAny(row.nid, value.value, vals, dupes, notes);
      notes := notes + [Note(row.nid, value.value)];
    }
    assert rows[..|rows|] == rows;
    return Ok(dupes);
  }
}
