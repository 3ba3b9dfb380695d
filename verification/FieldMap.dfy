/** The cached map from field names to fields, which is checked against the fields it was
    made from each time it is used, and the editors that change those fields in place. */
module FieldMap {
  import opened Common

  /** A field's dictionary; `rest` stands for its other entries. */
  class Field {
    var name: string
    var ord: Option<int>
    var rest: int

    constructor (name: string, ord: Option<int>, rest: int)
      ensures this.name == name && this.ord == ord && this.rest == rest
    {
      this.name, this.ord, this.rest := name, ord, rest;
    }
  }

  class Notetype {
    var id: int
    var flds: seq<Field>

    constructor (id: int, flds: seq<Field>)
      ensures this.id == id && this.flds == flds
    {
      this.id, this.flds := id, flds;
    }
  }

  type Entries = map<string, (Option<int>, Field)>

  /** A dictionary that whoever holds it may change. */
  class Mapping {
    var entries: Entries

    constructor (entries: Entries)
      ensures this.entries == entries
    {
      this.entries := entries;
    }
  }

  // What the map of a list of fields is

  datatype Seen = Seen(field: Field, name: string, ord: Option<int>)

  function SeenNow(flds: seq<Field>): (seen: seq<Seen>)
    reads flds
    ensures |seen| == |flds|
    ensures forall i :: 0 <= i < |flds| ==> seen[i] == Seen(flds[i], flds[i].name, flds[i].ord)
  {
    if flds == [] then []
    else
      var last := flds[|flds| - 1];
      SeenNow(flds[..|flds| - 1]) + [Seen(last, last.name, last.ord)]
  }

  function MapOf(seen: seq<Seen>): Entries {
    if seen == [] then map[]
    else
      var last := seen[|seen| - 1];
      MapOf(seen[..|seen| - 1])[last.name := (last.ord, last.field)]
  }

  predicate LastAt(seen: seq<Seen>, name: string, i: nat) {
    i < |seen| && seen[i].name == name && forall j :: i < j < |seen| ==> seen[j].name != name
  }

  /** The map has the names of the fields and no other, and each name is mapped to the last
      field that has it. */
  lemma {:induction false} LastWins(seen: seq<Seen>, name: string)
    ensures name in MapOf(seen) <==> exists i: nat :: LastAt(seen, name, i)
    ensures forall i: nat :: LastAt(seen, name, i) ==>
              name in MapOf(seen) && MapOf(seen)[name] == (seen[i].ord, seen[i].field)
  {
    if seen != [] {
      var front, last := seen[..|seen| - 1], |seen| - 1;
      LastWins(front, name);
      if seen[last].name == name {
        assert LastAt(seen, name, last);
      } else {
        forall i: nat
          ensures LastAt(seen, name, i) <==> LastAt(front, name, i)
        {
          if LastAt(seen, name, i) {
            assert forall j :: i < j < |front| ==> front[j] == seen[j];
          }
        }
      }
    }
  }

  // Lists of dictionaries

  /** Python's `==` on two dictionaries. */
  predicate Same(a: Field, b: Field)
    reads a, b
  {
    a.name == b.name && a.ord == b.ord && a.rest == b.rest
  }

  predicate FirstAt(flds: seq<Field>, field: Field, i: nat)
    reads flds, field
  {
    i < |flds| && Same(flds[i], field) && forall j :: 0 <= j < i ==> !Same(flds[j], field)
  }

  predicate Has(flds: seq<Field>, field: Field)
    reads flds, field
  {
    exists i :: 0 <= i < |flds| && Same(flds[i], field)
  }

  method IndexOf(flds: seq<Field>, field: Field) returns (at: Option<nat>)
    ensures if at.Some? then FirstAt(flds, field, at.value) else !Has(flds, field)
  {
    for i := 0 to |flds|
      invariant forall j :: 0 <= j < i ==> !Same(flds[j], field)
    {
      if Same(flds[i], field) {
        return Some(i);
      }
    }
    return None;
  }

  function Without<T>(s: seq<T>, i: nat): seq<T>
    requires i < |s|
  {
    s[..i] + s[i + 1..]
  }

  /** list.insert: a negative place counts from the end, and places past either end are
      that end. */
  function InsertPlace(length: nat, place: int): (at: nat)
    ensures at <= length
    ensures 0 <= place <= length ==> at == place
  {
    var from := if place < 0 then place + length else place;
    if from < 0 then 0 else if from > length then length else from
  }

  function Inserted<T>(s: seq<T>, place: int, x: T): seq<T> {
    var at := InsertPlace(|s|, place);
    s[..at] + [x] + s[at..]
  }

  /** The field at i moved to the place, which may be where it is. */
  function Repositioned<T>(s: seq<T>, i: nat, x: T, place: int): seq<T>
    requires i < |s|
  {
    if i == place then s else Inserted(Without(s, i), place, x)
  }

  // The manager

  datatype CacheEntry = CacheEntry(seen: seq<Seen>, mapping: Mapping)

  class ModelManager {
    var cache: map<int, CacheEntry>
    ghost var repr: set<Mapping>

    /** Each cached map, which nobody else holds, is the map of the fields as they were seen. */
    ghost predicate Valid()
      reads this, repr
    {
      forall id :: id in cache ==> cache[id].mapping in repr && cache[id].mapping.entries == MapOf(cache[id].seen)
    }

    constructor ()
      ensures Valid() && repr == {} && cache == map[]
    {
      cache := map[];
      repr := {};
    }

    method RemoveFromCache(id: int)
      requires Valid()
      modifies this
      ensures Valid() && repr == old(repr) && cache == old(cache) - {id}
    {
      cache := cache - {id};
    }

    method ClearCache()
      requires Valid()
      modifies this
      ensures Valid() && repr == old(repr) && cache == map[]
    {
      cache := map[];
    }

    /** Is this what was seen? */
    method Unchanged(flds: seq<Field>, seen: seq<Seen>) returns (same: bool)
      ensures same <==> SeenNow(flds) == seen
    {
      if |flds| != |seen| {
        return false;
      }
      for i := 0 to |flds|
        invariant forall j :: 0 <= j < i ==> SeenNow(flds)[j] == seen[j]
      {
        if !(flds[i] == seen[i].field && flds[i].name == seen[i].name && flds[i].ord == seen[i].ord) {
          return false;
        }
      }
      return true;
    }

    /** One pass over the fields, for both halves of a cache entry. */
    static method Look(fields: seq<Field>) returns (entries: Entries, seen: seq<Seen>)
      ensures seen == SeenNow(fields) && entries == MapOf(seen)
    {
      entries, seen := map[], [];
      for i := 0 to |fields|
        invariant seen == SeenNow(fields[..i]) && entries == MapOf(seen)
      {
        assert fields[..i + 1][..i] == fields[..i];
        var f := fields[i];
        entries := entries[f.name := (f.ord, f)];
        seen := seen + [Seen(f, f.name, f.ord)];
        assert seen[..i] == SeenNow(fields[..i]);
      }
      assert fields[..|fields|] == fields;
    }

    /** The map of the fields as they are, as a dictionary of the caller's own. */
    method FieldMap(notetype: Notetype) returns (mapping: Mapping)
      requires Valid()
      modifies this
      ensures Valid() && fresh(repr - old(repr))
      ensures fresh(mapping) && mapping !in repr
      ensures mapping.entries == old(MapOf(SeenNow(notetype.flds)))
    {
      var fields := notetype.flds;
      var id := notetype.id;
      if id in cache {
        assert cache[id].mapping.entries == MapOf(cache[id].seen);
        var entry := cache[id];
        var same := Unchanged(fields, entry.seen);
        if same {
          mapping := new Mapping(entry.mapping.entries);
          return;
        }
      }
      var entries, seen := Look(fields);
      var made := new Mapping(entries);
      cache := cache[id := CacheEntry(seen, made)];
      repr := repr + {made};
      mapping := new Mapping(entries);
    }

    // The editors, which do not know of the cache

    method AddField(notetype: Notetype, field: Field)
      modifies notetype
      ensures notetype.flds == old(notetype.flds) + [field] && notetype.id == old(notetype.id)
    {
      notetype.flds := notetype.flds + [field];
    }

    method RemoveField(notetype: Notetype, field: Field) returns (ok: bool)
      modifies notetype
      ensures notetype.id == old(notetype.id)
      ensures ok == old(Has(notetype.flds, field))
      ensures if ok then exists i :: old(FirstAt(notetype.flds, field, i))
                                     && notetype.flds == Without(old(notetype.flds), i)
              else notetype.flds == old(notetype.flds)
    {
      var at := IndexOf(notetype.flds, field);
      if at.None? {
        return false;
      }
      notetype.flds := Without(notetype.flds, at.value);
      return true;
    }

    /** The first equal field is taken out, and this one put in at the place; the list is
        permuted exactly when nothing moved or the field taken out is this one. */
    method RepositionField(notetype: Notetype, field: Field, place: int) returns (ok: bool)
      modifies notetype
      ensures notetype.id == old(notetype.id)
      ensures ok == old(Has(notetype.flds, field))
      ensures !ok ==> notetype.flds == old(notetype.flds)
      ensures ok ==>
        exists i: nat :: old(FirstAt(notetype.flds, field, i))
          && notetype.flds == Repositioned(old(notetype.flds), i, field, place)
          && (multiset(notetype.flds) == multiset(old(notetype.flds))
              <==> i == place || old(notetype.flds)[i] == field)
    {
      var oldPlace := IndexOf(notetype.flds, field);
      if oldPlace.None? {
        return false;
      }
      PermutedWhenItself(notetype.flds, oldPlace.value, field, place);
      if oldPlace.value == place {
        return true;
      }
      var removed := RemoveField(notetype, field);
      FirstIsOne(old(notetype.flds), field, oldPlace.value);
      assert notetype.flds == Without(old(notetype.flds), oldPlace.value);
      notetype.flds := Inserted(notetype.flds, place, field);
      return true;
    }

    method RenameField(notetype: Notetype, field: Field, newName: string) returns (ok: bool)
      modifies field
      ensures ok == old(Has(notetype.flds, field))
      ensures field.ord == old(field.ord) && field.rest == old(field.rest)
      ensures field.name == if ok then newName else old(field.name)
    {
      var at := IndexOf(notetype.flds, field);
      if at.None? {
        return false;
      }
      field.name := newName;
      return true;
    }
  }

  /** The moving editor loses a field when the one it is given is an equal copy, here of
      the first of two fields. */
  method CopyTakesTheFirst() returns (notetype: Notetype, first: Field, second: Field, copy: Field)
    ensures fresh(notetype) && first != copy && second != copy && first != second
    ensures Same(first, copy) && notetype.flds == [second, copy]
  {
    first := new Field("Front", Some(0), 0);
    second := new Field("Back", Some(1), 0);
    copy := new Field("Front", Some(0), 0);
    notetype := new Notetype(1, [first, second]);
    var manager := new ModelManager();
    assert "Front" != "Back" by {
      assert |"Front"| != |"Back"|;
    }
    assert FirstAt(notetype.flds, copy, 0);
    var ok := manager.RepositionField(notetype, copy, 1);
    FirstIsOne([first, second], copy, 0);
  }

  /** And it can put the same field in twice, here for the second of two equal ones. */
  method SecondIsThereTwice() returns (notetype: Notetype, first: Field, second: Field, third: Field)
    ensures fresh(notetype) && first != second && Same(first, second)
    ensures notetype.flds == [second, third, second]
  {
    first := new Field("Front", Some(0), 0);
    second := new Field("Front", Some(0), 0);
    third := new Field("Back", Some(1), 0);
    notetype := new Notetype(1, [first, second, third]);
    var manager := new ModelManager();
    assert FirstAt(notetype.flds, second, 0);
    var ok := manager.RepositionField(notetype, second, 2);
    FirstIsOne([first, second, third], second, 0);
    assert Without([first, second, third], 0) == [second, third];
  }

  lemma PermutedWhenItself<T>(flds: seq<T>, i: nat, field: T, place: int)
    requires i < |flds|
    ensures multiset(Repositioned(flds, i, field, place)) == multiset(flds) <==> i == place || flds[i] == field
  {
    if i != place {
      MovesOnlyItself(flds, field, i, place);
    }
  }

  lemma FirstIsOne(flds: seq<Field>, field: Field, i: nat)
    requires FirstAt(flds, field, i)
    ensures forall j: nat :: FirstAt(flds, field, j) ==> i == j
  {
  }

  /** Putting a field in for the one taken out permutes the list exactly when they are one. */
  lemma MovesOnlyItself<T>(flds: seq<T>, field: T, i: nat, place: int)
    requires i < |flds|
    ensures multiset(Inserted(Without(flds, i), place, field)) == multiset(flds) <==> flds[i] == field
  {
    var rest := Without(flds, i);
    var at := InsertPlace(|rest|, place);
    assert flds == flds[..i] + [flds[i]] + flds[i + 1..];
    assert multiset(flds) == multiset(rest) + multiset{flds[i]};
    assert rest == rest[..at] + rest[at..];
    assert multiset(Inserted(rest, place, field)) == multiset(rest) + multiset{field};
    if flds[i] != field {
      assert (multiset(rest) + multiset{field})[field] != (multiset(rest) + multiset{flds[i]})[field];
    }
  }

  /** Where a field goes, and that the others keep their order. */
  lemma MovedTo<T>(flds: seq<T>, i: nat, place: nat)
    requires i < |flds| && place < |flds|
    ensures var moved := Inserted(Without(flds, i), place, flds[i]);
            |moved| == |flds| && moved[place] == flds[i] && Without(moved, place) == Without(flds, i)
  {
  }

  // Any run of edits and questions

  datatype Op =
    | Add(notetype: Notetype, field: Field)
    | Remove(notetype: Notetype, field: Field)
    | Move(notetype: Notetype, field: Field, place: int)
    | Rename(notetype: Notetype, field: Field, name: string)
    | SetOrd(field: Field, ord: Option<int>)
    | Replace(notetype: Notetype, flds: seq<Field>, id: int)
    | Evict(id: int)
    | Clear
    | Ask(notetype: Notetype)
    | Spoil(answer: nat, entries: Entries)

  ghost function Notetypes(ops: seq<Op>): set<object> {
    set i | 0 <= i < |ops| && !ops[i].SetOrd? && !ops[i].Evict? && !ops[i].Clear? && !ops[i].Spoil? :: ops[i].notetype
  }

  ghost function Fields(ops: seq<Op>): set<object> {
    set i | 0 <= i < |ops| && (ops[i].Rename? || ops[i].SetOrd?) :: ops[i].field
  }

  ghost function Asked(ops: seq<Op>): nat {
    if ops == [] then 0 else Asked(ops[..|ops| - 1]) + if ops[|ops| - 1].Ask? then 1 else 0
  }

  /** Ask the manager, and look at the fields. */
  method AskBoth(manager: ModelManager, notetype: Notetype) returns (mapping: Mapping, entries: Entries)
    requires manager.Valid()
    modifies manager
    ensures manager.Valid() && fresh(manager.repr - old(manager.repr))
    ensures fresh(mapping) && mapping !in manager.repr
    ensures entries == old(MapOf(SeenNow(notetype.flds))) == mapping.entries
  {
    var seen;
    entries, seen := ModelManager.Look(notetype.flds);
    mapping := manager.FieldMap(notetype);
  }

  /** Run the edits and ask both the manager and, each time, the fields themselves. Callers
      may spoil any answer they were given. */
  method Run(manager: ModelManager, ops: seq<Op>) returns (cached: seq<Entries>, direct: seq<Entries>)
    requires manager.Valid()
    modifies manager, Notetypes(ops), Fields(ops)
    ensures manager.Valid()
    ensures cached == direct && |cached| == Asked(ops)
  {
    cached, direct := [], [];
    var answers: seq<Mapping> := [];
    for n := 0 to |ops|
      invariant manager.Valid() && cached == direct && |cached| == Asked(ops[..n])
      invariant fresh(manager.repr - old(manager.repr))
      invariant forall k :: 0 <= k < |answers| ==> fresh(answers[k]) && answers[k] !in manager.repr
    {
      assert ops[..n + 1][..n] == ops[..n];
      match ops[n] {
        case Add(notetype, field) => manager.AddField(notetype, field);
        case Remove(notetype, field) => var ok := manager.RemoveField(notetype, field);
        case Move(notetype, field, place) => var ok := manager.RepositionField(notetype, field, place);
        case Rename(notetype, field, name) => var ok := manager.RenameField(notetype, field, name);
        case SetOrd(field, ord) => field.ord := ord;
        case Replace(notetype, flds, id) => notetype.flds, notetype.id := flds, id;
        case Evict(id) => manager.RemoveFromCache(id);
        case Clear => manager.ClearCache();
        case Ask(notetype) =>
          var mapping, entries := AskBoth(manager, notetype);
          cached := cached + [mapping.entries];
          direct := direct + [entries];
          answers := answers + [mapping];
        case Spoil(answer, entries) =>
          if answer < |answers| {
            answers[answer].entries := entries;
          }
      }
    }
    assert ops[..|ops|] == ops;
  }
}
