/** The static category table (frontend/src/lib/categoryMap.ts): six names with
    ids 1..6, a name-to-id lookup that defaults to `Other` (id 6), and an
    id-to-name lookup that searches the table's keys in declaration order. */
module CategoryMap {
  import opened Types

  /** The keys of `categoryMap`, in declaration order (the order `Object.keys` yields). */
  const Names: seq<string> :=
    ["Food & Dining", "Transportation", "Shopping", "Bills & Utilities", "Income", "Other"]

  /** `categoryMap` itself. */
  const Table: map<string, int> :=
    map["Food & Dining" := 1, "Transportation" := 2, "Shopping" := 3,
        "Bills & Utilities" := 4, "Income" := 5, "Other" := 6]

  /** The id `getCategoryId` falls back to (`?? 6`). */
  const DefaultId: int := 6

  /** The name `getCategoryName` falls back to (`?? "Other"`). */
  const DefaultName: string := "Other"

  lemma TableMatchesNames()
    ensures |Names| == 6 && Table.Keys == set n | n in Names
    ensures forall i :: 0 <= i < |Names| ==> Table[Names[i]] == i + 1
  {
  }

  /** `getCategoryId`: the table entry for the name, or 6 for any other name. */
  function GetCategoryId(name: string): (id: int)
    ensures 1 <= id <= 6
    ensures name in Table ==> id == Table[name]
    ensures name !in Table ==> id == DefaultId
  {
    if name in Table then Table[name] else DefaultId
  }

  /** `Object.keys(categoryMap).find(key => categoryMap[key] === id)`. */
  function FindKey(keys: seq<string>, id: int): (r: Option<string>)
    requires forall k :: k in keys ==> k in Table
    ensures r.Some? ==> r.value in keys && Table[r.value] == id
    ensures r.None? ==> forall k :: k in keys ==> Table[k] != id
  {
    if keys == [] then None
    else if Table[keys[0]] == id then Some(keys[0])
    else FindKey(keys[1..], id)
  }

  /** `getCategoryName`: the key mapped to `id`, or `Other` for an id outside 1..6. */
  function GetCategoryName(id: int): (name: string)
    ensures 1 <= id <= 6 ==> name == Names[id - 1]
    ensures !(1 <= id <= 6) ==> name == DefaultName
  {
    TableMatchesNames();
    match FindKey(Names, id)
    case Some(k) =>
      assert Names[id - 1] in Names && k in Names;
      k
    case None => DefaultName
  }

  /** No two names share an id, so the reverse lookup is unambiguous. */
  lemma TableInjective(a: string, b: string)
    requires a in Table && b in Table && Table[a] == Table[b]
    ensures a == b
  {
  }

  /** Name to id to name is the identity on the six known names. */
  lemma NameIdRoundTrip(name: string)
    requires name in Table
    ensures GetCategoryName(GetCategoryId(name)) == name
  {
    TableMatchesNames();
    var i :| 0 <= i < |Names| && Names[i] == name;
    assert GetCategoryId(name) == i + 1;
  }

  /** Id to name to id is the identity on 1..6. */
  lemma IdNameRoundTrip(id: int)
    requires 1 <= id <= 6
    ensures GetCategoryId(GetCategoryName(id)) == id
  {
    TableMatchesNames();
  }

  /** An unknown name maps to 6, which maps back to `Other`, not to the unknown name. */
  lemma UnknownNameLost(name: string)
    requires name !in Table
    ensures GetCategoryName(GetCategoryId(name)) == DefaultName
  {
  }
}
