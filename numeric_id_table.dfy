/** The table discipline shared by the product and bonus services
    (src/services/api/productService.js, src/services/api/bonusService.js):
    rows are found by `Id === parseInt(id)`, and a created row gets the
    next Id after the largest one. */
module NumericIdTable {
  import opened JsValues
  import opened Tables

  /** `row.Id === parseInt(id)`. */
  predicate HasId(row: Record, id: Value) {
    ParseIntValue(id).Some? && StrictEquals(Get(row, "Id"), Num(ParseIntValue(id).value))
  }

  function IdMatcher(id: Value): Record -> bool {
    (row: Record) => HasId(row, id)
  }

  function IndexOfId(rows: seq<Record>, id: Value): (r: Option<nat>)
    ensures r.Some? ==> r.value < |rows| && HasId(rows[r.value], id)
    ensures r.Some? ==> forall j :: 0 <= j < r.value ==> !HasId(rows[j], id)
    ensures r.None? <==> forall j :: 0 <= j < |rows| ==> !HasId(rows[j], id)
  {
    FindIndex(rows, IdMatcher(id))
  }

  /** What getById resolves to: the first row with that Id, or undefined. */
  function LookupId(rows: seq<Record>, id: Value): (r: Option<Record>)
    ensures r.None? <==> forall j :: 0 <= j < |rows| ==> !HasId(rows[j], id)
    ensures r.Some? ==> IndexOfId(rows, id).Some? && r.value == rows[IndexOfId(rows, id).value]
  {
    match IndexOfId(rows, id)
    case None => None
    case Some(i) => Some(rows[i])
  }

  predicate NumericIds(rows: seq<Record>) {
    forall j :: 0 <= j < |rows| ==> Get(rows[j], "Id").Num?
  }

  predicate DistinctIds(rows: seq<Record>) {
    forall i, j :: 0 <= i < j < |rows| ==> Get(rows[i], "Id") != Get(rows[j], "Id")
  }

  /** `Math.max(...rows.map(r => r.Id))`. */
  function MaxId(rows: seq<Record>): (m: int)
    requires |rows| > 0 && NumericIds(rows)
    ensures forall j :: 0 <= j < |rows| ==> Get(rows[j], "Id").n <= m
    ensures exists j :: 0 <= j < |rows| && Get(rows[j], "Id").n == m
    decreases |rows|
  {
    var head := Get(rows[0], "Id").n;
    if |rows| == 1 then head
    else
      var rest := MaxId(rows[1..]);
      assert forall j :: 1 <= j < |rows| ==> rows[j] == rows[1..][j - 1];
      if head >= rest then head else rest
  }

  /** The record create stores: the caller's fields with the next Id and
      the creation time. */
  function NewRow(row: Record, rows: seq<Record>, createdAt: string): (r: Record)
    requires |rows| > 0 && NumericIds(rows)
    ensures r.Keys == row.Keys + {"Id", "createdAt"}
    ensures Get(r, "Id") == Num(MaxId(rows) + 1)
    ensures Get(r, "createdAt") == Str(createdAt)
    ensures forall k :: k in row && k != "Id" && k != "createdAt" ==> r[k] == row[k]
  {
    row + map["Id" := Num(MaxId(rows) + 1), "createdAt" := Str(createdAt)]
  }

  // ---------------------------------------------------------------------
  // Properties

  /** The new Id exceeds every stored one, so Ids stay numeric and distinct. */
  lemma CreateKeepsIdsDistinct(rows: seq<Record>, row: Record, createdAt: string)
    requires |rows| > 0 && NumericIds(rows) && DistinctIds(rows)
    ensures var r := rows + [NewRow(row, rows, createdAt)];
      NumericIds(r) && DistinctIds(r)
  {
    var newRow := NewRow(row, rows, createdAt);
    var r := rows + [newRow];
    forall i, j | 0 <= i < j < |r|
      ensures Get(r[i], "Id") != Get(r[j], "Id")
    {
      if j == |rows| {
        assert Get(r[i], "Id").n <= MaxId(rows);
      }
    }
  }

  /** getById with any id that parseInt reads as the new Id (the number
      itself, or its decimal string: see `ParseIntValueRoundTrip`) returns the
      created row. */
  lemma NewRowFoundBy(rows: seq<Record>, row: Record, createdAt: string, id: Value)
    requires |rows| > 0 && NumericIds(rows)
    requires ParseIntValue(id) == Some(MaxId(rows) + 1)
    ensures LookupId(rows + [NewRow(row, rows, createdAt)], id) == Some(NewRow(row, rows, createdAt))
  {
    var newRow := NewRow(row, rows, createdAt);
    forall j | 0 <= j < |rows|
      ensures !IdMatcher(id)(rows[j])
    {
      OldRowLacksNewId(rows, id, j);
    }
    assert IdMatcher(id)(newRow);
    FindIndexAppended(rows, newRow, IdMatcher(id));
  }

  /** Helper for `NewRowFoundBy`: no stored row carries the Id create
      hands out next, since every stored Id is at most the maximum. */
  lemma OldRowLacksNewId(rows: seq<Record>, id: Value, j: nat)
    requires |rows| > 0 && NumericIds(rows) && j < |rows|
    requires ParseIntValue(id) == Some(MaxId(rows) + 1)
    ensures !HasId(rows[j], id)
  {
  }

  /** After update, getById with the same id returns the merged row,
      unless the updates rewrite the Id. */
  lemma UpdatedRowFoundById(rows: seq<Record>, id: Value, updates: Record)
    requires IndexOfId(rows, id).Some?
    requires "Id" !in updates
    ensures var i := IndexOfId(rows, id).value;
      LookupId(MergeAt(rows, i, updates), id) == Some(rows[i] + updates)
  {
    var i := IndexOfId(rows, id).value;
    var r := MergeAt(rows, i, updates);
    assert HasId(r[i], id);
    assert forall j :: 0 <= j < i ==> r[j] == rows[j];
  }

  /** With distinct Ids, delete leaves no row for the deleted id and keeps
      the Ids distinct. */
  lemma DeleteRemovesId(rows: seq<Record>, id: Value)
    requires DistinctIds(rows)
    requires IndexOfId(rows, id).Some?
    ensures var r := RemoveAt(rows, IndexOfId(rows, id).value);
      LookupId(r, id) == None && DistinctIds(r)
  {
    var i := IndexOfId(rows, id).value;
    var r := RemoveAt(rows, i);
    forall j | 0 <= j < |r|
      ensures !HasId(r[j], id)
    {
      if j >= i {
        assert r[j] == rows[j + 1];
        assert Get(rows[i], "Id") != Get(rows[j + 1], "Id");
      }
    }
    forall a, b | 0 <= a < b < |r|
      ensures Get(r[a], "Id") != Get(r[b], "Id")
    {
      var a', b' := if a < i then a else a + 1, if b < i then b else b + 1;
      assert r[a] == rows[a'] && r[b] == rows[b'] && a' < b';
    }
  }
}
