/** The video training script service
    (src/services/api/videoTrainingScriptService.js): the records it sends to
    the `video_training_script` table. What it makes of the answers is the
    lenient reading of `ApperSdk`: `LenientList` for getAll,
    `LenientRecord` for getById, `LenientWrite` for create and update,
    `LenientDelete` for delete. */
module VideoTrainingScriptService {
  import opened JsValues
  import opened Tables
  import opened ApperSdk

  const TableName := "video_training_script"

  /** The stored fields. */
  const StoredFields: set<string> := {"Name", "Tags", "Owner", "bonus_id", "script_content", "idea"}

  /** The record id getById and delete send: `parseInt(id)`. */
  function RecordKey(id: Value): (k: Value)
    ensures k.Num? || k.NaN?
    ensures k.NaN? <==> ParseIntValue(id).None?
    ensures ParseIntValue(id).Some? ==> k == Num(ParseIntValue(id).value)
  {
    ParsedNumber(id)
  }

  /** The record create sends: each field under its stored name, taken
      from the caller's camelCase spelling when that is truthy and from
      the stored spelling otherwise; Tags falls back to "". */
  function CreateRecord(script: Record): (r: Record)
    ensures r.Keys == StoredFields
    ensures r["Name"] == Or(Get(script, "name"), Get(script, "Name"))
    ensures r["Tags"] == Or(Or(Get(script, "tags"), Get(script, "Tags")), Str(""))
    ensures r["Owner"] == Or(Get(script, "owner"), Get(script, "Owner"))
    ensures r["bonus_id"] == Or(Get(script, "bonusId"), Get(script, "bonus_id"))
    ensures r["script_content"] == Or(Get(script, "scriptContent"), Get(script, "script_content"))
    ensures r["idea"] == Get(script, "idea")
    ensures Truthy(r["Tags"]) || r["Tags"] == Str("")
  {
    map[
      "Name" := Or(Get(script, "name"), Get(script, "Name")),
      "Tags" := Or(Or(Get(script, "tags"), Get(script, "Tags")), Str("")),
      "Owner" := Or(Get(script, "owner"), Get(script, "Owner")),
      "bonus_id" := Or(Get(script, "bonusId"), Get(script, "bonus_id")),
      "script_content" := Or(Get(script, "scriptContent"), Get(script, "script_content")),
      "idea" := Get(script, "idea")]
  }

  /** A record already in stored form passes through create unchanged. */
  lemma CreateRecordIdempotent(script: Record)
    ensures CreateRecord(CreateRecord(script)) == CreateRecord(script)
  {
    var r := CreateRecord(script);
    assert "name" !in r && "tags" !in r && "owner" !in r;
    assert "bonusId" !in r && "scriptContent" !in r;
    var again := CreateRecord(r);
    assert again["Tags"] == r["Tags"];
  }

  /** The caller's spelling of a stored field in an update. */
  function CallerName(stored: string): string {
    match stored
    case "Name" => "name"
    case "Tags" => "tags"
    case "Owner" => "owner"
    case "bonus_id" => "bonusId"
    case "script_content" => "scriptContent"
    case _ => stored
  }

  /** Field `to` of the update record carries the caller's `from` exactly
      when that is truthy. */
  predicate Sent(r: Record, updates: Record, from: string, to: string) {
    (to in r <==> Truthy(Get(updates, from))) && (to in r ==> r[to] == Get(updates, from))
  }

  /** The record update sends: `{ Id: parseInt(id), ...(updates.name &&
      { Name: updates.name }), ... }`, six conditional spreads with distinct
      keys, so the numeric Id and exactly the fields the caller gave a
      truthy value, under their stored names. */
  function UpdateRecord(id: Value, updates: Record): (r: Record)
    ensures Get(r, "Id") == RecordKey(id)
    ensures r.Keys <= StoredFields + {"Id"}
    ensures forall k :: k in r && k != "Id" ==> Truthy(r[k])
    ensures Sent(r, updates, "name", "Name") && Sent(r, updates, "tags", "Tags")
      && Sent(r, updates, "owner", "Owner") && Sent(r, updates, "bonusId", "bonus_id")
      && Sent(r, updates, "scriptContent", "script_content") && Sent(r, updates, "idea", "idea")
  {
    SpreadsShape(id, updates);
    CallerNames();
    SpreadSent(id, updates, "Name", "name");
    SpreadSent(id, updates, "Tags", "tags");
    SpreadSent(id, updates, "Owner", "owner");
    SpreadSent(id, updates, "bonus_id", "bonusId");
    SpreadSent(id, updates, "script_content", "scriptContent");
    SpreadSent(id, updates, "idea", "idea");
    Spreads(id, updates)
  }

  /** The map the spreads build, keyed by stored name. */
  function Spreads(id: Value, updates: Record): Record {
    var sent := set k | k in StoredFields && Truthy(Get(updates, CallerName(k)));
    map k | k in sent + {"Id"} :: if k == "Id" then RecordKey(id) else Get(updates, CallerName(k))
  }

  lemma CallerNames()
    ensures CallerName("Name") == "name" && CallerName("Tags") == "tags" && CallerName("Owner") == "owner"
    ensures CallerName("bonus_id") == "bonusId" && CallerName("script_content") == "scriptContent"
    ensures CallerName("idea") == "idea"
  {
  }

  lemma SpreadsShape(id: Value, updates: Record)
    ensures Get(Spreads(id, updates), "Id") == RecordKey(id)
    ensures Spreads(id, updates).Keys <= StoredFields + {"Id"}
    ensures forall k :: k in Spreads(id, updates) && k != "Id" ==> Truthy(Spreads(id, updates)[k])
  {
  }

  lemma SpreadSent(id: Value, updates: Record, to: string, from: string)
    requires to in StoredFields && from == CallerName(to)
    ensures Sent(Spreads(id, updates), updates, from, to)
  {
    assert to != "Id";
  }

  /** An update made only of falsy values sends the Id alone: update can
      never blank a field. */
  lemma FalsyUpdateSendsOnlyId(id: Value, updates: Record)
    requires !Truthy(Get(updates, "name")) && !Truthy(Get(updates, "tags")) && !Truthy(Get(updates, "owner"))
    requires !Truthy(Get(updates, "bonusId")) && !Truthy(Get(updates, "scriptContent")) && !Truthy(Get(updates, "idea"))
    ensures UpdateRecord(id, updates) == map["Id" := RecordKey(id)]
  {
    CallerNames();
    var r := Spreads(id, updates);
    assert UpdateRecord(id, updates) == r;
    forall k | k in StoredFields
      ensures !Truthy(Get(updates, CallerName(k)))
    {
    }
    assert r.Keys == {"Id"};
  }
}
