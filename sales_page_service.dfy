/** The sales page service (src/services/api/salesPageService.js): the
    records it sends to the `salespage` table. What it makes of the answers
    is the strict reading of `ApperSdk`: `StrictList` for getAll,
    `StrictRecord` for getById, `StrictWrite` with `CreateFailed` and
    `UpdateFailed` for create and update, `StrictDelete` with
    `DeleteFailed` for delete. Ids are passed to the SDK as given. */
module SalesPageService {
  import opened JsValues
  import opened Tables

  const TableName := "salespage"
  const CreateFailed := "Failed to create sales page"
  const UpdateFailed := "Failed to update sales page"
  const DeleteFailed := "Failed to delete sales page"

  /** The fields create and update send. */
  const RecordFields: set<string> := {
    "Name", "title", "description", "url", "affiliatelink", "ctatext", "status",
    "views", "clicks", "conversions", "copywriting", "benefits", "lifechanges", "productId"}

  /** The fields create gives a default. */
  const Defaulted: set<string> := {"status", "views", "clicks", "conversions"}

  /** The record create sends: every field, with status defaulting to
      "Draft" and the counters to 0 when falsy. */
  function CreateRecord(salesPageData: Record): (r: Record)
    ensures r.Keys == RecordFields
    ensures r["status"] == Or(Get(salesPageData, "status"), Str("Draft")) && Truthy(r["status"])
    ensures forall c :: c in {"views", "clicks", "conversions"} ==> r[c] == Or(Get(salesPageData, c), Num(0))
    ensures forall k :: k in RecordFields && k !in Defaulted ==> r[k] == Get(salesPageData, k)
  {
    map k | k in RecordFields ::
      if k == "status" then Or(Get(salesPageData, k), Str("Draft"))
      else if k in Defaulted then Or(Get(salesPageData, k), Num(0))
      else Get(salesPageData, k)
  }

  /** Applying the defaults twice changes nothing. */
  lemma CreateRecordIdempotent(salesPageData: Record)
    ensures CreateRecord(CreateRecord(salesPageData)) == CreateRecord(salesPageData)
  {
    var r := CreateRecord(salesPageData);
    var again := CreateRecord(r);
    forall k | k in r
      ensures again[k] == r[k]
    {
    }
  }

  /** The record update sends: the Id as given and every field as given,
      a field the caller left out included as `undefined`. */
  function UpdateRecord(id: Value, salesPageData: Record): (r: Record)
    ensures r.Keys == RecordFields + {"Id"}
    ensures r["Id"] == id
    ensures forall k :: k in RecordFields ==> r[k] == Get(salesPageData, k)
  {
    Pick(salesPageData, RecordFields)["Id" := id]
  }

  /** update is not sparse: a field missing from the data is sent as
      `undefined`, where create would have sent its default. */
  lemma UpdateSendsMissingFields(id: Value, salesPageData: Record)
    requires "status" !in salesPageData
    ensures UpdateRecord(id, salesPageData)["status"] == Undefined
    ensures CreateRecord(salesPageData)["status"] == Str("Draft")
  {
  }

  /** Updating with a record as create built it sends that record plus the Id. */
  lemma UpdateOfCreatedRecord(id: Value, salesPageData: Record)
    ensures UpdateRecord(id, CreateRecord(salesPageData)) == CreateRecord(salesPageData)["Id" := id]
  {
    var c := CreateRecord(salesPageData);
    var u := UpdateRecord(id, c);
    assert u.Keys == c.Keys + {"Id"};
    forall k | k in u
      ensures u[k] == c["Id" := id][k]
    {
    }
  }
}
