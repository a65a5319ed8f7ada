/** The charge service (src/services/api/chargeService.js): the records it
    sends to the `charge` table. What it makes of the answers is the strict
    reading of `ApperSdk`: `StrictList` for getAll, `StrictRecord` for
    getById, `StrictWrite` with `CreateFailed` and `UpdateFailed` for
    create and update, `StrictDelete` with `DeleteFailed` for delete. Ids
    are passed to the SDK as given. */
module ChargeService {
  import opened JsValues
  import opened Tables

  const TableName := "charge"
  const CreateFailed := "Failed to create charge"
  const UpdateFailed := "Failed to update charge"
  const DeleteFailed := "Failed to delete charge"

  const RecordFields: set<string> := {"Name", "price", "description", "limitsOfUse", "salesPageId"}

  /** The record create sends: the five fields as given. */
  function CreateRecord(chargeData: Record): (r: Record)
    ensures r.Keys == RecordFields
    ensures forall k :: k in RecordFields ==> r[k] == Get(chargeData, k)
  {
    Pick(chargeData, RecordFields)
  }

  /** The record update sends: the create record plus the Id as given. */
  function UpdateRecord(id: Value, chargeData: Record): (r: Record)
    ensures r.Keys == RecordFields + {"Id"}
    ensures r - {"Id"} == CreateRecord(chargeData)
    ensures r["Id"] == id
  {
    CreateRecord(chargeData)["Id" := id]
  }

  /** Fields other than the five are never sent, so create does not depend
      on them. */
  lemma CreateIgnoresOtherFields(chargeData: Record, key: string, v: Value)
    requires key !in RecordFields
    ensures CreateRecord(chargeData[key := v]) == CreateRecord(chargeData)
  {
    var a, b := CreateRecord(chargeData[key := v]), CreateRecord(chargeData);
    forall k | k in RecordFields
      ensures a[k] == b[k]
    {
    }
  }
}
