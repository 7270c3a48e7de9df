/**
 * api_upload_purchase_order of backend/apis/v1/route_laptop_procurement.py:
 * an existence check, then the blob write, then the record update.
 */
module ProcurementRoutes {
  import opened Outcome
  import opened Tables
  import opened LaptopProcurement
  import opened ObjectStore
  import opened ObjectKeys

  function PurchaseOrderKey(recordId: Uuid, token: Uuid, filename: string): string {
    ObjectKey(PurchaseOrders, recordId, token, filename)
  }

  /**
   * Unlike the form uploads, the record is checked before the put: an
   * unknown record stores no blob, though its failed search is logged. A
   * failed put leaves the record's file as it was. On success the handler
   * answers with the key now on the record, and the log has gained exactly
   * the upload entry.
   */
  function UploadPurchaseOrderSpec(t: Tables, objects: map<string, seq<bv8>>, admin: Actor, recordId: Uuid,
                                   token: Uuid, filename: string, data: seq<bv8>, putFails: bool): (u: Upload)
    ensures recordId !in t.procurements ==>
      u == Upload(t.(audit := t.audit + [FailedSearchEntry(admin, recordId)]), objects, Err(NotFound))
    ensures recordId in t.procurements && putFails ==> u == Upload(t, objects, Err(UploadFailed))
    ensures u.result.Ok? <==> recordId in t.procurements && !putFails
    ensures u.result.Ok? ==>
      && u.result.value == PurchaseOrderKey(recordId, token, filename)
      && u.objects == objects[u.result.value := data]
      && u.after.procurements == t.procurements[recordId := t.procurements[recordId].(purchaseOrderFile := Some(u.result.value))]
      && u.after.audit == t.audit + [UploadEntry(admin, recordId, u.after.procurements[recordId])]
    ensures t.audit <= u.after.audit
  {
    var search := QuietSearchStep(t, recordId, admin);
    if search.result.Err? then Upload(search.after, objects, Err(search.result.error))
    else
      var key := PurchaseOrderKey(recordId, token, filename);
      if putFails then Upload(t, objects, Err(UploadFailed))
      else
        var s := UploadPurchaseOrderStep(t, recordId, key, admin);
        Upload(s.after, objects[key := data], Ok(s.result.value.purchaseOrderFile.value))
  }

  method UploadPurchaseOrderFile(db: Db, blobs: BlobStore, admin: Actor, recordId: Uuid, token: Uuid,
                                 filename: string, data: seq<bv8>, putFails: bool) returns (r: Result<string>)
    modifies db, blobs
    ensures Upload(db.State(), blobs.objects, r)
         == UploadPurchaseOrderSpec(old(db.State()), old(blobs.objects), admin, recordId, token, filename, data, putFails)
  {
    var found := QuietSearch(db, recordId, admin);
    if found.Err? {
      return Err(found.error);
    }
    var key := PurchaseOrderKey(recordId, token, filename);
    if putFails {
      return Err(UploadFailed);
    }
    blobs.Put(key, data);
    var record := UploadPurchaseOrder(db, recordId, key, admin);
    return Ok(record.value.purchaseOrderFile.value);
  }
}
