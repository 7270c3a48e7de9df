/**
 * backend/db/repository/laptop_procurement.py: purchase records, each
 * operation leaving a row in the audit log.
 */
module LaptopProcurement {
  import opened Outcome
  import opened Dates
  import opened Tables

  datatype CreateLaptopProcurement = CreateLaptopProcurement(
    laptopId: Uuid,
    purchaseDate: Stamp,
    purchaseOrder: string,
    vendor: string,
    warrantyExpiry: Stamp,
    cost: Float)

  /** The marker the failed-search entries carry. */
  const DoubleBang := "\U{203C}\U{FE0F}"
  const FailedSearchDetails := DoubleBang + " Failed Record search " + DoubleBang

  /** The log only ever gains entries at its end, at most one per call. */
  predicate AppendsAtMostOne(before: seq<AuditEntry>, after: seq<AuditEntry>) {
    before <= after && |after| <= |before| + 1
  }

  // ---------------------------------------------------------------------------
  // repo_new_laptop_purchase

  function PurchaseEntry(admin: Actor, l: Laptop, auditId: Uuid): AuditEntry {
    AuditEntry(admin.id, "Added laptop to procurement table", "is_laptopprocurement", auditId,
               admin.username + ": Added procurement details of laptop(" + l.brand + " " + l.model + " " + l.serialNumber)
  }

  /**
   * The record and one audit entry, committed together. The entry's
   * record_id is a fresh uuid, not the purchase's key. A missing laptop is
   * read for the entry's text and fails the call before its commit.
   */
  function NewLaptopPurchaseStep(t: Tables, req: CreateLaptopProcurement, admin: Actor, newId: Uuid, auditId: Uuid)
    : (s: Step<Procurement>)
    ensures newId in t.procurements || req.laptopId !in t.laptops ==> s == Step(t, Err(Internal))
    ensures s.result.Ok? <==> newId !in t.procurements && req.laptopId in t.laptops
    ensures s.result.Ok? ==>
      && s.result.value == Procurement(req.laptopId, req.purchaseDate, req.purchaseOrder, req.vendor,
                                       req.warrantyExpiry, req.cost, None)
      && s.after.procurements == t.procurements[newId := s.result.value]
      && |s.after.audit| == |t.audit| + 1
      && s.after.audit[|t.audit|].action == "Added laptop to procurement table"
      && s.after.audit[|t.audit|].recordId == auditId
      && s.after == t.(procurements := s.after.procurements, audit := s.after.audit)
    ensures AppendsAtMostOne(t.audit, s.after.audit)
  {
    if newId in t.procurements || req.laptopId !in t.laptops then Step(t, Err(Internal))
    else
      var record := Procurement(req.laptopId, req.purchaseDate, req.purchaseOrder, req.vendor,
                                req.warrantyExpiry, req.cost, None);
      Step(t.(procurements := t.procurements[newId := record],
              audit := t.audit + [PurchaseEntry(admin, t.laptops[req.laptopId], auditId)]),
           Ok(record))
  }

  method NewLaptopPurchase(db: Db, req: CreateLaptopProcurement, admin: Actor, newId: Uuid, auditId: Uuid)
    returns (r: Result<Procurement>)
    modifies db
    ensures Step(db.State(), r) == NewLaptopPurchaseStep(old(db.State()), req, admin, newId, auditId)
  {
    if newId in db.procurements || req.laptopId !in db.laptops {
      return Err(Internal);
    }
    var record := Procurement(req.laptopId, req.purchaseDate, req.purchaseOrder, req.vendor,
                              req.warrantyExpiry, req.cost, None);
    var entry := PurchaseEntry(admin, db.laptops[req.laptopId], auditId);
    db.procurements := db.procurements[newId := record];
    db.audit := db.audit + [entry];
    return Ok(record);
  }

  // ---------------------------------------------------------------------------
  // repo_upload_purchase_order

  function UploadEntry(admin: Actor, id: Uuid, p: Procurement): AuditEntry {
    AuditEntry(admin.id, "File Upload", "is_laptopallocation", id, admin.username + ": Uploaded PO " + p.purchaseOrder)
  }

  function UploadPurchaseOrderStep(t: Tables, id: Uuid, key: string, admin: Actor): (s: Step<Procurement>)
    ensures id !in t.procurements ==> s == Step(t, Err(NotFound))
    ensures id in t.procurements ==>
      && s.result == Ok(t.procurements[id].(purchaseOrderFile := Some(key)))
      && s.after.procurements == t.procurements[id := s.result.value]
      && |s.after.audit| == |t.audit| + 1
      && s.after.audit[|t.audit|].action == "File Upload"
      && s.after.audit[|t.audit|].recordId == id
      && s.after == t.(procurements := s.after.procurements, audit := s.after.audit)
    ensures AppendsAtMostOne(t.audit, s.after.audit)
  {
    if id !in t.procurements then Step(t, Err(NotFound))
    else
      var record := t.procurements[id].(purchaseOrderFile := Some(key));
      Step(t.(procurements := t.procurements[id := record], audit := t.audit + [UploadEntry(admin, id, record)]),
           Ok(record))
  }

  method UploadPurchaseOrder(db: Db, id: Uuid, key: string, admin: Actor) returns (r: Result<Procurement>)
    modifies db
    ensures Step(db.State(), r) == UploadPurchaseOrderStep(old(db.State()), id, key, admin)
  {
    if id !in db.procurements {
      return Err(NotFound);
    }
    var record := db.procurements[id];
    record := record.(purchaseOrderFile := Some(key));
    db.procurements := db.procurements[id := record];
    db.audit := db.audit + [UploadEntry(admin, id, record)];
    return Ok(record);
  }

  // ---------------------------------------------------------------------------
  // repo_download_PO

  function DownloadEntry(admin: Actor, id: Uuid, p: Procurement): AuditEntry {
    AuditEntry(admin.id, "File Download", "is_laptopprocurement", id, admin.username + ": Downloaded PO " + p.purchaseOrder)
  }

  function DownloadPOStep(t: Tables, id: Uuid, admin: Actor): (s: Step<Url>)
    ensures id !in t.procurements || !Truthy(t.procurements[id].purchaseOrderFile) ==> s == Step(t, Err(NotFound))
    ensures s.result.Ok? <==> id in t.procurements && Truthy(t.procurements[id].purchaseOrderFile)
    ensures s.result.Ok? ==>
      && s.result.value == PresignedUrl(t.procurements[id].purchaseOrderFile.value, UrlLifetimeSeconds)
      && |s.after.audit| == |t.audit| + 1
      && s.after.audit[|t.audit|].action == "File Download"
      && s.after.audit[|t.audit|].recordId == id
      && s.after == t.(audit := s.after.audit)
    ensures AppendsAtMostOne(t.audit, s.after.audit)
  {
    if id !in t.procurements || !Truthy(t.procurements[id].purchaseOrderFile) then Step(t, Err(NotFound))
    else
      var record := t.procurements[id];
      Step(t.(audit := t.audit + [DownloadEntry(admin, id, record)]),
           Ok(PresignedUrl(record.purchaseOrderFile.value, UrlLifetimeSeconds)))
  }

  method DownloadPO(db: Db, id: Uuid, admin: Actor) returns (r: Result<Url>)
    modifies db
    ensures Step(db.State(), r) == DownloadPOStep(old(db.State()), id, admin)
  {
    if id !in db.procurements {
      return Err(NotFound);
    }
    var record := db.procurements[id];
    if !Truthy(record.purchaseOrderFile) {
      return Err(NotFound);
    }
    var url := PresignedUrl(record.purchaseOrderFile.value, 3600);
    db.audit := db.audit + [DownloadEntry(admin, id, record)];
    return Ok(url);
  }

  // ---------------------------------------------------------------------------
  // repo_quiet_search and repo_get_a_record

  function FailedSearchEntry(admin: Actor, id: Uuid): AuditEntry {
    AuditEntry(admin.id, "Record Search", "is_laptopprocuurement", id, FailedSearchDetails)
  }

  /** The failed search is committed before the NotFound is raised; a hit writes nothing. */
  function QuietSearchStep(t: Tables, id: Uuid, admin: Actor): (s: Step<bool>)
    ensures id in t.procurements ==> s == Step(t, Ok(true))
    ensures id !in t.procurements ==>
      && s.result == Err(NotFound)
      && s.after == t.(audit := t.audit + [FailedSearchEntry(admin, id)])
    ensures AppendsAtMostOne(t.audit, s.after.audit)
  {
    if id in t.procurements then Step(t, Ok(true))
    else Step(t.(audit := t.audit + [FailedSearchEntry(admin, id)]), Err(NotFound))
  }

  method QuietSearch(db: Db, id: Uuid, admin: Actor) returns (r: Result<bool>)
    modifies db
    ensures Step(db.State(), r) == QuietSearchStep(old(db.State()), id, admin)
  {
    if id !in db.procurements {
      db.audit := db.audit + [FailedSearchEntry(admin, id)];
      return Err(NotFound);
    }
    return Ok(true);
  }

  function SelectedEntry(admin: Actor, id: Uuid): AuditEntry {
    AuditEntry(admin.id, "Record Search", "is_laptopprocuurement", id, admin.username + ": Selected a record " + id)
  }

  /**
   * The failed search's entry is only added to the session; the NotFound is
   * raised before any commit, so the entry is lost. A hit commits one entry.
   */
  function GetARecordStep(t: Tables, id: Uuid, admin: Actor): (s: Step<Procurement>)
    ensures id !in t.procurements ==> s == Step(t, Err(NotFound))
    ensures id in t.procurements ==>
      && s.result == Ok(t.procurements[id])
      && s.after == t.(audit := t.audit + [SelectedEntry(admin, id)])
    ensures AppendsAtMostOne(t.audit, s.after.audit)
  {
    if id !in t.procurements then Step(t, Err(NotFound))
    else Step(t.(audit := t.audit + [SelectedEntry(admin, id)]), Ok(t.procurements[id]))
  }

  method GetARecord(db: Db, id: Uuid, admin: Actor) returns (r: Result<Procurement>)
    modifies db
    ensures Step(db.State(), r) == GetARecordStep(old(db.State()), id, admin)
  {
    if id !in db.procurements {
      return Err(NotFound);
    }
    db.audit := db.audit + [SelectedEntry(admin, id)];
    return Ok(db.procurements[id]);
  }

  // ---------------------------------------------------------------------------
  // repo_get_records

  /** Each filter applies only when it is truthy; the ones that apply must all hold. */
  predicate RecordListed(t: Tables, id: Uuid, purchaseOrder: Option<string>, purchaseDate: Option<Stamp>,
                         vendor: Option<string>) {
    && id in t.procurements
    && (Truthy(purchaseOrder) ==> t.procurements[id].purchaseOrder == purchaseOrder.value)
    && (purchaseDate.Some? ==> t.procurements[id].purchaseDate == purchaseDate.value)
    && (Truthy(vendor) ==> t.procurements[id].vendor == vendor.value)
  }

  /** The details text, extended by each filter that applies. */
  function SearchDetails(admin: Actor, purchaseOrder: Option<string>, purchaseDate: Option<Stamp>,
                         vendor: Option<string>): string {
    admin.username + " searched through the Procurement records:"
    + (if Truthy(purchaseOrder) then " Purchase Order = " + purchaseOrder.value else "")
    + (if purchaseDate.Some? then " Date of Purchase = " + StrDateTime(purchaseDate.value) else "")
    + (if Truthy(vendor) then " Vendor = " + vendor.value else "")
  }

  /** The matching keys, and exactly one audit entry whatever matched. */
  function GetRecordsStep(t: Tables, admin: Actor, purchaseOrder: Option<string>, purchaseDate: Option<Stamp>,
                          vendor: Option<string>, auditId: Uuid): (s: Step<set<Uuid>>)
    ensures s.result.Ok?
    ensures forall id :: id in s.result.value <==> RecordListed(t, id, purchaseOrder, purchaseDate, vendor)
    ensures s.after == t.(audit := t.audit + [AuditEntry(admin.id, "Record Search", "is laptopprocurement", auditId,
                                                         SearchDetails(admin, purchaseOrder, purchaseDate, vendor))])
    ensures AppendsAtMostOne(t.audit, s.after.audit)
  {
    var found := set id | id in t.procurements && RecordListed(t, id, purchaseOrder, purchaseDate, vendor);
    var entry := AuditEntry(admin.id, "Record Search", "is laptopprocurement", auditId,
                            SearchDetails(admin, purchaseOrder, purchaseDate, vendor));
    Step(t.(audit := t.audit + [entry]), Ok(found))
  }

  /** The query of repo_get_records, narrowed one truthy filter at a time. */
  method FindRecords(db: Db, purchaseOrder: Option<string>, purchaseDate: Option<Stamp>, vendor: Option<string>)
    returns (query: set<Uuid>)
    ensures forall id :: id in query <==> RecordListed(db.State(), id, purchaseOrder, purchaseDate, vendor)
  {
    query := db.procurements.Keys;
    if Truthy(purchaseOrder) {
      query := set id | id in query && db.procurements[id].purchaseOrder == purchaseOrder.value;
    }
    if purchaseDate.Some? {
      query := set id | id in query && db.procurements[id].purchaseDate == purchaseDate.value;
    }
    if Truthy(vendor) {
      query := set id | id in query && db.procurements[id].vendor == vendor.value;
    }
  }

  method GetRecords(db: Db, admin: Actor, purchaseOrder: Option<string>, purchaseDate: Option<Stamp>,
                    vendor: Option<string>, auditId: Uuid) returns (r: Result<set<Uuid>>)
    modifies db
    ensures Step(db.State(), r) == GetRecordsStep(old(db.State()), admin, purchaseOrder, purchaseDate, vendor, auditId)
  {
    var query := FindRecords(db, purchaseOrder, purchaseDate, vendor);
    ghost var t := db.State();
    assert query == set id | id in t.procurements && RecordListed(t, id, purchaseOrder, purchaseDate, vendor);
    var details := SearchDetails(admin, purchaseOrder, purchaseDate, vendor);
    db.audit := db.audit + [AuditEntry(admin.id, "Record Search", "is laptopprocurement", auditId, details)];
    return Ok(query);
  }

  // ---------------------------------------------------------------------------
  // The audit log across any sequence of procurement calls

  datatype ProcurementCall =
    | NewPurchase(req: CreateLaptopProcurement, newId: Uuid, auditId: Uuid)
    | UploadOrder(id: Uuid, key: string)
    | DownloadOrder(id: Uuid)
    | QuietLookup(id: Uuid)
    | GetRecord(id: Uuid)
    | SearchRecords(purchaseOrder: Option<string>, purchaseDate: Option<Stamp>, vendor: Option<string>, auditId: Uuid)

  function Perform(t: Tables, admin: Actor, c: ProcurementCall): (after: Tables)
    ensures AppendsAtMostOne(t.audit, after.audit)
  {
    match c
    case NewPurchase(req, newId, auditId) => NewLaptopPurchaseStep(t, req, admin, newId, auditId).after
    case UploadOrder(id, key) => UploadPurchaseOrderStep(t, id, key, admin).after
    case DownloadOrder(id) => DownloadPOStep(t, id, admin).after
    case QuietLookup(id) => QuietSearchStep(t, id, admin).after
    case GetRecord(id) => GetARecordStep(t, id, admin).after
    case SearchRecords(po, date, vendor, auditId) => GetRecordsStep(t, admin, po, date, vendor, auditId).after
  }

  function PerformAll(t: Tables, admin: Actor, calls: seq<ProcurementCall>): Tables
    decreases |calls|
  {
    if calls == [] then t else PerformAll(Perform(t, admin, calls[0]), admin, calls[1..])
  }

  /**
   * No run of procurement calls edits or removes an audit entry: the log
   * before the run is a prefix of the log after it, grown by at most one
   * entry per call.
   */
  lemma {:induction false} AuditLogOnlyGrows(t: Tables, admin: Actor, calls: seq<ProcurementCall>)
    ensures t.audit <= PerformAll(t, admin, calls).audit
    ensures |PerformAll(t, admin, calls).audit| <= |t.audit| + |calls|
    decreases |calls|
  {
    if calls != [] {
      var next := Perform(t, admin, calls[0]);
      AuditLogOnlyGrows(next, admin, calls[1..]);
      assert t.audit <= next.audit;
      var final := PerformAll(next, admin, calls[1..]);
      assert next.audit <= final.audit;
      assert forall i :: 0 <= i < |t.audit| ==> final.audit[i] == next.audit[i] == t.audit[i];
    }
  }
}
