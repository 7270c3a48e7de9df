/** backend/db/repository/repair_history.py: the repair log of each laptop. */
module RepairHistoryRepo {
  import opened Outcome
  import opened Dates
  import opened Tables

  /** The CreateRepairHistory request body. */
  datatype CreateRepairHistory = CreateRepairHistory(
    laptopId: Uuid,
    repairDetails: string,
    dateFaultReported: Stamp,
    dateLaptopRepaired: Stamp,
    costOfRepair: Float,
    repairVendor: string,
    repairedBy: int,
    warrantyCovered: bool,
    invoiceNumber: string)

  function EntryOf(req: CreateRepairHistory): RepairEntry {
    RepairEntry(req.laptopId, req.repairDetails, req.dateFaultReported, req.dateLaptopRepaired,
                req.costOfRepair, req.repairVendor, req.repairedBy, req.warrantyCovered, req.invoiceNumber)
  }

  /** repo_create_entry: every field of the request is stored as given; nothing else changes. */
  function CreateEntryStep(t: Tables, req: CreateRepairHistory, newId: Uuid): (s: Step<RepairEntry>)
    ensures newId in t.repairs ==> s == Step(t, Err(Internal))
    ensures newId !in t.repairs ==>
      && s.result.Ok?
      && s.result.value.laptopId == req.laptopId
      && s.result.value.repairDetails == req.repairDetails
      && s.result.value.dateFaultReported == req.dateFaultReported
      && s.result.value.dateLaptopRepaired == req.dateLaptopRepaired
      && s.result.value.costOfRepair == req.costOfRepair
      && s.result.value.repairVendor == req.repairVendor
      && s.result.value.repairedBy == req.repairedBy
      && s.result.value.warrantyCovered == req.warrantyCovered
      && s.result.value.invoiceNumber == req.invoiceNumber
      && s.after == t.(repairs := t.repairs[newId := s.result.value])
  {
    if newId in t.repairs then Step(t, Err(Internal))
    else Step(t.(repairs := t.repairs[newId := EntryOf(req)]), Ok(EntryOf(req)))
  }

  method CreateEntry(db: Db, req: CreateRepairHistory, newId: Uuid) returns (r: Result<RepairEntry>)
    modifies db
    ensures Step(db.State(), r) == CreateEntryStep(old(db.State()), req, newId)
  {
    if newId in db.repairs {
      return Err(Internal);
    }
    var entry := EntryOf(req);
    db.repairs := db.repairs[newId := entry];
    return Ok(entry);
  }

  /** repo_show_repairs: every entry. */
  method ShowRepairs(db: Db) returns (r: set<Uuid>)
    ensures r == db.repairs.Keys
  {
    r := db.repairs.Keys;
  }

  /** repo_show_an_entry. */
  method ShowAnEntry(db: Db, id: Uuid) returns (r: Result<RepairEntry>)
    ensures r.Err? <==> id !in db.repairs
    ensures r.Err? ==> r.error == NotFound
    ensures r.Ok? ==> r.value == db.repairs[id]
  {
    if id !in db.repairs {
      return Err(NotFound);
    }
    return Ok(db.repairs[id]);
  }

  /** Entries are only ever added: a create keeps every earlier entry as it was. */
  lemma {:induction false} CreateEntryKeepsHistory(t: Tables, req: CreateRepairHistory, newId: Uuid)
    ensures
      var after := CreateEntryStep(t, req, newId).after;
      forall id :: id in t.repairs ==> id in after.repairs && after.repairs[id] == t.repairs[id]
  {
  }
}
