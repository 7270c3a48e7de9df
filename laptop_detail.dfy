/** backend/db/repository/laptop_detail.py: the laptop table. */
module LaptopDetail {
  import opened Outcome
  import opened Text
  import opened Tables

  /** The CreateLaptop request body of backend/schemas/laptop_detail.py. */
  datatype CreateLaptop = CreateLaptop(
    brand: string,
    model: string,
    serialNumber: string,
    name: string,
    assetTag: Option<string>,
    statusId: Option<int>,
    businessUnit: string)

  /**
   * repo_new_laptop as written: the row constructor reads
   * laptop.business_unit_id, an attribute CreateLaptop does not declare, so
   * the call raises before anything is added.
   */
  function NewLaptopAsWritten(t: Tables, req: CreateLaptop, newId: Uuid): Step<Laptop> {
    Step(t, Err(Internal))
  }

  /**
   * repo_new_laptop as intended: the business unit carried by the request is
   * the one stored. The name is lower-cased, every other field kept verbatim.
   */
  function NewLaptopStep(t: Tables, req: CreateLaptop, newId: Uuid): (s: Step<Laptop>)
    ensures newId in t.laptops ==> s == Step(t, Err(Internal))
    ensures newId !in t.laptops ==>
      && s.result.Ok?
      && s.result.value.name == Lower(req.name)
      && s.result.value.brand == req.brand
      && s.result.value.model == req.model
      && s.result.value.serialNumber == req.serialNumber
      && s.result.value.assetTag == req.assetTag
      && s.result.value.statusId == req.statusId
      && s.result.value.businessUnitId == Some(req.businessUnit)
      && s.after == t.(laptops := t.laptops[newId := s.result.value])
  {
    if newId in t.laptops then Step(t, Err(Internal))
    else
      var laptop := Laptop(req.brand, req.model, req.serialNumber, Lower(req.name),
                           req.assetTag, req.statusId, Some(req.businessUnit));
      Step(t.(laptops := t.laptops[newId := laptop]), Ok(laptop))
  }

  /** Every request fails as written, and succeeds as intended whenever the key is fresh. */
  lemma {:induction false} NewLaptopNeverStoresAsWritten(t: Tables, req: CreateLaptop, newId: Uuid)
    requires newId !in t.laptops
    ensures NewLaptopAsWritten(t, req, newId) == Step(t, Err(Internal))
    ensures NewLaptopStep(t, req, newId).result.Ok?
    ensures newId in NewLaptopStep(t, req, newId).after.laptops
  {
  }

  method NewLaptop(db: Db, req: CreateLaptop, newId: Uuid) returns (r: Result<Laptop>)
    modifies db
    ensures Step(db.State(), r) == NewLaptopStep(old(db.State()), req, newId)
  {
    if newId in db.laptops {
      return Err(Internal);
    }
    var laptop := Laptop(req.brand, req.model, req.serialNumber, Lower(req.name),
                         req.assetTag, req.statusId, Some(req.businessUnit));
    db.laptops := db.laptops[newId := laptop];
    return Ok(laptop);
  }

  /** repo_get_a_laptop: the stored row, unchanged, or NotFound. */
  method GetALaptop(db: Db, id: Uuid) returns (r: Result<Laptop>)
    ensures r.Err? <==> id !in db.laptops
    ensures r.Err? ==> r.error == NotFound
    ensures r.Ok? ==> r.value == db.laptops[id]
  {
    if id !in db.laptops {
      return Err(NotFound);
    }
    return Ok(db.laptops[id]);
  }

  /**
   * Membership in repo_get_laptops: the status filter goes through an inner
   * join on the status row and compares its name; the business-unit filter
   * compares the nullable key, so a laptop without a unit never matches it.
   */
  predicate LaptopListed(t: Tables, id: Uuid, status: Option<string>, businessUnitId: Option<Uuid>) {
    && id in t.laptops
    && (status.Some? ==> StatusNameOf(t, id) == status)
    && (businessUnitId.Some? ==> t.laptops[id].businessUnitId == businessUnitId)
  }

  method GetLaptops(db: Db, status: Option<string>, businessUnitId: Option<Uuid>) returns (r: set<Uuid>)
    ensures forall id :: id in r <==> LaptopListed(db.State(), id, status, businessUnitId)
  {
    var query := db.laptops.Keys;
    if status.Some? {
      query := set id | id in query && db.laptops[id].statusId.Some?
                        && 1 <= db.laptops[id].statusId.value <= |db.statuses|
                        && db.statuses[db.laptops[id].statusId.value - 1] == status.value;
    }
    if businessUnitId.Some? {
      query := set id | id in query && db.laptops[id].businessUnitId == businessUnitId;
    }
    r := query;
  }

  /** repo_modify_laptop_status: any status id is written, with no check of the row or the allocations. */
  function ModifyLaptopStatusStep(t: Tables, id: Uuid, statusId: int): (s: Step<Laptop>)
    ensures id !in t.laptops ==> s == Step(t, Err(NotFound))
    ensures id in t.laptops ==>
      && s.result == Ok(t.laptops[id].(statusId := Some(statusId)))
      && s.after == t.(laptops := t.laptops[id := s.result.value])
  {
    if id !in t.laptops then Step(t, Err(NotFound))
    else
      var laptop := t.laptops[id].(statusId := Some(statusId));
      Step(t.(laptops := t.laptops[id := laptop]), Ok(laptop))
  }

  method ModifyLaptopStatus(db: Db, id: Uuid, statusId: int) returns (r: Result<Laptop>)
    modifies db
    ensures Step(db.State(), r) == ModifyLaptopStatusStep(old(db.State()), id, statusId)
  {
    if id !in db.laptops {
      return Err(NotFound);
    }
    var laptop := db.laptops[id];
    laptop := laptop.(statusId := Some(statusId));
    db.laptops := db.laptops[id := laptop];
    return Ok(laptop);
  }

  /** repo_delete_a_laptop: the row goes, whatever allocations still name it. */
  function DeleteALaptopStep(t: Tables, id: Uuid): (s: Step<()>)
    ensures id !in t.laptops ==> s == Step(t, Err(NotFound))
    ensures id in t.laptops ==>
      && s.result.Ok?
      && s.after.laptops.Keys == t.laptops.Keys - {id}
      && (forall l :: l in s.after.laptops ==> s.after.laptops[l] == t.laptops[l])
      && s.after == t.(laptops := s.after.laptops)
  {
    if id !in t.laptops then Step(t, Err(NotFound))
    else Step(t.(laptops := t.laptops - {id}), Ok(()))
  }

  method DeleteALaptop(db: Db, id: Uuid) returns (r: Result<()>)
    modifies db
    ensures Step(db.State(), r) == DeleteALaptopStep(old(db.State()), id)
  {
    if id !in db.laptops {
      return Err(NotFound);
    }
    db.laptops := db.laptops - {id};
    return Ok(());
  }
}
