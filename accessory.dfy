/** backend/db/repository/accessory.py: accessories and the allocation each is lent with. */
module AccessoryRepo {
  import opened Outcome
  import opened Tables

  /** The CreateAccessory request body; its assigned_to_allocation is accepted but never stored. */
  datatype CreateAccessory = CreateAccessory(
    name: string,
    serialNumber: Option<string>,
    assignedToAllocation: Option<Uuid>)

  /** repo_create_accessory: a new accessory always starts unassigned. */
  function CreateAccessoryStep(t: Tables, req: CreateAccessory, newId: Uuid): (s: Step<Accessory>)
    ensures newId in t.accessories ==> s == Step(t, Err(Internal))
    ensures newId !in t.accessories ==>
      && s.result == Ok(Accessory(req.name, req.serialNumber, None))
      && s.after == t.(accessories := t.accessories[newId := s.result.value])
  {
    if newId in t.accessories then Step(t, Err(Internal))
    else
      var accessory := Accessory(req.name, req.serialNumber, None);
      Step(t.(accessories := t.accessories[newId := accessory]), Ok(accessory))
  }

  method CreateAccessoryRecord(db: Db, req: CreateAccessory, newId: Uuid) returns (r: Result<Accessory>)
    modifies db
    ensures Step(db.State(), r) == CreateAccessoryStep(old(db.State()), req, newId)
  {
    if newId in db.accessories {
      return Err(Internal);
    }
    var accessory := Accessory(req.name, req.serialNumber, None);
    db.accessories := db.accessories[newId := accessory];
    return Ok(accessory);
  }

  /**
   * Sets an accessory's allocation (Some) or clears it (None): NotFound for
   * an unknown accessory; the allocation id itself is not looked up.
   */
  function SetAssignmentStep(t: Tables, id: Uuid, allocation: Option<Uuid>): (s: Step<Accessory>)
    ensures id !in t.accessories ==> s == Step(t, Err(NotFound))
    ensures id in t.accessories ==>
      && s.result == Ok(t.accessories[id].(assignedToAllocation := allocation))
      && s.after == t.(accessories := t.accessories[id := s.result.value])
  {
    if id !in t.accessories then Step(t, Err(NotFound))
    else
      var accessory := t.accessories[id].(assignedToAllocation := allocation);
      Step(t.(accessories := t.accessories[id := accessory]), Ok(accessory))
  }

  /** repo_assign_accessory. */
  function AssignAccessoryStep(t: Tables, id: Uuid, allocationId: Uuid): (s: Step<Accessory>)
    ensures s.result.Ok? ==> s.result.value.assignedToAllocation == Some(allocationId)
    ensures s.result.Ok? <==> id in t.accessories
  {
    SetAssignmentStep(t, id, Some(allocationId))
  }

  /** repo_return_an_accessory. */
  function ReturnAccessoryStep(t: Tables, id: Uuid): (s: Step<Accessory>)
    ensures s.result.Ok? ==> s.result.value.assignedToAllocation == None
    ensures s.result.Ok? <==> id in t.accessories
  {
    SetAssignmentStep(t, id, None)
  }

  method SetAssignment(db: Db, id: Uuid, allocation: Option<Uuid>) returns (r: Result<Accessory>)
    modifies db
    ensures Step(db.State(), r) == SetAssignmentStep(old(db.State()), id, allocation)
  {
    if id !in db.accessories {
      return Err(NotFound);
    }
    var accessory := db.accessories[id];
    accessory := accessory.(assignedToAllocation := allocation);
    db.accessories := db.accessories[id := accessory];
    return Ok(accessory);
  }

  method AssignAccessory(db: Db, id: Uuid, allocationId: Uuid) returns (r: Result<Accessory>)
    modifies db
    ensures Step(db.State(), r) == AssignAccessoryStep(old(db.State()), id, allocationId)
  {
    r := SetAssignment(db, id, Some(allocationId));
  }

  method ReturnAnAccessory(db: Db, id: Uuid) returns (r: Result<Accessory>)
    modifies db
    ensures Step(db.State(), r) == ReturnAccessoryStep(old(db.State()), id)
  {
    r := SetAssignment(db, id, None);
  }

  /** repo_get_an_accessory. */
  method GetAnAccessory(db: Db, id: Uuid) returns (r: Result<Accessory>)
    ensures r.Err? <==> id !in db.accessories
    ensures r.Err? ==> r.error == NotFound
    ensures r.Ok? ==> r.value == db.accessories[id]
  {
    if id !in db.accessories {
      return Err(NotFound);
    }
    return Ok(db.accessories[id]);
  }

  /** repo_get_all_accessories: every accessory, assigned or not. */
  method GetAllAccessories(db: Db) returns (r: set<Uuid>)
    ensures r == db.accessories.Keys
  {
    r := db.accessories.Keys;
  }

  /** Returning an accessory undoes its assignment: assign-then-return is a plain return. */
  lemma {:induction false} AssignThenReturn(t: Tables, id: Uuid, allocationId: Uuid)
    ensures ReturnAccessoryStep(AssignAccessoryStep(t, id, allocationId).after, id) == ReturnAccessoryStep(t, id)
  {
    if id in t.accessories {
      var lent := AssignAccessoryStep(t, id, allocationId).after;
      assert lent.accessories[id := lent.accessories[id].(assignedToAllocation := None)]
          == t.accessories[id := t.accessories[id].(assignedToAllocation := None)];
    }
  }

  /** Returning twice is returning once. */
  lemma {:induction false} ReturnIdempotent(t: Tables, id: Uuid)
    ensures ReturnAccessoryStep(ReturnAccessoryStep(t, id).after, id).after == ReturnAccessoryStep(t, id).after
  {
    if id in t.accessories {
      var once := ReturnAccessoryStep(t, id).after;
      assert once.accessories[id := once.accessories[id].(assignedToAllocation := None)] == once.accessories;
    }
  }
}
