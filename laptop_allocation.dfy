/**
 * The allocation lifecycle of backend/db/repository/laptop_allocation.py:
 * hand a laptop to a user, take it back, attach the signed forms, fetch them,
 * and assemble the data the form renderer is given.
 */
module LaptopAllocation {
  import opened Outcome
  import opened Dates
  import opened Tables

  datatype AllocationRequest = AllocationRequest(
    userId: Uuid,
    laptopId: Uuid,
    allocationDate: Stamp,
    allocationCondition: string,
    reasonForAllocation: string)

  datatype ReturnRequest = ReturnRequest(
    returnDate: Stamp,
    returnComment: string,
    conditionOnReturn: string)

  /** The row create inserts: column defaults for everything the request does not carry. */
  function NewRecord(req: AllocationRequest, actor: Actor): Allocation {
    Allocation(req.userId, req.laptopId, req.allocationDate, None, None, None, None,
               true, actor.id, req.allocationCondition, None, req.reasonForAllocation, None)
  }

  // ---------------------------------------------------------------------------
  // repo_create_allocation

  /** Everything the create needs before its commit: a fresh key, the laptop, one "Allocated" row. */
  predicate CreateCommits(t: Tables, req: AllocationRequest, newId: Uuid) {
    && newId !in t.allocations
    && req.laptopId in t.laptops
    && StatusIdOf(t.statuses, "Allocated").Some?
  }

  /**
   * Create inserts the record and points the laptop at "Allocated", then
   * commits. A missing laptop or status row fails before the commit and
   * leaves the tables as they were. The log line after the commit reads the
   * allocator and the allocated user, so when either is missing the call
   * fails although its changes are already committed.
   */
  function CreateAllocationStep(t: Tables, req: AllocationRequest, actor: Actor, newId: Uuid): (s: Step<Uuid>)
    ensures !CreateCommits(t, req, newId) ==> s == Step(t, Err(Internal))
    ensures CreateCommits(t, req, newId) ==>
      && s.after.allocations == t.allocations[newId := NewRecord(req, actor)]
      && s.after.laptops.Keys == t.laptops.Keys
      && StatusNameOf(s.after, req.laptopId) == Some("Allocated")
      && (forall id :: id in t.laptops && id != req.laptopId ==> s.after.laptops[id] == t.laptops[id])
      && s.after == t.(allocations := s.after.allocations, laptops := s.after.laptops)
    ensures CreateCommits(t, req, newId) ==>
      s.after.laptops[req.laptopId] == t.laptops[req.laptopId].(statusId := s.after.laptops[req.laptopId].statusId)
    ensures s.result.Ok? <==> CreateCommits(t, req, newId) && actor.id in t.users && req.userId in t.users
    ensures s.result.Ok? ==> s.result.value == newId
    ensures s.result.Err? ==> s.result.error == Internal
  {
    if !CreateCommits(t, req, newId) then Step(t, Err(Internal))
    else
      var laptop := t.laptops[req.laptopId].(statusId := StatusIdOf(t.statuses, "Allocated"));
      var after := t.(allocations := t.allocations[newId := NewRecord(req, actor)],
                      laptops := t.laptops[req.laptopId := laptop]);
      if actor.id in t.users && req.userId in t.users then Step(after, Ok(newId))
      else Step(after, Err(Internal))
  }

  method CreateAllocation(db: Db, req: AllocationRequest, actor: Actor, newId: Uuid) returns (r: Result<Uuid>)
    modifies db
    ensures Step(db.State(), r) == CreateAllocationStep(old(db.State()), req, actor, newId)
  {
    if newId in db.allocations || req.laptopId !in db.laptops {
      return Err(Internal);
    }
    var allocatedId := StatusIdOf(db.statuses, "Allocated");
    if allocatedId.None? {
      return Err(Internal);
    }
    var laptop := db.laptops[req.laptopId];
    laptop := laptop.(statusId := allocatedId);
    db.allocations := db.allocations[newId := NewRecord(req, actor)];
    db.laptops := db.laptops[req.laptopId := laptop];
    if actor.id !in db.users || req.userId !in db.users {
      return Err(Internal);
    }
    return Ok(newId);
  }

  // ---------------------------------------------------------------------------
  // repo_return_laptop

  /** The record as return leaves it: inactive, with the return fields filled in. */
  function Returned(a: Allocation, req: ReturnRequest, actor: Actor): Allocation {
    a.(returnDate := Some(req.returnDate), returnComment := Some(req.returnComment),
       returnedBy := Some(actor.id), conditionOnReturn := Some(req.conditionOnReturn),
       isActive := false)
  }

  /** Everything the return needs before its commit; the log line precedes the commit here. */
  predicate ReturnCommits(t: Tables, id: Uuid, actor: Actor)
    requires id in t.allocations
  {
    && t.allocations[id].laptopId in t.laptops
    && StatusIdOf(t.statuses, "Available").Some?
    && actor.id in t.users
    && t.allocations[id].userId in t.users
  }

  function ReturnLaptopStep(t: Tables, id: Uuid, req: ReturnRequest, actor: Actor): (s: Step<Allocation>)
    ensures id !in t.allocations ==> s == Step(t, Err(NotFound))
    ensures id in t.allocations && !ReturnCommits(t, id, actor) ==> s == Step(t, Err(Internal))
    ensures s.result.Ok? <==> id in t.allocations && ReturnCommits(t, id, actor)
    ensures s.result.Ok? ==>
      var prior := t.allocations[id];
      var lid := prior.laptopId;
      && s.after.allocations == t.allocations[id := s.result.value]
      && !s.result.value.isActive
      && s.result.value.returnDate == Some(req.returnDate)
      && s.result.value.returnComment == Some(req.returnComment)
      && s.result.value.returnedBy == Some(actor.id)
      && s.result.value.conditionOnReturn == Some(req.conditionOnReturn)
      && s.result.value.(returnDate := prior.returnDate, returnComment := prior.returnComment,
                         returnedBy := prior.returnedBy, conditionOnReturn := prior.conditionOnReturn,
                         isActive := prior.isActive) == prior
      && StatusNameOf(s.after, lid) == Some("Available")
      && s.after.laptops.Keys == t.laptops.Keys
      && (forall l :: l in t.laptops && l != lid ==> s.after.laptops[l] == t.laptops[l])
      && s.after == t.(allocations := s.after.allocations, laptops := s.after.laptops)
  {
    if id !in t.allocations then Step(t, Err(NotFound))
    else if !ReturnCommits(t, id, actor) then Step(t, Err(Internal))
    else
      var a := Returned(t.allocations[id], req, actor);
      var laptop := t.laptops[a.laptopId].(statusId := StatusIdOf(t.statuses, "Available"));
      Step(t.(allocations := t.allocations[id := a], laptops := t.laptops[a.laptopId := laptop]), Ok(a))
  }

  method ReturnLaptop(db: Db, id: Uuid, req: ReturnRequest, actor: Actor) returns (r: Result<Allocation>)
    modifies db
    ensures Step(db.State(), r) == ReturnLaptopStep(old(db.State()), id, req, actor)
  {
    if id !in db.allocations {
      return Err(NotFound);
    }
    var a := db.allocations[id];
    a := a.(returnDate := Some(req.returnDate));
    a := a.(returnComment := Some(req.returnComment));
    a := a.(returnedBy := Some(actor.id));
    a := a.(conditionOnReturn := Some(req.conditionOnReturn));
    a := a.(isActive := false);
    if a.laptopId !in db.laptops {
      return Err(Internal);
    }
    var available := StatusIdOf(db.statuses, "Available");
    if available.None? || actor.id !in db.users || a.userId !in db.users {
      return Err(Internal);
    }
    var laptop := db.laptops[a.laptopId].(statusId := available);
    db.allocations := db.allocations[id := a];
    db.laptops := db.laptops[a.laptopId := laptop];
    return Ok(a);
  }

  // ---------------------------------------------------------------------------
  // repo_upload_form and repo_upload_return_form

  /** Attaching the allocation form: no activity check, any earlier key is replaced. */
  function UploadFormStep(t: Tables, id: Uuid, key: string): (s: Step<Allocation>)
    ensures id !in t.allocations ==> s == Step(t, Err(NotFound))
    ensures id in t.allocations ==>
      && s.result == Ok(t.allocations[id].(allocationForm := Some(key)))
      && s.after == t.(allocations := t.allocations[id := s.result.value])
  {
    if id !in t.allocations then Step(t, Err(NotFound))
    else
      var a := t.allocations[id].(allocationForm := Some(key));
      Step(t.(allocations := t.allocations[id := a]), Ok(a))
  }

  method UploadForm(db: Db, id: Uuid, key: string) returns (r: Result<Allocation>)
    modifies db
    ensures Step(db.State(), r) == UploadFormStep(old(db.State()), id, key)
  {
    if id !in db.allocations {
      return Err(NotFound);
    }
    var a := db.allocations[id];
    a := a.(allocationForm := Some(key));
    db.allocations := db.allocations[id := a];
    return Ok(a);
  }

  /** Attaching the return form: refused while the allocation is still active. */
  function UploadReturnFormStep(t: Tables, id: Uuid, key: string): (s: Step<Allocation>)
    ensures id !in t.allocations ==> s == Step(t, Err(NotFound))
    ensures id in t.allocations && t.allocations[id].isActive ==> s == Step(t, Err(Forbidden))
    ensures id in t.allocations && !t.allocations[id].isActive ==>
      && s.result == Ok(t.allocations[id].(returnForm := Some(key)))
      && s.after == t.(allocations := t.allocations[id := s.result.value])
  {
    if id !in t.allocations then Step(t, Err(NotFound))
    else if t.allocations[id].isActive then Step(t, Err(Forbidden))
    else
      var a := t.allocations[id].(returnForm := Some(key));
      Step(t.(allocations := t.allocations[id := a]), Ok(a))
  }

  method UploadReturnForm(db: Db, id: Uuid, key: string) returns (r: Result<Allocation>)
    modifies db
    ensures Step(db.State(), r) == UploadReturnFormStep(old(db.State()), id, key)
  {
    if id !in db.allocations {
      return Err(NotFound);
    }
    var a := db.allocations[id];
    if a.isActive {
      return Err(Forbidden);
    }
    a := a.(returnForm := Some(key));
    db.allocations := db.allocations[id := a];
    return Ok(a);
  }

  // ---------------------------------------------------------------------------
  // Read-only queries

  /** repo_show_an_allocation: the record, after its laptop is read for the log line. */
  method ShowAnAllocation(db: Db, id: Uuid) returns (r: Result<Allocation>)
    ensures id !in db.allocations ==> r == Err(NotFound)
    ensures id in db.allocations && db.allocations[id].laptopId !in db.laptops ==> r == Err(Internal)
    ensures r.Ok? <==> id in db.allocations && db.allocations[id].laptopId in db.laptops
    ensures r.Ok? ==> r.value == db.allocations[id]
  {
    if id !in db.allocations {
      return Err(NotFound);
    }
    var alloc := db.allocations[id];
    if alloc.laptopId !in db.laptops {
      return Err(Internal);
    }
    return Ok(alloc);
  }

  /** repo_download_form: a link to the stored allocation form. */
  method DownloadForm(db: Db, id: Uuid) returns (r: Result<Url>)
    ensures r.Err? <==> id !in db.allocations || !Truthy(db.allocations[id].allocationForm)
    ensures r.Err? ==> r.error == NotFound
    ensures r.Ok? ==> r.value == PresignedUrl(db.allocations[id].allocationForm.value, UrlLifetimeSeconds)
  {
    if id !in db.allocations {
      return Err(NotFound);
    }
    var a := db.allocations[id];
    if !Truthy(a.allocationForm) {
      return Err(NotFound);
    }
    return Ok(PresignedUrl(a.allocationForm.value, 3600));
  }

  /** repo_download_return_form: a link to the stored return form. */
  method DownloadReturnForm(db: Db, id: Uuid) returns (r: Result<Url>)
    ensures r.Err? <==> id !in db.allocations || !Truthy(db.allocations[id].returnForm)
    ensures r.Err? ==> r.error == NotFound
    ensures r.Ok? ==> r.value == PresignedUrl(db.allocations[id].returnForm.value, UrlLifetimeSeconds)
  {
    if id !in db.allocations {
      return Err(NotFound);
    }
    var a := db.allocations[id];
    if !Truthy(a.returnForm) {
      return Err(NotFound);
    }
    return Ok(PresignedUrl(a.returnForm.value, 3600));
  }

  /**
   * Membership in repo_show_all_allocations: each filter that is given must
   * hold. is_active counts whenever it is not None, false included; username
   * and serial_number only when non-empty, and they are matched through
   * inner joins, so a record whose user or laptop row is gone never matches.
   */
  predicate Listed(t: Tables, id: Uuid, isActive: Option<bool>, username: Option<string>, serialNumber: Option<string>) {
    && id in t.allocations
    && (isActive.Some? ==> t.allocations[id].isActive == isActive.value)
    && (Truthy(username) ==>
          t.allocations[id].userId in t.users && t.users[t.allocations[id].userId].username == username.value)
    && (Truthy(serialNumber) ==>
          t.allocations[id].laptopId in t.laptops && t.laptops[t.allocations[id].laptopId].serialNumber == serialNumber.value)
  }

  /** The query is narrowed one filter at a time, as the source reassigns it. */
  method ShowAllAllocations(db: Db, isActive: Option<bool>, username: Option<string>, serialNumber: Option<string>)
    returns (r: set<Uuid>)
    ensures forall id :: id in r <==> Listed(db.State(), id, isActive, username, serialNumber)
  {
    var query := db.allocations.Keys;
    if isActive.Some? {
      query := set id | id in query && db.allocations[id].isActive == isActive.value;
    }
    if Truthy(username) {
      query := set id | id in query && db.allocations[id].userId in db.users
                        && db.users[db.allocations[id].userId].username == username.value;
    }
    if Truthy(serialNumber) {
      query := set id | id in query && db.allocations[id].laptopId in db.laptops
                        && db.laptops[db.allocations[id].laptopId].serialNumber == serialNumber.value;
    }
    r := query;
  }

  /** With is_active = false the listing is exactly the returned records. */
  lemma {:induction false} InactiveListingIsReturnedRecords(t: Tables, id: Uuid)
    ensures Listed(t, id, Some(false), None, None) <==> id in t.allocations && !t.allocations[id].isActive
  {
  }

  // ---------------------------------------------------------------------------
  // repo_create_allocation_form and repo_create_return_form

  datatype Person = Person(firstName: string, lastName: string, username: string)

  datatype Device = Device(brand: string, model: string, assetTag: Option<string>, serialNumber: string)

  /** The dictionaries handed to the form renderer; dates are already str()-ed. */
  datatype FormPayload =
    | AllocationPayload(user: Person, laptop: Device, allocationDate: string, returnDate: Option<string>,
                        allocationCondition: string, reasonForAllocation: string)
    | ReturnPayload(user: Person, laptop: Device, returnedOn: string,
                    returnComment: Option<string>, conditionOnReturn: Option<string>)

  /** The org_config dictionary the form route builds (the logo path is not modelled). */
  datatype OrgConfig = OrgConfig(orgName: string, title: string, docNumber: string,
                                 revision: string, approvedBy: string, watermark: string)

  /** The rendered document, an opaque image of what it was rendered from. */
  datatype Pdf = RenderedForm(payload: FormPayload, config: OrgConfig)

  function PersonOf(u: User): Person {
    Person(u.firstName, u.lastName, u.username)
  }

  function DeviceOf(l: Laptop): Device {
    Device(l.brand, l.model, l.assetTag, l.serialNumber)
  }

  /** Both relationships of the record resolve, so the payload can be read off them. */
  predicate Joined(t: Tables, a: Allocation) {
    a.userId in t.users && a.laptopId in t.laptops
  }

  /** str() of an optional datetime: "None" when unset. */
  function StrOptional(d: Option<Stamp>): (s: string)
    ensures d.None? <==> s == "None"
  {
    match d
    case None => "None"
    case Some(dt) => StrDateTime(dt)
  }

  /**
   * The allocation form: no guard on the record's state. It fails only where
   * an attribute of a missing row is read: the user, the laptop, or the
   * allocator read for the log line.
   */
  function CreateAllocationForm(t: Tables, a: Allocation, config: OrgConfig): (r: Result<Pdf>)
    ensures r.Ok? <==> Joined(t, a) && a.allocatedBy in t.users
    ensures r.Err? ==> r.error == Internal
    ensures r.Ok? ==>
      && r.value.config == config
      && r.value.payload.AllocationPayload?
      && r.value.payload.user == PersonOf(t.users[a.userId])
      && r.value.payload.laptop == DeviceOf(t.laptops[a.laptopId])
      && r.value.payload.allocationDate == StrDateTime(a.allocationDate)
      && (r.value.payload.returnDate.None? <==> a.returnDate.None?)
      && (a.returnDate.Some? ==> r.value.payload.returnDate == Some(StrDateTime(a.returnDate.value)))
      && r.value.payload.allocationCondition == a.allocationCondition
      && r.value.payload.reasonForAllocation == a.reasonForAllocation
  {
    if !Joined(t, a) then Err(Internal)
    else
      var payload := AllocationPayload(
        PersonOf(t.users[a.userId]), DeviceOf(t.laptops[a.laptopId]),
        StrDateTime(a.allocationDate),
        if a.returnDate.Some? then Some(StrDateTime(a.returnDate.value)) else None,
        a.allocationCondition, a.reasonForAllocation);
      if a.allocatedBy !in t.users then Err(Internal)
      else Ok(RenderedForm(payload, config))
  }

  /**
   * The return form: refused (403) while no allocation form is attached; the
   * returner is read for the log line, so a record nobody returned fails.
   */
  function CreateReturnForm(t: Tables, a: Allocation, config: OrgConfig): (r: Result<Pdf>)
    ensures r == Err(Forbidden) <==> Joined(t, a) && !Truthy(a.allocationForm)
    ensures r.Ok? <==> Joined(t, a) && Truthy(a.allocationForm) && a.returnedBy.Some? && a.returnedBy.value in t.users
    ensures r.Err? && r.error != Forbidden ==> r.error == Internal
    ensures r.Ok? ==>
      && r.value.config == config
      && r.value.payload.ReturnPayload?
      && r.value.payload.user == PersonOf(t.users[a.userId])
      && r.value.payload.laptop == DeviceOf(t.laptops[a.laptopId])
      && r.value.payload.returnedOn == StrOptional(a.returnDate)
      && r.value.payload.returnComment == a.returnComment
      && r.value.payload.conditionOnReturn == a.conditionOnReturn
  {
    if !Joined(t, a) then Err(Internal)
    else
      var payload := ReturnPayload(
        PersonOf(t.users[a.userId]), DeviceOf(t.laptops[a.laptopId]),
        StrOptional(a.returnDate), a.returnComment, a.conditionOnReturn);
      if !Truthy(a.allocationForm) then Err(Forbidden)
      else if a.returnedBy.None? || a.returnedBy.value !in t.users then Err(Internal)
      else Ok(RenderedForm(payload, config))
  }
}
