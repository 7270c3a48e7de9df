/**
 * How the allocation records and the laptops' statuses relate across
 * operations: the agreement "a laptop shows Allocated exactly when one
 * active allocation holds it", which creating on a free laptop and returning
 * its one record keep, and which several sequences of calls break; and the
 * fact that a returned record is never made active again.
 */
module Consistency {
  import opened Outcome
  import opened Dates
  import opened Tables
  import opened LaptopAllocation
  import opened LaptopDetail
  import UserRepo

  /** Allocation `a` is active and is the only active allocation of laptop `l`. */
  ghost predicate SoleActive(t: Tables, l: Uuid, a: Uuid) {
    && a in t.allocations && t.allocations[a].isActive && t.allocations[a].laptopId == l
    && forall b :: b in t.allocations && t.allocations[b].isActive && t.allocations[b].laptopId == l ==> b == a
  }

  ghost predicate NoActive(t: Tables, l: Uuid) {
    forall b :: b in t.allocations && t.allocations[b].isActive ==> t.allocations[b].laptopId != l
  }

  ghost predicate ShowsAllocated(t: Tables, l: Uuid) {
    StatusNameOf(t, l) == Some("Allocated")
  }

  /** The agreement the allocation lifecycle is meant to keep, for one laptop. */
  ghost predicate AgreesFor(t: Tables, l: Uuid) {
    ShowsAllocated(t, l) <==> exists a :: SoleActive(t, l, a)
  }

  ghost predicate Agrees(t: Tables) {
    forall l :: l in t.laptops ==> AgreesFor(t, l)
  }

  /** Laptop `l`'s view is the same in both snapshots: its row, the statuses, its active records. */
  ghost predicate SameView(t: Tables, u: Tables, l: Uuid) {
    && (l in t.laptops <==> l in u.laptops)
    && (l in t.laptops ==> t.laptops[l] == u.laptops[l])
    && t.statuses == u.statuses
    && (forall b :: b in t.allocations && t.allocations[b].isActive && t.allocations[b].laptopId == l
          <==> b in u.allocations && u.allocations[b].isActive && u.allocations[b].laptopId == l)
  }

  lemma {:induction false} SameViewAgrees(t: Tables, u: Tables, l: Uuid)
    requires SameView(t, u, l)
    ensures AgreesFor(t, l) <==> AgreesFor(u, l)
  {
    assert StatusNameOf(t, l) == StatusNameOf(u, l);
    assert forall a :: SoleActive(t, l, a) <==> SoleActive(u, l, a);
  }

  // ---------------------------------------------------------------------------
  // What create and return keep

  /** Allocating a laptop no active record holds keeps the agreement. */
  lemma {:induction false} CreateOnFreeLaptopAgrees(t: Tables, req: AllocationRequest, actor: Actor, newId: Uuid)
    requires Agrees(t) && NoActive(t, req.laptopId) && CreateCommits(t, req, newId)
    ensures Agrees(CreateAllocationStep(t, req, actor, newId).after)
  {
    var after := CreateAllocationStep(t, req, actor, newId).after;
    forall l | l in after.laptops ensures AgreesFor(after, l) {
      if l == req.laptopId {
        assert SoleActive(after, l, newId);
      } else {
        assert SameView(t, after, l);
        SameViewAgrees(t, after, l);
      }
    }
  }

  /** Returning the one active record of a laptop keeps the agreement. */
  lemma {:induction false} ReturnSoleActiveAgrees(t: Tables, id: Uuid, req: ReturnRequest, actor: Actor)
    requires Agrees(t) && id in t.allocations
    requires SoleActive(t, t.allocations[id].laptopId, id)
    requires ReturnLaptopStep(t, id, req, actor).result.Ok?
    ensures Agrees(ReturnLaptopStep(t, id, req, actor).after)
  {
    var lid := t.allocations[id].laptopId;
    var after := ReturnLaptopStep(t, id, req, actor).after;
    forall l | l in after.laptops ensures AgreesFor(after, l) {
      if l == lid {
        assert !ShowsAllocated(after, l);
        assert forall a :: !SoleActive(after, l, a);
      } else {
        assert SameView(t, after, l);
        SameViewAgrees(t, after, l);
      }
    }
  }

  // ---------------------------------------------------------------------------
  // How the agreement breaks

  /**
   * Double booking: create does not look at the laptop's status or its
   * records, so a second create for the same laptop succeeds and leaves two
   * active records, and the laptop no longer agrees.
   */
  lemma {:induction false} DoubleBooking(t: Tables, req1: AllocationRequest, req2: AllocationRequest, actor: Actor,
                                         id1: Uuid, id2: Uuid)
    requires req1.laptopId == req2.laptopId && id1 != id2
    requires CreateCommits(t, req1, id1) && id2 !in t.allocations
    requires actor.id in t.users && req1.userId in t.users && req2.userId in t.users
    ensures
      var once := CreateAllocationStep(t, req1, actor, id1);
      var twice := CreateAllocationStep(once.after, req2, actor, id2);
      && once.result == Ok(id1) && twice.result == Ok(id2)
      && twice.after.allocations[id1].isActive && twice.after.allocations[id2].isActive
      && twice.after.allocations[id1].laptopId == twice.after.allocations[id2].laptopId == req1.laptopId
      && !AgreesFor(twice.after, req1.laptopId)
  {
    var once := CreateAllocationStep(t, req1, actor, id1);
    assert CreateCommits(once.after, req2, id2);
    var twice := CreateAllocationStep(once.after, req2, actor, id2);
    var both := twice.after.allocations;
    assert ShowsAllocated(twice.after, req1.laptopId);
    assert id1 in both && both[id1].isActive && both[id1].laptopId == req1.laptopId;
    assert id2 in both && both[id2].isActive && both[id2].laptopId == req1.laptopId;
    assert !exists a :: SoleActive(twice.after, req1.laptopId, a);
  }

  /**
   * A stale return: returning a record that was already returned, while a
   * newer record holds the same laptop, succeeds and marks the laptop
   * Available although it is still allocated.
   */
  lemma {:induction false} StaleReturnFreesAllocatedLaptop(t: Tables, old_: Uuid, current: Uuid, req: ReturnRequest, actor: Actor)
    requires old_ in t.allocations && !t.allocations[old_].isActive
    requires SoleActive(t, t.allocations[old_].laptopId, current)
    requires ReturnCommits(t, old_, actor)
    ensures
      var after := ReturnLaptopStep(t, old_, req, actor).after;
      var l := t.allocations[old_].laptopId;
      && ReturnLaptopStep(t, old_, req, actor).result.Ok?
      && SoleActive(after, l, current)
      && StatusNameOf(after, l) == Some("Available")
      && !AgreesFor(after, l)
  {
    var l := t.allocations[old_].laptopId;
    var after := ReturnLaptopStep(t, old_, req, actor).after;
    assert after.allocations[current] == t.allocations[current];
    assert SoleActive(after, l, current);
  }

  /**
   * Setting a laptop's status by hand is unchecked: moving a laptop that one
   * active record holds to any status other than "Allocated" breaks the
   * agreement.
   */
  lemma {:induction false} ModifyStatusBreaksAgreement(t: Tables, l: Uuid, a: Uuid, statusId: int)
    requires l in t.laptops && SoleActive(t, l, a)
    requires 1 <= statusId <= |t.statuses| && t.statuses[statusId - 1] != "Allocated"
    ensures ModifyLaptopStatusStep(t, l, statusId).result.Ok?
    ensures !AgreesFor(ModifyLaptopStatusStep(t, l, statusId).after, l)
  {
    var after := ModifyLaptopStatusStep(t, l, statusId).after;
    assert SoleActive(after, l, a);
  }

  /**
   * Deleting a laptop leaves its active record pointing at nothing, and
   * returning that record then fails before its commit.
   */
  lemma {:induction false} DeleteStrandsActiveAllocation(t: Tables, a: Uuid, req: ReturnRequest, actor: Actor)
    requires a in t.allocations && t.allocations[a].isActive && t.allocations[a].laptopId in t.laptops
    ensures
      var after := DeleteALaptopStep(t, t.allocations[a].laptopId).after;
      && after.allocations[a].isActive
      && after.allocations[a].laptopId !in after.laptops
      && ReturnLaptopStep(after, a, req, actor) == Step(after, Err(Internal))
  {
  }

  // ---------------------------------------------------------------------------
  // A returned record stays returned

  /** The calls that write the allocation table or the laptop table. */
  datatype Call =
    | Create(req: AllocationRequest, actor: Actor, newId: Uuid)
    | Return(id: Uuid, returnReq: ReturnRequest, returnActor: Actor)
    | AttachForm(formId: Uuid, formKey: string)
    | AttachReturnForm(returnFormId: Uuid, returnFormKey: string)
    | ModifyStatus(laptopId: Uuid, statusId: int)
    | DeleteLaptop(deletedId: Uuid)
    | DeleteUser(username: string)

  ghost function Perform(t: Tables, c: Call): Tables {
    match c
    case Create(req, actor, newId) => CreateAllocationStep(t, req, actor, newId).after
    case Return(id, req, actor) => ReturnLaptopStep(t, id, req, actor).after
    case AttachForm(id, key) => UploadFormStep(t, id, key).after
    case AttachReturnForm(id, key) => UploadReturnFormStep(t, id, key).after
    case ModifyStatus(l, statusId) => ModifyLaptopStatusStep(t, l, statusId).after
    case DeleteLaptop(l) => DeleteALaptopStep(t, l).after
    case DeleteUser(username) => UserRepo.DeleteAUserStep(t, username).after
  }

  ghost function PerformAll(t: Tables, calls: seq<Call>): Tables
    decreases |calls|
  {
    if calls == [] then t else PerformAll(Perform(t, calls[0]), calls[1..])
  }

  /** Record `id`, if present, is not active. */
  ghost predicate StaysReturned(t: Tables, id: Uuid) {
    id in t.allocations ==> !t.allocations[id].isActive
  }

  lemma {:induction false} CreateKeepsReturned(t: Tables, req: AllocationRequest, actor: Actor, newId: Uuid, id: Uuid)
    requires StaysReturned(t, id) && newId != id
    ensures StaysReturned(CreateAllocationStep(t, req, actor, newId).after, id)
  {
    var after := CreateAllocationStep(t, req, actor, newId).after;
    assert id in after.allocations ==> id in t.allocations && after.allocations[id] == t.allocations[id];
  }

  /** Return writes is_active false, whether or not the record was active. */
  lemma {:induction false} ReturnKeepsReturned(t: Tables, rid: Uuid, req: ReturnRequest, actor: Actor, id: Uuid)
    requires StaysReturned(t, id)
    ensures StaysReturned(ReturnLaptopStep(t, rid, req, actor).after, id)
  {
    var s := ReturnLaptopStep(t, rid, req, actor);
    if s.result.Ok? && id in s.after.allocations && id != rid {
      assert s.after.allocations[id] == t.allocations[id];
    }
  }

  lemma {:induction false} DeleteUserKeepsReturned(t: Tables, username: string, id: Uuid)
    requires StaysReturned(t, id)
    ensures StaysReturned(UserRepo.DeleteAUserStep(t, username).after, id)
  {
    var after := UserRepo.DeleteAUserStep(t, username).after;
    if id in after.allocations {
      assert id in t.allocations && after.allocations[id] == t.allocations[id];
    }
  }

  /** A call that does not create a record under key `id` keeps that record returned. */
  lemma {:induction false} CallKeepsReturned(t: Tables, c: Call, id: Uuid)
    requires StaysReturned(t, id)
    requires c.Create? ==> c.newId != id
    ensures StaysReturned(Perform(t, c), id)
  {
    match c
    case Create(req, actor, newId) => CreateKeepsReturned(t, req, actor, newId, id);
    case Return(rid, req, actor) => ReturnKeepsReturned(t, rid, req, actor, id);
    case AttachForm(fid, key) =>
    case AttachReturnForm(fid, key) =>
    case ModifyStatus(l, statusId) =>
    case DeleteLaptop(l) =>
    case DeleteUser(username) => DeleteUserKeepsReturned(t, username, id);
  }

  /** None of these calls writes the audit log. */
  lemma {:induction false} CallKeepsAudit(t: Tables, c: Call)
    ensures Perform(t, c).audit == t.audit
  {
    match c
    case Create(req, actor, newId) =>
    case Return(rid, req, actor) =>
    case AttachForm(fid, key) =>
    case AttachReturnForm(fid, key) =>
    case ModifyStatus(l, statusId) =>
    case DeleteLaptop(l) =>
    case DeleteUser(username) =>
  }

  /**
   * Over any sequence of these calls that creates nothing under its key, a
   * record once returned is never active again; and none of the calls writes
   * the audit log.
   */
  lemma {:induction false} NeverReactivated(t: Tables, calls: seq<Call>, id: Uuid)
    requires StaysReturned(t, id)
    requires forall c :: c in calls && c.Create? ==> c.newId != id
    ensures StaysReturned(PerformAll(t, calls), id)
    ensures PerformAll(t, calls).audit == t.audit
    decreases |calls|
  {
    if calls != [] {
      CallKeepsReturned(t, calls[0], id);
      CallKeepsAudit(t, calls[0]);
      assert forall c :: c in calls[1..] ==> c in calls;
      NeverReactivated(Perform(t, calls[0]), calls[1..], id);
    }
  }
}
