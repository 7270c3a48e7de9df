/** backend/db/repository/business_unit.py: the business-unit table. */
module BusinessUnitRepo {
  import opened Outcome
  import opened Text
  import opened Dates
  import opened Tables

  /** repo_new_business_unit: the name lower-cased, active, never modified. */
  function NewBusinessUnitStep(t: Tables, unitName: string, newId: Uuid): (s: Step<BusinessUnit>)
    ensures newId in t.businessUnits ==> s == Step(t, Err(Internal))
    ensures newId !in t.businessUnits ==>
      && s.result == Ok(BusinessUnit(Lower(unitName), true, None))
      && s.after == t.(businessUnits := t.businessUnits[newId := s.result.value])
  {
    if newId in t.businessUnits then Step(t, Err(Internal))
    else
      var unit := BusinessUnit(Lower(unitName), true, None);
      Step(t.(businessUnits := t.businessUnits[newId := unit]), Ok(unit))
  }

  method NewBusinessUnit(db: Db, unitName: string, newId: Uuid) returns (r: Result<BusinessUnit>)
    modifies db
    ensures Step(db.State(), r) == NewBusinessUnitStep(old(db.State()), unitName, newId)
  {
    if newId in db.businessUnits {
      return Err(Internal);
    }
    var unit := BusinessUnit(Lower(unitName), true, None);
    db.businessUnits := db.businessUnits[newId := unit];
    return Ok(unit);
  }

  /** repo_get_business_unit. */
  method GetBusinessUnit(db: Db, id: Uuid) returns (r: Result<BusinessUnit>)
    ensures r.Err? <==> id !in db.businessUnits
    ensures r.Err? ==> r.error == NotFound
    ensures r.Ok? ==> r.value == db.businessUnits[id]
  {
    if id !in db.businessUnits {
      return Err(NotFound);
    }
    return Ok(db.businessUnits[id]);
  }

  /** Membership in repo_get_business_units: the name filter, when given, matches exactly. */
  predicate BusinessUnitListed(t: Tables, id: Uuid, unitName: Option<string>) {
    id in t.businessUnits && (unitName.Some? ==> t.businessUnits[id].unitName == unitName.value)
  }

  method GetBusinessUnits(db: Db, unitName: Option<string>) returns (r: set<Uuid>)
    ensures forall id :: id in r <==> BusinessUnitListed(db.State(), id, unitName)
  {
    r := db.businessUnits.Keys;
    if unitName.Some? {
      r := set id | id in r && db.businessUnits[id].unitName == unitName.value;
    }
  }

  /**
   * repo_update_business_unit as written: the new name is assigned to a
   * department_name attribute the business-unit row does not map, so only
   * modified_at reaches the table.
   */
  function UpdateBusinessUnitAsWritten(t: Tables, id: Uuid, unitName: string, now: Stamp): Step<BusinessUnit> {
    if id !in t.businessUnits then Step(t, Err(NotFound))
    else
      var unit := t.businessUnits[id].(modifiedAt := Some(now));
      Step(t.(businessUnits := t.businessUnits[id := unit]), Ok(unit))
  }

  /** repo_update_business_unit as intended: the unit takes the new name, as given, and modified_at. */
  function UpdateBusinessUnitStep(t: Tables, id: Uuid, unitName: string, now: Stamp): (s: Step<BusinessUnit>)
    ensures id !in t.businessUnits ==> s == Step(t, Err(NotFound))
    ensures id in t.businessUnits ==>
      && s.result == Ok(t.businessUnits[id].(unitName := unitName, modifiedAt := Some(now)))
      && s.after == t.(businessUnits := t.businessUnits[id := s.result.value])
  {
    if id !in t.businessUnits then Step(t, Err(NotFound))
    else
      var unit := t.businessUnits[id].(unitName := unitName, modifiedAt := Some(now));
      Step(t.(businessUnits := t.businessUnits[id := unit]), Ok(unit))
  }

  method UpdateBusinessUnit(db: Db, id: Uuid, unitName: string, now: Stamp) returns (r: Result<BusinessUnit>)
    modifies db
    ensures Step(db.State(), r) == UpdateBusinessUnitStep(old(db.State()), id, unitName, now)
  {
    if id !in db.businessUnits {
      return Err(NotFound);
    }
    var unit := db.businessUnits[id];
    unit := unit.(unitName := unitName, modifiedAt := Some(now));
    db.businessUnits := db.businessUnits[id := unit];
    return Ok(unit);
  }

  /**
   * As written, a rename reports success yet the unit keeps its old name and
   * is not found under the new one; as intended it is found under the new
   * name and no other.
   */
  lemma {:induction false} RenameIsLostAsWritten(t: Tables, id: Uuid, unitName: string, now: Stamp)
    requires id in t.businessUnits && t.businessUnits[id].unitName != unitName
    ensures UpdateBusinessUnitAsWritten(t, id, unitName, now).result.Ok?
    ensures UpdateBusinessUnitAsWritten(t, id, unitName, now).after.businessUnits[id].unitName == t.businessUnits[id].unitName
    ensures !BusinessUnitListed(UpdateBusinessUnitAsWritten(t, id, unitName, now).after, id, Some(unitName))
    ensures forall other :: BusinessUnitListed(UpdateBusinessUnitStep(t, id, unitName, now).after, id, Some(other))
                            <==> other == unitName
  {
  }

  /** repo_delete_business_unit. */
  function DeleteBusinessUnitStep(t: Tables, id: Uuid): (s: Step<()>)
    ensures id !in t.businessUnits ==> s == Step(t, Err(NotFound))
    ensures id in t.businessUnits ==>
      && s.result.Ok?
      && s.after.businessUnits.Keys == t.businessUnits.Keys - {id}
      && (forall b :: b in s.after.businessUnits ==> s.after.businessUnits[b] == t.businessUnits[b])
      && s.after == t.(businessUnits := s.after.businessUnits)
  {
    if id !in t.businessUnits then Step(t, Err(NotFound))
    else Step(t.(businessUnits := t.businessUnits - {id}), Ok(()))
  }

  method DeleteBusinessUnit(db: Db, id: Uuid) returns (r: Result<()>)
    modifies db
    ensures Step(db.State(), r) == DeleteBusinessUnitStep(old(db.State()), id)
  {
    if id !in db.businessUnits {
      return Err(NotFound);
    }
    db.businessUnits := db.businessUnits - {id};
    return Ok(());
  }
}
