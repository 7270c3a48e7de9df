/** backend/db/repository/department.py: the department table. */
module DepartmentRepo {
  import opened Outcome
  import opened Text
  import opened Dates
  import opened Tables

  /** repo_new_department: the name lower-cased, created now, active, never modified. */
  function NewDepartmentStep(t: Tables, departmentName: string, now: Stamp, newId: Uuid): (s: Step<Department>)
    ensures newId in t.departments ==> s == Step(t, Err(Internal))
    ensures newId !in t.departments ==>
      && s.result == Ok(Department(Lower(departmentName), true, now, None))
      && s.after == t.(departments := t.departments[newId := s.result.value])
  {
    if newId in t.departments then Step(t, Err(Internal))
    else
      var department := Department(Lower(departmentName), true, now, None);
      Step(t.(departments := t.departments[newId := department]), Ok(department))
  }

  method NewDepartment(db: Db, departmentName: string, now: Stamp, newId: Uuid) returns (r: Result<Department>)
    modifies db
    ensures Step(db.State(), r) == NewDepartmentStep(old(db.State()), departmentName, now, newId)
  {
    if newId in db.departments {
      return Err(Internal);
    }
    var department := Department(Lower(departmentName), true, now, None);
    db.departments := db.departments[newId := department];
    return Ok(department);
  }

  /** repo_get_department. */
  method GetDepartment(db: Db, id: Uuid) returns (r: Result<Department>)
    ensures r.Err? <==> id !in db.departments
    ensures r.Err? ==> r.error == NotFound
    ensures r.Ok? ==> r.value == db.departments[id]
  {
    if id !in db.departments {
      return Err(NotFound);
    }
    return Ok(db.departments[id]);
  }

  /** Membership in repo_get_departments: the name filter, when given, matches exactly. */
  predicate DepartmentListed(t: Tables, id: Uuid, department: Option<string>) {
    id in t.departments && (department.Some? ==> t.departments[id].departmentName == department.value)
  }

  method GetDepartments(db: Db, department: Option<string>) returns (r: set<Uuid>)
    ensures forall id :: id in r <==> DepartmentListed(db.State(), id, department)
  {
    r := db.departments.Keys;
    if department.Some? {
      r := set id | id in r && db.departments[id].departmentName == department.value;
    }
  }

  /**
   * The filter does not lower-case its argument: a department just created is
   * found by the name it was created with exactly when that name has no
   * capital letter.
   */
  lemma {:induction false} NewDepartmentFoundByTypedName(t: Tables, departmentName: string, now: Stamp, newId: Uuid)
    requires newId !in t.departments
    ensures DepartmentListed(NewDepartmentStep(t, departmentName, now, newId).after, newId, Some(departmentName))
            <==> NoUpper(departmentName)
  {
    if NoUpper(departmentName) {
      assert Lower(departmentName) == departmentName;
    } else {
      var i :| 0 <= i < |departmentName| && IsUpper(departmentName[i]);
      assert Lower(departmentName)[i] != departmentName[i];
    }
  }

  /** repo_update_department: the new name is stored as given (not lower-cased) and modified_at stamped. */
  function UpdateDepartmentStep(t: Tables, id: Uuid, departmentName: string, now: Stamp): (s: Step<Department>)
    ensures id !in t.departments ==> s == Step(t, Err(NotFound))
    ensures id in t.departments ==>
      && s.result == Ok(t.departments[id].(departmentName := departmentName, modifiedAt := Some(now)))
      && s.after == t.(departments := t.departments[id := s.result.value])
  {
    if id !in t.departments then Step(t, Err(NotFound))
    else
      var department := t.departments[id].(departmentName := departmentName, modifiedAt := Some(now));
      Step(t.(departments := t.departments[id := department]), Ok(department))
  }

  method UpdateDepartment(db: Db, id: Uuid, departmentName: string, now: Stamp) returns (r: Result<Department>)
    modifies db
    ensures Step(db.State(), r) == UpdateDepartmentStep(old(db.State()), id, departmentName, now)
  {
    if id !in db.departments {
      return Err(NotFound);
    }
    var department := db.departments[id];
    department := department.(departmentName := departmentName, modifiedAt := Some(now));
    db.departments := db.departments[id := department];
    return Ok(department);
  }

  /** After an update the department is found under exactly the name it was given. */
  lemma {:induction false} UpdatedDepartmentFoundByNewName(t: Tables, id: Uuid, departmentName: string, other: string, now: Stamp)
    requires id in t.departments
    ensures
      var after := UpdateDepartmentStep(t, id, departmentName, now).after;
      DepartmentListed(after, id, Some(other)) <==> other == departmentName
  {
  }

  /** repo_delete_department. */
  function DeleteDepartmentStep(t: Tables, id: Uuid): (s: Step<()>)
    ensures id !in t.departments ==> s == Step(t, Err(NotFound))
    ensures id in t.departments ==>
      && s.result.Ok?
      && s.after.departments.Keys == t.departments.Keys - {id}
      && (forall d :: d in s.after.departments ==> s.after.departments[d] == t.departments[d])
      && s.after == t.(departments := s.after.departments)
  {
    if id !in t.departments then Step(t, Err(NotFound))
    else Step(t.(departments := t.departments - {id}), Ok(()))
  }

  method DeleteDepartment(db: Db, id: Uuid) returns (r: Result<()>)
    modifies db
    ensures Step(db.State(), r) == DeleteDepartmentStep(old(db.State()), id)
  {
    if id !in db.departments {
      return Err(NotFound);
    }
    db.departments := db.departments - {id};
    return Ok(());
  }
}
