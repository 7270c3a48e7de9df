/** backend/db/repository/organization.py: the organisation-details table. */
module OrganizationRepo {
  import opened Outcome
  import opened Dates
  import opened Tables

  datatype AddOrganizationRequest = AddOrganizationRequest(
    organizationName: string,
    streetAddress: Option<string>,
    poBox: Option<string>)

  function AddOrganizationStep(t: Tables, req: AddOrganizationRequest, newId: Uuid): (s: Step<Organization>)
    ensures newId in t.organizations ==> s == Step(t, Err(Internal))
    ensures newId !in t.organizations ==>
      && s.result.Ok?
      && s.result.value.organizationName == req.organizationName
      && s.result.value.streetAddress == req.streetAddress
      && s.result.value.poBox == req.poBox
      && s.result.value.modifiedAt.None?
      && s.after == t.(organizations := t.organizations[newId := s.result.value])
  {
    if newId in t.organizations then Step(t, Err(Internal))
    else
      var org := Organization(req.organizationName, req.streetAddress, req.poBox, None);
      Step(t.(organizations := t.organizations[newId := org]), Ok(org))
  }

  method AddOrganization(db: Db, req: AddOrganizationRequest, newId: Uuid) returns (r: Result<Organization>)
    modifies db
    ensures Step(db.State(), r) == AddOrganizationStep(old(db.State()), req, newId)
  {
    if newId in db.organizations {
      return Err(Internal);
    }
    var org := Organization(req.organizationName, req.streetAddress, req.poBox, None);
    db.organizations := db.organizations[newId := org];
    return Ok(org);
  }

  // ---------------------------------------------------------------------------
  // repo_update_organization

  datatype ModifyOrganization = ModifyOrganization(
    organizationName: Patch<string>,
    streetAddress: Patch<Option<string>>,
    poBox: Patch<Option<string>>)

  /** One (field, value) pair of model_dump(exclude_unset=True). */
  datatype FieldValue =
    | OrganizationNameValue(name: string)
    | StreetAddressValue(street: Option<string>)
    | PoBoxValue(box: Option<string>)

  /** The supplied fields of the request, in declaration order. */
  function UpdateData(req: ModifyOrganization): seq<FieldValue> {
    (if req.organizationName.Set? then [OrganizationNameValue(req.organizationName.value)] else [])
    + (if req.streetAddress.Set? then [StreetAddressValue(req.streetAddress.value)] else [])
    + (if req.poBox.Set? then [PoBoxValue(req.poBox.value)] else [])
  }

  /** setattr of one pair. */
  function SetField(org: Organization, f: FieldValue): Organization {
    match f
    case OrganizationNameValue(n) => org.(organizationName := n)
    case StreetAddressValue(a) => org.(streetAddress := a)
    case PoBoxValue(b) => org.(poBox := b)
  }

  /** setattr of the pairs in order. */
  function SetFields(org: Organization, fs: seq<FieldValue>): Organization
    decreases |fs|
  {
    if fs == [] then org else SetFields(SetField(org, fs[0]), fs[1..])
  }

  lemma {:induction false} SetFieldsSnoc(org: Organization, fs: seq<FieldValue>, f: FieldValue)
    ensures SetFields(org, fs + [f]) == SetField(SetFields(org, fs), f)
    decreases |fs|
  {
    if fs != [] {
      assert (fs + [f])[1..] == fs[1..] + [f];
      SetFieldsSnoc(SetField(org, fs[0]), fs[1..], f);
    }
  }

  /** The loop changes exactly the supplied fields, each to its supplied value. */
  lemma {:induction false} UpdateDataMeaning(org: Organization, req: ModifyOrganization)
    ensures SetFields(org, UpdateData(req)) ==
      org.(organizationName := Patched(req.organizationName, org.organizationName),
           streetAddress := Patched(req.streetAddress, org.streetAddress),
           poBox := Patched(req.poBox, org.poBox))
  {
    var a := if req.organizationName.Set? then [OrganizationNameValue(req.organizationName.value)] else [];
    var b := if req.streetAddress.Set? then [StreetAddressValue(req.streetAddress.value)] else [];
    var c := if req.poBox.Set? then [PoBoxValue(req.poBox.value)] else [];
    assert UpdateData(req) == a + b + c;
    var o1 := SetFields(org, a);
    if a != [] { SetFieldsSnoc(org, [], a[0]); assert [] + [a[0]] == a; }
    var o2 := SetFields(org, a + b);
    if b != [] { SetFieldsSnoc(org, a, b[0]); } else { assert a + b == a; }
    if c != [] { SetFieldsSnoc(org, a + b, c[0]); } else { assert a + b + c == a + b; }
  }

  /**
   * Update: NotFound for an unknown id; otherwise the supplied fields take
   * their new values, modified_at is stamped, and nothing else changes.
   */
  function UpdateOrganizationStep(t: Tables, id: Uuid, req: ModifyOrganization, now: Stamp): (s: Step<Organization>)
    ensures id !in t.organizations ==> s == Step(t, Err(NotFound))
    ensures id in t.organizations ==>
      var org := t.organizations[id];
      && s.result.Ok?
      && s.result.value.organizationName == Patched(req.organizationName, org.organizationName)
      && s.result.value.streetAddress == Patched(req.streetAddress, org.streetAddress)
      && s.result.value.poBox == Patched(req.poBox, org.poBox)
      && s.result.value.modifiedAt == Some(now)
      && s.after == t.(organizations := t.organizations[id := s.result.value])
  {
    if id !in t.organizations then Step(t, Err(NotFound))
    else
      UpdateDataMeaning(t.organizations[id], req);
      var org := SetFields(t.organizations[id], UpdateData(req)).(modifiedAt := Some(now));
      Step(t.(organizations := t.organizations[id := org]), Ok(org))
  }

  method UpdateOrganization(db: Db, id: Uuid, req: ModifyOrganization, now: Stamp) returns (r: Result<Organization>)
    modifies db
    ensures Step(db.State(), r) == UpdateOrganizationStep(old(db.State()), id, req, now)
  {
    if id !in db.organizations {
      return Err(NotFound);
    }
    var stored := db.organizations[id];
    var org := stored;
    var updates := UpdateData(req);
    for i := 0 to |updates|
      invariant org == SetFields(stored, updates[..i])
      invariant db.State() == old(db.State())
    {
      SetFieldsSnoc(stored, updates[..i], updates[i]);
      assert updates[..i + 1] == updates[..i] + [updates[i]];
      org := SetField(org, updates[i]);
    }
    assert updates[..|updates|] == updates;
    org := org.(modifiedAt := Some(now));
    db.organizations := db.organizations[id := org];
    return Ok(org);
  }

  // ---------------------------------------------------------------------------
  // Read-only queries

  /** repo_get_organization_details: an existence check whose success carries no value. */
  method GetOrganizationDetails(db: Db, id: Uuid) returns (r: Result<()>)
    ensures r.Err? <==> id !in db.organizations
    ensures r.Err? ==> r.error == NotFound
  {
    if id !in db.organizations {
      return Err(NotFound);
    }
    return Ok(());
  }

  /** repo_list_organizations: every organisation row. */
  method ListOrganizations(db: Db) returns (r: set<Uuid>)
    ensures forall id :: id in r <==> id in db.organizations
  {
    r := db.organizations.Keys;
  }

  ghost predicate NamesAnOrganization(t: Tables, name: string) {
    exists id :: id in t.organizations && t.organizations[id].organizationName == name
  }

  /**
   * repo_get_organization_name: the name of the first row the query yields.
   * The table's order is not modelled, so any row may be the first; with no
   * row the attribute read on None fails.
   */
  method GetOrganizationName(db: Db) returns (r: Result<string>)
    ensures r.Err? <==> db.organizations == map[]
    ensures r.Err? ==> r.error == Internal
    ensures r.Ok? ==> NamesAnOrganization(db.State(), r.value)
  {
    if db.organizations == map[] {
      return Err(Internal);
    }
    var first :| first in db.organizations;
    return Ok(db.organizations[first].organizationName);
  }
}
