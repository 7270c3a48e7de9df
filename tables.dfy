/**
 * The store behind the repository layer: one table per model class of
 * backend/db/models, held as maps from primary key to row (the status table
 * and the audit log are sequences, since their keys are serial integers).
 */
module Tables {
  import opened Outcome
  import opened Dates

  /** A UUID in its canonical text form, as str(uuid.UUID) renders it. */
  type Uuid = string

  predicate IsHexDigit(c: char) {
    '0' <= c <= '9' || 'a' <= c <= 'f'
  }

  /** The 36-character form of str(uuid.UUID): hex digits in groups of 8-4-4-4-12. */
  predicate CanonicalUuid(s: string) {
    && |s| == 36
    && forall i :: 0 <= i < 36 ==>
         if i == 8 || i == 13 || i == 18 || i == 23 then s[i] == '-' else IsHexDigit(s[i])
  }

  /** Opaque floating-point value (procurement cost, repair cost); never computed with. */
  datatype Float = FloatLiteral(text: string)

  /** A password digest: an uninterpreted image of the secret it was made from. */
  datatype Digest = HashOf(secret: Option<string>)

  /** The status vocabulary of enums/laptop_status.py, in seeding order. */
  const StatusVocabulary: seq<string> := ["Available", "Allocated", "Under Repair", "Retired", "Lost"]

  datatype Laptop = Laptop(
    brand: string,
    model: string,
    serialNumber: string,
    name: string,
    assetTag: Option<string>,
    statusId: Option<int>,
    businessUnitId: Option<Uuid>)

  datatype Allocation = Allocation(
    userId: Uuid,
    laptopId: Uuid,
    allocationDate: Stamp,
    returnDate: Option<Stamp>,
    allocationForm: Option<string>,
    returnForm: Option<string>,
    returnComment: Option<string>,
    isActive: bool,
    allocatedBy: Uuid,
    allocationCondition: string,
    returnedBy: Option<Uuid>,
    reasonForAllocation: string,
    conditionOnReturn: Option<string>)

  datatype Procurement = Procurement(
    laptopId: Uuid,
    purchaseDate: Stamp,
    purchaseOrder: string,
    vendor: string,
    warrantyExpiry: Stamp,
    cost: Float,
    purchaseOrderFile: Option<string>)

  /** One audit-log row; its serial id is its position in the log. */
  datatype AuditEntry = AuditEntry(
    userId: Uuid,
    action: string,
    tableName: string,
    recordId: Uuid,
    details: string)

  datatype User = User(
    firstName: string,
    lastName: string,
    username: string,
    emailAddress: string,
    passwordHash: Option<Digest>,
    isActive: bool,
    isSuperuser: bool,
    businessUnitId: Option<Uuid>,
    departmentId: Option<Uuid>,
    modifiedAt: Option<Stamp>)

  datatype Accessory = Accessory(
    name: string,
    serialNumber: Option<string>,
    assignedToAllocation: Option<Uuid>)

  datatype Department = Department(
    departmentName: string,
    isActive: bool,
    createdAt: Stamp,
    modifiedAt: Option<Stamp>)

  datatype BusinessUnit = BusinessUnit(
    unitName: string,
    isActive: bool,
    modifiedAt: Option<Stamp>)

  datatype Organization = Organization(
    organizationName: string,
    streetAddress: Option<string>,
    poBox: Option<string>,
    modifiedAt: Option<Stamp>)

  datatype RepairEntry = RepairEntry(
    laptopId: Uuid,
    repairDetails: string,
    dateFaultReported: Stamp,
    dateLaptopRepaired: Stamp,
    costOfRepair: Float,
    repairVendor: string,
    repairedBy: int,
    warrantyCovered: bool,
    invoiceNumber: string)

  /**
   * A snapshot of every table. Status row i (0-based) has id i + 1, and audit
   * entry i has id i + 1, as the serial keys number them.
   */
  datatype Tables = Tables(
    statuses: seq<string>,
    laptops: map<Uuid, Laptop>,
    allocations: map<Uuid, Allocation>,
    procurements: map<Uuid, Procurement>,
    audit: seq<AuditEntry>,
    users: map<Uuid, User>,
    accessories: map<Uuid, Accessory>,
    departments: map<Uuid, Department>,
    businessUnits: map<Uuid, BusinessUnit>,
    organizations: map<Uuid, Organization>,
    repairs: map<Uuid, RepairEntry>)

  function EmptyTables(): (t: Tables)
    ensures |t.statuses| == 0 && |t.audit| == 0 && t.users == map[] && t.laptops == map[]
  {
    Tables([], map[], map[], map[], [], map[], map[], map[], map[], map[], map[])
  }

  /**
   * What one repository call leaves behind: the committed tables (the input
   * tables when the call rolled back or committed nothing) and its outcome.
   */
  datatype Step<T> = Step(after: Tables, result: Result<T>)

  /** The tables, the object store's contents and the outcome after an upload request. */
  datatype Upload = Upload(after: Tables, objects: map<string, seq<bv8>>, result: Result<string>)

  /** The authenticated user a call is made for. */
  datatype Actor = Actor(id: Uuid, username: string)

  /** A presigned download link: the object key and its lifetime in seconds. */
  datatype Url = PresignedUrl(key: string, expirySeconds: int)

  const UrlLifetimeSeconds := 3600

  /**
   * A field of a partial-update request: left out of the request (pydantic
   * leaves it unset, so model_dump(exclude_unset=True) drops it) or supplied.
   */
  datatype Patch<T> = Unset | Set(value: T)

  /** The value a column holds after the update: the supplied one, or the old one. */
  function Patched<T>(p: Patch<T>, current: T): T {
    if p.Set? then p.value else current
  }

  /** Python truthiness of a nullable string column. */
  predicate Truthy(v: Option<string>) {
    v.Some? && v.value != ""
  }

  // ---------------------------------------------------------------------------
  // Status rows looked up by name with scalar_one_or_none

  /** How many status rows carry the name. */
  function CountOf(names: seq<string>, name: string): (n: nat)
    ensures n <= |names|
    ensures n == 0 <==> name !in names
  {
    if |names| == 0 then 0
    else CountOf(names[..|names| - 1], name) + (if names[|names| - 1] == name then 1 else 0)
  }

  /**
   * The id of the status row named `name` when there is exactly one such row;
   * None when there is none (the lookup yields None) or several (the lookup
   * raises). Both of those end the calling operation in an internal error.
   */
  function StatusIdOf(names: seq<string>, name: string): (r: Option<int>)
    ensures r.Some? <==> CountOf(names, name) == 1
    ensures r.Some? ==> 1 <= r.value <= |names| && names[r.value - 1] == name
    ensures r.Some? ==> forall i :: 0 <= i < |names| && i != r.value - 1 ==> names[i] != name
  {
    if |names| == 0 then None
    else
      var init := names[..|names| - 1];
      if names[|names| - 1] == name then
        (if name in init then None else Some(|names|))
      else
        var r := StatusIdOf(init, name);
        assert forall i :: 0 <= i < |init| ==> init[i] == names[i];
        r
  }

  /** A status vocabulary without repeated names resolves every name it holds. */
  lemma {:induction false} DistinctNamesResolve(names: seq<string>, name: string)
    requires forall i, j :: 0 <= i < j < |names| ==> names[i] != names[j]
    requires name in names
    ensures StatusIdOf(names, name).Some?
  {
    if names[|names| - 1] != name {
      var init := names[..|names| - 1];
      assert name in init by {
        var k :| 0 <= k < |names| && names[k] == name;
        assert init[k] == name;
      }
      DistinctNamesResolve(init, name);
    }
  }

  /** The name of the status row a laptop points at, if the laptop and that row exist. */
  function StatusNameOf(t: Tables, laptopId: Uuid): Option<string> {
    if laptopId in t.laptops && t.laptops[laptopId].statusId.Some?
       && 1 <= t.laptops[laptopId].statusId.value <= |t.statuses|
    then Some(t.statuses[t.laptops[laptopId].statusId.value - 1])
    else None
  }

  // ---------------------------------------------------------------------------
  // Users looked up by username with scalar_one_or_none

  ghost function UsersNamed(t: Tables, username: string): set<Uuid> {
    set id | id in t.users && t.users[id].username == username
  }

  /** The result of `select(User).where(User.username == name)` and scalar_one_or_none. */
  datatype Lookup = Missing | Unique(id: Uuid) | Duplicated

  /** scalar_one_or_none over the rows a query matched. */
  ghost function LookupOf(ids: set<Uuid>): (r: Lookup)
    ensures r.Missing? <==> ids == {}
    ensures r.Unique? ==> ids == {r.id}
  {
    if ids == {} then Missing
    else
      var id :| id in ids;
      if ids == {id} then Unique(id) else Duplicated
  }

  ghost function FindUser(t: Tables, username: string): (r: Lookup)
    ensures r.Missing? <==> UsersNamed(t, username) == {}
    ensures r.Unique? ==> UsersNamed(t, username) == {r.id}
    ensures r.Unique? ==> r.id in t.users && t.users[r.id].username == username
  {
    LookupOf(UsersNamed(t, username))
  }

  /** Replacing one user's row by a row with the same username changes no lookup by username. */
  lemma {:induction false} SameUsernameSameLookup(t: Tables, id: Uuid, u: User, username: string)
    requires id in t.users && u.username == t.users[id].username
    ensures FindUser(t.(users := t.users[id := u]), username) == FindUser(t, username)
  {
    assert UsersNamed(t.(users := t.users[id := u]), username) == UsersNamed(t, username);
  }

  /**
   * The store itself. Each table is a field the repository operations
   * reassign; a call's changes become visible all at once, as its single
   * commit makes them.
   */
  class Db {
    var statuses: seq<string>
    var laptops: map<Uuid, Laptop>
    var allocations: map<Uuid, Allocation>
    var procurements: map<Uuid, Procurement>
    var audit: seq<AuditEntry>
    var users: map<Uuid, User>
    var accessories: map<Uuid, Accessory>
    var departments: map<Uuid, Department>
    var businessUnits: map<Uuid, BusinessUnit>
    var organizations: map<Uuid, Organization>
    var repairs: map<Uuid, RepairEntry>

    function State(): Tables
      reads this
    {
      Tables(statuses, laptops, allocations, procurements, audit, users,
             accessories, departments, businessUnits, organizations, repairs)
    }

    constructor ()
      ensures State() == EmptyTables()
    {
      statuses, laptops, allocations, procurements, audit := [], map[], map[], map[], [];
      users, accessories, departments, businessUnits := map[], map[], map[], map[];
      organizations, repairs := map[], map[];
    }
  }

  /**
   * The user named `username`, computed the way the query runs: collect the
   * matching rows, then take the one row or fail.
   */
  method LookUpUser(db: Db, username: string) returns (r: Lookup)
    ensures r == FindUser(db.State(), username)
  {
    var named := set id | id in db.users && db.users[id].username == username;
    assert named == UsersNamed(db.State(), username);
    if named == {} {
      return Missing;
    }
    var id :| id in named;
    if named == {id} {
      r := Unique(id);
    } else {
      r := Duplicated;
      assert exists j :: j in named && j != id;
    }
  }
}
