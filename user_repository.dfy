/** backend/db/repository/user.py: the user table. */
module UserRepo {
  import opened Outcome
  import opened Text
  import opened Dates
  import opened Tables
  import opened UserSchema

  ghost function UsersWithEmail(t: Tables, email: string): set<Uuid> {
    set id | id in t.users && t.users[id].emailAddress == email
  }

  /** No two users share a username: the lookups by username then never raise. */
  ghost predicate UniqueUsernames(t: Tables) {
    forall a, b :: a in t.users && b in t.users && t.users[a].username == t.users[b].username ==> a == b
  }

  lemma {:induction false} UniqueUsernamesNeverDuplicated(t: Tables, username: string)
    requires UniqueUsernames(t)
    ensures !FindUser(t, username).Duplicated?
  {
    var named := UsersNamed(t, username);
    if named != {} {
      var id :| id in named;
      assert named == {id};
    }
  }

  // ---------------------------------------------------------------------------
  // repo_create_user

  function NewUserRow(req: CreateUser): User {
    User(req.firstName, req.lastName, Lower(req.username), req.emailAddress, Some(HashOf(req.password)),
         true, false, Some(req.businessUnitId), Some(req.departmentId), None)
  }

  /**
   * The create, with the name its username check queries for as a parameter:
   * Conflict when a user has that name, then Conflict when a user has the
   * email address; otherwise the user is stored with the username lower-cased
   * and the password hashed. (Two matching rows make the lookup raise.)
   */
  ghost function CreateUserChecking(t: Tables, req: CreateUser, newId: Uuid, checkedName: string): (s: Step<Uuid>)
    ensures UsersNamed(t, checkedName) != {} ==> s.after == t && s.result.Err?
    ensures s.result == Err(Conflict) ==> UsersNamed(t, checkedName) != {} || UsersWithEmail(t, req.emailAddress) != {}
    ensures s.result.Ok? <==>
      UsersNamed(t, checkedName) == {} && UsersWithEmail(t, req.emailAddress) == {} && newId !in t.users
    ensures s.result.Ok? ==>
      && s.result.value == newId
      && s.after == t.(users := t.users[newId := NewUserRow(req)])
    ensures s.result.Err? ==> s.after == t
  {
    match LookupOf(UsersNamed(t, checkedName))
    case Unique(_) => Step(t, Err(Conflict))
    case Duplicated => Step(t, Err(Internal))
    case Missing =>
      match LookupOf(UsersWithEmail(t, req.emailAddress))
      case Unique(_) => Step(t, Err(Conflict))
      case Duplicated => Step(t, Err(Internal))
      case Missing =>
        if newId in t.users then Step(t, Err(Internal))
        else Step(t.(users := t.users[newId := NewUserRow(req)]), Ok(newId))
  }

  /** repo_create_user as written: the conflict check queries the username as given. */
  ghost function CreateUserAsWritten(t: Tables, req: CreateUser, newId: Uuid): Step<Uuid> {
    CreateUserChecking(t, req, newId, req.username)
  }

  /** repo_create_user as intended: the check queries the name that will be stored. */
  ghost function CreateUserStep(t: Tables, req: CreateUser, newId: Uuid): (s: Step<Uuid>)
    ensures UsersNamed(t, Lower(req.username)) != {} ==> s.after == t && s.result.Err?
    ensures s.result.Ok? ==> newId in s.after.users && s.after.users[newId].username == Lower(req.username)
  {
    CreateUserChecking(t, req, newId, Lower(req.username))
  }

  /** The intended create keeps usernames unique; the one as written does not (below). */
  lemma {:induction false} CreateUserKeepsUsernamesUnique(t: Tables, req: CreateUser, newId: Uuid)
    requires UniqueUsernames(t)
    ensures UniqueUsernames(CreateUserStep(t, req, newId).after)
  {
    var s := CreateUserStep(t, req, newId);
    if s.result.Ok? {
      assert UsersNamed(t, Lower(req.username)) == {};
      assert forall id :: id in t.users ==> t.users[id].username != Lower(req.username) by {
        forall id | id in t.users ensures t.users[id].username != Lower(req.username) {
          assert id in UsersNamed(t, Lower(req.username)) <==> t.users[id].username == Lower(req.username);
        }
      }
    }
  }

  /**
   * With a user "bob" stored, a request for "Bob" passes the check as written
   * and stores a second "bob"; the intended check refuses it.
   */
  lemma {:induction false} CreateUserCaseConflict(t: Tables, bob: Uuid, req: CreateUser, newId: Uuid)
    requires t.users == map[bob := User("Bob", "B", "bob", "bob@example.com", None, true, false, None, None, None)]
    requires req.username == "Bob" && req.emailAddress == "robert@example.com" && newId != bob
    ensures CreateUserAsWritten(t, req, newId).result == Ok(newId)
    ensures UsersNamed(CreateUserAsWritten(t, req, newId).after, "bob") == {bob, newId}
    ensures !UniqueUsernames(CreateUserAsWritten(t, req, newId).after)
    ensures CreateUserStep(t, req, newId).result == Err(Conflict)
  {
    assert UsersNamed(t, "Bob") == {};
    assert UsersWithEmail(t, "robert@example.com") == {};
    assert Lower("Bob") == "bob";
    var after := CreateUserAsWritten(t, req, newId).after;
    assert after.users[newId].username == "bob";
    assert UsersNamed(after, "bob") == {bob, newId};
    assert UsersNamed(t, "bob") == {bob};
  }

  method AddUser(db: Db, req: CreateUser, newId: Uuid) returns (r: Result<Uuid>)
    modifies db
    ensures Step(db.State(), r) == CreateUserStep(old(db.State()), req, newId)
  {
    var byName := LookUpUser(db, Lower(req.username));
    if byName.Unique? {
      return Err(Conflict);
    } else if byName.Duplicated? {
      return Err(Internal);
    }
    var withEmail := set id | id in db.users && db.users[id].emailAddress == req.emailAddress;
    assert withEmail == UsersWithEmail(db.State(), req.emailAddress);
    if withEmail != {} {
      var id :| id in withEmail;
      if withEmail == {id} {
        return Err(Conflict);
      }
      assert exists j :: j in withEmail && j != id;
      return Err(Internal);
    }
    if newId in db.users {
      return Err(Internal);
    }
    db.users := db.users[newId := NewUserRow(req)];
    return Ok(newId);
  }

  // ---------------------------------------------------------------------------
  // Operations on the user a username names

  /** The lookup's failures: NotFound for no user, an internal error for several. */
  ghost function LookupFailure(l: Lookup): Error
    requires !l.Unique?
  {
    if l.Missing? then NotFound else Internal
  }

  /** The change a username-addressed operation makes to the row it finds. */
  datatype Change =
    | NewPassword(newPassword: string, now: Stamp)
    | Update(req: ModifyUser, now: Stamp)
    | ToggleActive(now: Stamp)
    | ToggleSuperuser(now: Stamp)

  /** One (field, value) pair of model_dump(exclude_unset=True). */
  datatype FieldValue =
    | FirstNameValue(first: string)
    | LastNameValue(last: string)
    | BusinessUnitValue(unit: Option<Uuid>)
    | DepartmentValue(department: Option<Uuid>)

  datatype ModifyUser = ModifyUser(
    firstName: Patch<string>,
    lastName: Patch<string>,
    businessUnitId: Patch<Option<Uuid>>,
    departmentId: Patch<Option<Uuid>>)

  function UpdateData(req: ModifyUser): seq<FieldValue> {
    (if req.firstName.Set? then [FirstNameValue(req.firstName.value)] else [])
    + (if req.lastName.Set? then [LastNameValue(req.lastName.value)] else [])
    + (if req.businessUnitId.Set? then [BusinessUnitValue(req.businessUnitId.value)] else [])
    + (if req.departmentId.Set? then [DepartmentValue(req.departmentId.value)] else [])
  }

  /** setattr(user, field, value) for one pair; no pair names the username. */
  function SetField(u: User, f: FieldValue): (r: User)
    ensures r.username == u.username
  {
    match f
    case FirstNameValue(v) => u.(firstName := v)
    case LastNameValue(v) => u.(lastName := v)
    case BusinessUnitValue(v) => u.(businessUnitId := v)
    case DepartmentValue(v) => u.(departmentId := v)
  }

  function SetFields(u: User, fs: seq<FieldValue>): (r: User)
    ensures r.username == u.username
    decreases |fs|
  {
    if fs == [] then u else SetFields(SetField(u, fs[0]), fs[1..])
  }

  lemma {:induction false} SetFieldsSnoc(u: User, fs: seq<FieldValue>, f: FieldValue)
    ensures SetFields(u, fs + [f]) == SetField(SetFields(u, fs), f)
    decreases |fs|
  {
    if fs != [] {
      assert (fs + [f])[1..] == fs[1..] + [f];
      SetFieldsSnoc(SetField(u, fs[0]), fs[1..], f);
    }
  }

  /** The setattr loop changes exactly the supplied fields, each to its supplied value. */
  lemma {:induction false} UpdateDataMeaning(u: User, req: ModifyUser)
    ensures SetFields(u, UpdateData(req)) ==
      u.(firstName := Patched(req.firstName, u.firstName),
         lastName := Patched(req.lastName, u.lastName),
         businessUnitId := Patched(req.businessUnitId, u.businessUnitId),
         departmentId := Patched(req.departmentId, u.departmentId))
  {
    var a := if req.firstName.Set? then [FirstNameValue(req.firstName.value)] else [];
    var b := if req.lastName.Set? then [LastNameValue(req.lastName.value)] else [];
    var c := if req.businessUnitId.Set? then [BusinessUnitValue(req.businessUnitId.value)] else [];
    var d := if req.departmentId.Set? then [DepartmentValue(req.departmentId.value)] else [];
    assert UpdateData(req) == a + b + c + d;
    var u1 := u.(firstName := Patched(req.firstName, u.firstName));
    var u2 := u1.(lastName := Patched(req.lastName, u.lastName));
    var u3 := u2.(businessUnitId := Patched(req.businessUnitId, u.businessUnitId));
    var u4 := u3.(departmentId := Patched(req.departmentId, u.departmentId));
    assert SetFields(u, a) == u1 by {
      if a != [] { SetFieldsSnoc(u, [], a[0]); assert [] + [a[0]] == a; }
    }
    assert SetFields(u, a + b) == u2 by {
      if b != [] { SetFieldsSnoc(u, a, b[0]); } else { assert a + b == a; }
    }
    assert SetFields(u, a + b + c) == u3 by {
      if c != [] { SetFieldsSnoc(u, a + b, c[0]); } else { assert a + b + c == a + b; }
    }
    if d != [] { SetFieldsSnoc(u, a + b + c, d[0]); } else { assert a + b + c + d == a + b + c; }
  }

  /** The row after a change; every change stamps modified_at and none renames the user. */
  function Apply(c: Change, u: User): (r: User)
    ensures r.username == u.username
    ensures r.modifiedAt == Some(c.now)
  {
    match c
    case NewPassword(newPassword, now) => u.(passwordHash := Some(HashOf(Some(newPassword))), modifiedAt := Some(now))
    case Update(req, now) => SetFields(u, UpdateData(req)).(modifiedAt := Some(now))
    case ToggleActive(now) => u.(isActive := !u.isActive, modifiedAt := Some(now))
    case ToggleSuperuser(now) => u.(isSuperuser := !u.isSuperuser, modifiedAt := Some(now))
  }

  /**
   * Every username-addressed change: fails without a change unless the name
   * picks out one user, whose row alone is replaced by the changed row.
   */
  ghost function ChangeNamedUser(t: Tables, username: string, c: Change): (s: Step<User>)
    ensures !FindUser(t, username).Unique? ==> s == Step(t, Err(LookupFailure(FindUser(t, username))))
    ensures FindUser(t, username).Unique? ==>
      var id := FindUser(t, username).id;
      && s.result == Ok(Apply(c, t.users[id]))
      && s.after == t.(users := t.users[id := s.result.value])
  {
    match FindUser(t, username)
    case Unique(id) =>
      var u := Apply(c, t.users[id]);
      Step(t.(users := t.users[id := u]), Ok(u))
    case Missing => Step(t, Err(NotFound))
    case Duplicated => Step(t, Err(Internal))
  }

  /** repo_get_a_user. */
  method GetAUser(db: Db, username: string) returns (r: Result<User>)
    ensures FindUser(db.State(), username).Missing? ==> r == Err(NotFound)
    ensures FindUser(db.State(), username).Duplicated? ==> r == Err(Internal)
    ensures FindUser(db.State(), username).Unique? ==> r == Ok(db.users[FindUser(db.State(), username).id])
    ensures r.Ok? ==> r.value.username == username
  {
    var found := LookUpUser(db, username);
    match found
    case Missing => r := Err(NotFound);
    case Duplicated => r := Err(Internal);
    case Unique(id) => r := Ok(db.users[id]);
  }

  /** Membership in repo_get_all_users: is_active when not None, username when non-empty. */
  predicate UserListed(t: Tables, id: Uuid, isActive: Option<bool>, username: Option<string>) {
    && id in t.users
    && (isActive.Some? ==> t.users[id].isActive == isActive.value)
    && (Truthy(username) ==> t.users[id].username == username.value)
  }

  method GetAllUsers(db: Db, isActive: Option<bool>, username: Option<string>) returns (r: set<Uuid>)
    ensures forall id :: id in r <==> UserListed(db.State(), id, isActive, username)
  {
    var query := db.users.Keys;
    if isActive.Some? {
      query := set id | id in query && db.users[id].isActive == isActive.value;
    }
    if Truthy(username) {
      query := set id | id in query && db.users[id].username == username.value;
    }
    r := query;
  }

  /** Applies a change to the user the name picks out, in place. */
  method ChangeUser(db: Db, username: string, c: Change) returns (r: Result<User>)
    modifies db
    ensures Step(db.State(), r) == ChangeNamedUser(old(db.State()), username, c)
  {
    var found := LookUpUser(db, username);
    match found
    case Missing => r := Err(NotFound);
    case Duplicated => r := Err(Internal);
    case Unique(id) =>
      var u := Apply(c, db.users[id]);
      db.users := db.users[id := u];
      r := Ok(u);
  }

  // repo_change_user_password

  ghost function ChangeUserPasswordStep(t: Tables, username: string, req: ChangePassword, now: Stamp): (s: Step<User>)
    ensures s.result.Ok? ==>
      && s.result.value.passwordHash == Some(HashOf(Some(req.newPassword)))
      && s.result.value.username == username
  {
    ChangeNamedUser(t, username, NewPassword(req.newPassword, now))
  }

  method ChangeUserPassword(db: Db, username: string, req: ChangePassword, now: Stamp) returns (r: Result<User>)
    modifies db
    ensures Step(db.State(), r) == ChangeUserPasswordStep(old(db.State()), username, req, now)
  {
    r := ChangeUser(db, username, NewPassword(req.newPassword, now));
  }

  // repo_update_user

  /** The supplied fields take their new values, modified_at is stamped, and nothing else changes. */
  ghost function UpdateUserStep(t: Tables, username: string, req: ModifyUser, now: Stamp): (s: Step<User>)
    ensures s.result.Ok? <==> FindUser(t, username).Unique?
    ensures FindUser(t, username).Unique? ==>
      var u := t.users[FindUser(t, username).id];
      s.result.value == u.(firstName := Patched(req.firstName, u.firstName),
                           lastName := Patched(req.lastName, u.lastName),
                           businessUnitId := Patched(req.businessUnitId, u.businessUnitId),
                           departmentId := Patched(req.departmentId, u.departmentId),
                           modifiedAt := Some(now))
  {
    var s := ChangeNamedUser(t, username, Update(req, now));
    if s.result.Ok? then UpdateDataMeaning(t.users[FindUser(t, username).id], req); s else s
  }

  method UpdateUser(db: Db, username: string, req: ModifyUser, now: Stamp) returns (r: Result<User>)
    modifies db
    ensures Step(db.State(), r) == UpdateUserStep(old(db.State()), username, req, now)
  {
    var found := LookUpUser(db, username);
    if found.Missing? {
      return Err(NotFound);
    } else if found.Duplicated? {
      return Err(Internal);
    }
    var stored := db.users[found.id];
    var u := stored;
    var updates := UpdateData(req);
    for i := 0 to |updates|
      invariant u == SetFields(stored, updates[..i])
      invariant db.State() == old(db.State())
    {
      SetFieldsSnoc(stored, updates[..i], updates[i]);
      assert updates[..i + 1] == updates[..i] + [updates[i]];
      u := SetField(u, updates[i]);
    }
    assert updates[..|updates|] == updates;
    u := u.(modifiedAt := Some(now));
    db.users := db.users[found.id := u];
    return Ok(u);
  }

  // repo_change_user_status and repo_change_user_permission

  ghost function ChangeUserStatusStep(t: Tables, username: string, now: Stamp): (s: Step<User>)
    ensures s.result.Ok? <==> FindUser(t, username).Unique?
    ensures FindUser(t, username).Unique? ==> s.result.value.isActive == !t.users[FindUser(t, username).id].isActive
  {
    ChangeNamedUser(t, username, ToggleActive(now))
  }

  ghost function ChangeUserPermissionStep(t: Tables, username: string, now: Stamp): (s: Step<User>)
    ensures s.result.Ok? <==> FindUser(t, username).Unique?
    ensures FindUser(t, username).Unique? ==> s.result.value.isSuperuser == !t.users[FindUser(t, username).id].isSuperuser
  {
    ChangeNamedUser(t, username, ToggleSuperuser(now))
  }

  method ChangeUserStatus(db: Db, username: string, now: Stamp) returns (r: Result<User>)
    modifies db
    ensures Step(db.State(), r) == ChangeUserStatusStep(old(db.State()), username, now)
  {
    r := ChangeUser(db, username, ToggleActive(now));
  }

  method ChangeUserPermission(db: Db, username: string, now: Stamp) returns (r: Result<User>)
    modifies db
    ensures Step(db.State(), r) == ChangeUserPermissionStep(old(db.State()), username, now)
  {
    r := ChangeUser(db, username, ToggleSuperuser(now));
  }

  /** After a change the name still picks out the same user. */
  lemma {:induction false} ChangeKeepsLookup(t: Tables, username: string, c: Change)
    requires FindUser(t, username).Unique?
    ensures FindUser(ChangeNamedUser(t, username, c).after, username) == FindUser(t, username)
  {
    var id := FindUser(t, username).id;
    SameUsernameSameLookup(t, id, Apply(c, t.users[id]), username);
  }

  /**
   * Toggling a user's status twice restores the flag; the only trace left is
   * the second modification time.
   */
  lemma {:induction false} ChangeUserStatusTwice(t: Tables, username: string, now1: Stamp, now2: Stamp)
    requires FindUser(t, username).Unique?
    ensures
      var id := FindUser(t, username).id;
      var twice := ChangeUserStatusStep(ChangeUserStatusStep(t, username, now1).after, username, now2);
      && twice.result.Ok?
      && twice.after == t.(users := t.users[id := t.users[id].(modifiedAt := Some(now2))])
  {
    var id := FindUser(t, username).id;
    var once := ChangeNamedUser(t, username, ToggleActive(now1));
    ChangeKeepsLookup(t, username, ToggleActive(now1));
    var twice := ChangeNamedUser(once.after, username, ToggleActive(now2));
    assert twice.after.users[id] == t.users[id].(modifiedAt := Some(now2));
    assert twice.after.users == t.users[id := t.users[id].(modifiedAt := Some(now2))];
  }

  /** The same for the superuser flag. */
  lemma {:induction false} ChangeUserPermissionTwice(t: Tables, username: string, now1: Stamp, now2: Stamp)
    requires FindUser(t, username).Unique?
    ensures
      var id := FindUser(t, username).id;
      var twice := ChangeUserPermissionStep(ChangeUserPermissionStep(t, username, now1).after, username, now2);
      && twice.result.Ok?
      && twice.after == t.(users := t.users[id := t.users[id].(modifiedAt := Some(now2))])
  {
    var id := FindUser(t, username).id;
    var once := ChangeNamedUser(t, username, ToggleSuperuser(now1));
    ChangeKeepsLookup(t, username, ToggleSuperuser(now1));
    var twice := ChangeNamedUser(once.after, username, ToggleSuperuser(now2));
    assert twice.after.users[id] == t.users[id].(modifiedAt := Some(now2));
    assert twice.after.users == t.users[id := t.users[id].(modifiedAt := Some(now2))];
  }

  /** No username-addressed change renames a user, so unique usernames stay unique. */
  lemma {:induction false} ChangeKeepsUsernamesUnique(t: Tables, username: string, c: Change)
    requires UniqueUsernames(t)
    ensures UniqueUsernames(ChangeNamedUser(t, username, c).after)
  {
    var after := ChangeNamedUser(t, username, c).after;
    assert forall id :: id in after.users ==> id in t.users && after.users[id].username == t.users[id].username;
  }

  // ---------------------------------------------------------------------------
  // repo_change_my_password

  /**
   * The caller's own password: refused, with nothing changed, when the
   * current password does not verify against the stored hash. Whether it
   * verifies is the hashing library's answer, passed in.
   */
  function ChangeMyPasswordStep(t: Tables, userId: Uuid, req: ChangePassword, verified: bool, now: Stamp)
    : (s: Step<User>)
    requires userId in t.users
    ensures !verified ==> s == Step(t, Err(Unauthorized))
    ensures verified ==>
      && s.result.Ok?
      && s.result.value.passwordHash == Some(HashOf(Some(req.newPassword)))
      && s.result.value.modifiedAt == Some(now)
      && s.result.value.(passwordHash := t.users[userId].passwordHash, modifiedAt := t.users[userId].modifiedAt)
         == t.users[userId]
      && s.after == t.(users := t.users[userId := s.result.value])
  {
    if !verified then Step(t, Err(Unauthorized))
    else
      var u := Apply(NewPassword(req.newPassword, now), t.users[userId]);
      Step(t.(users := t.users[userId := u]), Ok(u))
  }

  method ChangeMyPassword(db: Db, userId: Uuid, req: ChangePassword, verified: bool, now: Stamp)
    returns (r: Result<User>)
    requires userId in db.users
    modifies db
    ensures Step(db.State(), r) == ChangeMyPasswordStep(old(db.State()), userId, req, verified, now)
  {
    if !verified {
      return Err(Unauthorized);
    }
    var u := db.users[userId];
    u := u.(passwordHash := Some(HashOf(Some(req.newPassword))));
    u := u.(modifiedAt := Some(now));
    db.users := db.users[userId := u];
    return Ok(u);
  }

  // ---------------------------------------------------------------------------
  // repo_delete_a_user

  /** The user goes, and with it, through the relationship's delete cascade, every allocation it holds. */
  ghost function DeleteAUserStep(t: Tables, username: string): (s: Step<()>)
    ensures !FindUser(t, username).Unique? ==> s == Step(t, Err(LookupFailure(FindUser(t, username))))
    ensures FindUser(t, username).Unique? ==>
      var id := FindUser(t, username).id;
      && s.result.Ok?
      && s.after.users == t.users - {id}
      && (forall a :: a in s.after.allocations <==> a in t.allocations && t.allocations[a].userId != id)
      && (forall a :: a in s.after.allocations ==> s.after.allocations[a] == t.allocations[a])
      && s.after == t.(users := s.after.users, allocations := s.after.allocations)
  {
    match FindUser(t, username)
    case Missing => Step(t, Err(NotFound))
    case Duplicated => Step(t, Err(Internal))
    case Unique(id) =>
      var kept := map a | a in t.allocations && t.allocations[a].userId != id :: t.allocations[a];
      Step(t.(users := t.users - {id}, allocations := kept), Ok(()))
  }

  method DeleteAUser(db: Db, username: string) returns (r: Result<()>)
    modifies db
    ensures Step(db.State(), r) == DeleteAUserStep(old(db.State()), username)
  {
    var found := LookUpUser(db, username);
    match found
    case Missing => r := Err(NotFound);
    case Duplicated => r := Err(Internal);
    case Unique(id) =>
      db.allocations := map a | a in db.allocations && db.allocations[a].userId != id :: db.allocations[a];
      db.users := db.users - {id};
      r := Ok(());
  }

  // ---------------------------------------------------------------------------
  // repo_report_unauthorized_access

  /** Logs the attempt and refuses; nothing is written to the store. */
  method ReportUnauthorizedAccess(db: Db, taskLogged: string, tableName: string) returns (r: Result<()>)
    ensures r == Err(Unauthorized)
  {
    r := Err(Unauthorized);
  }
}
