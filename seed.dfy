/** backend/db/seed.py: the status vocabulary and the first administrator. */
module Seed {
  import opened Outcome
  import opened Tables

  predicate DistinctNames(names: seq<string>) {
    forall i, j :: 0 <= i < j < |names| ==> names[i] != names[j]
  }

  /**
   * The status rows one seeding run adds, in order: each name of `names` not
   * already stored and not already added earlier in the run (the session
   * flushes what it added before each lookup).
   */
  function MissingStatuses(existing: seq<string>, names: seq<string>): (r: seq<string>)
    ensures forall x :: x in r <==> x in names && x !in existing
    ensures DistinctNames(r)
    decreases |names|
  {
    if names == [] then []
    else
      var added := MissingStatuses(existing, names[..|names| - 1]);
      var s := names[|names| - 1];
      assert forall x :: x in names <==> x in names[..|names| - 1] || x == s by {
        assert names == names[..|names| - 1] + [s];
      }
      if s in existing || s in added then added else added + [s]
  }

  /** On an empty table a run adds a vocabulary without repeats exactly as listed. */
  lemma {:induction false} MissingFromNothing(names: seq<string>)
    requires DistinctNames(names)
    ensures MissingStatuses([], names) == names
    decreases |names|
  {
    if names != [] {
      var init := names[..|names| - 1];
      MissingFromNothing(init);
      assert names[|names| - 1] !in init;
      assert init + [names[|names| - 1]] == names;
    }
  }

  lemma {:induction false} AppendDistinct(existing: seq<string>, added: seq<string>)
    requires DistinctNames(existing) && DistinctNames(added)
    requires forall x :: x in added ==> x !in existing
    ensures DistinctNames(existing + added)
  {
    var all := existing + added;
    forall i, j | 0 <= i < j < |all| ensures all[i] != all[j] {
      if i < |existing| && j >= |existing| {
        assert all[j] == added[j - |existing|];
        assert all[j] in added;
      } else if i >= |existing| {
        assert all[i] == added[i - |existing|] && all[j] == added[j - |existing|];
      }
    }
  }

  const AdminName := "admin"

  /** The administrator seed_data creates: a superuser, active, in no unit or department. */
  function AdminUser(): (u: User)
    ensures u.username == AdminName && u.isSuperuser && u.isActive
  {
    User("Invensys", "Admin", AdminName, "is_admin@moev.co.ke", Some(HashOf(Some("Password@1"))),
         true, true, None, None, None)
  }

  predicate AdminExists(t: Tables) {
    exists id :: id in t.users && t.users[id].username == AdminName
  }

  /**
   * seed_data: the missing statuses and the administrator are committed
   * together, and only when no user is named "admin"; otherwise the session
   * closes without a commit and the statuses it added are discarded.
   */
  function SeedStep(t: Tables, adminId: Uuid): (s: Step<()>)
    ensures AdminExists(t) ==> s == Step(t, Ok(()))
    ensures !AdminExists(t) && adminId in t.users ==> s == Step(t, Err(Internal))
    ensures !AdminExists(t) && adminId !in t.users ==>
      && s.result.Ok?
      && s.after == t.(statuses := t.statuses + MissingStatuses(t.statuses, StatusVocabulary),
                       users := t.users[adminId := AdminUser()])
  {
    if AdminExists(t) then Step(t, Ok(()))
    else if adminId in t.users then Step(t, Err(Internal))
    else
      Step(t.(statuses := t.statuses + MissingStatuses(t.statuses, StatusVocabulary),
              users := t.users[adminId := AdminUser()]), Ok(()))
  }

  method SeedData(db: Db, adminId: Uuid) returns (r: Result<()>)
    modifies db
    ensures Step(db.State(), r) == SeedStep(old(db.State()), adminId)
  {
    var added: seq<string> := [];
    for i := 0 to |StatusVocabulary|
      invariant added == MissingStatuses(db.statuses, StatusVocabulary[..i])
      invariant db.State() == old(db.State())
    {
      var s := StatusVocabulary[i];
      assert StatusVocabulary[..i + 1][..i] == StatusVocabulary[..i];
      if s !in db.statuses && s !in added {
        added := added + [s];
      }
    }
    assert StatusVocabulary[..|StatusVocabulary|] == StatusVocabulary;
    var adminExists := exists id :: id in db.users && db.users[id].username == AdminName;
    if adminExists {
      return Ok(());
    }
    if adminId in db.users {
      return Err(Internal);
    }
    db.statuses := db.statuses + added;
    db.users := db.users[adminId := AdminUser()];
    return Ok(());
  }

  /** safe_seed_data: seeds only a store without users. */
  function SafeSeedStep(t: Tables, adminId: Uuid): (s: Step<()>)
    ensures t.users != map[] ==> s == Step(t, Ok(()))
    ensures t.users == map[] ==> s == SeedStep(t, adminId)
  {
    if t.users != map[] then Step(t, Ok(())) else SeedStep(t, adminId)
  }

  method SafeSeedData(db: Db, adminId: Uuid) returns (r: Result<()>)
    modifies db
    ensures Step(db.State(), r) == SafeSeedStep(old(db.State()), adminId)
  {
    if db.users != map[] {
      return Ok(());
    }
    r := SeedData(db, adminId);
  }

  /** Seeding never repeats a status name in a table that had no repeats. */
  lemma {:induction false} SeedKeepsStatusesDistinct(t: Tables, adminId: Uuid)
    requires DistinctNames(t.statuses)
    ensures DistinctNames(SeedStep(t, adminId).after.statuses)
  {
    if !AdminExists(t) && adminId !in t.users {
      AppendDistinct(t.statuses, MissingStatuses(t.statuses, StatusVocabulary));
    }
  }

  /**
   * A committing run leaves every vocabulary name resolvable to exactly one
   * status row, in particular the two that creating and returning an
   * allocation look up.
   */
  lemma {:induction false} SeedResolvesVocabulary(t: Tables, adminId: Uuid, name: string)
    requires DistinctNames(t.statuses)
    requires !AdminExists(t) && adminId !in t.users
    requires name in StatusVocabulary
    ensures StatusIdOf(SeedStep(t, adminId).after.statuses, name).Some?
  {
    var after := SeedStep(t, adminId).after.statuses;
    SeedKeepsStatusesDistinct(t, adminId);
    assert name in t.statuses || name in MissingStatuses(t.statuses, StatusVocabulary);
    DistinctNamesResolve(after, name);
  }

  /** The vocabulary's own order fixes the ids: "Available" is status 1 and "Allocated" status 2. */
  lemma {:induction false} VocabularyIds()
    ensures StatusIdOf(StatusVocabulary, "Available") == Some(1)
    ensures StatusIdOf(StatusVocabulary, "Allocated") == Some(2)
  {
    assert DistinctNames(StatusVocabulary);
    assert StatusVocabulary[0] == "Available" && StatusVocabulary[1] == "Allocated";
    DistinctNamesResolve(StatusVocabulary, "Available");
    DistinctNamesResolve(StatusVocabulary, "Allocated");
  }

  /**
   * From an empty store, safe seeding writes the vocabulary in order, with
   * the administrator as the only user; the two statuses creating and
   * returning an allocation look up then resolve.
   */
  lemma {:induction false} SafeSeedFromEmpty(adminId: Uuid)
    ensures
      var after := SafeSeedStep(EmptyTables(), adminId).after;
      && after.statuses == StatusVocabulary
      && after.users == map[adminId := AdminUser()]
      && StatusIdOf(after.statuses, "Available") == Some(1)
      && StatusIdOf(after.statuses, "Allocated") == Some(2)
  {
    var t := EmptyTables();
    assert !AdminExists(t);
    assert DistinctNames(StatusVocabulary);
    MissingFromNothing(StatusVocabulary);
    assert t.statuses + StatusVocabulary == StatusVocabulary;
    VocabularyIds();
  }

  /** A second safe seeding run changes nothing, whatever the first did. */
  lemma {:induction false} SafeSeedIdempotent(t: Tables, first: Uuid, second: Uuid)
    ensures
      var once := SafeSeedStep(t, first).after;
      SafeSeedStep(once, second) == Step(once, Ok(()))
  {
    var once := SafeSeedStep(t, first).after;
    if t.users == map[] {
      assert !AdminExists(t);
      assert first in once.users;
    }
  }
}
