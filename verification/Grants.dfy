/** Rewriting an agent's grant rows (_update_agent_permissions_locked, engine/app/api/agents.py, lines 429-543).
    No index of the table forbids two rows for one user (engine/scripts/schema_baseline.sql, lines 1019-1033). */
module Grants {
  import opened Results

  type Id = int

  datatype Mode = Company | Private | Custom

  datatype Scope = CompanyScope | UserScope | DepartmentScope

  datatype Level = Use | Manage

  datatype Grant = Grant(scope: Scope, id: Option<Id>, level: Level)

  /** One entry of `user_access`; either of two fields may name the user. */
  datatype Access = Access(id: Option<Id>, userId: Option<Id>, level: Level) {
    function User(): Option<Id> {
      if id.Some? then id else userId
    }
  }

  datatype Update = Update(
    mode: Mode, scopeIds: seq<Id>, userAccess: seq<Access>, level: Level, departmentIds: Option<seq<Id>>)

  /** The rows the handler looks up: tenants of users and departments, and the tenant's active administrators. */
  datatype Directory = Directory(users: map<Id, Option<Id>>, departments: map<Id, Option<Id>>, admins: set<Id>)

  datatype Agent = Agent(creator: Option<Id>, tenant: Option<Id>)

  /** Everything an update depends on besides the table. */
  datatype Call = Call(data: Update, directory: Directory, agent: Agent, manager: bool, currentUser: Id)

  datatype Error = Forbidden | DepartmentsNeedCustom | InvalidDepartment | InvalidUser

  // ----- The specification -----

  function Owner(c: Call): Id {
    if c.agent.creator.Some? then c.agent.creator.value else c.currentUser
  }

  function Required(c: Call): set<Id> {
    {Owner(c)} + c.directory.admins
  }

  function Listed(access: seq<Access>): set<Id> {
    set i | 0 <= i < |access| && access[i].User().Some? :: access[i].User().value
  }

  function Ids(s: seq<Id>): set<Id> {
    set i | 0 <= i < |s| :: s[i]
  }

  function FirstLevel(access: seq<Access>, uid: Id): Option<Level> {
    if access == [] then None
    else if access[0].User() == Some(uid) then Some(access[0].level)
    else FirstLevel(access[1..], uid)
  }

  /** Required managers manage; others have the level they are first listed with, or the default. */
  function LevelOf(c: Call, uid: Id): Level {
    if uid in Required(c) then Manage
    else if FirstLevel(c.data.userAccess, uid).Some? then FirstLevel(c.data.userAccess, uid).value
    else c.data.level
  }

  function Users(c: Call): set<Id> {
    Listed(c.data.userAccess) + Ids(c.data.scopeIds) + Required(c)
  }

  /** Departments granted in the table. */
  function DepartmentsOf(rows: seq<Grant>): set<Id> {
    set i | 0 <= i < |rows| && rows[i].scope == DepartmentScope && rows[i].id.Some? :: rows[i].id.value
  }

  /** The departments after the update: those supplied, or the ones there are; only custom sharing keeps any. */
  function Departments(c: Call, before: seq<Grant>): set<Id> {
    if c.data.mode != Custom then {}
    else if c.data.departmentIds.None? then DepartmentsOf(before)
    else Ids(c.data.departmentIds.value)
  }

  predicate AllIn(tenants: map<Id, Option<Id>>, ids: set<Id>, tenant: Option<Id>) {
    forall id | id in ids :: id in tenants && tenants[id] == tenant
  }

  function Rejection(c: Call, before: seq<Grant>): Option<Error> {
    if !c.manager then Some(Forbidden)
    else if c.data.mode != Custom then
      if c.data.departmentIds.Some? && c.data.departmentIds.value != [] then Some(DepartmentsNeedCustom) else None
    else if !AllIn(c.directory.departments, Departments(c, before), c.agent.tenant) then Some(InvalidDepartment)
    else if !AllIn(c.directory.users, Ids(c.data.scopeIds) + Listed(c.data.userAccess), c.agent.tenant) then
      Some(InvalidUser)
    else None
  }

  /** The rows the update should leave, each of them once. */
  predicate Granted(c: Call, departments: set<Id>, g: Grant) {
    match c.data.mode
    case Company => g == Grant(CompanyScope, None, c.data.level)
    case Private => g == Grant(UserScope, Some(Owner(c)), Manage)
    case Custom => CustomGrant(c, Users(c), departments, g)
  }

  predicate CustomGrant(c: Call, users: set<Id>, departments: set<Id>, g: Grant) {
    || (g.scope == UserScope && g.id.Some? && g.id.value in users && g.level == LevelOf(c, g.id.value))
    || (g.scope == DepartmentScope && g.id.Some? && g.id.value in departments && g.level == Use)
  }

  ghost predicate NoDuplicates(rows: seq<Grant>) {
    forall i, j | 0 <= i < j < |rows| :: rows[i] != rows[j]
  }

  ghost predicate Rewritten(c: Call, departments: set<Id>, rows: seq<Grant>) {
    NoDuplicates(rows) && forall g :: g in rows <==> Granted(c, departments, g)
  }

  // ----- What the specification gives -----

  /** One row per user and per department, whatever the lists repeat. */
  lemma OneGrantEach(c: Call, departments: set<Id>, rows: seq<Grant>, i: nat, j: nat)
    requires Rewritten(c, departments, rows) && i < |rows| && j < |rows|
    requires rows[i].scope == rows[j].scope && rows[i].id == rows[j].id
    ensures i == j
  {
    assert rows[i] in rows && rows[j] in rows;
  }

  /** The table an update leaves is determined, up to the order of the rows. */
  lemma RewrittenUnique(c: Call, departments: set<Id>, rows: seq<Grant>, other: seq<Grant>)
    requires Rewritten(c, departments, rows) && Rewritten(c, departments, other)
    ensures multiset(rows) == multiset(other)
  {
    forall g ensures multiset(rows)[g] == multiset(other)[g] {
      CountedOnce(rows, g);
      CountedOnce(other, g);
    }
  }

  lemma {:induction false} CountedOnce(rows: seq<Grant>, g: Grant)
    requires NoDuplicates(rows)
    ensures multiset(rows)[g] == if g in rows then 1 else 0
  {
    if rows != [] {
      var rest := rows[1..];
      assert rows == [rows[0]] + rest;
      CountedOnce(rest, g);
      assert rows[0] !in rest;
    }
  }

  lemma RewrittenDepartments(c: Call, departments: set<Id>, rows: seq<Grant>)
    requires Rewritten(c, departments, rows)
    ensures DepartmentsOf(rows) == if c.data.mode == Custom then departments else {}
  {
    forall d ensures d in DepartmentsOf(rows) <==> c.data.mode == Custom && d in departments {
      if d in DepartmentsOf(rows) {
        var i :| 0 <= i < |rows| && rows[i].scope == DepartmentScope && rows[i].id == Some(d);
        assert rows[i] in rows;
      }
      if c.data.mode == Custom && d in departments {
        var g := Grant(DepartmentScope, Some(d), Use);
        assert Granted(c, departments, g);
        assert g in rows;
      }
    }
  }

  /** Sending the same update again is accepted and leaves the same rows, departments omitted or not. */
  lemma UpdateIdempotent(c: Call, before: seq<Grant>, rows: seq<Grant>, again: seq<Grant>)
    requires Rejection(c, before).None?
    requires Rewritten(c, Departments(c, before), rows) && Rewritten(c, Departments(c, rows), again)
    ensures Rejection(c, rows).None?
    ensures multiset(rows) == multiset(again)
  {
    RewrittenDepartments(c, Departments(c, before), rows);
    assert Departments(c, rows) == Departments(c, before);
    RewrittenUnique(c, Departments(c, before), rows, again);
  }

  /** Company or private sharing forgets the departments: a later custom update that omits them finds none. */
  lemma DepartmentsForgotten(c: Call, rows: seq<Grant>, later: Call)
    requires c.data.mode != Custom && Rewritten(c, {}, rows)
    requires later.data.mode == Custom && later.data.departmentIds.None?
    ensures Departments(later, rows) == {}
  {
    RewrittenDepartments(c, {}, rows);
  }

  // ----- The same, row by row -----

  /** The creator, or whoever makes the call when the agent has none; and the tenant's administrators. */
  predicate MustManage(c: Call, uid: Id) {
    || (if c.agent.creator.Some? then c.agent.creator == Some(uid) else c.currentUser == uid)
    || uid in c.directory.admins
  }

  predicate Names(entry: Access, uid: Id) {
    entry.id == Some(uid) || (entry.id.None? && entry.userId == Some(uid))
  }

  predicate FirstNaming(access: seq<Access>, i: int, uid: Id) {
    0 <= i < |access| && Names(access[i], uid) && forall k | 0 <= k < i :: !Names(access[k], uid)
  }

  /** This user has a row of this level under custom sharing. */
  ghost predicate UserRow(c: Call, uid: Id, level: Level) {
    var access := c.data.userAccess;
    if MustManage(c, uid) then level == Manage
    else if exists entry :: entry in access && Names(entry, uid) then
      exists i :: FirstNaming(access, i, uid) && level == access[i].level
    else uid in c.data.scopeIds && level == c.data.level
  }

  ghost predicate DepartmentRow(c: Call, before: seq<Grant>, d: Id) {
    match c.data.departmentIds
    case Some(ids) => d in ids
    case None => exists row :: row in before && row.scope == DepartmentScope && row.id == Some(d)
  }

  predicate IsRow(g: Grant, scope: Scope, id: Id) {
    g.scope == scope && g.id == Some(id)
  }

  lemma {:induction false} FirstLevelIs(access: seq<Access>, uid: Id)
    ensures (exists entry :: entry in access && Names(entry, uid)) ==>
              exists i :: FirstNaming(access, i, uid) && FirstLevel(access, uid) == Some(access[i].level)
    ensures (forall entry | entry in access :: !Names(entry, uid)) ==> FirstLevel(access, uid).None?
  {
    if access != [] {
      var rest := access[1..];
      assert access == [access[0]] + rest;
      assert Names(access[0], uid) <==> access[0].User() == Some(uid);
      FirstLevelIs(rest, uid);
      if Names(access[0], uid) {
        assert FirstNaming(access, 0, uid);
      } else if i :| FirstNaming(rest, i, uid) && FirstLevel(rest, uid) == Some(rest[i].level) {
        forall k | 0 <= k < i + 1 ensures !Names(access[k], uid) {
          if k > 0 { assert access[k] == rest[k - 1]; }
        }
        assert FirstNaming(access, i + 1, uid);
      }
    }
  }

  lemma FirstNamingUnique(access: seq<Access>, i: int, j: int, uid: Id)
    requires FirstNaming(access, i, uid) && FirstNaming(access, j, uid)
    ensures i == j
  {
  }

  lemma ListedIff(access: seq<Access>, uid: Id)
    ensures uid in Listed(access) <==> exists entry :: entry in access && Names(entry, uid)
  {
    if entry :| entry in access && Names(entry, uid) {
      var i :| 0 <= i < |access| && access[i] == entry;
      assert access[i].User() == Some(uid);
    }
    if uid in Listed(access) {
      var i :| 0 <= i < |access| && access[i].User() == Some(uid);
      assert access[i] in access && Names(access[i], uid);
    }
  }

  lemma UserRowIff(c: Call, uid: Id, level: Level)
    ensures UserRow(c, uid, level) <==> uid in Users(c) && level == LevelOf(c, uid)
  {
    var access := c.data.userAccess;
    assert MustManage(c, uid) <==> uid in Required(c);
    FirstLevelIs(access, uid);
    ListedIff(access, uid);
    forall i, j | FirstNaming(access, i, uid) && FirstNaming(access, j, uid) ensures i == j {
      FirstNamingUnique(access, i, j, uid);
    }
  }

  lemma DepartmentRowIff(c: Call, before: seq<Grant>, d: Id)
    requires c.data.mode == Custom
    ensures DepartmentRow(c, before, d) <==> d in Departments(c, before)
  {
    if c.data.departmentIds.None? {
      if row :| row in before && row.scope == DepartmentScope && row.id == Some(d) {
        var i :| 0 <= i < |before| && before[i] == row;
        assert before[i].id.Some?;
      }
    }
  }

  /** Custom sharing leaves a row for each administrator, the owner, and each user listed or in scope, and one for each
      department. */
  lemma CustomRows(c: Call, before: seq<Grant>, rows: seq<Grant>, g: Grant)
    requires c.data.mode == Custom && Rewritten(c, Departments(c, before), rows)
    ensures g in rows <==>
            || (exists uid :: IsRow(g, UserScope, uid) && UserRow(c, uid, g.level))
            || (exists d :: IsRow(g, DepartmentScope, d) && DepartmentRow(c, before, d) && g.level == Use)
  {
    if g.id.Some? {
      UserRowIff(c, g.id.value, g.level);
      DepartmentRowIff(c, before, g.id.value);
      assert g.scope == UserScope ==> IsRow(g, UserScope, g.id.value);
      assert g.scope == DepartmentScope ==> IsRow(g, DepartmentScope, g.id.value);
    }
  }

  /** Company sharing leaves one row with the level asked for, private sharing one that lets the owner manage. */
  lemma SharedRows(c: Call, before: seq<Grant>, rows: seq<Grant>)
    requires c.data.mode != Custom && Rewritten(c, Departments(c, before), rows)
    ensures |rows| == 1
    ensures c.data.mode == Company ==> rows[0] == Grant(CompanyScope, None, c.data.level)
    ensures c.data.mode == Private ==>
              var owner := if c.agent.creator.Some? then c.agent.creator else Some(c.currentUser);
              rows[0] == Grant(UserScope, owner, Manage)
  {
    var only := if c.data.mode == Company then Grant(CompanyScope, None, c.data.level)
                else Grant(UserScope, if c.agent.creator.Some? then c.agent.creator else Some(c.currentUser), Manage);
    assert Granted(c, Departments(c, before), only);
    assert only in rows;
    forall i | 0 <= i < |rows| ensures rows[i] == only {
      assert rows[i] in rows;
      assert Granted(c, Departments(c, before), rows[i]);
    }
    OneGrantEach(c, Departments(c, before), rows, 0, |rows| - 1);
  }

  predicate InTenant(tenants: map<Id, Option<Id>>, id: Id, tenant: Option<Id>) {
    id in tenants && tenants[id] == tenant
  }

  /** A department to keep or to set is not the agent's tenant's. */
  ghost predicate DepartmentElsewhere(c: Call, before: seq<Grant>) {
    exists d :: DepartmentRow(c, before, d) && !InTenant(c.directory.departments, d, c.agent.tenant)
  }

  ghost predicate Given(c: Call, uid: Id) {
    uid in c.data.scopeIds || exists entry :: entry in c.data.userAccess && Names(entry, uid)
  }

  /** A user listed or in scope is not the agent's tenant's. */
  ghost predicate UserElsewhere(c: Call) {
    exists uid :: Given(c, uid) && !InTenant(c.directory.users, uid, c.agent.tenant)
  }

  lemma DepartmentsElsewhereIff(c: Call, before: seq<Grant>)
    requires c.data.mode == Custom
    ensures DepartmentElsewhere(c, before) <==>
            !AllIn(c.directory.departments, Departments(c, before), c.agent.tenant)
  {
    forall d ensures DepartmentRow(c, before, d) <==> d in Departments(c, before) { DepartmentRowIff(c, before, d); }
  }

  lemma UsersElsewhereIff(c: Call)
    ensures UserElsewhere(c) <==>
            !AllIn(c.directory.users, Ids(c.data.scopeIds) + Listed(c.data.userAccess), c.agent.tenant)
  {
    forall uid ensures Given(c, uid) <==> uid in Ids(c.data.scopeIds) + Listed(c.data.userAccess) {
      ListedIff(c.data.userAccess, uid);
    }
  }

  /** Each refusal, and when it comes. */
  lemma RejectionIff(c: Call, before: seq<Grant>)
    ensures Rejection(c, before) ==
            if !c.manager then Some(Forbidden)
            else if c.data.mode != Custom then
              if c.data.departmentIds.Some? && c.data.departmentIds.value != [] then Some(DepartmentsNeedCustom)
              else None
            else if DepartmentElsewhere(c, before) then Some(InvalidDepartment)
            else if UserElsewhere(c) then Some(InvalidUser)
            else None
  {
    if c.data.mode == Custom { DepartmentsElsewhereIff(c, before); }
    UsersElsewhereIff(c);
  }

  // ----- The handler -----

  lemma SameSize(part: set<Id>, all: set<Id>)
    requires part <= all
    ensures |part| == |all| <==> part == all
  {
    assert all == part + (all - part);
  }

  lemma {:induction false} FirstLevelAt(access: seq<Access>, i: nat, uid: Id)
    requires i < |access| && access[i].User() == Some(uid) && uid !in Listed(access[..i])
    ensures FirstLevel(access, uid) == Some(access[i].level)
  {
    if i > 0 {
      assert access[..i][0].User() != Some(uid);
      var before := access[1..][..i - 1];
      forall k | 0 <= k < i - 1 ensures before[k].User() != Some(uid) {
        assert access[..i][k + 1] == before[k];
      }
      FirstLevelAt(access[1..], i - 1, uid);
    }
  }

  lemma {:induction false} FirstLevelNone(access: seq<Access>, uid: Id)
    requires uid !in Listed(access)
    ensures FirstLevel(access, uid).None?
  {
    if access != [] {
      assert access[0].User() != Some(uid);
      forall k | 0 <= k < |access| - 1 ensures access[1..][k].User() != Some(uid) {
        assert access[k + 1].User() != Some(uid);
      }
      FirstLevelNone(access[1..], uid);
    }
  }

  /** The rows hold exactly one grant for each of these users and departments. */
  ghost predicate Covers(c: Call, users: set<Id>, departments: set<Id>, rows: seq<Grant>) {
    NoDuplicates(rows) && forall g :: g in rows <==> CustomGrant(c, users, departments, g)
  }

  lemma CoverUser(c: Call, users: set<Id>, rows: seq<Grant>, uid: Id)
    requires Covers(c, users, {}, rows) && uid !in users
    ensures Covers(c, users + {uid}, {}, rows + [Grant(UserScope, Some(uid), LevelOf(c, uid))])
  {
    var g := Grant(UserScope, Some(uid), LevelOf(c, uid));
    assert !CustomGrant(c, users, {}, g);
  }

  lemma CoverDepartment(c: Call, users: set<Id>, departments: set<Id>, rows: seq<Grant>, d: Id)
    requires Covers(c, users, departments, rows) && d !in departments
    ensures Covers(c, users, departments + {d}, rows + [Grant(DepartmentScope, Some(d), Use)])
  {
    var g := Grant(DepartmentScope, Some(d), Use);
    assert !CustomGrant(c, users, departments, g);
  }

  lemma Member(ids: set<Id>)
    requires ids != {}
    ensures exists x :: x in ids
  {
    assert (forall x :: x !in ids) ==> ids == {};
  }

  predicate IsLeast(d: Id, ids: set<Id>) {
    d in ids && forall e | e in ids :: d <= e
  }

  lemma {:induction false} LeastExists(ids: set<Id>)
    requires ids != {}
    ensures exists d :: IsLeast(d, ids)
  {
    Member(ids);
    var x :| x in ids;
    var rest := ids - {x};
    assert ids == rest + {x};
    if rest == {} {
      assert IsLeast(x, ids);
    } else {
      LeastExists(rest);
      var d :| IsLeast(d, rest);
      assert IsLeast(if d <= x then d else x, ids);
    }
  }

  ghost predicate Ascending(rows: seq<Grant>) {
    && (forall g | g in rows :: g.id.Some?)
    && forall i, j | 0 <= i < j < |rows| :: rows[i].id.value < rows[j].id.value
  }

  class Permissions {
    var mode: Mode
    var companyLevel: Level
    var rows: seq<Grant>

    /** Validates first; then deletes every row and inserts the new ones, skipping users already seen. */
    method Update(c: Call) returns (outcome: Result<(), Error>)
      modifies this
      ensures outcome == match Rejection(c, old(rows)) case Some(e) => Err(e) case None => Ok(())
      ensures outcome.Err? ==> rows == old(rows) && mode == old(mode) && companyLevel == old(companyLevel)
      ensures outcome.Ok? ==> mode == c.data.mode && companyLevel == c.data.level
      ensures outcome.Ok? ==> Rewritten(c, Departments(c, old(rows)), rows)
    {
      if !c.manager {
        return Err(Forbidden);
      }
      var data := c.data;
      if data.mode != Custom && data.departmentIds.Some? && data.departmentIds.value != [] {
        return Err(DepartmentsNeedCustom);
      }
      var departmentIds: set<Id> := {};
      if data.mode == Custom {
        departmentIds := if data.departmentIds.None? then DepartmentsOf(rows) else Ids(data.departmentIds.value);
        var valid := Known(c.directory.departments, departmentIds, c.agent.tenant);
        if !valid {
          return Err(InvalidDepartment);
        }
        valid := Known(c.directory.users, Ids(data.scopeIds) + Listed(data.userAccess), c.agent.tenant);
        if !valid {
          return Err(InvalidUser);
        }
      }
      ghost var before := rows;
      rows := [];
      mode, companyLevel := data.mode, data.level;
      match data.mode {
        case Company => rows := rows + [Grant(CompanyScope, None, data.level)];
        case Private => rows := rows + [Grant(UserScope, Some(Owner(c)), Manage)];
        case Custom =>
          InsertUsers(c);
          InsertDepartments(c, Users(c), departmentIds);
      }
      return Ok(());
    }

    method InsertUsers(c: Call)
      requires rows == []
      modifies this`rows
      ensures Covers(c, Users(c), {}, rows)
    {
      var access, scopeIds := c.data.userAccess, c.data.scopeIds;
      var seen: set<Id> := {};
      for i := 0 to |access|
        invariant seen == Listed(access[..i]) && Covers(c, seen, {}, rows)
      {
        var uid := access[i].User();
        ListedNext(access, i);
        if uid.None? || uid.value in seen {
          continue;
        }
        FirstLevelAt(access, i, uid.value);
        CoverUser(c, seen, rows, uid.value);
        var level := if uid.value in Required(c) then Manage else access[i].level;
        seen := seen + {uid.value};
        rows := rows + [Grant(UserScope, uid, level)];
      }
      assert access[..|access|] == access;
      for j := 0 to |scopeIds|
        invariant seen == Listed(access) + Ids(scopeIds[..j]) && Covers(c, seen, {}, rows)
      {
        var sid := scopeIds[j];
        IdsNext(scopeIds, j);
        if sid !in seen {
          FirstLevelNone(access, sid);
          CoverUser(c, seen, rows, sid);
          seen := seen + {sid};
          rows := rows + [Grant(UserScope, Some(sid), if sid in Required(c) then Manage else c.data.level)];
        }
      }
      assert scopeIds[..|scopeIds|] == scopeIds;
      var left := Required(c);
      while left != {}
        invariant left <= Required(c)
        invariant Covers(c, seen + (Required(c) - left), {}, rows)
      {
        Member(left);
        var uid :| uid in left;
        if uid !in seen {
          CoverUser(c, seen + (Required(c) - left), rows, uid);
          rows := rows + [Grant(UserScope, Some(uid), Manage)];
        }
        assert seen + (Required(c) - (left - {uid})) == seen + (Required(c) - left) + {uid};
        if uid in seen {
          assert seen + (Required(c) - (left - {uid})) == seen + (Required(c) - left);
        }
        left := left - {uid};
      }
      assert seen + (Required(c) - left) == Users(c);
    }

    method InsertDepartments(c: Call, users: set<Id>, departments: set<Id>)
      requires Covers(c, users, {}, rows)
      modifies this`rows
      ensures Covers(c, users, departments, rows)
      ensures |rows| >= |old(rows)| && Ascending(rows[|old(rows)|..])
    {
      var left := departments;
      while left != {}
        invariant left <= departments && Covers(c, users, departments - left, rows)
        invariant |rows| >= |old(rows)| && Ascending(rows[|old(rows)|..])
        invariant forall g, e | g in rows[|old(rows)|..] && e in left :: g.id.value < e
      {
        LeastExists(left);
        var d :| IsLeast(d, left);
        CoverDepartment(c, users, departments - left, rows, d);
        assert departments - (left - {d}) == departments - left + {d};
        var g := Grant(DepartmentScope, Some(d), Use);
        assert (rows + [g])[|old(rows)|..] == rows[|old(rows)|..] + [g];
        rows := rows + [g];
        left := left - {d};
      }
      assert departments - left == departments;
    }
  }

  /** As many rows found as asked for, and none of another tenant. */
  method Known(tenants: map<Id, Option<Id>>, ids: set<Id>, tenant: Option<Id>) returns (valid: bool)
    ensures valid <==> AllIn(tenants, ids, tenant)
  {
    var found := set id | id in ids && id in tenants;
    SameSize(found, ids);
    valid := |found| == |ids| && forall id | id in found :: tenants[id] == tenant;
    if AllIn(tenants, ids, tenant) {
      forall id | id in ids ensures id in found {}
    }
  }

  lemma ListedNext(access: seq<Access>, i: nat)
    requires i < |access|
    ensures Listed(access[..i + 1]) ==
            Listed(access[..i]) + if access[i].User().Some? then {access[i].User().value} else {}
  {
  }

  lemma IdsNext(s: seq<Id>, i: nat)
    requires i < |s|
    ensures Ids(s[..i + 1]) == Ids(s[..i]) + {s[i]}
  {
  }
}
