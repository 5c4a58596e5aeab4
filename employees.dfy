/**
 * EmployeesService: the employee table, scoped to the caller's organization.
 *
 * Every operation first refuses a caller without a truthy `orgId`. Results are projections
 * that carry neither the password digest nor the refresh-token digest.
 */
module Employees {
  import opened Wrappers
  import opened Crypto
  import opened Store
  import opened Tenancy

  const EmployeeNotFound := NotFound("Employé introuvable")
  const DefaultPassword := "temp-1234"

  /** The columns the employee queries select: no digests, no organization. */
  datatype EmployeeView = EmployeeView(id: int, name: string, email: string, role: string, status: EmployeeStatus)

  function Public(e: Employee): EmployeeView {
    EmployeeView(e.id, e.name, e.email, e.role, e.status)
  }

  /**
   * findAll exactly as written: a non-admin's query is `where: {id: user.sub}`, and Prisma
   * drops a condition whose value is undefined, so a non-admin caller without `sub` gets
   * every employee of every organization.
   */
  function FindAllAsWritten(employees: map<int, Employee>, user: Option<Caller>): (r: Result<map<int, EmployeeView>, Error>)
    ensures r.Err? <==> RequireOrg(user).Err?
    ensures r.Err? ==> r.error == OrgMissing
    ensures r.Ok? ==> forall k :: k in r.value ==> k in employees && r.value[k] == Public(employees[k])
    ensures r.Ok? && IsAdmin(user.value) ==>
              forall k :: k in r.value <==> k in employees && employees[k].organizationId == user.value.orgId.value
    ensures r.Ok? && !IsAdmin(user.value) && user.value.sub.Some? ==>
              forall k :: k in r.value <==> k in employees && k == user.value.sub.value
    ensures r.Ok? && !IsAdmin(user.value) && user.value.sub.None? ==> r.value.Keys == employees.Keys
  {
    match RequireOrg(user)
    case Err(e) => Err(e)
    case Ok(orgId) =>
      if !IsAdmin(user.value) then
        Ok(map k | k in employees && WhereEquals(k, user.value.sub) :: Public(employees[k]))
      else
        Ok(map k | k in employees && employees[k].organizationId == orgId :: Public(employees[k]))
  }

  /**
   * findAll as intended: an admin gets exactly the employees of its organization, anyone
   * else at most the one row whose id is its `sub` (by id alone), and nothing without one.
   */
  function FindAll(employees: map<int, Employee>, user: Option<Caller>): (r: Result<map<int, EmployeeView>, Error>)
    ensures r.Err? <==> RequireOrg(user).Err?
    ensures r.Err? ==> r.error == OrgMissing
    ensures r.Ok? ==> forall k :: k in r.value ==> k in employees && r.value[k] == Public(employees[k])
    ensures r.Ok? && IsAdmin(user.value) ==>
              forall k :: k in r.value <==> k in employees && employees[k].organizationId == user.value.orgId.value
    ensures r.Ok? && !IsAdmin(user.value) ==>
              forall k :: k in r.value <==> k in employees && user.value.sub == Some(k)
  {
    match RequireOrg(user)
    case Err(e) => Err(e)
    case Ok(orgId) =>
      if !IsAdmin(user.value) then
        Ok(map k | k in employees && user.value.sub == Some(k) :: Public(employees[k]))
      else
        Ok(map k | k in employees && employees[k].organizationId == orgId :: Public(employees[k]))
  }

  /** Two organizations, an employee caller of the first without `sub`: the code returns the second's employee. */
  lemma FindAllAsWrittenCrossesTenants()
    ensures var alice := Employee(1, "Alice", "alice@one", "employee", Active, Hash("a"), None, 1);
            var bob := Employee(2, "Bob", "bob@two", "employee", Active, Hash("b"), None, 2);
            var table := map[1 := alice, 2 := bob];
            var caller := Some(Caller(Some(1), Some("employee"), None));
            && FindAllAsWritten(table, caller).Ok?
            && 2 in FindAllAsWritten(table, caller).value
            && FindAllAsWritten(table, caller).value[2] == Public(bob)
            && FindAll(table, caller) == Ok(map[])
  {
    var alice := Employee(1, "Alice", "alice@one", "employee", Active, Hash("a"), None, 1);
    var bob := Employee(2, "Bob", "bob@two", "employee", Active, Hash("b"), None, 2);
    var table := map[1 := alice, 2 := bob];
    var caller := Some(Caller(Some(1), Some("employee"), None));
    assert 2 in table;
    assert FindAll(table, caller).value.Keys == {};
  }

  /** The two agree whenever the caller is an admin or carries a `sub`. */
  lemma FindAllAgreesWithCode(employees: map<int, Employee>, user: Option<Caller>)
    requires user.Some? ==> IsAdmin(user.value) || user.value.sub.Some?
    ensures FindAll(employees, user) == FindAllAsWritten(employees, user)
  {
    if RequireOrg(user).Ok? && !IsAdmin(user.value) {
      var fixed, written := FindAll(employees, user).value, FindAllAsWritten(employees, user).value;
      assert fixed.Keys == written.Keys;
      assert forall k :: k in fixed ==> fixed[k] == written[k];
      assert fixed == written;
    }
  }

  /** findOne: a non-admin may only ask for itself; the row must be in the caller's organization. */
  function FindOne(employees: map<int, Employee>, id: int, user: Option<Caller>): (r: Result<EmployeeView, Error>)
    ensures RequireOrg(user).Err? ==> r == Err(OrgMissing)
    ensures RequireOrg(user).Ok? && !IsAdmin(user.value) && user.value.sub != Some(id) ==> r == Err(AccessDenied)
    ensures r.Ok? <==> RequireOrg(user).Ok? && (IsAdmin(user.value) || user.value.sub == Some(id))
                       && id in employees && Some(employees[id].organizationId) == user.value.orgId
    ensures r.Ok? ==> r.value == Public(employees[id])
    ensures r.Err? && RequireOrg(user).Ok? && (IsAdmin(user.value) || user.value.sub == Some(id)) ==> r == Err(EmployeeNotFound)
  {
    match RequireOrg(user)
    case Err(e) => Err(e)
    case Ok(orgId) =>
      if !IsAdmin(user.value) && user.value.sub != Some(id) then Err(AccessDenied)
      else if id in employees && employees[id].organizationId == orgId then Ok(Public(employees[id]))
      else Err(EmployeeNotFound)
  }

  /** The employee with this id in this organization, or NotFound. */
  function FindInOrg(employees: map<int, Employee>, id: int, orgId: int): (r: Result<Employee, Error>)
    ensures r.Ok? <==> id in employees && employees[id].organizationId == orgId
    ensures r.Ok? ==> r.value == employees[id]
    ensures r.Err? ==> r.error == EmployeeNotFound
  {
    if id in employees && employees[id].organizationId == orgId then Ok(employees[id]) else Err(EmployeeNotFound)
  }

  datatype CreateEmployeeDto = CreateEmployeeDto(name: string, email: string, role: string,
                                                 status: Option<EmployeeStatus>, password: Option<string>)

  /** The fields an update may set; an absent field is left as it is. */
  datatype UpdateEmployeeDto = UpdateEmployeeDto(name: Option<string>, email: Option<string>, role: Option<string>,
                                                 status: Option<EmployeeStatus>)

  /** The update body applied to a row: only the supplied fields change. */
  function ApplyUpdate(e: Employee, dto: UpdateEmployeeDto): (r: Employee)
    ensures r.id == e.id && r.organizationId == e.organizationId
    ensures r.password == e.password && r.refreshTokenHash == e.refreshTokenHash
    ensures r.name == (if dto.name.Some? then dto.name.value else e.name)
    ensures r.email == (if dto.email.Some? then dto.email.value else e.email)
    ensures r.role == (if dto.role.Some? then dto.role.value else e.role)
    ensures r.status == (if dto.status.Some? then dto.status.value else e.status)
    ensures dto == UpdateEmployeeDto(None, None, None, None) ==> r == e
  {
    e.(name := dto.name.GetOr(e.name), email := dto.email.GetOr(e.email), role := dto.role.GetOr(e.role),
       status := dto.status.GetOr(e.status))
  }

  /** The employee of (email, orgId) whose password resetPasswordByEmail replaces. */
  function ResetTarget(employees: map<int, Employee>, email: string, orgId: Option<int>): (r: Result<int, Error>)
    requires EmployeeTable(employees)
    ensures !Truthy(orgId) ==> r == Err(OrgMissing)
    ensures r.Ok? <==> Truthy(orgId) && exists k :: k in employees && employees[k].email == email
                                                 && employees[k].organizationId == orgId.value
    ensures r.Ok? ==> r.value in employees && employees[r.value].email == email
                      && employees[r.value].organizationId == orgId.value
    ensures Truthy(orgId) && r.Err? ==> r.error == EmployeeNotFound
  {
    match RequireOrgId(orgId)
    case Err(e) => Err(e)
    case Ok(org) =>
      match FindByEmail(employees, email)
      case None => Err(EmployeeNotFound)
      case Some(k) => if employees[k].organizationId == org then Ok(k) else Err(EmployeeNotFound)
  }

  class EmployeesService {
    const db: Database

    constructor (db: Database)
      ensures this.db == db
    {
      this.db := db;
    }

    /** create: the row joins the caller's organization; password `temp-1234` and status active by default. */
    method Create(dto: CreateEmployeeDto, user: Option<Caller>) returns (r: Result<EmployeeView, Error>)
      requires db.Valid()
      modifies db
      ensures db.Valid()
      ensures RequireOrg(user).Err? ==> r == Err(OrgMissing) && db.Snapshot() == old(db.Snapshot())
      ensures RequireOrg(user).Ok? && EmailTaken(old(db.employees), dto.email) ==>
                r == Err(Internal(UniqueViolation)) && db.Snapshot() == old(db.Snapshot())
      ensures RequireOrg(user).Ok? && !EmailTaken(old(db.employees), dto.email) && RequireOrg(user).value !in old(db.organizations) ==>
                r == Err(Internal(ForeignKeyViolation)) && db.Snapshot() == old(db.Snapshot())
      ensures RequireOrg(user).Ok? && !EmailTaken(old(db.employees), dto.email) && RequireOrg(user).value in old(db.organizations) ==>
                var id := old(db.nextEmployeeId);
                var e := Employee(id, dto.name, dto.email, dto.role, dto.status.GetOr(Active),
                                  Hash(dto.password.GetOr(DefaultPassword)), None, RequireOrg(user).value);
                && r == Ok(Public(e))
                && db.Snapshot() == old(db.Snapshot()).(employees := old(db.employees)[id := e], nextEmployeeId := id + 1)
    {
      var org := RequireOrg(user);
      if org.Err? {
        return Err(org.error);
      }
      var passwordHash := Hash(dto.password.GetOr(DefaultPassword));
      var made := db.CreateEmployee(dto.name, dto.email, dto.role, dto.status.GetOr(Active), passwordHash, org.value);
      if made.Err? {
        return Err(Internal(made.error));
      }
      r := Ok(Public(made.value));
    }

    /** update: only a row of the caller's organization; any failure of the write is reported as NotFound. */
    method Update(id: int, dto: UpdateEmployeeDto, user: Option<Caller>) returns (r: Result<EmployeeView, Error>)
      requires db.Valid()
      modifies db
      ensures db.Valid()
      ensures RequireOrg(user).Err? ==> r == Err(OrgMissing) && db.Snapshot() == old(db.Snapshot())
      ensures RequireOrg(user).Ok? && FindInOrg(old(db.employees), id, RequireOrg(user).value).Err? ==>
                r == Err(EmployeeNotFound) && db.Snapshot() == old(db.Snapshot())
      ensures RequireOrg(user).Ok? && FindInOrg(old(db.employees), id, RequireOrg(user).value).Ok? ==>
                var u := ApplyUpdate(old(db.employees)[id], dto);
                if EmailClash(old(db.employees), id, u.email) then
                  r == Err(EmployeeNotFound) && db.Snapshot() == old(db.Snapshot())
                else
                  r == Ok(Public(u)) && db.Snapshot() == old(db.Snapshot()).(employees := old(db.employees)[id := u])
    {
      var org := RequireOrg(user);
      if org.Err? {
        return Err(org.error);
      }
      var found := FindInOrg(db.employees, id, org.value);
      if found.Err? {
        return Err(found.error);
      }
      var written := db.UpdateEmployee(ApplyUpdate(found.value, dto));
      if written.Err? {
        return Err(EmployeeNotFound);
      }
      r := Ok(Public(written.value));
    }

    /** remove: only a row of the caller's organization. */
    method Remove(id: int, user: Option<Caller>) returns (r: Result<(), Error>)
      requires db.Valid()
      modifies db
      ensures db.Valid()
      ensures RequireOrg(user).Err? ==> r == Err(OrgMissing) && db.Snapshot() == old(db.Snapshot())
      ensures RequireOrg(user).Ok? && FindInOrg(old(db.employees), id, RequireOrg(user).value).Err? ==>
                r == Err(EmployeeNotFound) && db.Snapshot() == old(db.Snapshot())
      ensures RequireOrg(user).Ok? && FindInOrg(old(db.employees), id, RequireOrg(user).value).Ok? ==>
                r == Ok(()) && db.Snapshot() == old(db.Snapshot()).(employees := old(db.employees) - {id})
    {
      var org := RequireOrg(user);
      if org.Err? {
        return Err(org.error);
      }
      var found := FindInOrg(db.employees, id, org.value);
      if found.Err? {
        return Err(found.error);
      }
      var _ := db.DeleteEmployee(id);
      r := Ok(());
    }

    /** resetPasswordByEmail: replaces only the password digest of the employee of (email, orgId). */
    method ResetPasswordByEmail(email: string, newPassword: string, orgId: Option<int>) returns (r: Result<EmployeeView, Error>)
      requires db.Valid()
      modifies db
      ensures db.Valid()
      ensures ResetTarget(old(db.employees), email, orgId).Err? ==>
                r == Err(ResetTarget(old(db.employees), email, orgId).error) && db.Snapshot() == old(db.Snapshot())
      ensures ResetTarget(old(db.employees), email, orgId).Ok? ==>
                var k := ResetTarget(old(db.employees), email, orgId).value;
                var u := old(db.employees)[k].(password := Hash(newPassword));
                r == Ok(Public(u)) && db.Snapshot() == old(db.Snapshot()).(employees := old(db.employees)[k := u])
    {
      var target := ResetTarget(db.employees, email, orgId);
      if target.Err? {
        return Err(target.error);
      }
      var written := db.UpdateEmployee(db.employees[target.value].(password := Hash(newPassword)));
      if written.Err? {
        return Err(EmployeeNotFound);
      }
      r := Ok(Public(written.value));
    }
  }
}
