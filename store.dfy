/**
 * The persistent store the services share, with Prisma replaced by in-memory tables.
 *
 * Each table is a map from its key to its rows. Auto-incremented ids start at 1 and only
 * grow, so 0, which the services read as "missing", is never the id of a row. The unique
 * columns (employee email, organization code, invitation token) and the references to an
 * organization are the invariant `Valid`. Every primitive below is one Prisma call: it
 * either writes exactly what it says or fails with the constraint error the database
 * raises, and then writes nothing.
 */
module Store {
  import opened Wrappers
  import opened Crypto

  // ---------------------------------------------------------------- rows

  datatype EmployeeStatus = Active | Inactive

  datatype Employee = Employee(
    id: int,
    name: string,
    email: string,
    role: string,
    status: EmployeeStatus,
    password: Digest,
    refreshTokenHash: Option<Digest>,
    organizationId: int)

  datatype Organization = Organization(
    id: int,
    name: string,
    code: string,
    ownerId: Option<int>,
    planningImageUrl: Option<string>)

  /** Times are milliseconds since the epoch. */
  datatype Invitation = Invitation(
    token: string,
    email: string,
    organizationId: int,
    expiresAt: int,
    usedAt: Option<int>)

  /** `date` is the entry's instant in milliseconds since the epoch. */
  datatype PlanningEntry = PlanningEntry(
    id: int,
    date: int,
    shift: string,
    employeeId: Option<int>,
    note: Option<string>,
    organizationId: int)

  datatype RequestStatus = Pending | Approved | Rejected | Office

  datatype Request = Request(
    id: int,
    employeeId: int,
    requestType: string,
    status: RequestStatus,
    message: Option<string>,
    documentUrl: Option<string>,
    adminMessage: Option<string>,
    organizationId: int)

  // ---------------------------------------------------------------- errors

  /** What the database raises when a write breaks a constraint or finds no row. */
  datatype StoreError = UniqueViolation | ForeignKeyViolation | RecordNotFound

  /** The exceptions the services throw, by their HTTP class and message. */
  datatype Error =
    | Unauthorized(message: string)   // 401
    | BadRequest(message: string)     // 400
    | Forbidden(message: string)      // 403
    | NotFound(message: string)       // 404
    | Internal(cause: StoreError)     // a database error the service does not catch: 500

  const OrgMissing := Forbidden("Organisation manquante")
  const AccessDenied := Forbidden("Accès refusé")

  // ---------------------------------------------------------------- invariant

  datatype Tables = Tables(
    employees: map<int, Employee>,
    organizations: map<int, Organization>,
    invitations: map<string, Invitation>,
    planning: map<int, PlanningEntry>,
    requests: map<int, Request>,
    nextEmployeeId: int,
    nextOrganizationId: int,
    nextPlanningId: int,
    nextRequestId: int)

  predicate EmailTaken(employees: map<int, Employee>, email: string) {
    exists k :: k in employees && employees[k].email == email
  }

  predicate CodeTaken(organizations: map<int, Organization>, code: string) {
    exists k :: k in organizations && organizations[k].code == code
  }

  /** Some employee other than `id` already has `email`. */
  predicate EmailClash(employees: map<int, Employee>, id: int, email: string) {
    exists k :: k in employees && k != id && employees[k].email == email
  }

  /** Every employee is stored under its id, and no two share an email. */
  ghost predicate EmployeeTable(employees: map<int, Employee>) {
    && (forall k :: k in employees ==> employees[k].id == k)
    && (forall a, b :: a in employees && b in employees && employees[a].email == employees[b].email ==> a == b)
  }

  ghost predicate OrganizationTable(organizations: map<int, Organization>) {
    && (forall k :: k in organizations ==> organizations[k].id == k)
    && (forall a, b :: a in organizations && b in organizations && organizations[a].code == organizations[b].code ==> a == b)
  }

  ghost predicate InvitationTable(invitations: map<string, Invitation>, organizations: map<int, Organization>) {
    forall t :: t in invitations ==> invitations[t].token == t && invitations[t].organizationId in organizations
  }

  ghost predicate TablesValid(t: Tables) {
    && 1 <= t.nextEmployeeId && 1 <= t.nextOrganizationId && 1 <= t.nextPlanningId && 1 <= t.nextRequestId
    && EmployeeTable(t.employees)
    && (forall k :: k in t.employees ==> 1 <= k < t.nextEmployeeId && t.employees[k].organizationId in t.organizations)
    && OrganizationTable(t.organizations)
    && (forall k :: k in t.organizations ==> 1 <= k < t.nextOrganizationId)
    && InvitationTable(t.invitations, t.organizations)
    && (forall k :: k in t.planning ==>
          1 <= k < t.nextPlanningId && t.planning[k].id == k && t.planning[k].organizationId in t.organizations)
    && (forall k :: k in t.requests ==>
          1 <= k < t.nextRequestId && t.requests[k].id == k && t.requests[k].organizationId in t.organizations)
  }

  /** The key of the employee with this email; emails are unique. */
  function FindByEmail(employees: map<int, Employee>, email: string): (r: Option<int>)
    requires EmployeeTable(employees)
    ensures r.Some? <==> EmailTaken(employees, email)
    ensures r.Some? ==> r.value in employees && employees[r.value].email == email
  {
    if EmailTaken(employees, email) then
      var k :| k in employees && employees[k].email == email; Some(k)
    else None
  }

  /** The key of the organization with this join code; codes are unique. */
  function FindByCode(organizations: map<int, Organization>, code: string): (r: Option<int>)
    requires OrganizationTable(organizations)
    ensures r.Some? <==> CodeTaken(organizations, code)
    ensures r.Some? ==> r.value in organizations && organizations[r.value].code == code
  {
    if CodeTaken(organizations, code) then
      var k :| k in organizations && organizations[k].code == code; Some(k)
    else None
  }

  // ---------------------------------------------------------------- the database

  class Database {
    var employees: map<int, Employee>
    var organizations: map<int, Organization>
    var invitations: map<string, Invitation>
    var planning: map<int, PlanningEntry>
    var requests: map<int, Request>
    var nextEmployeeId: int
    var nextOrganizationId: int
    var nextPlanningId: int
    var nextRequestId: int

    ghost function Snapshot(): Tables
      reads this
    {
      Tables(employees, organizations, invitations, planning, requests,
             nextEmployeeId, nextOrganizationId, nextPlanningId, nextRequestId)
    }

    ghost predicate Valid()
      reads this
    {
      TablesValid(Snapshot())
    }

    constructor ()
      ensures Valid()
      ensures employees == map[] && organizations == map[] && invitations == map[]
      ensures planning == map[] && requests == map[]
    {
      employees, organizations, invitations, planning, requests := map[], map[], map[], map[], map[];
      nextEmployeeId, nextOrganizationId, nextPlanningId, nextRequestId := 1, 1, 1, 1;
    }

    // ------------------------------------------------------------ employee

    /** prisma.employee.create: the new row has the next id and no refresh-token hash. */
    method CreateEmployee(name: string, email: string, role: string, status: EmployeeStatus,
                          password: Digest, organizationId: int)
      returns (r: Result<Employee, StoreError>)
      requires Valid()
      modifies this
      ensures Valid()
      ensures EmailTaken(old(employees), email) ==> r == Err(UniqueViolation) && Snapshot() == old(Snapshot())
      ensures !EmailTaken(old(employees), email) && organizationId !in old(organizations) ==>
                r == Err(ForeignKeyViolation) && Snapshot() == old(Snapshot())
      ensures !EmailTaken(old(employees), email) && organizationId in old(organizations) ==>
                var e := Employee(old(nextEmployeeId), name, email, role, status, password, None, organizationId);
                && r == Ok(e)
                && Snapshot() == old(Snapshot()).(employees := old(employees)[e.id := e],
                                                  nextEmployeeId := old(nextEmployeeId) + 1)
    {
      if EmailTaken(employees, email) {
        return Err(UniqueViolation);
      }
      if organizationId !in organizations {
        return Err(ForeignKeyViolation);
      }
      var e := Employee(nextEmployeeId, name, email, role, status, password, None, organizationId);
      employees := employees[e.id := e];
      nextEmployeeId := nextEmployeeId + 1;
      r := Ok(e);
    }

    /** prisma.employee.update: overwrites the row stored under `row.id`. */
    method UpdateEmployee(row: Employee) returns (r: Result<Employee, StoreError>)
      requires Valid()
      requires row.id in employees ==> row.organizationId == employees[row.id].organizationId
      modifies this
      ensures Valid()
      ensures row.id !in old(employees) ==> r == Err(RecordNotFound) && Snapshot() == old(Snapshot())
      ensures row.id in old(employees) && EmailClash(old(employees), row.id, row.email) ==>
                r == Err(UniqueViolation) && Snapshot() == old(Snapshot())
      ensures row.id in old(employees) && !EmailClash(old(employees), row.id, row.email) ==>
                r == Ok(row) && Snapshot() == old(Snapshot()).(employees := old(employees)[row.id := row])
    {
      if row.id !in employees {
        return Err(RecordNotFound);
      }
      if EmailClash(employees, row.id, row.email) {
        return Err(UniqueViolation);
      }
      employees := employees[row.id := row];
      r := Ok(row);
    }

    /** prisma.employee.delete. */
    method DeleteEmployee(id: int) returns (r: Result<(), StoreError>)
      requires Valid()
      modifies this
      ensures Valid()
      ensures id !in old(employees) ==> r == Err(RecordNotFound) && Snapshot() == old(Snapshot())
      ensures id in old(employees) ==> r == Ok(()) && Snapshot() == old(Snapshot()).(employees := old(employees) - {id})
    {
      if id !in employees {
        return Err(RecordNotFound);
      }
      employees := employees - {id};
      r := Ok(());
    }

    // ------------------------------------------------------------ organization

    /** prisma.organization.create: no owner and no planning image yet. */
    method CreateOrganization(name: string, code: string) returns (r: Result<Organization, StoreError>)
      requires Valid()
      modifies this
      ensures Valid()
      ensures CodeTaken(old(organizations), code) ==> r == Err(UniqueViolation) && Snapshot() == old(Snapshot())
      ensures !CodeTaken(old(organizations), code) ==>
                var o := Organization(old(nextOrganizationId), name, code, None, None);
                && r == Ok(o)
                && Snapshot() == old(Snapshot()).(organizations := old(organizations)[o.id := o],
                                                  nextOrganizationId := old(nextOrganizationId) + 1)
    {
      if CodeTaken(organizations, code) {
        return Err(UniqueViolation);
      }
      var o := Organization(nextOrganizationId, name, code, None, None);
      organizations := organizations[o.id := o];
      nextOrganizationId := nextOrganizationId + 1;
      r := Ok(o);
    }

    /** prisma.organization.update of columns other than the id and the code. */
    method UpdateOrganization(row: Organization) returns (r: Result<Organization, StoreError>)
      requires Valid()
      requires row.id in organizations ==> row.code == organizations[row.id].code
      modifies this
      ensures Valid()
      ensures row.id !in old(organizations) ==> r == Err(RecordNotFound) && Snapshot() == old(Snapshot())
      ensures row.id in old(organizations) ==>
                r == Ok(row) && Snapshot() == old(Snapshot()).(organizations := old(organizations)[row.id := row])
    {
      if row.id !in organizations {
        return Err(RecordNotFound);
      }
      organizations := organizations[row.id := row];
      r := Ok(row);
    }

    // ------------------------------------------------------------ invitation

    /** prisma.invitation.deleteMany where {email, organizationId, usedAt: null}. */
    method DeletePendingInvitations(email: string, organizationId: int)
      requires Valid()
      modifies this
      ensures Valid()
      ensures Snapshot() == old(Snapshot()).(invitations := WithoutPending(old(invitations), email, organizationId))
    {
      invitations := WithoutPending(invitations, email, organizationId);
    }

    /** prisma.invitation.create. */
    method CreateInvitation(row: Invitation) returns (r: Result<Invitation, StoreError>)
      requires Valid()
      modifies this
      ensures Valid()
      ensures row.token in old(invitations) ==> r == Err(UniqueViolation) && Snapshot() == old(Snapshot())
      ensures row.token !in old(invitations) && row.organizationId !in old(organizations) ==>
                r == Err(ForeignKeyViolation) && Snapshot() == old(Snapshot())
      ensures row.token !in old(invitations) && row.organizationId in old(organizations) ==>
                r == Ok(row) && Snapshot() == old(Snapshot()).(invitations := old(invitations)[row.token := row])
    {
      if row.token in invitations {
        return Err(UniqueViolation);
      }
      if row.organizationId !in organizations {
        return Err(ForeignKeyViolation);
      }
      invitations := invitations[row.token := row];
      r := Ok(row);
    }

    /** prisma.invitation.update where {token}, setting usedAt. */
    method MarkInvitationUsed(token: string, at: int) returns (r: Result<Invitation, StoreError>)
      requires Valid()
      modifies this
      ensures Valid()
      ensures token !in old(invitations) ==> r == Err(RecordNotFound) && Snapshot() == old(Snapshot())
      ensures token in old(invitations) ==>
                var i := old(invitations)[token].(usedAt := Some(at));
                r == Ok(i) && Snapshot() == old(Snapshot()).(invitations := old(invitations)[token := i])
    {
      if token !in invitations {
        return Err(RecordNotFound);
      }
      var i := invitations[token].(usedAt := Some(at));
      invitations := invitations[token := i];
      r := Ok(i);
    }

    // ------------------------------------------------------------ planning entry

    /** prisma.planningEntry.create. */
    method CreatePlanningEntry(date: int, shift: string, employeeId: Option<int>, note: Option<string>,
                               organizationId: int)
      returns (r: Result<PlanningEntry, StoreError>)
      requires Valid()
      modifies this
      ensures Valid()
      ensures organizationId !in old(organizations) ==> r == Err(ForeignKeyViolation) && Snapshot() == old(Snapshot())
      ensures organizationId in old(organizations) ==>
                var e := PlanningEntry(old(nextPlanningId), date, shift, employeeId, note, organizationId);
                && r == Ok(e)
                && Snapshot() == old(Snapshot()).(planning := old(planning)[e.id := e],
                                                  nextPlanningId := old(nextPlanningId) + 1)
    {
      if organizationId !in organizations {
        return Err(ForeignKeyViolation);
      }
      var e := PlanningEntry(nextPlanningId, date, shift, employeeId, note, organizationId);
      planning := planning[e.id := e];
      nextPlanningId := nextPlanningId + 1;
      r := Ok(e);
    }

    /** prisma.planningEntry.update of a row, keeping its id and organization. */
    method UpdatePlanningEntry(row: PlanningEntry) returns (r: Result<PlanningEntry, StoreError>)
      requires Valid()
      requires row.id in planning ==> row.organizationId == planning[row.id].organizationId
      modifies this
      ensures Valid()
      ensures row.id !in old(planning) ==> r == Err(RecordNotFound) && Snapshot() == old(Snapshot())
      ensures row.id in old(planning) ==>
                r == Ok(row) && Snapshot() == old(Snapshot()).(planning := old(planning)[row.id := row])
    {
      if row.id !in planning {
        return Err(RecordNotFound);
      }
      planning := planning[row.id := row];
      r := Ok(row);
    }

    /** prisma.planningEntry.delete. */
    method DeletePlanningEntry(id: int) returns (r: Result<(), StoreError>)
      requires Valid()
      modifies this
      ensures Valid()
      ensures id !in old(planning) ==> r == Err(RecordNotFound) && Snapshot() == old(Snapshot())
      ensures id in old(planning) ==> r == Ok(()) && Snapshot() == old(Snapshot()).(planning := old(planning) - {id})
    {
      if id !in planning {
        return Err(RecordNotFound);
      }
      planning := planning - {id};
      r := Ok(());
    }

    // ------------------------------------------------------------ request

    /** prisma.request.create. */
    method CreateRequest(employeeId: int, requestType: string, status: RequestStatus, message: Option<string>,
                         documentUrl: Option<string>, organizationId: int)
      returns (r: Result<Request, StoreError>)
      requires Valid()
      modifies this
      ensures Valid()
      ensures organizationId !in old(organizations) ==> r == Err(ForeignKeyViolation) && Snapshot() == old(Snapshot())
      ensures organizationId in old(organizations) ==>
                var q := Request(old(nextRequestId), employeeId, requestType, status, message, documentUrl, None, organizationId);
                && r == Ok(q)
                && Snapshot() == old(Snapshot()).(requests := old(requests)[q.id := q],
                                                  nextRequestId := old(nextRequestId) + 1)
    {
      if organizationId !in organizations {
        return Err(ForeignKeyViolation);
      }
      var q := Request(nextRequestId, employeeId, requestType, status, message, documentUrl, None, organizationId);
      requests := requests[q.id := q];
      nextRequestId := nextRequestId + 1;
      r := Ok(q);
    }

    /** prisma.request.update of a row, keeping its id and organization. */
    method UpdateRequest(row: Request) returns (r: Result<Request, StoreError>)
      requires Valid()
      requires row.id in requests ==> row.organizationId == requests[row.id].organizationId
      modifies this
      ensures Valid()
      ensures row.id !in old(requests) ==> r == Err(RecordNotFound) && Snapshot() == old(Snapshot())
      ensures row.id in old(requests) ==>
                r == Ok(row) && Snapshot() == old(Snapshot()).(requests := old(requests)[row.id := row])
    {
      if row.id !in requests {
        return Err(RecordNotFound);
      }
      requests := requests[row.id := row];
      r := Ok(row);
    }

    /** prisma.request.delete. */
    method DeleteRequest(id: int) returns (r: Result<(), StoreError>)
      requires Valid()
      modifies this
      ensures Valid()
      ensures id !in old(requests) ==> r == Err(RecordNotFound) && Snapshot() == old(Snapshot())
      ensures id in old(requests) ==> r == Ok(()) && Snapshot() == old(Snapshot()).(requests := old(requests) - {id})
    {
      if id !in requests {
        return Err(RecordNotFound);
      }
      requests := requests - {id};
      r := Ok(());
    }
  }

  /** The invitation table once every unused invitation for (email, organizationId) is gone. */
  function WithoutPending(invitations: map<string, Invitation>, email: string, organizationId: int): (r: map<string, Invitation>)
    ensures forall t :: t in r <==> t in invitations && !(invitations[t].email == email
                                                          && invitations[t].organizationId == organizationId
                                                          && invitations[t].usedAt.None?)
    ensures forall t :: t in r ==> r[t] == invitations[t]
  {
    map t | t in invitations && !(invitations[t].email == email && invitations[t].organizationId == organizationId
                                  && invitations[t].usedAt.None?) :: invitations[t]
  }
}
