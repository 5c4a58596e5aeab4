/**
 * RequestsService: leave and document requests of the caller's organization, listed with the
 * e-mail of the organization's owner (the manager), filed by employees, answered by admins.
 */
module Requests {
  import opened Wrappers
  import opened Store
  import opened Tenancy

  const RequestNotFound := NotFound("Demande introuvable")
  const EmployeeMissing := Forbidden("Employé manquant")

  /** A request row without its organization relation, plus the manager's e-mail. */
  datatype RequestView = RequestView(
    id: int,
    employeeId: int,
    requestType: string,
    status: RequestStatus,
    message: Option<string>,
    documentUrl: Option<string>,
    adminMessage: Option<string>,
    organizationId: int,
    managerEmail: Option<string>)

  /** The e-mail of the organization's owner, absent when there is no organization, owner or owner row. */
  function ManagerEmail(organizations: map<int, Organization>, employees: map<int, Employee>, orgId: int)
    : (r: Option<string>)
    ensures r.Some? <==> orgId in organizations && organizations[orgId].ownerId.Some?
                         && organizations[orgId].ownerId.value in employees
    ensures r.Some? ==> r.value == employees[organizations[orgId].ownerId.value].email
  {
    if orgId in organizations && organizations[orgId].ownerId.Some? && organizations[orgId].ownerId.value in employees
    then Some(employees[organizations[orgId].ownerId.value].email)
    else None
  }

  function ViewOf(q: Request, managerEmail: Option<string>): RequestView {
    RequestView(q.id, q.employeeId, q.requestType, q.status, q.message, q.documentUrl, q.adminMessage,
                q.organizationId, managerEmail)
  }

  /**
   * The employeeId condition of findAll's filter. A non-admin is restricted to `sub` (no condition when
   * `sub` is absent), but a truthy `employeeId` argument is spread afterwards and replaces it.
   */
  function EmployeeFilter(employeeId: Option<int>, user: Caller): (f: Option<int>)
    ensures Truthy(employeeId) ==> f == employeeId
    ensures !Truthy(employeeId) && IsAdmin(user) ==> f.None?
    ensures !Truthy(employeeId) && !IsAdmin(user) ==> f == user.sub
  {
    if Truthy(employeeId) then employeeId
    else if !IsAdmin(user) then user.sub
    else None
  }

  /** findAll: the matching requests of the caller's organization, keyed by id. */
  function FindAll(requests: map<int, Request>, organizations: map<int, Organization>,
                   employees: map<int, Employee>, employeeId: Option<int>, user: Option<Caller>)
    : (r: Result<map<int, RequestView>, Error>)
    ensures r.Err? <==> RequireOrg(user).Err?
    ensures r.Err? ==> r.error == OrgMissing
    ensures r.Ok? ==> forall k :: k in r.value ==>
              && k in requests
              && requests[k].organizationId == user.value.orgId.value
              && r.value[k] == ViewOf(requests[k], ManagerEmail(organizations, employees, requests[k].organizationId))
    ensures r.Ok? ==> forall k :: k in r.value ==> WhereEquals(requests[k].employeeId, EmployeeFilter(employeeId, user.value))
    ensures r.Ok? ==> forall k :: k in requests && requests[k].organizationId == user.value.orgId.value
                                 && WhereEquals(requests[k].employeeId, EmployeeFilter(employeeId, user.value))
                                 ==> k in r.value
  {
    match RequireOrg(user)
    case Err(e) => Err(e)
    case Ok(orgId) =>
      var filter := EmployeeFilter(employeeId, user.value);
      Ok(map k | k in requests && requests[k].organizationId == orgId && WhereEquals(requests[k].employeeId, filter)
               :: ViewOf(requests[k], ManagerEmail(organizations, employees, requests[k].organizationId)))
  }

  /** A non-admin who names an employeeId in the query is shown that employee's requests, not only its own. */
  lemma EmployeeIdArgumentOverridesRestriction(requests: map<int, Request>, organizations: map<int, Organization>,
                                               employees: map<int, Employee>, other: int, user: Caller, k: int)
    requires Truthy(user.orgId) && !IsAdmin(user) && other != 0
    requires k in requests && requests[k].organizationId == user.orgId.value && requests[k].employeeId == other
    ensures FindAll(requests, organizations, employees, Some(other), Some(user)).Ok?
    ensures k in FindAll(requests, organizations, employees, Some(other), Some(user)).value
  {
    assert EmployeeFilter(Some(other), user) == Some(other);
  }

  /** A non-admin who names no employee sees only its own requests. */
  lemma NonAdminSeesOwnRequests(requests: map<int, Request>, organizations: map<int, Organization>,
                                employees: map<int, Employee>, user: Caller, k: int)
    requires Truthy(user.orgId) && !IsAdmin(user) && user.sub.Some?
    requires k in FindAll(requests, organizations, employees, None, Some(user)).value
    ensures requests[k].employeeId == user.sub.value
  {
    assert EmployeeFilter(None, user) == user.sub;
  }

  /** The body of a create call: `type` is a reserved word here, hence `requestType`. */
  datatype CreateRequestDto = CreateRequestDto(employeeId: Option<int>, requestType: string, message: Option<string>,
                                               documentUrl: Option<string>)

  /** The employee a new request is filed for, or why the caller may not file it. */
  function RequestAuthor(dto: CreateRequestDto, user: Caller): (r: Result<int, Error>)
    ensures r == Err(AccessDenied) <==> !IsAdmin(user) && Truthy(dto.employeeId) && dto.employeeId != user.sub
    ensures r.Err? ==> r == Err(AccessDenied) || r == Err(EmployeeMissing)
    ensures r.Ok? ==> r.value != 0
    ensures r.Ok? && !IsAdmin(user) ==> user.sub == Some(r.value)
    ensures r.Ok? && dto.employeeId.Some? ==> r.value == dto.employeeId.value
    ensures r.Ok? && dto.employeeId.None? ==> user.sub == Some(r.value)
    ensures r.Err? && r != Err(AccessDenied) ==> dto.employeeId == Some(0) || (dto.employeeId.None? && !Truthy(user.sub))
  {
    if !IsAdmin(user) && Truthy(dto.employeeId) && dto.employeeId != user.sub then Err(AccessDenied)
    else
      var employeeId := if dto.employeeId.Some? then dto.employeeId else user.sub;
      if !Truthy(employeeId) then Err(EmployeeMissing) else Ok(employeeId.value)
  }

  function FindInOrg(requests: map<int, Request>, id: int, orgId: int): (r: Result<Request, Error>)
    ensures r.Ok? <==> id in requests && requests[id].organizationId == orgId
    ensures r.Ok? ==> r.value == requests[id]
    ensures r.Err? ==> r.error == RequestNotFound
  {
    if id in requests && requests[id].organizationId == orgId then Ok(requests[id]) else Err(RequestNotFound)
  }

  datatype UpdateRequestDto = UpdateRequestDto(status: Option<RequestStatus>, message: Option<string>,
                                               documentUrl: Option<string>, adminMessage: Option<string>)

  /** The data of update: every field the body omits keeps its value. */
  function ApplyUpdate(q: Request, dto: UpdateRequestDto): (r: Request)
    ensures r.id == q.id && r.employeeId == q.employeeId && r.requestType == q.requestType
    ensures r.organizationId == q.organizationId
    ensures r.status == (if dto.status.Some? then dto.status.value else q.status)
    ensures r.message == (if dto.message.Some? then dto.message else q.message)
    ensures r.documentUrl == (if dto.documentUrl.Some? then dto.documentUrl else q.documentUrl)
    ensures r.adminMessage == (if dto.adminMessage.Some? then dto.adminMessage else q.adminMessage)
    ensures dto == UpdateRequestDto(None, None, None, None) ==> r == q
  {
    q.(status := dto.status.GetOr(q.status),
       message := if dto.message.Some? then dto.message else q.message,
       documentUrl := if dto.documentUrl.Some? then dto.documentUrl else q.documentUrl,
       adminMessage := if dto.adminMessage.Some? then dto.adminMessage else q.adminMessage)
  }

  class RequestsService {
    const db: Database

    constructor (db: Database)
      ensures this.db == db
    {
      this.db := db;
    }

    /** create: a pending request of the caller's organization; store errors are not caught. */
    method Create(dto: CreateRequestDto, user: Option<Caller>) returns (r: Result<Request, Error>)
      requires db.Valid()
      modifies db
      ensures db.Valid()
      ensures RequireOrg(user).Err? ==> r == Err(OrgMissing) && db.Snapshot() == old(db.Snapshot())
      ensures RequireOrg(user).Ok? && RequestAuthor(dto, user.value).Err? ==>
                r == Err(RequestAuthor(dto, user.value).error) && db.Snapshot() == old(db.Snapshot())
      ensures RequireOrg(user).Ok? && RequestAuthor(dto, user.value).Ok? && user.value.orgId.value !in old(db.organizations) ==>
                r == Err(Internal(ForeignKeyViolation)) && db.Snapshot() == old(db.Snapshot())
      ensures RequireOrg(user).Ok? && RequestAuthor(dto, user.value).Ok? && user.value.orgId.value in old(db.organizations) ==>
                var id := old(db.nextRequestId);
                var q := Request(id, RequestAuthor(dto, user.value).value, dto.requestType, Pending, dto.message,
                                 dto.documentUrl, None, user.value.orgId.value);
                && r == Ok(q)
                && db.Snapshot() == old(db.Snapshot()).(requests := old(db.requests)[id := q], nextRequestId := id + 1)
    {
      var org := RequireOrg(user);
      if org.Err? {
        return Err(org.error);
      }
      var author := RequestAuthor(dto, user.value);
      if author.Err? {
        return Err(author.error);
      }
      var made := db.CreateRequest(author.value, dto.requestType, Pending, dto.message, dto.documentUrl, org.value);
      if made.Err? {
        return Err(Internal(made.error));
      }
      r := Ok(made.value);
    }

    /** update: only a request of the caller's organization; every failure reads as not found. */
    method Update(id: int, dto: UpdateRequestDto, user: Option<Caller>) returns (r: Result<Request, Error>)
      requires db.Valid()
      modifies db
      ensures db.Valid()
      ensures RequireOrg(user).Err? ==> r == Err(OrgMissing) && db.Snapshot() == old(db.Snapshot())
      ensures RequireOrg(user).Ok? && FindInOrg(old(db.requests), id, RequireOrg(user).value).Err? ==>
                r == Err(RequestNotFound) && db.Snapshot() == old(db.Snapshot())
      ensures RequireOrg(user).Ok? && FindInOrg(old(db.requests), id, RequireOrg(user).value).Ok? ==>
                var q := ApplyUpdate(old(db.requests)[id], dto);
                r == Ok(q) && db.Snapshot() == old(db.Snapshot()).(requests := old(db.requests)[id := q])
    {
      var org := RequireOrg(user);
      if org.Err? {
        return Err(org.error);
      }
      var found := FindInOrg(db.requests, id, org.value);
      if found.Err? {
        return Err(found.error);
      }
      var written := db.UpdateRequest(ApplyUpdate(found.value, dto));
      if written.Err? {
        return Err(RequestNotFound);
      }
      r := Ok(written.value);
    }

    /** remove: only a request of the caller's organization. */
    method Remove(id: int, user: Option<Caller>) returns (r: Result<(), Error>)
      requires db.Valid()
      modifies db
      ensures db.Valid()
      ensures RequireOrg(user).Err? ==> r == Err(OrgMissing) && db.Snapshot() == old(db.Snapshot())
      ensures RequireOrg(user).Ok? && FindInOrg(old(db.requests), id, RequireOrg(user).value).Err? ==>
                r == Err(RequestNotFound) && db.Snapshot() == old(db.Snapshot())
      ensures RequireOrg(user).Ok? && FindInOrg(old(db.requests), id, RequireOrg(user).value).Ok? ==>
                r == Ok(()) && db.Snapshot() == old(db.Snapshot()).(requests := old(db.requests) - {id})
    {
      var org := RequireOrg(user);
      if org.Err? {
        return Err(org.error);
      }
      var found := FindInOrg(db.requests, id, org.value);
      if found.Err? {
        return Err(found.error);
      }
      var _ := db.DeleteRequest(id);
      r := Ok(());
    }
  }
}
