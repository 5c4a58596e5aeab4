/**
 * PlanningService: the planning entries of the caller's organization, optionally restricted
 * to one UTC day, and the organization's planning image.
 */
module Planning {
  import opened Wrappers
  import opened Store
  import opened Tenancy

  const EntryNotFound := NotFound("Entrée planning introuvable")

  /** A day's window runs from its first to its last millisecond, both included. */
  const LastMillisecondOfDay := 24 * 60 * 60 * 1000 - 1

  /** The organization filter and, for a non-admin with a truthy `sub`, its own or unassigned entries. */
  predicate Visible(e: PlanningEntry, orgId: int, user: Caller) {
    && e.organizationId == orgId
    && (IsAdmin(user) || !Truthy(user.sub) || e.employeeId == user.sub || e.employeeId.None?)
  }

  /** The date window of findAll, where `day` is the start of the requested UTC day; no day, no filter. */
  predicate InDay(e: PlanningEntry, day: Option<int>) {
    day.None? || (day.value <= e.date && e.date <= day.value + LastMillisecondOfDay)
  }

  /** findAll. */
  function FindAll(entries: map<int, PlanningEntry>, day: Option<int>, user: Option<Caller>)
    : (r: Result<map<int, PlanningEntry>, Error>)
    ensures r.Err? <==> RequireOrg(user).Err?
    ensures r.Err? ==> r.error == OrgMissing
    ensures r.Ok? ==> forall k :: k in r.value ==>
              k in entries && r.value[k] == entries[k] && entries[k].organizationId == user.value.orgId.value
    ensures r.Ok? && !IsAdmin(user.value) && Truthy(user.value.sub) ==>
              forall k :: k in r.value ==> entries[k].employeeId == user.value.sub || entries[k].employeeId.None?
    ensures r.Ok? && day.Some? ==>
              forall k :: k in r.value ==> day.value <= entries[k].date <= day.value + 86399999
    ensures r.Ok? ==> forall k :: k in entries && entries[k].organizationId == user.value.orgId.value
                                 && (IsAdmin(user.value) || !Truthy(user.value.sub)
                                     || entries[k].employeeId == user.value.sub || entries[k].employeeId.None?)
                                 && (day.None? || day.value <= entries[k].date <= day.value + 86399999)
                                 ==> k in r.value
  {
    match RequireOrg(user)
    case Err(e) => Err(e)
    case Ok(orgId) => Ok(map k | k in entries && Visible(entries[k], orgId, user.value) && InDay(entries[k], day) :: entries[k])
  }

  /** An entry of the caller's organization, its own or unassigned, dated within the day, is listed for that day. */
  lemma CreatedEntryListed(entries: map<int, PlanningEntry>, e: PlanningEntry, day: int, user: Caller)
    requires Truthy(user.orgId) && e.organizationId == user.orgId.value
    requires e.employeeId.None? || e.employeeId == user.sub
    requires day <= e.date < day + 24 * 60 * 60 * 1000
    ensures FindAll(entries[e.id := e], Some(day), Some(user)).Ok?
    ensures e.id in FindAll(entries[e.id := e], Some(day), Some(user)).value
  {
    assert Visible(e, user.orgId.value, user) && InDay(e, Some(day));
  }

  datatype PlanningImage = PlanningImage(planningImageUrl: Option<string>)

  /** getPlanningImage: the organization's image, or null when it has none or does not exist. */
  function GetPlanningImage(organizations: map<int, Organization>, user: Option<Caller>): (r: Result<PlanningImage, Error>)
    ensures r.Err? <==> RequireOrg(user).Err?
    ensures r.Err? ==> r.error == OrgMissing
    ensures r.Ok? && user.value.orgId.value in organizations ==>
              r.value.planningImageUrl == organizations[user.value.orgId.value].planningImageUrl
    ensures r.Ok? && user.value.orgId.value !in organizations ==> r.value.planningImageUrl.None?
  {
    match RequireOrg(user)
    case Err(e) => Err(e)
    case Ok(orgId) =>
      if orgId in organizations then Ok(PlanningImage(organizations[orgId].planningImageUrl)) else Ok(PlanningImage(None))
  }

  function FindInOrg(entries: map<int, PlanningEntry>, id: int, orgId: int): (r: Result<PlanningEntry, Error>)
    ensures r.Ok? <==> id in entries && entries[id].organizationId == orgId
    ensures r.Ok? ==> r.value == entries[id]
    ensures r.Err? ==> r.error == EntryNotFound
  {
    if id in entries && entries[id].organizationId == orgId then Ok(entries[id]) else Err(EntryNotFound)
  }

  /** `date` is the entry's instant in milliseconds. */
  datatype CreatePlanningDto = CreatePlanningDto(date: int, shift: string, employeeId: Option<int>, note: Option<string>)

  /** An absent `date` stands for an absent or empty date string. */
  datatype UpdatePlanningDto = UpdatePlanningDto(date: Option<int>, shift: Option<string>, employeeId: Option<int>,
                                                 note: Option<string>)

  /** The data of update: an omitted date, shift or note is kept, but an omitted employeeId unassigns the entry. */
  function ApplyUpdate(e: PlanningEntry, dto: UpdatePlanningDto): (r: PlanningEntry)
    ensures r.id == e.id && r.organizationId == e.organizationId
    ensures dto.date.None? ==> r.date == e.date
    ensures dto.date.Some? ==> r.date == dto.date.value
    ensures dto.shift.None? ==> r.shift == e.shift
    ensures dto.shift.Some? ==> r.shift == dto.shift.value
    ensures r.employeeId == dto.employeeId
    ensures dto.note.None? ==> r.note == e.note
    ensures dto.note.Some? ==> r.note == dto.note
  {
    e.(date := dto.date.GetOr(e.date), shift := dto.shift.GetOr(e.shift), employeeId := dto.employeeId,
       note := if dto.note.Some? then dto.note else e.note)
  }

  class PlanningService {
    const db: Database

    constructor (db: Database)
      ensures this.db == db
    {
      this.db := db;
    }

    /** create: the entry joins the caller's organization, unassigned when no employeeId is given. */
    method Create(dto: CreatePlanningDto, user: Option<Caller>) returns (r: Result<PlanningEntry, Error>)
      requires db.Valid()
      modifies db
      ensures db.Valid()
      ensures RequireOrg(user).Err? ==> r == Err(OrgMissing) && db.Snapshot() == old(db.Snapshot())
      ensures RequireOrg(user).Ok? && RequireOrg(user).value !in old(db.organizations) ==>
                r == Err(Internal(ForeignKeyViolation)) && db.Snapshot() == old(db.Snapshot())
      ensures RequireOrg(user).Ok? && RequireOrg(user).value in old(db.organizations) ==>
                var id := old(db.nextPlanningId);
                var e := PlanningEntry(id, dto.date, dto.shift, dto.employeeId, dto.note, RequireOrg(user).value);
                && r == Ok(e)
                && db.Snapshot() == old(db.Snapshot()).(planning := old(db.planning)[id := e], nextPlanningId := id + 1)
    {
      var org := RequireOrg(user);
      if org.Err? {
        return Err(org.error);
      }
      var made := db.CreatePlanningEntry(dto.date, dto.shift, dto.employeeId, dto.note, org.value);
      if made.Err? {
        return Err(Internal(made.error));
      }
      r := Ok(made.value);
    }

    /** update: only an entry of the caller's organization. */
    method Update(id: int, dto: UpdatePlanningDto, user: Option<Caller>) returns (r: Result<PlanningEntry, Error>)
      requires db.Valid()
      modifies db
      ensures db.Valid()
      ensures RequireOrg(user).Err? ==> r == Err(OrgMissing) && db.Snapshot() == old(db.Snapshot())
      ensures RequireOrg(user).Ok? && FindInOrg(old(db.planning), id, RequireOrg(user).value).Err? ==>
                r == Err(EntryNotFound) && db.Snapshot() == old(db.Snapshot())
      ensures RequireOrg(user).Ok? && FindInOrg(old(db.planning), id, RequireOrg(user).value).Ok? ==>
                var e := ApplyUpdate(old(db.planning)[id], dto);
                r == Ok(e) && db.Snapshot() == old(db.Snapshot()).(planning := old(db.planning)[id := e])
    {
      var org := RequireOrg(user);
      if org.Err? {
        return Err(org.error);
      }
      var found := FindInOrg(db.planning, id, org.value);
      if found.Err? {
        return Err(found.error);
      }
      var written := db.UpdatePlanningEntry(ApplyUpdate(found.value, dto));
      if written.Err? {
        return Err(EntryNotFound);
      }
      r := Ok(written.value);
    }

    /** remove: only an entry of the caller's organization. */
    method Remove(id: int, user: Option<Caller>) returns (r: Result<(), Error>)
      requires db.Valid()
      modifies db
      ensures db.Valid()
      ensures RequireOrg(user).Err? ==> r == Err(OrgMissing) && db.Snapshot() == old(db.Snapshot())
      ensures RequireOrg(user).Ok? && FindInOrg(old(db.planning), id, RequireOrg(user).value).Err? ==>
                r == Err(EntryNotFound) && db.Snapshot() == old(db.Snapshot())
      ensures RequireOrg(user).Ok? && FindInOrg(old(db.planning), id, RequireOrg(user).value).Ok? ==>
                r == Ok(()) && db.Snapshot() == old(db.Snapshot()).(planning := old(db.planning) - {id})
    {
      var org := RequireOrg(user);
      if org.Err? {
        return Err(org.error);
      }
      var found := FindInOrg(db.planning, id, org.value);
      if found.Err? {
        return Err(found.error);
      }
      var _ := db.DeletePlanningEntry(id);
      r := Ok(());
    }
  }
}
