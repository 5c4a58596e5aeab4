/**
 * AdminService: an admin resets an employee's password in its organization, through
 * EmployeesService, and sets the organization's planning image.
 */
module Admin {
  import opened Wrappers
  import opened Crypto
  import opened Store
  import opened Tenancy
  import opened Employees
  import Planning

  datatype ResetPasswordDto = ResetPasswordDto(email: string, newPassword: string)

  /** The selected columns of the updated organization. */
  datatype PlanningImageSet = PlanningImageSet(id: int, planningImageUrl: Option<string>)

  /** After setPlanningImage succeeds, getPlanningImage for the same organization returns the new image. */
  lemma ImageIsReadBack(organizations: map<int, Organization>, imageData: string, user: Caller)
    requires Truthy(user.orgId) && user.orgId.value in organizations
    ensures var o := organizations[user.orgId.value].(planningImageUrl := Some(imageData));
            Planning.GetPlanningImage(organizations[user.orgId.value := o], Some(user))
              == Ok(Planning.PlanningImage(Some(imageData)))
  {
  }

  class AdminService {
    const employees: EmployeesService
    const db: Database

    constructor (employees: EmployeesService, db: Database)
      ensures this.employees == employees && this.db == db
    {
      this.employees := employees;
      this.db := db;
    }

    /** resetPassword: exactly EmployeesService.resetPasswordByEmail in the given organization. */
    method ResetPassword(dto: ResetPasswordDto, orgId: Option<int>) returns (r: Result<EmployeeView, Error>)
      requires employees.db.Valid()
      modifies employees.db
      ensures employees.db.Valid()
      ensures ResetTarget(old(employees.db.employees), dto.email, orgId).Err? ==>
                r == Err(ResetTarget(old(employees.db.employees), dto.email, orgId).error)
                && employees.db.Snapshot() == old(employees.db.Snapshot())
      ensures ResetTarget(old(employees.db.employees), dto.email, orgId).Ok? ==>
                var k := ResetTarget(old(employees.db.employees), dto.email, orgId).value;
                var u := old(employees.db.employees)[k].(password := Hash(dto.newPassword));
                && r == Ok(Public(u))
                && employees.db.Snapshot() == old(employees.db.Snapshot()).(employees := old(employees.db.employees)[k := u])
    {
      r := employees.ResetPasswordByEmail(dto.email, dto.newPassword, orgId);
    }

    /** setPlanningImage: replaces only the planning image of the caller's organization. */
    method SetPlanningImage(imageData: string, orgId: Option<int>) returns (r: Result<PlanningImageSet, Error>)
      requires db.Valid()
      modifies db
      ensures db.Valid()
      ensures !Truthy(orgId) ==> r == Err(OrgMissing) && db.Snapshot() == old(db.Snapshot())
      ensures Truthy(orgId) && orgId.value !in old(db.organizations) ==>
                r == Err(Internal(RecordNotFound)) && db.Snapshot() == old(db.Snapshot())
      ensures Truthy(orgId) && orgId.value in old(db.organizations) ==>
                var o := old(db.organizations)[orgId.value].(planningImageUrl := Some(imageData));
                && r == Ok(PlanningImageSet(orgId.value, Some(imageData)))
                && db.Snapshot() == old(db.Snapshot()).(organizations := old(db.organizations)[orgId.value := o])
    {
      var org := RequireOrgId(orgId);
      if org.Err? {
        return Err(org.error);
      }
      if org.value !in db.organizations {
        return Err(Internal(RecordNotFound));
      }
      var written := db.UpdateOrganization(db.organizations[org.value].(planningImageUrl := Some(imageData)));
      if written.Err? {
        return Err(Internal(written.error));
      }
      r := Ok(PlanningImageSet(written.value.id, written.value.planningImageUrl));
    }
  }
}
