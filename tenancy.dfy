/**
 * The caller identity the tenant-scoped services receive (`request.user`, the verified token
 * payload, possibly partial) and the checks they all start with.
 */
module Tenancy {
  import opened Wrappers
  import opened Store

  /** The optional user object with its optional organization, role and subject. */
  datatype Caller = Caller(orgId: Option<int>, role: Option<string>, sub: Option<int>)

  /** JavaScript truthiness of an optional number: absent and 0 are falsy. */
  predicate Truthy(x: Option<int>) {
    x.Some? && x.value != 0
  }

  /** A Prisma equality filter; an undefined value drops the condition. */
  predicate WhereEquals(column: int, filter: Option<int>) {
    filter.None? || filter.value == column
  }

  predicate IsAdmin(user: Caller) {
    user.role == Some("admin")
  }

  /** A falsy organization id (absent or 0) is refused as OrgMissing. */
  function RequireOrgId(orgId: Option<int>): (r: Result<int, Error>)
    ensures r.Ok? <==> Truthy(orgId)
    ensures r.Ok? ==> Some(r.value) == orgId && r.value != 0
    ensures r.Err? ==> r.error == OrgMissing
  {
    if Truthy(orgId) then Ok(orgId.value) else Err(OrgMissing)
  }

  /** A missing user, or one without a truthy organization id, is refused as OrgMissing. */
  function RequireOrg(user: Option<Caller>): (r: Result<int, Error>)
    ensures r.Ok? <==> user.Some? && Truthy(user.value.orgId)
    ensures r.Ok? ==> Some(r.value) == user.value.orgId && r.value != 0
    ensures r.Err? ==> r.error == OrgMissing
  {
    if user.None? then Err(OrgMissing) else RequireOrgId(user.value.orgId)
  }
}
