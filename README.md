# MCPlanning back end: a Dafny model of the service layer

MCPlanning is a NestJS and Prisma back end for team scheduling. Organizations (tenants) have
employees, planning entries (shifts) and requests (leave and documents). This project models
its service layer in Dafny and proves properties of that model.

- **AuthService**: login, sign-up, refresh-token rotation and logout.
  - Sign-up either creates an organization for an admin or joins one by its code.
- **JwtAuthGuard**: bearer-header parsing and token verification. On success it attaches the
  verified payload to the request.
- **InvitationService**: single-use invitation tokens that expire after 48 hours.
- **Tenant-scoped services**. Each one refuses a caller without a truthy organization id, and
  touches only rows of the caller's organization:
  - EmployeesService;
  - PlanningService;
  - RequestsService;
  - AdminService.

## Layout

- `wrappers.dfy`: `Option` and `Result`.
- `crypto.dfy`: the collaborators the services call.
  - bcrypt is an injective digest (`Hash`, `Compare`). Salt and cost are left out.
  - bcryptjs's real digest reads only the first 72 bytes of its input (`TruncatedHash`); it is used
    only to show the refresh-token finding below.
  - Node's `randomBytes(32).toString('hex')` becomes `HexEncode` over random bytes the caller supplies.
  - A JSON Web Token signer and verifier form the `Jwt` value. A `Jwt` is passed to each call and
    stands for the signer and verifier at that instant, so issue time and expiry are folded in.
  - What the services rely on from JWT is stated as the predicates `RoundTrip` and `Compact`.
    Lemmas that need them take them as preconditions.
- `store.dfy`: the database.
  - The Prisma tables are maps held in the `Database` class.
  - Its invariant `Valid` covers unique e-mails, unique organization codes, unique invitation
    tokens, id counters, and organization foreign keys.
  - Each write primitive states its exact new state in terms of `Snapshot()`, so "nothing else
    changes" is explicit.
  - Each write primitive also states its store error: a unique violation, a foreign-key
    violation, or a missing record.
- `tenancy.dfy`: the caller (`request.user`), JavaScript truthiness, Prisma's drop-undefined
  filters, and the shared "Organisation manquante" check.
- The services, one file each: `auth.dfy`, `guard.dfy`, `invitation.dfy`, `employees.dfy`,
  `planning.dfy`, `requests.dfy` and `admin.dfy`.
  - Queries and checks are functions over the table values, with lemmas about them.
  - Writes are methods of a service class that holds the `Database`. Each method's `ensures`
    ties its result and its new state to those functions.

Exceptions are `Error` values, named by HTTP class and message. A database error the service
does not catch is `Internal(cause)`. Time is an integer in milliseconds, passed as `now`.

## Model

| member | source | states |
|---|---|---|
| Crypto.CompareHash | src/auth/auth.service.ts:20 | bcrypt comparison with the digest of y succeeds exactly when the candidate is y |
| Crypto.HexRoundTrip | src/invitation/invitation.service.ts:19 | hex-decoding the hex encoding of any byte string gives back those bytes |
| Crypto.HexEncodeInjective | src/invitation/invitation.service.ts:19 | distinct random bytes give distinct hex tokens |
| Crypto.HexEncode | src/invitation/invitation.service.ts:19 | the encoding has two lower-case hex digits per byte |
| Tenancy.RequireOrgId | src/employees/employees.service.ts:110-112 | a falsy organization id (absent or 0) fails with Forbidden "Organisation manquante"; any other id passes unchanged |
| Tenancy.RequireOrg | src/requests/requests.service.ts:14-16 | a missing user, or a user without a truthy orgId, fails with Forbidden "Organisation manquante"; otherwise the caller's orgId is returned |
| Store.FindByEmail | src/auth/auth.service.ts:15 | the unique employee with that e-mail, or none exactly when no employee has it |
| Store.FindByCode | src/auth/auth.service.ts:92-94 | the unique organization with that join code, or none exactly when no organization has it |
| Store.Database.CreateEmployee | src/auth/auth.service.ts:54-63 | a taken e-mail is a unique violation and a missing organization a foreign-key violation; otherwise the row is stored under the next id with no refresh digest, and nothing else changes |
| Store.Database.UpdateEmployee | src/employees/employees.service.ts:78-82 | an unknown id fails with record-not-found, and an e-mail held by another employee fails with a unique violation; otherwise only that row changes |
| Store.Database.DeleteEmployee | src/employees/employees.service.ts:99 | an unknown id fails with record-not-found; otherwise only that row is removed |
| Store.Database.CreateOrganization | src/auth/auth.service.ts:47-52 | a taken join code is a unique violation and changes nothing; otherwise a new organization under the next id, with no owner and no planning image |
| Store.Database.UpdateOrganization | src/auth/auth.service.ts:65-68 | an unknown id fails with record-not-found; otherwise only that organization's row changes, its code kept |
| Store.Database.DeletePendingInvitations | src/invitation/invitation.service.ts:29-31 | the invitation table becomes WithoutPending of the pair; nothing else changes |
| Store.Database.CreateInvitation | src/invitation/invitation.service.ts:34-36 | a taken token is a unique violation and a missing organization a foreign-key violation; otherwise only the new invitation is added |
| Store.Database.MarkInvitationUsed | src/invitation/invitation.service.ts:118-121 | an unknown token fails with record-not-found; otherwise only that invitation's usedAt is set |
| Store.Database.CreatePlanningEntry | src/planning/planning.service.ts:40-48 | a missing organization is a foreign-key violation; otherwise the entry is stored under the next id and nothing else changes |
| Store.Database.UpdatePlanningEntry | src/planning/planning.service.ts:62-70 | an unknown id fails with record-not-found; otherwise only that entry changes |
| Store.Database.DeletePlanningEntry | src/planning/planning.service.ts:87 | an unknown id fails with record-not-found; otherwise only that entry is removed |
| Store.Database.CreateRequest | src/requests/requests.service.ts:56-65 | a missing organization is a foreign-key violation; otherwise the request is stored under the next id, without an admin message, and nothing else changes |
| Store.Database.UpdateRequest | src/requests/requests.service.ts:79-87 | an unknown id fails with record-not-found; otherwise only that request changes |
| Store.Database.DeleteRequest | src/requests/requests.service.ts:104 | an unknown id fails with record-not-found; otherwise only that request is removed |
| Store.WithoutPending | src/invitation/invitation.service.ts:29-31 | removes exactly the unused invitations for (email, organization) and keeps every other invitation unchanged |
| Auth.RefreshSecret | src/auth/auth.service.ts:132 | the environment's refresh secret when it is set and non-empty, otherwise the built-in default; never empty |
| Auth.RefreshExpiresIn | src/auth/auth.service.ts:178 | the environment's refresh lifetime whenever it is set, even when empty; "7d" only when it is unset |
| Auth.IssueTokens | src/auth/auth.service.ts:175-185 | the access token is signed for the payload with the module's key and lifetime; the refresh token is signed for the same payload with the refresh secret and the refresh lifetime |
| Auth.IssuedTokensCarryClaims | src/auth/auth.service.ts:175-185 | the access token verifies under the module key and the refresh token under the refresh secret, and each yields exactly the claims it was issued for |
| Auth.WithRefreshHash | src/auth/auth.service.ts:187-193 | only the named employee's refresh digest changes |
| Auth.CheckCredentials | src/auth/auth.service.ts:14-23 | succeeds exactly when an employee has that e-mail and the password matches its digest, returning that employee; every failure is the same Unauthorized "Identifiants invalides" |
| Auth.LoginFailuresAlike | src/auth/auth.service.ts:16-23 | an unknown e-mail and a wrong password give the identical error |
| Auth.CheckRefreshToken | src/auth/auth.service.ts:127-145 | succeeds exactly when the token verifies under the refresh secret, its subject exists, and the subject's stored digest matches the token; returns that subject; every failure is Unauthorized "Token invalide" |
| Auth.CheckRefreshTokenAsWritten | src/auth/auth.service.ts:127-145 | the refresh check with bcryptjs's digest of the first 72 bytes: the same conditions as CheckRefreshToken, with the truncated comparison |
| Auth.RotationAsWrittenAcceptsReplay | src/auth/auth.service.ts:141-147 | with the truncated digest, after rotation the old token is accepted again whenever it still verifies and agrees with the new token on its first 72 characters |
| Crypto.TruncatedCompareIgnoresTail | src/auth/auth.service.ts:141 | two inputs that agree on their first 72 characters match each other's truncated digest |
| Crypto.BcryptInput | src/auth/auth.service.ts:188 | the part of the input bcryptjs reads: the whole input up to 72 characters, else its first 72 |
| Auth.IssuedRefreshTokenAccepted | src/auth/auth.service.ts:146-147 | a refresh token just issued and stored for an employee is accepted by the next refresh |
| Auth.RotationRejectsReplay | src/auth/auth.service.ts:141-147 | after a refresh stores the digest of a different new token, presenting the old token again fails |
| Auth.LogoutRevokes | src/auth/auth.service.ts:166-170 | once the digest is cleared, no refresh token for that employee is accepted |
| Auth.JoinTarget | src/auth/auth.service.ts:88-97 | a missing or empty code is BadRequest "Code organisation requis"; an unknown code is BadRequest "Organisation introuvable"; otherwise the id of the organization with that code |
| Auth.AuthService.StoreRefreshTokenHash | src/auth/auth.service.ts:187-193 | only the employee's refresh digest changes, to the digest of the new token |
| Auth.AuthService.Login | src/auth/auth.service.ts:14-40 | on the credential check's failure nothing changes; on success it returns freshly issued tokens and the employee's public fields, and stores the refresh digest |
| Auth.AuthService.Signup | src/auth/auth.service.ts:42-125 | admin branch: a new organization, then the employee, then the owner is set; an e-mail clash leaves the new organization behind. Join branch: the join-code checks, then the employee. Status defaults to active |
| Auth.AuthService.RefreshTokens | src/auth/auth.service.ts:127-164 | fails as the refresh check does, with nothing changed; otherwise it issues a new pair for the token's subject and stores the new refresh digest |
| Auth.AuthService.Logout | src/auth/auth.service.ts:166-173 | clears only that employee's refresh digest and answers success; an unknown id is the update's record-not-found error |
| Guard.Split | src/auth/jwt-auth.guard.ts:15 | the pieces of a string split on single spaces: at least one piece, none containing a space |
| Guard.JoinSplit | src/auth/jwt-auth.guard.ts:15 | joining the pieces with spaces gives back the original header |
| Guard.BearerToken | src/auth/jwt-auth.guard.ts:10-18 | an absent or empty header is Unauthorized "Token manquant"; a header whose first piece is not "Bearer", or whose second piece is missing or empty, is Unauthorized "Token invalide"; otherwise the second piece |
| Guard.BearerTokenShape | src/auth/jwt-auth.guard.ts:15-18 | an accepted header is "Bearer ", a non-empty space-free token, then nothing or a space and anything |
| Guard.BearerTokenAccepts | src/auth/jwt-auth.guard.ts:15-18 | every header of that shape is accepted, with exactly that token |
| Guard.DoubleSpaceRejected | src/auth/jwt-auth.guard.ts:15-18 | "Bearer" followed by two spaces and a token is refused |
| Guard.GuardOutcome | src/auth/jwt-auth.guard.ts:8-27 | the header's errors come first; a token the module key does not verify is Unauthorized "Token invalide"; otherwise the verified claims |
| Guard.AccessTokenPassesGuard | src/auth/jwt-auth.guard.ts:15-23 | "Bearer " followed by an access token just issued passes the guard with exactly that token's claims |
| Guard.CanActivate | src/auth/jwt-auth.guard.ts:8-27 | returns true and sets request.user to exactly the verified payload, or fails as GuardOutcome does with request.user untouched |
| Invitations.CheckInvitation | src/invitation/invitation.service.ts:84-86 | unknown token, then already used, then expired, in this order; expiry only when expiresAt is strictly before now; success exactly when the token exists, is unused and not expired |
| Invitations.ValidateToken | src/invitation/invitation.service.ts:78-93 | fails exactly as the three checks do; on success, the invited e-mail, the organization's name, and valid = true |
| Invitations.SupersessionLeavesOnePending | src/invitation/invitation.service.ts:28-36 | after a send, the new token is the only unused invitation for that e-mail and organization |
| Invitations.SupersededTokenNotFound | src/invitation/invitation.service.ts:28-31 | an earlier unused token for the same pair is then unknown |
| Invitations.ExpiryIsStrict | src/invitation/invitation.service.ts:20 | a new invitation is valid up to and including the 48-hour mark, and expired one millisecond later |
| Invitations.SecondAcceptFails | src/invitation/invitation.service.ts:101 | once an invitation is marked used, presenting it again at any time fails with "Invitation déjà utilisée" |
| Invitations.NewInvitation | src/invitation/invitation.service.ts:20-36 | the stored invitation carries the token, e-mail and organization, is unused, and expires exactly 48 hours after now |
| Invitations.InvitationTokenShape | src/invitation/invitation.service.ts:19 | a token is 64 hex digits, and different random bytes give different tokens |
| Invitations.InvitationService.SendInvitation | src/invitation/invitation.service.ts:13-76 | an existing account for the e-mail is BadRequest and changes nothing; otherwise the unused invitations for the pair are deleted, then the new one is stored with expiry now + 48 h |
| Invitations.InvitationService.AcceptInvitation | src/invitation/invitation.service.ts:95-124 | fails as the three checks do, with nothing changed; otherwise it creates an active "employee" in the invitation's organization and marks the invitation used at now |
| Employees.FindAllAsWritten | src/employees/employees.service.ts:11-27 | the query as written: an admin gets the organization's employees; a non-admin gets the row with id = sub, or every employee when sub is absent |
| Employees.FindAllAsWrittenCrossesTenants | src/employees/employees.service.ts:16-20 | a non-admin caller without sub is shown an employee of another organization |
| Employees.FindAll | src/employees/employees.service.ts:11-27 | corrected: an admin gets exactly the organization's employees; a non-admin gets at most its own row, and nothing without a sub |
| Employees.FindAllAgreesWithCode | src/employees/employees.service.ts:16-26 | the corrected query returns what the written one does whenever the caller is an admin or carries a sub |
| Employees.FindOne | src/employees/employees.service.ts:29-46 | a non-admin asking for an id other than its sub gets Forbidden "Accès refusé"; an id outside the organization is NotFound "Employé introuvable"; otherwise the public fields |
| Employees.ApplyUpdate | src/employees/employees.service.ts:78-82 | only the fields the body supplies change |
| Employees.ResetTarget | src/employees/employees.service.ts:110-120 | the employee with that e-mail in that organization, else NotFound; an absent or 0 organization id is Forbidden |
| Employees.EmployeesService.Create | src/employees/employees.service.ts:48-65 | the new employee joins the caller's organization, with password "temp-1234" and status active by default; store errors surface as internal errors |
| Employees.EmployeesService.Update | src/employees/employees.service.ts:67-86 | only an employee of the caller's organization is updated; every failure, an e-mail clash included, is NotFound "Employé introuvable" |
| Employees.EmployeesService.Remove | src/employees/employees.service.ts:88-103 | only an employee of the caller's organization is deleted; otherwise NotFound and nothing changes |
| Employees.EmployeesService.ResetPasswordByEmail | src/employees/employees.service.ts:105-129 | only the target's password digest changes, to the digest of the new password |
| Planning.FindAll | src/planning/planning.service.ts:10-34 | exactly the entries of the caller's organization that pass two filters: a non-admin with a truthy sub sees only its own and unassigned entries, and a requested day keeps only entries from its first to its last millisecond |
| Planning.CreatedEntryListed | src/planning/planning.service.ts:18-33 | an entry of the caller's organization, its own or unassigned, dated within a day, is listed for that day |
| Planning.GetPlanningImage | src/planning/planning.service.ts:93-103 | the organization's planning image, or null when it has none or the organization does not exist |
| Planning.ApplyUpdate | src/planning/planning.service.ts:64-69 | an omitted date, shift or note keeps its value, but an omitted employeeId unassigns the entry |
| Planning.PlanningService.Create | src/planning/planning.service.ts:36-49 | the entry joins the caller's organization under the next id, unassigned when no employee is given |
| Planning.PlanningService.Update | src/planning/planning.service.ts:51-74 | only an entry of the caller's organization is updated, as ApplyUpdate says; otherwise NotFound "Entrée planning introuvable" |
| Planning.PlanningService.Remove | src/planning/planning.service.ts:76-91 | only an entry of the caller's organization is deleted; otherwise NotFound and nothing changes |
| Requests.ManagerEmail | src/requests/requests.service.ts:24-36 | the e-mail of the organization's owner, or null when there is no owner row |
| Requests.EmployeeFilter | src/requests/requests.service.ts:21-22 | a truthy employeeId argument wins; otherwise a non-admin is restricted to its sub, and an admin is not restricted |
| Requests.FindAll | src/requests/requests.service.ts:10-40 | exactly the requests of the caller's organization that match the employee filter, each with its manager's e-mail |
| Requests.EmployeeIdArgumentOverridesRestriction | src/requests/requests.service.ts:21-22 | a non-admin who names another employee in the query is shown that employee's requests |
| Requests.NonAdminSeesOwnRequests | src/requests/requests.service.ts:21 | a non-admin with a sub who names no employee sees only its own requests |
| Requests.RequestAuthor | src/requests/requests.service.ts:49-55 | a non-admin naming an employee other than itself gets Forbidden "Accès refusé"; no truthy employee gives Forbidden "Employé manquant"; a non-admin can file only for itself |
| Requests.ApplyUpdate | src/requests/requests.service.ts:79-87 | every field the body omits keeps its value; id, employee, type and organization never change |
| Requests.RequestsService.Create | src/requests/requests.service.ts:42-66 | after the checks, a pending request of the caller's organization for the author; store errors are not caught |
| Requests.RequestsService.Update | src/requests/requests.service.ts:68-91 | only a request of the caller's organization is updated; otherwise NotFound "Demande introuvable" |
| Requests.RequestsService.Remove | src/requests/requests.service.ts:93-108 | only a request of the caller's organization is deleted; otherwise NotFound and nothing changes |
| Admin.AdminService.ResetPassword | src/admin/admin.service.ts:13-19 | exactly resetPasswordByEmail for the given e-mail, password and organization |
| Admin.AdminService.SetPlanningImage | src/admin/admin.service.ts:21-31 | a falsy organization id is Forbidden; an unknown organization is the update's record-not-found; otherwise only that organization's image changes |
| Admin.ImageIsReadBack | src/admin/admin.service.ts:26-29 | after the image is set, getPlanningImage for that organization returns it |

## Left out

- E-mail delivery of invitations: the Resend call, its HTML, and the front-end URL are I/O.
- The random six-character join code: sign-up takes the code as a parameter.
- Randomness: invitation token bytes are a parameter of the call.
- The clock: the current time is a parameter of the call.
- Date parsing: planning dates are integers in milliseconds. An invalid date string is not modelled.
- Crypto.Jwt internals: signing algorithm, iat and exp are not modelled. The verifier is any function. The properties the services need are assumptions on lemmas.
- Crypto.Jwt: signing is total. The JWT library refuses an empty expiresIn, so with JWT_REFRESH_EXPIRES_IN set to the empty string every token issue throws; Auth.RefreshExpiresIn keeps that empty value, but the model does not throw.
- Crypto.Hash: bcrypt salt and cost are not modelled, and the digest reads the whole input. bcryptjs reads only the first 72 bytes; Crypto.TruncatedHash models that, and the finding below uses it.
- Auth.RotationRejectsReplay: holds for the whole-input digest the rest of the model uses. With bcryptjs's 72-byte digest a replay is accepted instead (Auth.RotationAsWrittenAcceptsReplay).
- Role checks of the controllers: the admin-only guard is not part of this model. Every service operation is modelled for every caller.
- The update DTO of employees is not part of this model. Its fields are modelled as optional name, e-mail, role and status.
- The create DTO of requests is not part of this model. Its fields are taken from their use in create.
- The reset-password DTO is not part of this model. Its fields are taken from their use.
- Foreign keys to employees are not modelled: a planning or request employeeId, and an organization owner. Prisma's referential actions on delete are not modelled either.
- Request createdAt is a database default and is not modelled.
- Result order of findMany: results are maps keyed by id.
- Concurrency and transactions: each operation runs alone. The two writes of acceptInvitation, and the four writes of the admin sign-up (organization, employee, owner, refresh digest), are not atomic in the code either.
- Numeric conversion of route parameters in the controllers: ids are integers.
- Auth.AuthService.Logout: an unknown id is modelled as the record-not-found error that Prisma's update raises. This follows the code, not a guarantee that logout always succeeds.

## Findings

| source | as written | input that shows it | evidently intended | confidence | as-written member | corrected member |
|---|---|---|---|---|---|---|
| src/employees/employees.service.ts:16-20 | a non-admin's query filters on id = sub only; Prisma drops an undefined condition, so a caller without sub gets every employee of every organization | caller with orgId 1, role "employee", no sub; employees in organizations 1 and 2 | a non-admin sees at most its own row, and nothing without a sub | not executed | Employees.FindAllAsWritten, Employees.FindAllAsWrittenCrossesTenants | Employees.FindAll |
| src/auth/auth.service.ts:141, 188 | refresh tokens are stored as bcrypt digests, and bcryptjs hashes only the first 72 bytes; every refresh token of one employee begins with the same JWT header, a dot, and the start of the payload (sub and e-mail), so the old token matches the digest of the new one | two refresh tokens of employee 1 signed a second apart: their first 72 characters agree, and the first is accepted after the second is stored | after rotation the previous refresh token is refused | not executed | Auth.CheckRefreshTokenAsWritten, Auth.RotationAsWrittenAcceptsReplay | Auth.CheckRefreshToken, Auth.RotationRejectsReplay |
