/**
 * InvitationService: single-use, 48-hour onboarding tokens.
 *
 * Sending an invitation replaces every unused one for the same (email, organization); a
 * token is validated by three checks in a fixed order (unknown, used, expired) and accepting
 * it creates one employee, then marks the invitation used. Expiry is never stored: it is the
 * comparison `expiresAt < now` at the time of each call.
 */
module Invitations {
  import opened Wrappers
  import opened Crypto
  import opened Store

  /** 48 hours in milliseconds. */
  const InvitationLifetime := 48 * 60 * 60 * 1000

  const AccountExists := BadRequest("Un compte existe déjà pour cet email")
  const InvitationNotFound := BadRequest("Invitation introuvable")
  const InvitationExpired := BadRequest("Invitation expirée")
  /** The two calls word "already used" differently. */
  const UsedOnValidate := "Cette invitation a déjà été utilisée"
  const UsedOnAccept := "Invitation déjà utilisée"

  /** The checks validateToken and acceptInvitation both run, in this order. */
  function CheckInvitation(invitations: map<string, Invitation>, token: string, now: int, usedMessage: string)
    : (r: Result<Invitation, Error>)
    ensures token !in invitations ==> r == Err(InvitationNotFound)
    ensures token in invitations && invitations[token].usedAt.Some? ==> r == Err(BadRequest(usedMessage))
    ensures token in invitations && invitations[token].usedAt.None? && invitations[token].expiresAt < now ==>
              r == Err(InvitationExpired)
    ensures r.Ok? <==> token in invitations && invitations[token].usedAt.None? && now <= invitations[token].expiresAt
    ensures r.Ok? ==> r.value == invitations[token]
  {
    if token !in invitations then Err(InvitationNotFound)
    else
      var invitation := invitations[token];
      if invitation.usedAt.Some? then Err(BadRequest(usedMessage))
      else if invitation.expiresAt < now then Err(InvitationExpired)
      else Ok(invitation)
  }

  datatype InvitationInfo = InvitationInfo(email: string, organizationName: string, valid: bool)

  /** validateToken: a read-only query; on success the invited email and the organization's name. */
  function ValidateToken(invitations: map<string, Invitation>, organizations: map<int, Organization>,
                         token: string, now: int): (r: Result<InvitationInfo, Error>)
    requires InvitationTable(invitations, organizations)
    ensures CheckInvitation(invitations, token, now, UsedOnValidate).Err? ==>
              r == Err(CheckInvitation(invitations, token, now, UsedOnValidate).error)
    ensures r.Ok? <==> CheckInvitation(invitations, token, now, UsedOnValidate).Ok?
    ensures r.Ok? ==> r.value.valid && r.value.email == invitations[token].email
                      && r.value.organizationName == organizations[invitations[token].organizationId].name
  {
    match CheckInvitation(invitations, token, now, UsedOnValidate)
    case Err(e) => Err(e)
    case Ok(invitation) => Ok(InvitationInfo(invitation.email, organizations[invitation.organizationId].name, true))
  }

  /** The tokens of the unused invitations for (email, organizationId). */
  function PendingFor(invitations: map<string, Invitation>, email: string, organizationId: int): set<string> {
    set t | t in invitations && invitations[t].email == email && invitations[t].organizationId == organizationId
                             && invitations[t].usedAt.None?
  }

  /** The invitation sendInvitation stores. */
  function NewInvitation(token: string, email: string, organizationId: int, now: int): (i: Invitation)
    ensures i.token == token && i.email == email && i.organizationId == organizationId
    ensures i.usedAt.None? && i.expiresAt - now == 48 * 60 * 60 * 1000
  {
    Invitation(token, email, organizationId, now + InvitationLifetime, None)
  }

  /**
   * Supersession: after the unused invitations for the pair are deleted and the new one is
   * stored, it is the only unused invitation for the pair; used ones, and every invitation of
   * another pair, are kept as they were.
   */
  lemma SupersessionLeavesOnePending(invitations: map<string, Invitation>, email: string, organizationId: int,
                                     token: string, now: int)
    requires token !in WithoutPending(invitations, email, organizationId)
    ensures var stored := WithoutPending(invitations, email, organizationId)[token := NewInvitation(token, email, organizationId, now)];
            && PendingFor(stored, email, organizationId) == {token}
            && stored[token].expiresAt == now + 172800000
            && (forall t :: t in invitations && t != token && invitations[t].usedAt.Some? ==> t in stored && stored[t] == invitations[t])
            && (forall t :: t in invitations && t != token && (invitations[t].email != email || invitations[t].organizationId != organizationId) ==>
                  t in stored && stored[t] == invitations[t])
  {
  }

  /** A superseded token is no longer found. */
  lemma SupersededTokenNotFound(invitations: map<string, Invitation>, email: string, organizationId: int,
                                previous: string, token: string, now: int, later: int, usedMessage: string)
    requires previous in PendingFor(invitations, email, organizationId) && previous != token
    ensures var stored := WithoutPending(invitations, email, organizationId)[token := NewInvitation(token, email, organizationId, now)];
            CheckInvitation(stored, previous, later, usedMessage) == Err(InvitationNotFound)
  {
  }

  /** A fresh invitation is still valid at exactly its expiry instant and expired one millisecond later. */
  lemma ExpiryIsStrict(invitations: map<string, Invitation>, token: string, email: string, organizationId: int,
                       now: int, usedMessage: string)
    ensures var stored := invitations[token := NewInvitation(token, email, organizationId, now)];
            && CheckInvitation(stored, token, now + InvitationLifetime, usedMessage).Ok?
            && CheckInvitation(stored, token, now + InvitationLifetime + 1, usedMessage) == Err(InvitationExpired)
  {
  }

  /** Once accepted, a token is refused as already used, whenever it is presented again. */
  lemma SecondAcceptFails(invitations: map<string, Invitation>, token: string, now: int, later: int)
    requires CheckInvitation(invitations, token, now, UsedOnAccept).Ok?
    ensures CheckInvitation(invitations[token := invitations[token].(usedAt := Some(now))], token, later, UsedOnAccept)
            == Err(BadRequest(UsedOnAccept))
  {
  }

  /** The token of 32 random bytes is 64 lower-case hex digits, and distinct bytes give distinct tokens. */
  lemma InvitationTokenShape(entropy: seq<byte>, other: seq<byte>)
    requires |entropy| == 32
    ensures |HexEncode(entropy)| == 64
    ensures forall i :: 0 <= i < 64 ==> IsHexDigit(HexEncode(entropy)[i])
    ensures other != entropy ==> HexEncode(other) != HexEncode(entropy)
  {
    if HexEncode(other) == HexEncode(entropy) {
      HexEncodeInjective(other, entropy);
    }
  }

  /** The newly created employee of an accepted invitation. */
  function InvitedEmployee(id: int, name: string, password: string, invitation: Invitation): Employee {
    Employee(id, name, invitation.email, "employee", Active, Hash(password), None, invitation.organizationId)
  }

  datatype InvitationSent = InvitationSent(success: bool, email: string)
  datatype InvitationAccepted = InvitationAccepted(success: bool, employeeId: int)

  class InvitationService {
    const db: Database

    constructor (db: Database)
      ensures this.db == db
    {
      this.db := db;
    }

    /**
     * sendInvitation, without the e-mail: refuse an email that already has an account, then
     * delete the unused invitations for the pair, then store the new one. The deletion is
     * not undone when the insert fails.
     */
    method SendInvitation(email: string, orgId: int, entropy: seq<byte>, now: int) returns (r: Result<InvitationSent, Error>)
      requires db.Valid()
      requires |entropy| == 32
      modifies db
      ensures db.Valid()
      ensures EmailTaken(old(db.employees), email) ==> r == Err(AccountExists) && db.Snapshot() == old(db.Snapshot())
      ensures !EmailTaken(old(db.employees), email) ==>
                var token := HexEncode(entropy);
                var kept := WithoutPending(old(db.invitations), email, orgId);
                if token in kept then
                  r == Err(Internal(UniqueViolation)) && db.Snapshot() == old(db.Snapshot()).(invitations := kept)
                else if orgId !in old(db.organizations) then
                  r == Err(Internal(ForeignKeyViolation)) && db.Snapshot() == old(db.Snapshot()).(invitations := kept)
                else
                  && r == Ok(InvitationSent(true, email))
                  && db.Snapshot() == old(db.Snapshot()).(invitations := kept[token := NewInvitation(token, email, orgId, now)])
    {
      if EmailTaken(db.employees, email) {
        return Err(AccountExists);
      }
      var token := HexEncode(entropy);
      db.DeletePendingInvitations(email, orgId);
      var created := db.CreateInvitation(NewInvitation(token, email, orgId, now));
      if created.Err? {
        return Err(Internal(created.error));
      }
      r := Ok(InvitationSent(true, email));
    }

    /**
     * acceptInvitation: the same checks as validateToken, then one new employee with role
     * `employee` and status `active`, then `usedAt` set. When the employee cannot be created
     * the invitation stays unused.
     */
    method AcceptInvitation(token: string, name: string, password: string, now: int)
      returns (r: Result<InvitationAccepted, Error>)
      requires db.Valid()
      modifies db
      ensures db.Valid()
      ensures CheckInvitation(old(db.invitations), token, now, UsedOnAccept).Err? ==>
                r == Err(CheckInvitation(old(db.invitations), token, now, UsedOnAccept).error)
                && db.Snapshot() == old(db.Snapshot())
      ensures CheckInvitation(old(db.invitations), token, now, UsedOnAccept).Ok? ==>
                var invitation := old(db.invitations)[token];
                if EmailTaken(old(db.employees), invitation.email) then
                  r == Err(Internal(UniqueViolation)) && db.Snapshot() == old(db.Snapshot())
                else
                  var id := old(db.nextEmployeeId);
                  && r == Ok(InvitationAccepted(true, id))
                  && db.Snapshot() == old(db.Snapshot()).(
                       employees := old(db.employees)[id := InvitedEmployee(id, name, password, invitation)],
                       nextEmployeeId := id + 1,
                       invitations := old(db.invitations)[token := invitation.(usedAt := Some(now))])
    {
      var check := CheckInvitation(db.invitations, token, now, UsedOnAccept);
      if check.Err? {
        return Err(check.error);
      }
      var invitation := check.value;
      var made := db.CreateEmployee(name, invitation.email, "employee", Active, Hash(password), invitation.organizationId);
      if made.Err? {
        return Err(Internal(made.error));
      }
      var _ := db.MarkInvitationUsed(token, now);
      r := Ok(InvitationAccepted(true, made.value.id));
    }
  }
}
