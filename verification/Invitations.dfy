/** Accepting an invitation: the database as one call's steps see and change it. */
module Invitations {
  import opened Options

  type InvitationId = string
  type UserId = nat
  type MemberId = nat

  const ROLES: set<string> := {"owner", "operator", "viewer"}

  datatype Invitation = Invitation(
    organization: string,
    inviter: UserId,
    email: string,
    role: Option<string>,
    status: string,
    expiresAt: int)

  datatype Member = Member(organization: string, user: UserId, role: string)

  /** An audit row with the action `member.accept`. */
  datatype Accepts = Accepts(actor: MemberId, email: string, invitation: InvitationId, role: string)

  /** A member row inserted by the acceptance of an invitation; kept when the row itself goes. */
  datatype Joined = Joined(member: MemberId, row: Member, invitation: InvitationId)

  datatype Db = Db(
    invitations: map<InvitationId, Invitation>,
    users: map<UserId, string>,
    members: map<MemberId, Member>,
    audit: seq<Accepts>,
    joined: seq<Joined>)

  /** What the first part of the call refuses: an invitation that is not pending, has expired,
      or names no role. */
  predicate Open(invitation: Invitation, now: int) {
    && invitation.status == "pending"
    && invitation.expiresAt >= now
    && invitation.role.Some? && invitation.role.value in ROLES
  }

  /** The inviter is still a member of the organization. */
  ghost predicate InviterStays(db: Db, invitation: Invitation) {
    exists m :: m in db.members && db.members[m].organization == invitation.organization && db.members[m].user == invitation.inviter
  }

  datatype Outcome = Committed | NotFound | Broken

  /** The transaction as a whole: the read invitation decides what is inserted, the current row
      decides whether it may be. */
  ghost predicate Consumes(db: Db, id: InvitationId, read: Invitation) {
    InviterStays(db, read) && id in db.invitations && db.invitations[id].status == "pending"
  }

  function Joins(db: Db, id: InvitationId, read: Invitation, user: UserId, member: MemberId): Db
    requires id in db.invitations && read.role.Some?
  {
    var row := Member(read.organization, user, read.role.value);
    db.(members := db.members[member := row],
        invitations := db.invitations[id := db.invitations[id].(status := "accepted")],
        audit := db.audit + [Accepts(member, read.email, id, read.role.value)],
        joined := db.joined + [Joined(member, row, id)])
  }

  class Server {
    var invitations: map<InvitationId, Invitation>
    var users: map<UserId, string>
    var members: map<MemberId, Member>
    var audit: seq<Accepts>
    ghost var joined: seq<Joined>

    ghost function Database(): Db
      reads this
    {
      Db(invitations, users, members, audit, joined)
    }

    method ReadInvitation(id: InvitationId, now: int) returns (read: Option<Invitation>)
      ensures read.Some? <==> id in invitations && Open(invitations[id], now)
      ensures read.Some? ==> read.value == invitations[id]
    {
      if id !in invitations { return None; }
      var invitation := invitations[id];
      if invitation.status != "pending" || invitation.expiresAt < now || invitation.role.None?
         || invitation.role.value !in ROLES
      {
        return None;
      }
      read := Some(invitation);
    }

    method SignUp(email: string, user: UserId)
      modifies this`users
      ensures Database() == old(Database()).(users := old(users)[user := email])
    {
      users := users[user := email];
    }

    method FindInviter(invitation: Invitation) returns (found: bool)
      ensures found <==> InviterStays(Database(), invitation)
    {
      found := false;
      var left := members.Keys;
      while left != {}
        invariant left <= members.Keys
        invariant found <==> exists m :: m in members && m !in left
                               && members[m].organization == invitation.organization && members[m].user == invitation.inviter
        decreases left
      {
        var m :| m in left;
        if members[m].organization == invitation.organization && members[m].user == invitation.inviter { found := true; }
        left := left - {m};
      }
    }

    /** The transaction. It changes nothing unless it commits, and it commits exactly if the
        invitation is there to be consumed and the database does not fail (`healthy`). */
    method Transact(id: InvitationId, read: Invitation, user: UserId, member: MemberId, healthy: bool) returns (outcome: Outcome)
      requires read.role.Some?
      modifies this
      ensures outcome == if !healthy then Broken else if Consumes(old(Database()), id, read) then Committed else NotFound
      ensures outcome == Committed ==> Database() == Joins(old(Database()), id, read, user, member)
      ensures outcome != Committed ==> Database() == old(Database())
    {
      if !healthy { return Broken; }
      var found := FindInviter(read);
      if !found { return NotFound; }
      var withMember := members[member := Member(read.organization, user, read.role.value)];
      if id !in invitations || invitations[id].status != "pending" { return NotFound; }
      members := withMember;
      joined := joined + [Joined(member, withMember[member], id)];
      invitations := invitations[id := invitations[id].(status := "accepted")];
      audit := audit + [Accepts(member, read.email, id, read.role.value)];
      outcome := Committed;
    }

    method DeleteUser(user: UserId)
      modifies this`users
      ensures Database() == old(Database()).(users := old(users) - {user})
    {
      users := users - {user};
    }
  }
}
