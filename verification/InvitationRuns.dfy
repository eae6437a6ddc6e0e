/** Runs of any number of calls that accept invitations, step by step and in any order, among
    whatever else happens to invitations and members. */
module InvitationRuns {
  import opened Options
  import opened Invitations

  type CallId = nat

  /** Where a call stands; `read` is the invitation as the call read it. */
  datatype Call =
    | Called(id: InvitationId)
    | Read(id: InvitationId, read: Invitation)
    | SignedUp(id: InvitationId, read: Invitation, user: UserId)
    | Undoing(id: InvitationId, user: UserId)
    | Accepted(id: InvitationId, user: UserId, member: MemberId)
    | Refused(id: InvitationId, made: Option<UserId>)      // `InvitationNotFoundError`
    | Failed(id: InvitationId, made: Option<UserId>)       // any other error

  datatype State = State(now: int, db: Db, calls: map<CallId, Call>, usedUsers: set<UserId>, usedMembers: set<MemberId>)

  datatype Event =
    | Tick(ms: nat)
    | Invite(id: InvitationId, invitation: Invitation)
    | Cancel(id: InvitationId)
    | MemberAdded(member: MemberId, row: Member)
    | MemberRemoved(member: MemberId)
    | CallMade(call: CallId, id: InvitationId)
    | Reads(call: CallId)
    | SignsUp(call: CallId, user: UserId)
    | SignUpFails(call: CallId)
    | Transacts(call: CallId, member: MemberId, healthy: bool)
    | Undoes(call: CallId, ok: bool)

  const START := State(0, Db(map[], map[], map[], [], []), map[], {}, {})

  predicate Enabled(s: State, ev: Event) {
    match ev
    case Tick(_) => true
    case Invite(id, invitation) => id !in s.db.invitations && invitation.status == "pending"
    case Cancel(id) => id in s.db.invitations && s.db.invitations[id].status == "pending"
    case MemberAdded(member, _) => member !in s.usedMembers
    case MemberRemoved(member) => member in s.db.members
    case CallMade(c, _) => c !in s.calls
    case Reads(c) => c in s.calls && s.calls[c].Called?
    case SignsUp(c, user) => c in s.calls && s.calls[c].Read? && user !in s.usedUsers
    case SignUpFails(c) => c in s.calls && s.calls[c].Read?
    case Transacts(c, member, _) => c in s.calls && s.calls[c].SignedUp? && s.calls[c].read.role.Some? && member !in s.usedMembers
    case Undoes(c, _) => c in s.calls && s.calls[c].Undoing?
  }

  ghost function Step(s: State, ev: Event): State
    requires Enabled(s, ev)
  {
    match ev
    case Tick(ms) => s.(now := s.now + ms)
    case Invite(id, invitation) => s.(db := s.db.(invitations := s.db.invitations[id := invitation]))
    case Cancel(id) => s.(db := s.db.(invitations := s.db.invitations[id := s.db.invitations[id].(status := "canceled")]))
    case MemberAdded(member, row) =>
      s.(db := s.db.(members := s.db.members[member := row]), usedMembers := s.usedMembers + {member})
    case MemberRemoved(member) => s.(db := s.db.(members := s.db.members - {member}))
    case CallMade(c, id) => s.(calls := s.calls[c := Called(id)])
    case Reads(c) =>
      var id := s.calls[c].id;
      s.(calls := s.calls[c := if id in s.db.invitations && Open(s.db.invitations[id], s.now)
                               then Read(id, s.db.invitations[id]) else Refused(id, None)])
    case SignsUp(c, user) =>
      var call := s.calls[c];
      s.(db := s.db.(users := s.db.users[user := call.read.email]), usedUsers := s.usedUsers + {user},
         calls := s.calls[c := SignedUp(call.id, call.read, user)])
    case SignUpFails(c) => s.(calls := s.calls[c := Failed(s.calls[c].id, None)])
    case Transacts(c, member, healthy) =>
      var call := s.calls[c];
      if !healthy then s.(calls := s.calls[c := Failed(call.id, Some(call.user))])
      else if !Consumes(s.db, call.id, call.read) then s.(calls := s.calls[c := Undoing(call.id, call.user)])
      else
        s.(db := Joins(s.db, call.id, call.read, call.user, member), usedMembers := s.usedMembers + {member},
           calls := s.calls[c := Accepted(call.id, call.user, member)])
    case Undoes(c, ok) =>
      var call := s.calls[c];
      if ok then s.(db := s.db.(users := s.db.users - {call.user}), calls := s.calls[c := Refused(call.id, Some(call.user))])
      else s.(calls := s.calls[c := Failed(call.id, Some(call.user))])
  }

  ghost predicate IsRun(run: seq<State>, events: seq<Event>) {
    && |run| == |events| + 1
    && run[0] == START
    && forall i :: 0 <= i < |events| ==> Follows(run[i], events[i], run[i + 1])
  }

  ghost predicate Follows(a: State, ev: Event, b: State) {
    Enabled(a, ev) && b == Step(a, ev)
  }

  // ---- The invariant ----

  /** Every acceptance left a member row and an audit row, of the invitation's email and role. */
  ghost predicate Paired(db: Db) {
    && |db.joined| == |db.audit|
    && forall k :: 0 <= k < |db.joined| ==>
         && db.audit[k].actor == db.joined[k].member && db.audit[k].invitation == db.joined[k].invitation
         && db.audit[k].role == db.joined[k].row.role && db.joined[k].invitation in db.invitations
         && FitsInvitation(db.joined[k].row, db.audit[k].email, db.invitations[db.joined[k].invitation])
  }

  ghost predicate FitsInvitation(row: Member, email: string, invitation: Invitation) {
    && row.organization == invitation.organization && email == invitation.email
    && Some(row.role) == invitation.role && invitation.status == "accepted"
  }

  ghost predicate Once(db: Db) {
    && (forall i, k :: 0 <= i < k < |db.joined| ==> db.joined[i].invitation != db.joined[k].invitation)
    && (forall id :: id in db.invitations && db.invitations[id].status == "accepted" ==>
          exists k :: 0 <= k < |db.joined| && db.joined[k].invitation == id)
  }

  function UserOf(call: Call): Option<UserId> {
    match call
    case SignedUp(_, _, user) => Some(user)
    case Undoing(_, user) => Some(user)
    case Accepted(_, user, _) => Some(user)
    case Refused(_, made) => made
    case Failed(_, made) => made
    case _ => None
  }

  /** What one call's row says: its user is there unless it was refused, and the invitation it
      read is the invitation but for the status. */
  ghost predicate CallOk(call: Call, s: State) {
    && (UserOf(call).Some? ==> UserOf(call).value in s.usedUsers && (UserOf(call).value in s.db.users <==> !call.Refused?))
    && (call.Read? || call.SignedUp? ==>
          call.id in s.db.invitations && call.read.status == "pending" && call.read.role.Some?
          && call.read == s.db.invitations[call.id].(status := "pending"))
    && (call.SignedUp? ==> call.user in s.db.users && s.db.users[call.user] == call.read.email)
    && (call.Accepted? ==> exists k :: 0 <= k < |s.db.joined| && IsJoinedBy(s.db.joined[k], call))
  }

  ghost predicate IsJoinedBy(joined: Joined, call: Call) {
    call.Accepted? && joined.member == call.member && joined.row.user == call.user && joined.invitation == call.id
  }

  ghost predicate CallsOk(s: State) {
    && (forall c :: c in s.calls ==> CallOk(s.calls[c], s))
    && (forall c, d :: c in s.calls && d in s.calls && c != d && UserOf(s.calls[c]).Some? ==> UserOf(s.calls[c]) != UserOf(s.calls[d]))
  }

  /** Every user that joined was signed up by the call that accepted. */
  ghost predicate JoinedByCalls(s: State) {
    && (forall k :: 0 <= k < |s.db.joined| ==> s.db.joined[k].member in s.usedMembers && JoinedByCall(s, s.db.joined[k]))
    && s.db.users.Keys <= s.usedUsers
  }

  ghost predicate JoinedByCall(s: State, joined: Joined) {
    && (exists c :: c in s.calls && IsJoinedBy(joined, s.calls[c]))
    && joined.row.user in s.db.users && joined.invitation in s.db.invitations
    && s.db.users[joined.row.user] == s.db.invitations[joined.invitation].email
  }

  ghost predicate Valid(s: State) {
    Paired(s.db) && Once(s.db) && CallsOk(s) && JoinedByCalls(s)
  }

  // ---- Steps ----

  lemma StepPaired(s: State, ev: Event)
    requires Valid(s) && Enabled(s, ev)
    ensures Paired(Step(s, ev).db) && Once(Step(s, ev).db)
  {
    hide JoinedByCalls;
    if ev.Transacts? {
      var call := s.calls[ev.call];
      assert CallOk(call, s);
      if ev.healthy && Consumes(s.db, call.id, call.read) { JoinsOnce(s.db, call.id, call.read, call.user, ev.member); }
    }
  }

  lemma JoinsOnce(db: Db, id: InvitationId, read: Invitation, user: UserId, member: MemberId)
    requires Paired(db) && Once(db) && id in db.invitations && db.invitations[id].status == "pending"
    requires read == db.invitations[id]
    requires read.role.Some?
    ensures Paired(Joins(db, id, read, user, member)) && Once(Joins(db, id, read, user, member))
  {
    var r := Joins(db, id, read, user, member);
    assert r.joined[|db.joined|].invitation == id;
    forall i | i in r.invitations && r.invitations[i].status == "accepted"
      ensures exists k :: 0 <= k < |r.joined| && r.joined[k].invitation == i
    {
      if i != id {
        var k :| 0 <= k < |db.joined| && db.joined[k].invitation == i;
        assert r.joined[k].invitation == i;
      }
    }
  }

  lemma StepCalls(s: State, ev: Event)
    requires Valid(s) && Enabled(s, ev)
    ensures CallsOk(Step(s, ev))
  {
    hide Paired, Once, CallOk;
    var r := Step(s, ev);
    forall c | c in r.calls ensures CallOk(r.calls[c], r) {
      StepCall(s, ev, c);
    }
    StepUsers(s, ev);
  }

  lemma StepUsers(s: State, ev: Event)
    requires Valid(s) && Enabled(s, ev)
    ensures var r := Step(s, ev); forall c, d :: c in r.calls && d in r.calls && c != d && UserOf(r.calls[c]).Some? ==>
      UserOf(r.calls[c]) != UserOf(r.calls[d])
  {
    hide Paired, Once, JoinedByCalls;
  }

  predicate IsOwn(ev: Event, c: CallId) {
    match ev
    case CallMade(d, _) => c == d
    case Reads(d) => c == d
    case SignsUp(d, _) => c == d
    case SignUpFails(d) => c == d
    case Transacts(d, _, _) => c == d
    case Undoes(d, _) => c == d
    case _ => false
  }

  lemma StepCall(s: State, ev: Event, c: CallId)
    requires Valid(s) && Enabled(s, ev) && c in Step(s, ev).calls
    ensures CallOk(Step(s, ev).calls[c], Step(s, ev))
  {
    hide Paired, Once, JoinedByCall, CallOk, Step;
    if IsOwn(ev, c) { OwnCall(s, ev, c); } else { OtherCall(s, ev, c); }
  }

  lemma OwnCall(s: State, ev: Event, c: CallId)
    requires CallsOk(s) && s.db.users.Keys <= s.usedUsers && Enabled(s, ev) && IsOwn(ev, c)
    ensures c in Step(s, ev).calls && CallOk(Step(s, ev).calls[c], Step(s, ev))
  {
    hide InviterStays;
    assert c in s.calls ==> CallOk(s.calls[c], s);
    if ev.Transacts? && ev.healthy && Consumes(s.db, s.calls[c].id, s.calls[c].read) {
      var r := Step(s, ev);
      assert IsJoinedBy(r.db.joined[|s.db.joined|], r.calls[c]);
    }
  }

  lemma OtherCall(s: State, ev: Event, c: CallId)
    requires CallsOk(s) && Enabled(s, ev) && !IsOwn(ev, c) && c in Step(s, ev).calls
    ensures CallOk(Step(s, ev).calls[c], Step(s, ev))
  {
    hide InviterStays;
    var r := Step(s, ev);
    assert c in s.calls && r.calls[c] == s.calls[c];
    var call := s.calls[c];
    assert CallOk(call, s);
    if call.Accepted? {
      var k :| 0 <= k < |s.db.joined| && IsJoinedBy(s.db.joined[k], call);
      assert r.db.joined[k] == s.db.joined[k];
    }
    if ev.Undoes? { assert UserOf(s.calls[ev.call]) == Some(s.calls[ev.call].user); }
  }

  lemma StepJoined(s: State, ev: Event)
    requires Valid(s) && Enabled(s, ev)
    ensures JoinedByCalls(Step(s, ev))
  {
    hide Paired, Once, InviterStays, JoinedByCall;
    var r := Step(s, ev);
    forall k | 0 <= k < |r.db.joined| ensures r.db.joined[k].member in r.usedMembers && JoinedByCall(r, r.db.joined[k]) {
      if k < |s.db.joined| {
        assert r.db.joined[k] == s.db.joined[k];
        JoinedStays(s, ev, s.db.joined[k]);
      } else {
        NewJoined(s, ev);
      }
    }
  }

  lemma JoinedStays(s: State, ev: Event, joined: Joined)
    requires CallsOk(s) && s.db.users.Keys <= s.usedUsers && Enabled(s, ev) && JoinedByCall(s, joined)
    ensures JoinedByCall(Step(s, ev), joined)
  {
    hide InviterStays;
    var c :| c in s.calls && IsJoinedBy(joined, s.calls[c]);
    var r := Step(s, ev);
    assert !IsOwn(ev, c);
    assert r.calls[c] == s.calls[c];
    assert UserOf(s.calls[c]) == Some(joined.row.user);
    if ev.Undoes? { assert UserOf(s.calls[ev.call]) == Some(s.calls[ev.call].user); }
  }

  lemma NewJoined(s: State, ev: Event)
    requires CallsOk(s) && Enabled(s, ev) && ev.Transacts? && ev.healthy
    requires Consumes(s.db, s.calls[ev.call].id, s.calls[ev.call].read)
    ensures var r := Step(s, ev); |r.db.joined| == |s.db.joined| + 1 && JoinedByCall(r, r.db.joined[|s.db.joined|])
  {
    hide InviterStays;
    var r := Step(s, ev);
    assert CallOk(s.calls[ev.call], s);
    assert IsJoinedBy(r.db.joined[|s.db.joined|], r.calls[ev.call]);
  }

  lemma {:induction false} RunValid(run: seq<State>, events: seq<Event>, i: nat)
    requires IsRun(run, events) && i < |run|
    ensures Valid(run[i])
    decreases i
  {
    hide Paired, Once, CallsOk, JoinedByCalls, Step, Enabled;
    if i == 0 {
      StartValid();
    } else {
      RunValid(run, events, i - 1);
      assert Follows(run[i - 1], events[i - 1], run[i - 1 + 1]);
      StepPaired(run[i - 1], events[i - 1]);
      StepCalls(run[i - 1], events[i - 1]);
      StepJoined(run[i - 1], events[i - 1]);
    }
  }

  lemma StartValid()
    ensures Valid(START)
  {
  }

  // ---- What holds over runs ----

  /** How many of the rows came from the invitation. */
  function MembersFrom(joined: seq<Joined>, id: InvitationId): nat {
    if joined == [] then 0 else (if joined[0].invitation == id then 1 else 0) + MembersFrom(joined[1..], id)
  }

  function AuditsFrom(audit: seq<Accepts>, id: InvitationId): nat {
    if audit == [] then 0 else (if audit[0].invitation == id then 1 else 0) + AuditsFrom(audit[1..], id)
  }

  lemma {:induction false} CountsAgree(joined: seq<Joined>, audit: seq<Accepts>, id: InvitationId)
    requires |joined| == |audit| && forall k :: 0 <= k < |joined| ==> audit[k].invitation == joined[k].invitation
    requires forall i, k :: 0 <= i < k < |joined| ==> joined[i].invitation != joined[k].invitation
    ensures AuditsFrom(audit, id) == MembersFrom(joined, id)
         == if exists k :: 0 <= k < |joined| && joined[k].invitation == id then 1 else 0
  {
    if joined != [] {
      CountsAgree(joined[1..], audit[1..], id);
      if exists k :: 0 <= k < |joined| && joined[k].invitation == id {
        var k :| 0 <= k < |joined| && joined[k].invitation == id;
        if k > 0 {
          assert joined[1..][k - 1].invitation == id;
          assert joined[0].invitation != joined[k].invitation;
        } else {
          forall j | 0 <= j < |joined[1..]| ensures joined[1..][j].invitation != id {
            assert joined[0].invitation != joined[j + 1].invitation;
          }
        }
      }
    }
  }

  /** An invitation is accepted exactly when one member row and one audit row came from it, and
      otherwise none did. */
  lemma AcceptedOnce(run: seq<State>, events: seq<Event>, i: nat, id: InvitationId)
    requires IsRun(run, events) && i < |run| && id in run[i].db.invitations
    ensures var db := run[i].db; var one := if db.invitations[id].status == "accepted" then 1 else 0;
      MembersFrom(db.joined, id) == one && AuditsFrom(db.audit, id) == one
  {
    hide CallsOk, JoinedByCalls, Step, Enabled, MembersFrom, AuditsFrom;
    RunValid(run, events, i);
    CountsAgree(run[i].db.joined, run[i].db.audit, id);
  }

  /** The member and the audit row of an acceptance belong together: the role and organization
      are the invitation's, and the user is the one signed up with its email. */
  lemma JoinedFits(run: seq<State>, events: seq<Event>, i: nat, k: nat)
    requires IsRun(run, events) && i < |run| && k < |run[i].db.joined|
    ensures var db := run[i].db; var joined := db.joined[k];
      && |db.audit| > k && db.audit[k] == Accepts(joined.member, db.audit[k].email, joined.invitation, joined.row.role)
      && joined.invitation in db.invitations && FitsInvitation(joined.row, db.audit[k].email, db.invitations[joined.invitation])
      && joined.row.user in db.users && db.users[joined.row.user] == db.invitations[joined.invitation].email
  {
    hide Step, Enabled, Once, CallsOk;
    RunValid(run, events, i);
    assert JoinedByCall(run[i], run[i].db.joined[k]);
  }

  /** No two calls ever accept one invitation. */
  lemma OneCallAccepts(run: seq<State>, events: seq<Event>, i: nat, c: CallId, d: CallId)
    requires IsRun(run, events) && i < |run| && c in run[i].calls && d in run[i].calls
    requires run[i].calls[c].Accepted? && run[i].calls[d].Accepted? && run[i].calls[c].id == run[i].calls[d].id
    ensures c == d
  {
    hide Step, Enabled, Paired, JoinedByCalls;
    RunValid(run, events, i);
    var s := run[i];
    assert CallOk(s.calls[c], s) && CallOk(s.calls[d], s);
    var k :| 0 <= k < |s.db.joined| && IsJoinedBy(s.db.joined[k], s.calls[c]);
    var j :| 0 <= j < |s.db.joined| && IsJoinedBy(s.db.joined[j], s.calls[d]);
    assert k == j;
    assert UserOf(s.calls[c]) == UserOf(s.calls[d]);
  }

  /** Undoing a call's sign-up removes the user this call signed up and no other; no member row
      that came from an invitation is that user's. */
  lemma OwnUserOnly(run: seq<State>, events: seq<Event>, i: nat, c: CallId)
    requires IsRun(run, events) && i < |events| && events[i] == Undoes(c, true) && c in run[i].calls
    requires run[i].calls[c].Undoing?
    ensures var user := run[i].calls[c].user;
      && user in run[i].db.users && run[i + 1].db == run[i].db.(users := run[i].db.users - {user})
      && (forall d :: d in run[i].calls && d != c ==> UserOf(run[i].calls[d]) != Some(user))
      && (forall k :: 0 <= k < |run[i].db.joined| ==> run[i].db.joined[k].row.user != user)
  {
    hide Paired, Once;
    assert Follows(run[i], events[i], run[i + 1]);
    RunValid(run, events, i);
    var s := run[i];
    assert CallOk(s.calls[c], s);
    assert UserOf(s.calls[c]) == Some(s.calls[c].user);
    forall k | 0 <= k < |s.db.joined| ensures s.db.joined[k].row.user != s.calls[c].user {
      assert JoinedByCall(s, s.db.joined[k]);
      var d :| d in s.calls && IsJoinedBy(s.db.joined[k], s.calls[d]);
      assert UserOf(s.calls[d]) == Some(s.db.joined[k].row.user);
    }
  }

  // ---- Who may join ----

  /** The call reads its invitation while that is pending, not expired, and for one of the three
      roles. */
  ghost predicate ReadsOpen(run: seq<State>, events: seq<Event>, i: nat, c: CallId) {
    && i < |events| && i < |run| && events[i] == Reads(c) && c in run[i].calls && run[i].calls[c].id in run[i].db.invitations
    && var invitation := run[i].db.invitations[run[i].calls[c].id];
    && invitation.status == "pending" && run[i].now <= invitation.expiresAt
    && (invitation.role == Some("owner") || invitation.role == Some("operator") || invitation.role == Some("viewer"))
  }

  /** The call's transaction runs while the invitation is still pending and its inviter a member. */
  ghost predicate CommitsAt(run: seq<State>, events: seq<Event>, k: nat, c: CallId) {
    && k < |events| && k < |run| && events[k].Transacts? && events[k].call == c && events[k].healthy
    && c in run[k].calls && run[k].calls[c].id in run[k].db.invitations
    && var invitation := run[k].db.invitations[run[k].calls[c].id];
    && invitation.status == "pending"
    && exists row :: row in run[k].db.members.Values && row.organization == invitation.organization && row.user == invitation.inviter
  }

  lemma ReadsExactly(run: seq<State>, events: seq<Event>, i: nat, c: CallId)
    requires IsRun(run, events) && i < |events| && events[i] == Reads(c)
    ensures c in run[i + 1].calls && (run[i + 1].calls[c].Read? <==> ReadsOpen(run, events, i, c))
  {
    assert Follows(run[i], events[i], run[i + 1]);
  }

  lemma CommitsExactly(run: seq<State>, events: seq<Event>, k: nat, c: CallId)
    requires IsRun(run, events) && k < |events| && events[k].Transacts? && events[k].call == c && events[k].healthy
    ensures c in run[k + 1].calls && (run[k + 1].calls[c].Accepted? <==> CommitsAt(run, events, k, c))
  {
    hide Paired, Once, JoinedByCalls;
    assert Follows(run[k], events[k], run[k + 1]);
    RunValid(run, events, k);
    var s := run[k];
    assert CallOk(s.calls[c], s);
    InviterIs(s.db, s.calls[c].read);
  }

  lemma InviterIs(db: Db, invitation: Invitation)
    ensures InviterStays(db, invitation) <==>
      exists row :: row in db.members.Values && row.organization == invitation.organization && row.user == invitation.inviter
  {
    if InviterStays(db, invitation) {
      var m :| m in db.members && db.members[m].organization == invitation.organization && db.members[m].user == invitation.inviter;
      assert db.members[m] in db.members.Values;
    }
  }

  predicate HasRead(call: Call) {
    call.Read? || call.SignedUp? || call.Accepted?
  }

  lemma {:induction false} HasReadOpen(run: seq<State>, events: seq<Event>, j: nat, c: CallId)
    requires IsRun(run, events) && j < |run| && c in run[j].calls && HasRead(run[j].calls[c])
    ensures exists i: nat :: i < j && ReadsOpen(run, events, i, c)
    decreases j
  {
    hide ReadsOpen, InviterStays;
    assert Follows(run[j - 1], events[j - 1], run[j - 1 + 1]);
    if events[j - 1] == Reads(c) {
      ReadsExactly(run, events, j - 1, c);
    } else {
      HasReadOpen(run, events, j - 1, c);
    }
  }

  /** Whoever is accepted read an invitation that was open, and joined while it was still pending
      and the inviter still a member of the organization. */
  lemma {:induction false} AcceptedWasOpen(run: seq<State>, events: seq<Event>, j: nat, c: CallId)
    requires IsRun(run, events) && j < |run| && c in run[j].calls && run[j].calls[c].Accepted?
    ensures exists i: nat, k: nat :: i < k < j && ReadsOpen(run, events, i, c) && CommitsAt(run, events, k, c)
    decreases j
  {
    hide ReadsOpen, CommitsAt, InviterStays;
    assert Follows(run[j - 1], events[j - 1], run[j - 1 + 1]);
    if events[j - 1].Transacts? && events[j - 1].call == c {
      CommitsExactly(run, events, j - 1, c);
      HasReadOpen(run, events, j - 1, c);
    } else {
      AcceptedWasOpen(run, events, j - 1, c);
    }
  }

  ghost predicate RemovedBy(events: seq<Event>, member: MemberId, j: nat) {
    exists i: nat :: i < j && i < |events| && events[i] == MemberRemoved(member)
  }

  /** Whoever joined is a member, in the organization and role of the invitation, until removed. */
  lemma {:induction false} JoinedIsMember(run: seq<State>, events: seq<Event>, j: nat, k: nat)
    requires IsRun(run, events) && j < |run| && k < |run[j].db.joined|
    ensures var joined := run[j].db.joined[k];
      !RemovedBy(events, joined.member, j) ==> joined.member in run[j].db.members && run[j].db.members[joined.member] == joined.row
    decreases j
  {
    hide InviterStays, Paired, Once, CallsOk, JoinedByCall;
    assert Follows(run[j - 1], events[j - 1], run[j - 1 + 1]);
    RunValid(run, events, j - 1);
    if k < |run[j - 1].db.joined| {
      JoinedIsMember(run, events, j - 1, k);
      assert run[j].db.joined[k] == run[j - 1].db.joined[k];
      RemovedEarlier(events, run[j].db.joined[k].member, j);
    }
  }

  lemma RemovedEarlier(events: seq<Event>, member: MemberId, j: nat)
    requires 0 < j <= |events|
    ensures RemovedBy(events, member, j) <==> RemovedBy(events, member, j - 1) || events[j - 1] == MemberRemoved(member)
  {
  }

  predicate IsOver(call: Call) {
    call.Accepted? || call.Refused? || call.Failed?
  }

  /** The event lets the user of the call stay: its transaction commits, or breaks for another
      reason than a missing invitation, or its compensation does not work. */
  ghost predicate Spares(s: State, ev: Event, c: CallId) {
    match ev
    case Transacts(d, _, healthy) =>
      d == c && c in s.calls && s.calls[c].SignedUp? && (!healthy || Consumes(s.db, s.calls[c].id, s.calls[c].read))
    case Undoes(d, ok) => d == c && !ok
    case _ => false
  }

  ghost predicate SparedIn(run: seq<State>, events: seq<Event>, c: CallId, k: nat, j: nat) {
    exists i: nat :: k < i < j && i < |events| && i < |run| && Spares(run[i], events[i], c)
  }

  /** Where a call that signed its user up stands, as long as the user has not been removed:
      either nothing has spared it yet, or the call is over. */
  lemma {:induction false} SignedUpLater(run: seq<State>, events: seq<Event>, c: CallId, user: UserId, k: nat, j: nat)
    requires IsRun(run, events) && k < j < |run| && events[k] == SignsUp(c, user)
    ensures c in run[j].calls && UserOf(run[j].calls[c]) == Some(user)
    ensures SparedIn(run, events, c, k, j) <==> run[j].calls[c].Accepted? || run[j].calls[c].Failed?
    decreases j
  {
    assert Follows(run[j - 1], events[j - 1], run[j - 1 + 1]);
    if k < j - 1 {
      SignedUpLater(run, events, c, user, k, j - 1);
      SparedOnce(run[j - 1], events[j - 1], run[j], c);
      assert SparedIn(run, events, c, k, j) <==> SparedIn(run, events, c, k, j - 1) || Spares(run[j - 1], events[j - 1], c);
    }
  }

  lemma SparedOnce(s: State, ev: Event, r: State, c: CallId)
    requires Follows(s, ev, r) && c in s.calls && UserOf(s.calls[c]).Some?
    ensures c in r.calls && UserOf(r.calls[c]) == UserOf(s.calls[c])
    ensures r.calls[c].Accepted? || r.calls[c].Failed? <==> s.calls[c].Accepted? || s.calls[c].Failed? || Spares(s, ev, c)
  {
    hide InviterStays;
  }

  /** Once a call is over, the user it signed up is still there exactly if its transaction
      committed, its transaction broke, or its compensation did not work: a missing invitation
      is the only failure that is undone. */
  lemma WhoseUserStays(run: seq<State>, events: seq<Event>, c: CallId, user: UserId, k: nat, j: nat)
    requires IsRun(run, events) && k < j < |run| && events[k] == SignsUp(c, user)
    requires c in run[j].calls && IsOver(run[j].calls[c])
    ensures user in run[j].db.users <==> SparedIn(run, events, c, k, j)
  {
    hide Step, Enabled, Paired, Once, JoinedByCalls, SparedIn;
    SignedUpLater(run, events, c, user, k, j);
    RunValid(run, events, j);
    assert CallOk(run[j].calls[c], run[j]);
  }

  // ---- A user left behind ----

  const INVITED := Invitation("org", 0, "new@example.com", Some("viewer"), "pending", 10)
  const WITH_INVITATION := Db(map["i" := INVITED], map[], map[], [], [])
  const WITH_USER := WITH_INVITATION.(users := map[7 := "new@example.com"])
  const LEAVING: seq<State> := [
    START,
    State(0, WITH_INVITATION, map[], {}, {}),
    State(0, WITH_INVITATION, map[1 := Called("i")], {}, {}),
    State(0, WITH_INVITATION, map[1 := Read("i", INVITED)], {}, {}),
    State(0, WITH_USER, map[1 := SignedUp("i", INVITED, 7)], {7}, {}),
    State(0, WITH_USER, map[1 := Failed("i", Some(7))], {7}, {})]
  const LEFT_BY: seq<Event> := [Invite("i", INVITED), CallMade(1, "i"), Reads(1), SignsUp(1, 7), Transacts(1, 3, false)]

  /** A call whose transaction breaks leaves its user, who belongs to no organization. */
  lemma UserLeftBehind()
    ensures IsRun(LEAVING, LEFT_BY) && 7 in LEAVING[5].db.users && LEAVING[5].calls[1].Failed?
    ensures LEAVING[5].db.members == map[] && LEAVING[5].db.invitations["i"].status == "pending"
  {
    assert Follows(LEAVING[0], LEFT_BY[0], LEAVING[1]);
    assert Follows(LEAVING[1], LEFT_BY[1], LEAVING[2]);
    assert Follows(LEAVING[2], LEFT_BY[2], LEAVING[3]);
    assert Follows(LEAVING[3], LEFT_BY[3], LEAVING[4]);
    assert Follows(LEAVING[4], LEFT_BY[4], LEAVING[5]);
  }
}
