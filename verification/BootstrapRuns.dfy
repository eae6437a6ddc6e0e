/** Runs of any number of first-owner registrations at once. */
module BootstrapRuns {
  import opened Options
  import opened Bootstrap

  ghost predicate IsRun(run: seq<State>, events: seq<Event>) {
    && |run| == |events| + 1
    && run[0] == START
    && forall i :: 0 <= i < |events| ==> Follows(run[i], events[i], run[i + 1])
  }

  ghost predicate Follows(a: State, ev: Event, b: State) {
    Enabled(a, ev) && b == Step(a, ev)
  }

  // ---- The invariant ----

  predicate Inside(phase: Phase) {
    !phase.Started? && !phase.Waiting? && !phase.Done?
  }

  ghost predicate HasOrganization(s: State, user: UserId) {
    exists o :: o in s.organizations && s.organizations[o] == user
  }

  /** Exactly the holder of the lock is inside. */
  ghost predicate LockOk(s: State) {
    forall c :: c in s.calls ==> (Inside(s.calls[c]) <==> s.lock == Some(c))
  }

  predicate Won(phase: Phase) {
    (phase.Leaving? && phase.outcome.Succeeded?) || (phase.Done? && phase.result.Succeeded?)
  }

  function Prize(phase: Phase): Result
    requires Won(phase)
  {
    if phase.Leaving? then phase.outcome else phase.result
  }

  /** What the users are while the holder is in this phase. */
  ghost predicate UsersAt(s: State, phase: Phase) {
    match phase
    case SigningUp => s.users == {}
    case Organizing(user) => s.users == {user} && !HasOrganization(s, user)
    case Removing(user) => s.users == {user} && !HasOrganization(s, user)
    case _ => true
  }

  /** Nobody is between signing a user up and giving it an organization or removing it. */
  predicate Resting(s: State) {
    forall c :: c in s.calls ==> !s.calls[c].Organizing? && !s.calls[c].Removing?
  }

  ghost predicate AtMostOne(users: set<UserId>) {
    forall a, b :: a in users && b in users ==> a == b
  }

  ghost predicate Valid(s: State) {
    && LockOk(s)
    && (s.lock.Some? ==> s.lock.value in s.calls)
    && AtMostOne(s.users)
    && (forall c :: c in s.calls ==> UsersAt(s, s.calls[c]))
    && (forall c :: c in s.calls && Won(s.calls[c]) ==>
          Prize(s.calls[c]).organization in s.organizations
          && s.organizations[Prize(s.calls[c]).organization] == Prize(s.calls[c]).user && Prize(s.calls[c]).user in s.users)
    && (forall c, d :: c in s.calls && d in s.calls && Won(s.calls[c]) && Won(s.calls[d]) ==> c == d)
    && (Resting(s) ==> (s.removalFailed <==> exists user :: user in s.users && !HasOrganization(s, user)))
    && (!Resting(s) ==> !s.removalFailed)
  }

  lemma LockKept(s: State, ev: Event)
    requires Valid(s) && Enabled(s, ev)
    ensures LockOk(Step(s, ev)) && (Step(s, ev).lock.Some? ==> Step(s, ev).lock.value in Step(s, ev).calls)
  {
    hide UsersAt, HasOrganization, Resting, Won, AtMostOne;
  }

  /** Everyone but the holder is outside. */
  lemma OnlyHolder(s: State, c: CallId, d: CallId)
    requires LockOk(s) && c in s.calls && d in s.calls && Inside(s.calls[c]) && c != d
    ensures !Inside(s.calls[d])
  {
  }

  lemma UsersKept(s: State, ev: Event)
    requires Valid(s) && Enabled(s, ev)
    ensures AtMostOne(Step(s, ev).users) && forall c :: c in Step(s, ev).calls ==> UsersAt(Step(s, ev), Step(s, ev).calls[c])
  {
    hide Resting, Won;
    var r := Step(s, ev);
    var d := ev.call;
    if d in s.calls { assert UsersAt(s, s.calls[d]); }
    forall c | c in r.calls ensures UsersAt(r, r.calls[c]) {
      if c != d {
        assert UsersAt(s, s.calls[c]);
        if d in s.calls && Inside(s.calls[d]) { OnlyHolder(s, d, c); }
      }
    }
  }

  lemma WonKept(s: State, ev: Event)
    requires Valid(s) && Enabled(s, ev)
    ensures var r := Step(s, ev); forall c :: c in r.calls && Won(r.calls[c]) ==>
      Prize(r.calls[c]).organization in r.organizations
      && r.organizations[Prize(r.calls[c]).organization] == Prize(r.calls[c]).user && Prize(r.calls[c]).user in r.users
    ensures var r := Step(s, ev); forall c, d :: c in r.calls && d in r.calls && Won(r.calls[c]) && Won(r.calls[d]) ==> c == d
  {
    hide Resting, LockOk;
    var r := Step(s, ev);
    var d := ev.call;
    if d in s.calls { assert UsersAt(s, s.calls[d]); }
    forall c | c in r.calls && Won(r.calls[c])
      ensures Prize(r.calls[c]).organization in r.organizations
        && r.organizations[Prize(r.calls[c]).organization] == Prize(r.calls[c]).user && Prize(r.calls[c]).user in r.users
    {
      if c != d {
        assert Won(s.calls[c]);
        assert HasOrganization(s, Prize(s.calls[c]).user);
      }
    }
    forall b, c | b in r.calls && c in r.calls && Won(r.calls[b]) && Won(r.calls[c]) ensures b == c {
      if b != d && b in s.calls { NoSecondWin(s, ev, b); }
      if c != d && c in s.calls { NoSecondWin(s, ev, c); }
    }
  }

  /** Once some call has won, no other makes an organization any more. */
  lemma NoSecondWin(s: State, ev: Event, c: CallId)
    requires Valid(s) && Enabled(s, ev) && c in s.calls && Won(s.calls[c])
    ensures !ev.Organizes?
  {
    hide Resting, LockOk;
    assert HasOrganization(s, Prize(s.calls[c]).user) by { assert Prize(s.calls[c]).organization in s.organizations; }
    assert ev.call in s.calls ==> UsersAt(s, s.calls[ev.call]);
  }

  lemma RestKept(s: State, ev: Event)
    requires Valid(s) && Enabled(s, ev)
    ensures var r := Step(s, ev);
      && (Resting(r) ==> (r.removalFailed <==> exists user :: user in r.users && !HasOrganization(r, user)))
      && (!Resting(r) ==> !r.removalFailed)
  {
    hide Won;
    var r := Step(s, ev);
    var d := ev.call;
    if d in s.calls { assert UsersAt(s, s.calls[d]); }
    if d in s.calls && Inside(s.calls[d]) {
      forall c | c in s.calls && c != d ensures !s.calls[c].Organizing? && !s.calls[c].Removing? { OnlyHolder(s, d, c); }
    }
    RestStep(s, ev, r);
  }

  lemma RestStep(s: State, ev: Event, r: State)
    requires Valid(s) && Enabled(s, ev) && r == Step(s, ev)
    requires ev.call in s.calls ==> UsersAt(s, s.calls[ev.call])
    requires ev.call in s.calls && Inside(s.calls[ev.call]) ==>
      forall c :: c in s.calls && c != ev.call ==> !s.calls[c].Organizing? && !s.calls[c].Removing?
    ensures Resting(r) ==> (r.removalFailed <==> exists user :: user in r.users && !HasOrganization(r, user))
    ensures !Resting(r) ==> !r.removalFailed
  {
    hide Won, LockOk, AtMostOne;
    match ev
    case SignsUp(c, user) =>
      assert Resting(s) && !s.removalFailed;
      assert r.calls[c].Organizing?;
    case Organizes(c, o) =>
      assert s.calls[c].Organizing? && !s.removalFailed;
      assert r.organizations[o] == s.calls[c].user;
      assert HasOrganization(r, s.calls[c].user);
    case Removes(c, ok) =>
      assert s.calls[c].Removing? && !s.removalFailed;
      if !ok { assert s.calls[c].user in r.users && !HasOrganization(r, s.calls[c].user); }
    case _ =>
      forall user ensures HasOrganization(r, user) == HasOrganization(s, user) {}
      SameRest(s, ev, r);
  }

  /** Only signing up, organizing and removing change whether somebody is in between. */
  lemma SameRest(s: State, ev: Event, r: State)
    requires Enabled(s, ev) && r == Step(s, ev) && !ev.SignsUp? && !ev.Organizes? && !ev.Removes?
    ensures Resting(r) == Resting(s)
  {
    var d := ev.call;
    assert forall c :: c in s.calls && c != d ==> c in r.calls && r.calls[c] == s.calls[c];
    if ev.OrganizingFails? {
      assert s.calls[d].Organizing? && r.calls[d].Removing?;
    } else if Resting(s) {
      forall c | c in r.calls ensures !r.calls[c].Organizing? && !r.calls[c].Removing? {}
    } else {
      var c :| c in s.calls && (s.calls[c].Organizing? || s.calls[c].Removing?);
      assert r.calls[c] == s.calls[c];
    }
  }

  lemma {:induction false} RunValid(run: seq<State>, events: seq<Event>, i: nat)
    requires IsRun(run, events) && i < |run|
    ensures Valid(run[i])
    decreases i
  {
    hide LockOk, UsersAt, Won, Resting, HasOrganization, AtMostOne, Step, Enabled;
    if i == 0 {
      StartValid();
    } else {
      RunValid(run, events, i - 1);
      var s, ev := run[i - 1], events[i - 1];
      assert Follows(s, ev, run[i - 1 + 1]);
      LockKept(s, ev);
      UsersKept(s, ev);
      WonKept(s, ev);
      RestKept(s, ev);
    }
  }

  lemma StartValid()
    ensures Valid(START)
  {
  }

  // ---- What holds over runs ----

  /** At most one user exists at a time, whether or not every removal works, and at most one
      call succeeds; its user and organization are there from then on. */
  lemma OneFirstOwner(run: seq<State>, events: seq<Event>, i: nat)
    requires IsRun(run, events) && i < |run|
    ensures |run[i].users| <= 1
    ensures forall c, d :: c in run[i].calls && d in run[i].calls && Won(run[i].calls[c]) && Won(run[i].calls[d]) ==> c == d
    ensures forall c :: c in run[i].calls && Won(run[i].calls[c]) ==>
      run[i].users == {Prize(run[i].calls[c]).user} && HasOrganization(run[i], Prize(run[i].calls[c]).user)
  {
    hide Step, Enabled;
    RunValid(run, events, i);
    var s := run[i];
    if u :| u in s.users { assert s.users == {u}; }
    forall c | c in s.calls && Won(s.calls[c]) ensures HasOrganization(s, Prize(s.calls[c]).user) {
      assert Prize(s.calls[c]).organization in s.organizations;
    }
  }

  /** Some compensating removal did not work before step `j`. */
  ghost predicate RemovalFailedBy(events: seq<Event>, j: nat) {
    exists i: nat :: i < j && i < |events| && events[i].Removes? && !events[i].ok
  }

  lemma {:induction false} RemovalRecorded(run: seq<State>, events: seq<Event>, j: nat)
    requires IsRun(run, events) && j < |run|
    ensures run[j].removalFailed <==> RemovalFailedBy(events, j)
    decreases j
  {
    if j > 0 {
      RemovalRecorded(run, events, j - 1);
      assert Follows(run[j - 1], events[j - 1], run[j - 1 + 1]);
      assert RemovalFailedBy(events, j) <==>
        RemovalFailedBy(events, j - 1) || (events[j - 1].Removes? && !events[j - 1].ok);
    }
  }

  /** Whenever the lock is free, every user has an organization exactly if no removal has failed. */
  lemma OwnersHaveOrganizations(run: seq<State>, events: seq<Event>, i: nat)
    requires IsRun(run, events) && i < |run| && run[i].lock.None?
    ensures !RemovalFailedBy(events, i) <==> forall user :: user in run[i].users ==> HasOrganization(run[i], user)
  {
    hide Step, Enabled, HasOrganization, UsersAt, Won, AtMostOne, RemovalFailedBy;
    RemovalRecorded(run, events, i);
    RunValid(run, events, i);
    assert Resting(run[i]);
  }

  /** Between taking the lock and giving it back there is one call at most, and it is the lock's
      holder. */
  lemma Alone(run: seq<State>, events: seq<Event>, i: nat, c: CallId, d: CallId)
    requires IsRun(run, events) && i < |run| && c in run[i].calls && d in run[i].calls
    requires Inside(run[i].calls[c]) && Inside(run[i].calls[d])
    ensures c == d && run[i].lock == Some(c)
  {
    hide Step, Enabled, UsersAt, Won, Resting, HasOrganization, AtMostOne;
    RunValid(run, events, i);
  }

  // ---- How a call ends ----

  /** The result a call will answer or has answered. */
  function EndOfCall(phase: Phase): Option<Result> {
    if phase.Leaving? then Some(phase.outcome) else if phase.Done? then Some(phase.result) else None
  }

  ghost predicate FindsUser(run: seq<State>, events: seq<Event>, i: nat, c: CallId) {
    i < |events| && i < |run| && (events[i] == ChecksFirst(c) || events[i] == ChecksAgain(c)) && run[i].users != {}
  }

  /** A call is refused exactly if one of its two checks found a user. */
  lemma {:induction false} RefusedExactly(run: seq<State>, events: seq<Event>, j: nat, c: CallId)
    requires IsRun(run, events) && j < |run| && c in run[j].calls
    ensures EndOfCall(run[j].calls[c]) == Some(Refused) <==> exists i: nat :: i < j && FindsUser(run, events, i, c)
    decreases j
  {
    hide Step, Enabled, EndOfCall;
    assert Follows(run[j - 1], events[j - 1], run[j - 1 + 1]);
    RefusedStep(run[j - 1], events[j - 1], run[j], c);
    if c in run[j - 1].calls {
      RefusedExactly(run, events, j - 1, c);
      assert EndOfCall(run[j].calls[c]) == Some(Refused) <==>
        EndOfCall(run[j - 1].calls[c]) == Some(Refused) || FindsUser(run, events, j - 1, c);
    } else {
      forall i: nat | i < j ensures !FindsUser(run, events, i, c) {
        if FindsUser(run, events, i, c) { CallsStay(run, events, i, j - 1, c); }
      }
    }
  }

  lemma RefusedStep(s: State, ev: Event, r: State, c: CallId)
    requires Follows(s, ev, r) && c in r.calls
    ensures c in s.calls ==>
      (EndOfCall(r.calls[c]) == Some(Refused) <==>
       EndOfCall(s.calls[c]) == Some(Refused) || ((ev == ChecksFirst(c) || ev == ChecksAgain(c)) && s.users != {}))
    ensures c !in s.calls ==> EndOfCall(r.calls[c]) != Some(Refused)
  {
  }

  lemma {:induction false} CallsStay(run: seq<State>, events: seq<Event>, i: nat, j: nat, c: CallId)
    requires IsRun(run, events) && i < |events| && i <= j < |run|
    requires events[i].call == c && !events[i].Begins?
    ensures c in run[j].calls
    decreases j
  {
    assert Follows(run[i], events[i], run[i + 1]);
    if i < j {
      CallsStay(run, events, i, j - 1, c);
      assert Follows(run[j - 1], events[j - 1], run[j - 1 + 1]);
    }
  }

  /** The call signed this user up and then made it this organization. */
  ghost predicate MadeBy(events: seq<Event>, j: nat, c: CallId, user: UserId, organization: OrgId) {
    exists k: nat, i: nat :: k < i < j && i < |events| && SignedUpAt(events, k, c, user) && events[i] == Organizes(c, organization)
  }

  ghost predicate SignedUpAt(events: seq<Event>, k: nat, c: CallId, user: UserId) {
    k < |events| && events[k] == SignsUp(c, user)
  }

  /** What a call that has signed a user up can still come to. */
  predicate MaybeWith(phase: Phase, user: UserId) {
    match phase
    case Organizing(u) => u == user
    case Removing(u) => u == user
    case Leaving(r) => r == Errored || (r.Succeeded? && r.user == user)
    case Done(r) => r == Errored || (r.Succeeded? && r.user == user)
    case _ => false
  }

  lemma {:induction false} AfterSignUp(run: seq<State>, events: seq<Event>, k: nat, j: nat, c: CallId, user: UserId)
    requires IsRun(run, events) && SignedUpAt(events, k, c, user) && k < j < |run|
    ensures c in run[j].calls && MaybeWith(run[j].calls[c], user)
    decreases j
  {
    assert Follows(run[j - 1], events[j - 1], run[j - 1 + 1]);
    if k < j - 1 { AfterSignUp(run, events, k, j - 1, c, user); }
  }

  lemma {:induction false} AfterOrganizing(run: seq<State>, events: seq<Event>, k: nat, i: nat, j: nat, c: CallId, user: UserId, o: OrgId)
    requires IsRun(run, events) && SignedUpAt(events, k, c, user) && k < i < j < |run| && events[i] == Organizes(c, o)
    ensures c in run[j].calls && EndOfCall(run[j].calls[c]) == Some(Succeeded(user, o))
    decreases j
  {
    assert Follows(run[j - 1], events[j - 1], run[j - 1 + 1]);
    if i < j - 1 { AfterOrganizing(run, events, k, i, j - 1, c, user, o); } else { AfterSignUp(run, events, k, i, c, user); }
  }

  lemma {:induction false} OrganizingSignedUp(run: seq<State>, events: seq<Event>, j: nat, c: CallId)
    requires IsRun(run, events) && j < |run| && c in run[j].calls && run[j].calls[c].Organizing?
    ensures exists k: nat :: k < j && SignedUpAt(events, k, c, run[j].calls[c].user)
    decreases j
  {
    assert Follows(run[j - 1], events[j - 1], run[j - 1 + 1]);
    if events[j - 1].call == c {
      assert SignedUpAt(events, j - 1, c, run[j].calls[c].user);
    } else {
      OrganizingSignedUp(run, events, j - 1, c);
    }
  }

  /** A call succeeds with a user and an organization exactly if it signed up the one and made it
      the other. */
  lemma {:induction false} SucceededExactly(run: seq<State>, events: seq<Event>, j: nat, c: CallId, user: UserId, o: OrgId)
    requires IsRun(run, events) && j < |run| && c in run[j].calls
    ensures EndOfCall(run[j].calls[c]) == Some(Succeeded(user, o)) <==> MadeBy(events, j, c, user, o)
    decreases j
  {
    if MadeBy(events, j, c, user, o) {
      var k: nat, i: nat :| k < i < j && i < |events| && SignedUpAt(events, k, c, user) && events[i] == Organizes(c, o);
      AfterOrganizing(run, events, k, i, j, c, user, o);
    }
    if EndOfCall(run[j].calls[c]) == Some(Succeeded(user, o)) {
      assert Follows(run[j - 1], events[j - 1], run[j - 1 + 1]);
      if events[j - 1] == Organizes(c, o) {
        OrganizingSignedUp(run, events, j - 1, c);
        assert MadeBy(events, j, c, user, o);
      } else {
        SucceededExactly(run, events, j - 1, c, user, o);
      }
    }
  }

  // ---- A user without an organization ----

  const ABANDONING: seq<State> := [
    START,
    State({}, map[], None, map[1 := Started], false),
    State({}, map[], None, map[1 := Waiting], false),
    State({}, map[], Some(1), map[1 := Checking], false),
    State({}, map[], Some(1), map[1 := SigningUp], false),
    State({7}, map[], Some(1), map[1 := Organizing(7)], false),
    State({7}, map[], Some(1), map[1 := Removing(7)], false),
    State({7}, map[], Some(1), map[1 := Leaving(Errored)], true),
    State({7}, map[], None, map[1 := Done(Errored)], true)]
  const ABANDONED_BY: seq<Event> := [
    Begins(1), ChecksFirst(1), Acquires(1), ChecksAgain(1), SignsUp(1, 7), OrganizingFails(1), Removes(1, false), Releases(1)]

  /** It can come to that: the organization cannot be made, and neither can the user be removed. */
  lemma RemovalCanFail()
    ensures IsRun(ABANDONING, ABANDONED_BY)
    ensures ABANDONING[8].lock.None? && ABANDONING[8].users == {7} && !HasOrganization(ABANDONING[8], 7)
  {
    assert Follows(ABANDONING[0], ABANDONED_BY[0], ABANDONING[1]);
    assert Follows(ABANDONING[1], ABANDONED_BY[1], ABANDONING[2]);
    assert Follows(ABANDONING[2], ABANDONED_BY[2], ABANDONING[3]);
    assert Follows(ABANDONING[3], ABANDONED_BY[3], ABANDONING[4]);
    assert Follows(ABANDONING[4], ABANDONED_BY[4], ABANDONING[5]);
    assert Follows(ABANDONING[5], ABANDONED_BY[5], ABANDONING[6]);
    assert Follows(ABANDONING[6], ABANDONED_BY[6], ABANDONING[7]);
    assert Follows(ABANDONING[7], ABANDONED_BY[7], ABANDONING[8]);
  }
}
