/** Registering the first owner: a check, a lock, the same check again, a sign-up and an
    organization, with the user removed again when the organization cannot be made. */
module Bootstrap {
  import opened Options

  type CallId = nat
  type UserId = nat
  type OrgId = nat

  datatype Result = Refused | Errored | Succeeded(user: UserId, organization: OrgId)

  /** Where a call stands. From `Checking` to `Leaving` it holds the lock. */
  datatype Phase =
    | Started
    | Waiting
    | Checking
    | SigningUp
    | Organizing(user: UserId)
    | Removing(user: UserId)
    | Leaving(outcome: Result)
    | Done(result: Result)

  /** `removalFailed` is history: some compensating removal did not work. */
  datatype State = State(
    users: set<UserId>,
    organizations: map<OrgId, UserId>,
    lock: Option<CallId>,
    calls: map<CallId, Phase>,
    removalFailed: bool)

  datatype Event =
    | Begins(call: CallId)
    | ChecksFirst(call: CallId)
    | Acquires(call: CallId)
    | NoLock(call: CallId)
    | ChecksAgain(call: CallId)
    | SignsUp(call: CallId, user: UserId)
    | SignUpFails(call: CallId)
    | Organizes(call: CallId, organization: OrgId)
    | OrganizingFails(call: CallId)
    | Removes(call: CallId, ok: bool)
    | Releases(call: CallId)

  const START := State({}, map[], None, map[], false)

  predicate At(s: State, c: CallId, phase: Phase) {
    c in s.calls && s.calls[c] == phase
  }

  predicate Enabled(s: State, ev: Event) {
    match ev
    case Begins(c) => c !in s.calls
    case ChecksFirst(c) => At(s, c, Started)
    case Acquires(c) => At(s, c, Waiting) && s.lock.None?
    case NoLock(c) => At(s, c, Waiting)
    case ChecksAgain(c) => At(s, c, Checking)
    case SignsUp(c, user) => At(s, c, SigningUp) && user !in s.users && forall o :: o in s.organizations ==> s.organizations[o] != user
    case SignUpFails(c) => At(s, c, SigningUp)
    case Organizes(c, o) => c in s.calls && s.calls[c].Organizing? && o !in s.organizations
    case OrganizingFails(c) => c in s.calls && s.calls[c].Organizing?
    case Removes(c, _) => c in s.calls && s.calls[c].Removing?
    case Releases(c) => c in s.calls && s.calls[c].Leaving?
  }

  function Moved(s: State, c: CallId, phase: Phase): State {
    s.(calls := s.calls[c := phase])
  }

  function Step(s: State, ev: Event): State
    requires Enabled(s, ev)
  {
    match ev
    case Begins(c) => Moved(s, c, Started)
    case ChecksFirst(c) => Moved(s, c, if s.users != {} then Done(Refused) else Waiting)
    case Acquires(c) => Moved(s, c, Checking).(lock := Some(c))
    case NoLock(c) => Moved(s, c, Done(Errored))
    case ChecksAgain(c) => Moved(s, c, if s.users != {} then Leaving(Refused) else SigningUp)
    case SignsUp(c, user) => Moved(s, c, Organizing(user)).(users := s.users + {user})
    case SignUpFails(c) => Moved(s, c, Leaving(Errored))
    case Organizes(c, o) =>
      var user := s.calls[c].user;
      Moved(s, c, Leaving(Succeeded(user, o))).(organizations := s.organizations[o := user])
    case OrganizingFails(c) => Moved(s, c, Removing(s.calls[c].user))
    case Removes(c, ok) =>
      var left := Moved(s, c, Leaving(Errored));
      if ok then left.(users := s.users - {s.calls[c].user}) else left.(removalFailed := true)
    case Releases(c) => Moved(s, c, Done(s.calls[c].outcome)).(lock := None)
  }

  /** How a call ends that finds these users under the lock. */
  function EndOf(users: set<UserId>, user: UserId, signUpWorks: bool, made: Option<OrgId>): (end: Result)
    ensures end.Refused? <==> users != {}
    ensures end.Succeeded? <==> users == {} && signUpWorks && made.Some?
    ensures end.Succeeded? ==> end == Succeeded(user, made.value)
  {
    if users != {} then Refused else if !signUpWorks || made.None? then Errored else Succeeded(user, made.value)
  }

  /** The server's side of one call. What sign-up, the organization and the removal answer is
      not in its hands. */
  class Server {
    var users: set<UserId>
    var organizations: map<OrgId, UserId>
    var lock: Option<CallId>
    ghost var calls: map<CallId, Phase>
    ghost var removalFailed: bool

    ghost function View(): State
      reads this
    {
      State(users, organizations, lock, calls, removalFailed)
    }

    method RefuseIfAnyUserExists(c: CallId) returns (refused: bool)
      requires Enabled(View(), ChecksFirst(c)) || Enabled(View(), ChecksAgain(c))
      modifies this
      ensures refused == (old(users) != {})
      ensures View() == Step(old(View()), if old(calls)[c] == Started then ChecksFirst(c) else ChecksAgain(c))
    {
      refused := users != {};
      calls := calls[c := if calls[c] == Started then if refused then Done(Refused) else Waiting
                          else if refused then Leaving(Refused) else SigningUp];
    }

    method TakeLock(c: CallId)
      requires Enabled(View(), Acquires(c))
      modifies this
      ensures View() == Step(old(View()), Acquires(c))
    {
      lock := Some(c);
      calls := calls[c := Checking];
    }

    method SignUp(c: CallId, user: UserId, works: bool)
      requires Enabled(View(), SignsUp(c, user))
      modifies this
      ensures View() == Step(old(View()), if works then SignsUp(c, user) else SignUpFails(c))
    {
      if works {
        users := users + {user};
        calls := calls[c := Organizing(user)];
      } else {
        calls := calls[c := Leaving(Errored)];
      }
    }

    method CreateOrganization(c: CallId, user: UserId, made: Option<OrgId>)
      requires c in calls && calls[c] == Organizing(user) && (made.Some? ==> made.value !in organizations)
      modifies this
      ensures View() == Step(old(View()), if made.Some? then Organizes(c, made.value) else OrganizingFails(c))
    {
      if made.Some? {
        organizations := organizations[made.value := user];
        calls := calls[c := Leaving(Succeeded(user, made.value))];
      } else {
        calls := calls[c := Removing(user)];
      }
    }

    method RemoveUser(c: CallId, user: UserId, works: bool)
      requires c in calls && calls[c] == Removing(user)
      modifies this
      ensures View() == Step(old(View()), Removes(c, works))
    {
      if works { users := users - {user}; } else { removalFailed := true; }
      calls := calls[c := Leaving(Errored)];
    }

    method ReleaseLock(c: CallId)
      requires Enabled(View(), Releases(c))
      modifies this
      ensures View() == Step(old(View()), Releases(c))
    {
      lock := None;
      calls := calls[c := Done(calls[c].outcome)];
    }

    /** What runs under the lock. */
    method UnderLock(c: CallId, user: UserId, signUpWorks: bool, made: Option<OrgId>, removalWorks: bool) returns (result: Result)
      requires At(View(), c, Checking) && user !in users
      requires forall o :: o in organizations ==> organizations[o] != user
      requires made.Some? ==> made.value !in organizations
      modifies this
      ensures lock == old(lock) && At(View(), c, Leaving(result))
      ensures result == EndOf(old(users), user, signUpWorks, made)
      ensures users == if result.Succeeded? || (result.Errored? && signUpWorks && !removalWorks) then old(users) + {user} else old(users)
      ensures organizations == if result.Succeeded? then old(organizations)[made.value := user] else old(organizations)
    {
      var refused := RefuseIfAnyUserExists(c);
      if refused { return Refused; }
      SignUp(c, user, signUpWorks);
      if !signUpWorks { return Errored; }
      CreateOrganization(c, user, made);
      if made.Some? { return Succeeded(user, made.value); }
      RemoveUser(c, user, removalWorks);
      result := Errored;
    }

    /** The rest of a call once the lock is free: the lock is free again after every end. */
    method Proceed(c: CallId, user: UserId, signUpWorks: bool, made: Option<OrgId>, removalWorks: bool) returns (result: Result)
      requires At(View(), c, Waiting) && lock.None? && user !in users
      requires forall o :: o in organizations ==> organizations[o] != user
      requires made.Some? ==> made.value !in organizations
      modifies this
      ensures lock.None? && At(View(), c, Done(result))
      ensures result == EndOf(old(users), user, signUpWorks, made)
      ensures users == if result.Succeeded? || (result.Errored? && signUpWorks && !removalWorks) then old(users) + {user} else old(users)
      ensures organizations == if result.Succeeded? then old(organizations)[made.value := user] else old(organizations)
    {
      TakeLock(c);
      result := UnderLock(c, user, signUpWorks, made, removalWorks);
      ReleaseLock(c);
    }

    /** A whole call: one of its five ends, each with exactly what it leaves behind, or no end yet
        while another call holds the lock; then it waits, and `Proceed` is the rest of it. */
    method BootstrapOwner(c: CallId, user: UserId, signUpWorks: bool, made: Option<OrgId>, removalWorks: bool)
      returns (result: Option<Result>)
      requires At(View(), c, Started) && user !in users
      requires forall o :: o in organizations ==> organizations[o] != user
      requires made.Some? ==> made.value !in organizations
      modifies this
      ensures lock == old(lock)
      ensures result.None? <==> old(users) == {} && old(lock).Some?
      ensures At(View(), c, if result.Some? then Done(result.value) else Waiting)
      ensures result.Some? ==> result.value == EndOf(old(users), user, signUpWorks, made)
      ensures users == if result.Some? && (result.value.Succeeded? || (result.value.Errored? && signUpWorks && !removalWorks))
                       then old(users) + {user} else old(users)
      ensures organizations == if result.Some? && result.value.Succeeded? then old(organizations)[made.value := user]
                               else old(organizations)
    {
      var refused := RefuseIfAnyUserExists(c);
      if refused { return Some(Refused); }
      if lock.Some? { return None; }
      var end := Proceed(c, user, signUpWorks, made, removalWorks);
      result := Some(end);
    }
  }
}
