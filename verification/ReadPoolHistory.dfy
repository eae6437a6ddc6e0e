/** What never goes back over a run of the pool. */
module ReadPoolHistory {
  import opened Options
  import opened Channels
  import opened ChannelsProofs
  import opened ReadPool
  import opened ReadPoolInvariant
  import opened ReadPoolProofs
  import opened ReadPoolOpenProofs
  import opened ReadPoolRuns

  /** A closed or retired connection stays so and is given no further lease. */
  ghost predicate ConnLater(a: Connection, b: Connection) {
    && b.key == a.key && b.entry == a.entry && b.identity == a.identity && b.readyAt == a.readyAt
    && (a.closed ==> b.closed)
    && (a.retired ==> b.retired)
    && (a.closed || a.retired ==> b.leases <= a.leases)
  }

  ghost predicate LeaseLater(a: Lease, b: Lease) {
    && b.conn == a.conn && b.takenAt == a.takenAt && b.deadlineMs == a.deadlineMs && b.reused == a.reused
    && (a.released ==> b.released)
    && (a.expired ==> b.expired)
  }

  ghost predicate AttemptLater(a: Attempt, b: Attempt) {
    && b.key == a.key && b.entry == a.entry && b.identity == a.identity
    && b.generation == a.generation && b.evictions == a.evictions
    && (a.phase != Opening ==> b.phase == a.phase)
    && a.disposals <= b.disposals
  }

  ghost predicate EntryLater(a: Entry, b: Entry) {
    b.key == a.key && a.generation <= b.generation && a.evictions <= b.evictions && a.lastOpen <= b.lastOpen
  }

  ghost predicate Later(a: State, b: State) {
    && a.now <= b.now
    && (forall c :: c in a.conn ==> c in b.conn && ConnLater(a.conn[c], b.conn[c]))
    && (forall l :: l in a.lease ==> l in b.lease && LeaseLater(a.lease[l], b.lease[l]))
    && (forall o :: o in a.attempts ==> o in b.attempts && AttemptLater(a.attempts[o], b.attempts[o]))
    && (forall e :: e in a.entry ==> e in b.entry && EntryLater(a.entry[e], b.entry[e]))
    && Progress(a.ch, b.ch)
  }

  /** No connection was retired. */
  ghost predicate SameRetired(a: State, b: State) {
    forall c :: c in a.conn ==> c in b.conn && b.conn[c].retired == a.conn[c].retired
  }

  /** No lease was given out. */
  ghost predicate NoNewLease(a: State, b: State) {
    b.lease.Keys == a.lease.Keys
  }

  ghost predicate Quiet(a: State, b: State) {
    Later(a, b) && SameRetired(a, b)
  }

  lemma LaterTwice(a: State, b: State, c: State)
    requires Later(a, b) && Later(b, c)
    ensures Later(a, c)
  {
    hide OpLater;
    ProgressTwice(a.ch, b.ch, c.ch);
  }

  lemma QuietTwice(a: State, b: State, c: State)
    requires Quiet(a, b) && Quiet(b, c)
    ensures Quiet(a, c)
  {
    hide Later;
    LaterTwice(a, b, c);
  }

  lemma ProgressSelf(ch: Channels)
    ensures Progress(ch, ch)
  {
  }

  lemma QuietSelf(s: State)
    ensures Quiet(s, s)
  {
    ProgressSelf(s.ch);
  }

  // ---- The parts of a step ----

  lemma PruneQuiet(s: State, key: Key, e: EntryId)
    requires Linked(s) && e in s.entry
    ensures Quiet(s, Prune(s, key, e))
  {
    hide Linked;
    ProgressSelf(s.ch);
  }

  lemma MarkClosedQuiet(s: State, c: ConnId, how: How)
    requires Linked(s) && c in s.conn && s.conn[c].entry in s.entry && c in s.attempts
    ensures Quiet(s, MarkClosed(s, c, how))
  {
    hide Linked;
    ProgressSelf(s.ch);
  }

  lemma ChannelsQuiet(s: State, ch: Channels)
    requires Linked(s) && Fits(s, ch) && Progress(s.ch, ch)
    ensures Quiet(s, WithChannels(s, ch))
  {
    hide Linked, Fits, Progress;
  }

  lemma ShutDownQuiet(cfg: Config, s: State, c: ConnId, how: How)
    requires Linked(s) && c in s.conn && Valid(s.ch, cfg.channelLimit)
    ensures Quiet(s, ShutDown(s, c, how)) && Valid(ShutDown(s, c, how).ch, cfg.channelLimit)
    ensures NoNewLease(s, ShutDown(s, c, how))
  {
    hide Linked, MarkClosed, Quiet, Valid, Prune, Fits;
    if s.conn[c].closed {
      QuietSelf(s);
    } else {
      LinkedConn(s, c);
      LinkedKeys(s);
      MarkClosedQuiet(s, c, how);
      var marked := MarkClosed(s, c, how);
      AbandonConnectionDoes(s.ch, c, cfg.channelLimit);
      FitsMarked(marked, AbandonConnection(s.ch, c));
      ChannelsQuiet(marked, AbandonConnection(s.ch, c));
      QuietTwice(s, marked, Close(s, c, how));
      PruneQuiet(Close(s, c, how), s.conn[c].key, s.conn[c].entry);
      QuietTwice(s, Close(s, c, how), ShutDown(s, c, how));
    }
  }

  lemma FitsMarked(s: State, ch: Channels)
    requires Linked(s) && WF(ch) && SameKeys(s.ch, ch)
    ensures Fits(s, ch)
  {
    hide WF, EntryLinked;
  }

  lemma RetireLater(s: State, c: ConnId)
    requires Linked(s) && c in s.conn && s.conn[c].entry in s.entry
    ensures Later(s, Retire(s, c))
    ensures forall d :: d in s.conn ==> Retire(s, c).conn[d].retired == (s.conn[d].retired || d == c)
    ensures NoNewLease(s, Retire(s, c))
  {
    hide Linked;
    ProgressSelf(s.ch);
  }

  lemma ArmIdleQuiet(cfg: Config, s: State, c: ConnId)
    requires Linked(s) && c in s.conn
    ensures Quiet(s, ArmIdle(cfg, s, c))
  {
    hide Linked;
    ProgressSelf(s.ch);
  }

  lemma AfterLastLeaseQuiet(cfg: Config, s: State, c: ConnId)
    requires Linked(s) && c in s.conn && Valid(s.ch, cfg.channelLimit)
    ensures Quiet(s, AfterLastLease(cfg, s, c)) && NoNewLease(s, AfterLastLease(cfg, s, c))
    ensures Valid(AfterLastLease(cfg, s, c).ch, cfg.channelLimit)
  {
    hide Linked, ShutDown, ArmIdle, Quiet, Valid;
    LinkedConn(s, c);
    QuietSelf(s);
    ShutDownQuiet(cfg, s, c, Destroy);
    ShutDownQuiet(cfg, s, c, End);
    ArmIdleQuiet(cfg, s, c);
    ArmIdleChannels(cfg, s, c);
  }

  lemma ArmIdleChannels(cfg: Config, s: State, c: ConnId)
    requires Linked(s) && c in s.conn
    ensures ArmIdle(cfg, s, c).ch == s.ch
  {
    hide Linked;
  }

  lemma MarkReleasedQuiet(s: State, l: LeaseId)
    requires Linked(s) && l in s.lease && s.lease[l].conn in s.conn
    ensures Quiet(s, MarkReleased(s, l))
  {
    hide Linked;
    ProgressSelf(s.ch);
  }

  lemma ReleaseQuiet(cfg: Config, s: State, l: LeaseId)
    requires Linked(s) && l in s.lease && Valid(s.ch, cfg.channelLimit)
    ensures Quiet(s, Release(cfg, s, l)) && NoNewLease(s, Release(cfg, s, l))
  {
    hide Linked, MarkReleased, Quiet, Valid, Fits, AfterLastLease;
    LinkedLease(s, l);
    if s.lease[l].released {
      QuietSelf(s);
    } else {
      MarkReleasedQuiet(s, l);
      var marked := MarkReleased(s, l);
      AbandonLeaseDoes(s.ch, l, ConnectionLost, cfg.channelLimit);
      FitsMarked(marked, AbandonLease(s.ch, l, ConnectionLost));
      ChannelsQuiet(marked, AbandonLease(s.ch, l, ConnectionLost));
      QuietTwice(s, marked, GiveBack(s, l));
      AfterLastLeaseQuiet(cfg, GiveBack(s, l), s.lease[l].conn);
      QuietTwice(s, GiveBack(s, l), Release(cfg, s, l));
    }
  }

  lemma MarkExpiredQuiet(s: State, l: LeaseId)
    requires Linked(s) && l in s.lease
    ensures Quiet(s, MarkExpired(s, l))
  {
    hide Linked;
    ProgressSelf(s.ch);
  }

  /** A deadline retires its connection exactly if an operation had been admitted. */
  lemma ExpireLater(cfg: Config, s: State, l: LeaseId)
    requires Linked(s) && l in s.lease && Valid(s.ch, cfg.channelLimit) && l in s.ch.leaseOps && WF(s.ch)
    ensures var r := Expire(s, l);
      && Later(s, r) && NoNewLease(s, r)
      && forall c :: c in s.conn ==>
           r.conn[c].retired == (s.conn[c].retired || (c == s.lease[l].conn && Admitted(s.ch, l)))
  {
    hide Linked, MarkExpired, Later, Valid, Fits, Retire, Admitted;
    LinkedLease(s, l);
    MarkExpiredQuiet(s, l);
    var marked := MarkExpired(s, l);
    AbandonLeaseDoes(s.ch, l, AtDeadline, cfg.channelLimit);
    FitsMarked(marked, AbandonLease(s.ch, l, AtDeadline));
    ChannelsQuiet(marked, AbandonLease(s.ch, l, AtDeadline));
    var done := WithChannels(marked, AbandonLease(s.ch, l, AtDeadline));
    QuietTwice(s, marked, done);
    if Admitted(s.ch, l) {
      LinkedConn(done, s.lease[l].conn);
      RetireLater(done, s.lease[l].conn);
      LaterTwice(s, done, Expire(s, l));
    }
  }

  lemma EntryForQuiet(s: State, key: Key)
    requires Linked(s) && Named(s)
    ensures var r := EntryFor(s, key); Quiet(s, r) && NoNewLease(s, r) && r.ch == s.ch && r.opens == s.opens
    ensures EntryFor(s, key).attempts == s.attempts && EntryFor(s, key).conn == s.conn
  {
    hide Linked, EntryFor, Progress;
    if key !in s.entries { EntryForFresh(s, key); } else { EntryForFound(s, key); }
    ProgressSelf(s.ch);
  }

  lemma EntryForFound(s: State, key: Key)
    requires Linked(s) && key in s.entries
    ensures EntryFor(s, key) == s
  {
    hide Linked;
  }

  lemma StartOpenQuiet(s: State, key: Key, e: EntryId, identity: Identity)
    requires Linked(s) && e in s.entry && s.opens + 1 !in s.attempts && s.entry[e].lastOpen <= s.opens
    ensures var r := StartOpen(s, key, e, identity); Quiet(s, r) && NoNewLease(s, r) && r.calls == s.calls
  {
    hide Linked;
    ProgressSelf(s.ch);
  }

  lemma CallQuiet(s: State, k: CallId, call: Call)
    ensures Quiet(s, s.(calls := s.calls[k := call])) && NoNewLease(s, s.(calls := s.calls[k := call]))
  {
    ProgressSelf(s.ch);
  }

  lemma LastOpenBound(s: State, e: EntryId)
    requires Linked(s) && Pendings(s) && Attempts(s) && e in s.entry
    ensures s.entry[e].lastOpen <= s.opens
  {
    hide WF, EntryLinked;
    assert PendingRow(e, s.entry[e], s.attempts);
    var o := s.entry[e].lastOpen;
    assert o in s.attempts ==> AttemptRow(o, s.attempts[o], s.entry[s.attempts[o].entry], s.conn, s.opens);
  }

  lemma AwaitQuiet(cfg: Config, s: State, k: CallId, key: Key, e: EntryId, identity: Identity, deadlineMs: int)
    requires Linked(s) && Attempts(s) && Pendings(s) && e in s.entry
    ensures var r := Await(s, k, key, e, identity, deadlineMs); Quiet(s, r) && NoNewLease(s, r)
  {
    hide Linked, Attempts, Pendings, StartOpen, Quiet, Joinable;
    if Joinable(s, e, identity) {
      AwaitJoins(s, k, key, e, identity, deadlineMs);
      CallQuiet(s, k, Await(s, k, key, e, identity, deadlineMs).calls[k]);
    } else {
      OpensFresh(s);
      LastOpenBound(s, e);
      StartOpenQuiet(s, key, e, identity);
      var r := StartOpen(s, key, e, identity);
      CallQuiet(r, k, Call(key, identity, deadlineMs, Awaits(r.opens)));
      QuietTwice(s, r, Await(s, k, key, e, identity, deadlineMs));
    }
  }

  lemma AwaitJoins(s: State, k: CallId, key: Key, e: EntryId, identity: Identity, deadlineMs: int)
    requires Linked(s) && e in s.entry && Joinable(s, e, identity)
    ensures var r := Await(s, k, key, e, identity, deadlineMs); k in r.calls && r == s.(calls := s.calls[k := r.calls[k]])
  {
    hide Linked;
  }

  lemma CheckoutQuiet(s: State, c: ConnId, deadlineMs: int, l: LeaseId, reused: bool)
    requires Linked(s) && c in s.conn && l !in s.lease && !s.conn[c].closed && !s.conn[c].retired
    ensures var r := Checkout(s, c, deadlineMs, l, reused);
      && Quiet(s, r) && r.lease.Keys == s.lease.Keys + {l}
      && r.lease[l] == Lease(c, false, false, Some(s.now + deadlineMs), s.now, deadlineMs, reused)
      && r.attempts == s.attempts && r.now == s.now && r.calls == s.calls
      && r.conn == s.conn[c := s.conn[c].(idleTimer := None, leases := s.conn[c].leases + {l})]
  {
    hide Linked, WF, Progress, Quiet;
    LinkedKeys(s);
    AddLeaseProgress(s.ch, l);
    CheckoutLater(s, Checkout(s, c, deadlineMs, l, reused), c, l);
  }

  lemma CheckoutLater(s: State, r: State, c: ConnId, l: LeaseId)
    requires c in s.conn && !s.conn[c].closed && !s.conn[c].retired && l !in s.lease && l in r.lease
    requires r.now == s.now && r.entry == s.entry && r.attempts == s.attempts && Progress(s.ch, r.ch)
    requires r.conn == s.conn[c := s.conn[c].(idleTimer := None, leases := s.conn[c].leases + {l})]
    requires r.lease == s.lease[l := r.lease[l]]
    ensures Quiet(s, r)
  {
    hide Progress;
  }

  lemma AddLeaseProgress(ch: Channels, l: LeaseId)
    requires WF(ch)
    ensures Progress(ch, AddLease(ch, l))
  {
    hide WF;
  }

  lemma RefuseQuiet(s: State, o: OpenId)
    requires Linked(s) && o in s.attempts && s.attempts[o].phase == Opening && s.attempts[o].entry in s.entry
    ensures Quiet(s, Refuse(s, o)) && NoNewLease(s, Refuse(s, o))
  {
    hide Linked;
    ProgressSelf(s.ch);
  }

  lemma GiveUpOpenQuiet(s: State, o: OpenId)
    requires Linked(s) && o in s.attempts && s.attempts[o].phase == Opening
    ensures Quiet(s, GiveUpOpen(s, o)) && NoNewLease(s, GiveUpOpen(s, o))
  {
    hide Linked, Quiet, Refuse, Prune;
    LinkedAttempt(s, o);
    RefuseQuiet(s, o);
    var e := s.attempts[o].entry;
    if IsPending(s.entry[e], o) {
      PruneQuiet(Refuse(s, o), s.attempts[o].key, e);
      QuietTwice(s, Refuse(s, o), GiveUpOpen(s, o));
    }
  }

  lemma PutInQuiet(cfg: Config, s: State, o: OpenId)
    requires Linked(s) && o in s.attempts && o !in s.conn && s.attempts[o].phase == Opening
    requires s.attempts[o].entry in s.entry
    ensures Quiet(s, PutIn(cfg, s, o)) && NoNewLease(s, PutIn(cfg, s, o))
  {
    hide Linked, WF;
    LinkedKeys(s);
    PutInShape(cfg, s, o);
    ProgressSelf(s.ch);
  }

  lemma InstallQuiet(cfg: Config, s: State, o: OpenId)
    requires PoolValid(cfg, s) && o in s.attempts && o !in s.conn && s.attempts[o].phase == Opening && Linked(s)
    requires s.attempts[o].entry in s.entry && Current(s, o)
    ensures Quiet(s, Install(cfg, s, o)) && NoNewLease(s, Install(cfg, s, o))
  {
    hide Registry, Named, Entries, Attempts, Conns, Pendings, Leases, Calls, Owned, Valid, SettledBut, Linked,
      PutIn, ShutDown, AfterLastLease, Quiet, SameIdentity;
    PutInKeeps(cfg, s, o);
    PutInQuiet(cfg, s, o);
    var previous := s.entry[s.attempts[o].entry].installed;
    if previous.Some? {
      var next := PutIn(cfg, s, o);
      PreviousIn(cfg, s, o);
      ShutDownQuiet(cfg, next, previous.value, Destroy);
      AfterLastLeaseQuiet(cfg, next, previous.value);
      QuietTwice(s, next, Install(cfg, s, o));
    }
  }

  lemma PreviousIn(cfg: Config, s: State, o: OpenId)
    requires Linked(s) && o in s.attempts && o !in s.conn && s.attempts[o].entry in s.entry
    requires s.entry[s.attempts[o].entry].installed.Some?
    ensures s.entry[s.attempts[o].entry].installed.value in s.conn
    ensures s.entry[s.attempts[o].entry].installed.value in PutIn(cfg, s, o).conn
  {
    hide WF;
    assert EntryLinked(s.entry[s.attempts[o].entry], s.conn);
  }

  lemma FinishOpenQuiet(cfg: Config, s: State, o: OpenId, ok: bool)
    requires PoolValid(cfg, s) && Linked(s) && o in s.attempts && o !in s.conn && s.attempts[o].phase == Opening
    ensures Quiet(s, FinishOpen(cfg, s, o, ok)) && NoNewLease(s, FinishOpen(cfg, s, o, ok))
  {
    hide PoolValid, Linked, Install, GiveUpOpen, Current, Quiet;
    LinkedAttempt(s, o);
    if ok && Current(s, o) && s.attempts[o].ready {
      InstallQuiet(cfg, s, o);
    } else {
      GiveUpOpenQuiet(s, o);
    }
  }

  /** The connection is open, not retired, its transport ready, and it is of this very identity. */
  ghost predicate Suits(s: State, c: ConnId, identity: Identity)
    requires c in s.conn && c in s.attempts
  {
    !s.conn[c].closed && !s.conn[c].retired && s.attempts[c].ready && s.conn[c].identity == identity
  }

  lemma SuitsExactly(s: State, c: ConnId, identity: Identity)
    requires c in s.conn && c in s.attempts
    ensures Usable(s, c, identity) <==> Suits(s, c, identity)
  {
  }

  /** What a call of `lease` is given: a lease on a connection that is open, not retired, ready
      and of the key and identity asked for, with its deadline counted from now. */
  ghost predicate HandedOut(a: State, b: State, k: CallId, key: Key, identity: Identity, deadlineMs: int, l: LeaseId) {
    && b.lease.Keys == a.lease.Keys + {l}
    && k in b.calls && b.calls[k].status == Given(l) && b.calls[k].key == key && b.calls[k].identity == identity
    && var c := b.lease[l].conn;
    && c in b.conn && c in b.attempts && Suits(b, c, identity) && b.conn[c].key == key && l in b.conn[c].leases
    && b.lease[l] == Lease(c, false, false, Some(b.now + deadlineMs), b.now, deadlineMs, b.lease[l].reused)
    && b.now == a.now
  }

  /** A turn of `lease` retires nothing, and gives out this call's lease or none. */
  ghost predicate LeaseTurn(a: State, b: State, k: CallId, key: Key, identity: Identity, deadlineMs: int, l: LeaseId) {
    Quiet(a, b) && (NoNewLease(a, b) || HandedOut(a, b, k, key, identity, deadlineMs, l))
  }

  lemma CheckoutHands(s: State, k: CallId, call: Call, c: ConnId, l: LeaseId, reused: bool)
    requires Linked(s) && c in s.conn && c in s.attempts && l !in s.lease && Suits(s, c, call.identity)
    requires call.status == Given(l) && s.conn[c].key == call.key
    ensures var r := Checkout(s, c, call.deadlineMs, l, reused);
      LeaseTurn(s, r.(calls := s.calls[k := call]), k, call.key, call.identity, call.deadlineMs, l)
  {
    hide Linked, Quiet;
    CheckoutQuiet(s, c, call.deadlineMs, l, reused);
    var r := Checkout(s, c, call.deadlineMs, l, reused);
    CallQuiet(r, k, call);
    QuietTwice(s, r, r.(calls := s.calls[k := call]));
  }

  lemma UnusableTurn(cfg: Config, s: State, k: CallId, key: Key, e: EntryId, identity: Identity, deadlineMs: int)
    requires PoolValid(cfg, s) && Linked(s) && e in s.entry && s.entry[e].installed.Some?
    requires s.entry[e].installed.value in s.conn
    ensures var c := s.entry[e].installed.value;
      var r := Await(ShutDown(s, c, Destroy), k, key, e, identity, deadlineMs); Quiet(s, r) && NoNewLease(s, r)
  {
    hide Registry, Named, Entries, Conns, Attempts, Pendings, Leases, Calls, Owned, Valid, SettledBut, Linked,
      ShutDown, Await, Quiet;
    var c := s.entry[e].installed.value;
    ShutDownKeeps(cfg, s, c, Destroy);
    ShutDownQuiet(cfg, s, c, Destroy);
    ShutDownEntryKey(s, c, Destroy, e);
    var shut := ShutDown(s, c, Destroy);
    AwaitQuiet(cfg, shut, k, key, e, identity, deadlineMs);
    QuietTwice(s, shut, Await(shut, k, key, e, identity, deadlineMs));
  }

  lemma LeaseRoundQuiet(cfg: Config, s: State, k: CallId, key: Key, identity: Identity, deadlineMs: int, l: LeaseId)
    requires PoolValid(cfg, s) && Linked(s) && l !in s.lease
    ensures LeaseTurn(s, LeaseRound(cfg, s, k, key, identity, deadlineMs, l), k, key, identity, deadlineMs, l)
  {
    hide Base, Linked, SettledBut, EntryFor, ShutDown, Await, Checkout, Usable, Quiet;
    EntryForKeeps(cfg, s, key);
    BaseNamed(cfg, s);
    EntryForQuiet(s, key);
    EntryForIn(s, key);
    var found := EntryFor(s, key);
    var e := found.entries[key];
    var r := LeaseRound(cfg, s, k, key, identity, deadlineMs, l);
    var installed := found.entry[e].installed;
    if installed.Some? {
      InstalledAlive(cfg, found, e);
      if !Usable(found, installed.value, identity) {
        UnusableTurn(cfg, found, k, key, e, identity, deadlineMs);
        QuietTwice(s, found, r);
        return;
      } else if found.conn[installed.value].readyAt + cfg.hardAgeMs >= found.now + deadlineMs {
        ConnKey(cfg, found, installed.value);
        SuitsExactly(found, installed.value, identity);
        CheckoutHands(found, k, Call(key, identity, deadlineMs, Given(l)), installed.value, l, true);
        QuietTwice(s, found, r);
        return;
      }
    }
    BaseTables(cfg, found, {e});
    AwaitQuiet(cfg, found, k, key, e, identity, deadlineMs);
    QuietTwice(s, found, r);
  }

  lemma BaseNamed(cfg: Config, s: State)
    requires PoolValid(cfg, s)
    ensures Named(s) && Attempts(s) && Pendings(s) && Valid(s.ch, cfg.channelLimit)
  {
    hide Registry, Named, Entries, Conns, Attempts, Pendings, Leases, Calls, Owned, Valid, SettledBut, WF;
  }

  lemma BaseTables(cfg: Config, s: State, but: set<EntryId>)
    requires Base(cfg, s, but)
    ensures Linked(s) && Attempts(s) && Pendings(s)
  {
    hide Registry, Named, Entries, Conns, Attempts, Pendings, Leases, Calls, Owned, Valid, SettledBut, WF;
  }

  lemma ConnKey(cfg: Config, s: State, c: ConnId)
    requires PoolValid(cfg, s) && c in s.conn
    ensures s.conn[c].entry in s.entry && s.conn[c].key == s.entry[s.conn[c].entry].key
    ensures c in s.attempts && s.conn[c].key == s.attempts[c].key
  {
    hide Registry, Named, Entries, Pendings, Leases, Calls, Owned, Valid, SettledBut, WF, HeldRow;
    assert ConnRow(cfg, c, s.conn[c], s.attempts[c], s.entry[s.conn[c].entry], s.ch.connOps[c], s.now);
    assert AttemptRow(c, s.attempts[c], s.entry[s.attempts[c].entry], s.conn, s.opens);
  }

  /** The connection a call waited for is of the call's key. */
  lemma AwaitedKey(cfg: Config, s: State, k: CallId)
    requires PoolValid(cfg, s) && k in s.calls && s.calls[k].status.Awaits? && s.calls[k].status.open in s.conn
    ensures s.conn[s.calls[k].status.open].key == s.calls[k].key
  {
    hide Registry, Named, Entries, Conns, Pendings, Attempts, Leases, Owned, Valid, SettledBut, WF, Linked;
    assert CallRow(cfg, s.calls[k], s.attempts, s.lease);
    ConnKey(cfg, s, s.calls[k].status.open);
  }

  lemma ResumeQuiet(cfg: Config, s: State, k: CallId, l: LeaseId)
    requires PoolValid(cfg, s) && Linked(s) && l !in s.lease && k in s.calls && s.calls[k].status.Awaits?
    requires s.calls[k].status.open in s.attempts
    ensures LeaseTurn(s, Resume(cfg, s, k, l), k, s.calls[k].key, s.calls[k].identity, s.calls[k].deadlineMs, l)
  {
    hide PoolValid, Linked, Checkout, LeaseRound, Usable, Quiet;
    var call := s.calls[k];
    var o := call.status.open;
    if o !in s.conn {
      CallQuiet(s, k, call.(status := Rejected));
    } else if Usable(s, o, call.identity) {
      AwaitedKey(cfg, s, k);
      SuitsExactly(s, o, call.identity);
      CheckoutHands(s, k, call.(status := Given(l)), o, l, false);
    } else {
      LeaseRoundQuiet(cfg, s, k, call.key, call.identity, call.deadlineMs, l);
    }
  }

  lemma BumpQuiet(s: State, e: EntryId)
    requires Linked(s) && Named(s) && e in s.entry
    ensures Quiet(s, Bump(s, e)) && NoNewLease(s, Bump(s, e)) && Bump(s, e).ch == s.ch
  {
    hide WF, EntryLinked;
    ProgressSelf(s.ch);
  }

  lemma ShutDownAllQuiet(cfg: Config, s: State, ids: set<ConnId>)
    requires Linked(s) && ids <= s.conn.Keys && Valid(s.ch, cfg.channelLimit)
    ensures Quiet(s, ShutDownAll(s, ids)) && NoNewLease(s, ShutDownAll(s, ids))
    decreases ids
  {
    hide Linked, ShutDown, Quiet, Valid;
    if ids == {} {
      QuietSelf(s);
    } else {
      var c := Least(ids);
      ShutDownQuiet(cfg, s, c, Destroy);
      ShutDownAllQuiet(cfg, ShutDown(s, c, Destroy), ids - {c});
      QuietTwice(s, ShutDown(s, c, Destroy), ShutDownAll(s, ids));
    }
  }

  lemma EvictQuiet(cfg: Config, s: State, key: Key)
    requires PoolValid(cfg, s) && Linked(s)
    ensures Quiet(s, Evict(s, key)) && NoNewLease(s, Evict(s, key))
  {
    hide PoolValid, Linked, Bump, ShutDownAll, Prune, Evict, Quiet, Registry, Named, Valid;
    if key in s.entries {
      var e := s.entries[key];
      EvictShape(s, key);
      BaseNamed(cfg, s);
      PoolRegistry(cfg, s);
      RegistryNames(s, key, {});
      BumpQuiet(s, e);
      var bumped := Bump(s, e);
      BumpShape(s, e);
      var shut := ShutDownAll(bumped, s.entry[e].connections);
      ShutDownAllQuiet(cfg, bumped, s.entry[e].connections);
      ShutDownAllKey(bumped, s.entry[e].connections, e);
      QuietTwice(s, bumped, shut);
      PruneQuiet(shut, key, e);
      QuietTwice(s, shut, Evict(s, key));
    } else {
      EvictNothing(s, key);
      QuietSelf(s);
    }
  }

  lemma PoolRegistry(cfg: Config, s: State)
    requires PoolValid(cfg, s)
    ensures Linked(s) && Registry(s, {})
  {
    hide Registry, Named, Entries, Conns, Attempts, Pendings, Leases, Calls, Owned, Valid, SettledBut, WF;
  }

  lemma AskQuiet(cfg: Config, s: State, l: LeaseId, kind: Kind, o: OpId)
    requires Linked(s) && l in s.lease && s.lease[l].conn in s.conn && o !in s.ch.ops
    ensures Quiet(s, Ask(cfg, s, l, kind, o)) && NoNewLease(s, Ask(cfg, s, l, kind, o))
  {
    hide Linked, Begin, WF, Progress, Quiet;
    LinkedKeys(s);
    if Refusal(s, l).Some? {
      QuietSelf(s);
    } else {
      BeginProgress(s.ch, o, l, s.lease[l].conn, kind, cfg.channelLimit);
      OnlyChannels(s, Begin(s.ch, o, l, s.lease[l].conn, kind, cfg.channelLimit));
    }
  }

  lemma OnlyChannels(s: State, ch: Channels)
    requires Progress(s.ch, ch)
    ensures Quiet(s, s.(ch := ch))
  {
    hide Progress;
  }

  lemma BeginProgress(ch: Channels, o: OpId, l: LeaseId, c: ConnId, kind: Kind, limit: nat)
    requires WF(ch) && o !in ch.ops && l in ch.leaseOps && c in ch.limiters
    ensures Progress(ch, Begin(ch, o, l, c, kind, limit))
  {
    hide WF, Begin;
  }

  // ---- A step, and a run ----

  /** The leases a step gives out. */
  ghost predicate HandsOut(a: State, ev: Event, b: State) {
    match ev
    case LeaseCalled(k, key, identity, deadlineMs, l) => NoNewLease(a, b) || HandedOut(a, b, k, key, identity, deadlineMs, l)
    case CallResumes(k, l) =>
      k in a.calls && (NoNewLease(a, b) || HandedOut(a, b, k, a.calls[k].key, a.calls[k].identity, a.calls[k].deadlineMs, l))
    case _ => NoNewLease(a, b)
  }

  /** An operation of the lease holds its channel. */
  ghost predicate HoldsAChannel(ch: Channels, l: LeaseId) {
    exists o :: o in ch.ops && ch.ops[o].lease == l && ch.ops[o].holdsSlot
  }

  lemma AdmittedExactly(ch: Channels, l: LeaseId, limit: nat)
    requires Valid(ch, limit) && l in ch.leaseOps
    ensures Admitted(ch, l) <==> HoldsAChannel(ch, l)
  {
    hide LimitersOk, QueueKnown;
    forall o | o in ch.ops && ch.ops[o].lease == l
      ensures ch.ops[o].holdsSlot <==> o in ch.leaseOps[l] && ch.ops[o].state != Queued
    {
      assert OpOk(ch, o);
    }
    if Admitted(ch, l) {
      var o :| o in ch.leaseOps[l] && ch.ops[o].state != Queued;
      assert ch.ops[o].lease == l && ch.ops[o].holdsSlot;
    }
  }

  /** The connection a step retires: that of a lease whose deadline fires while an operation of
      it holds a channel. */
  ghost predicate Retires(s: State, ev: Event, c: ConnId)
    requires Linked(s) && Enabled(s, ev)
  {
    ev.DeadlineFires? && s.lease[ev.lease].conn == c && HoldsAChannel(s.ch, ev.lease)
  }

  lemma StepLater(cfg: Config, s: State, ev: Event)
    requires PoolValid(cfg, s) && Linked(s) && Enabled(s, ev)
    ensures var r := Step(cfg, s, ev);
      && Later(s, r)
      && HandsOut(s, ev, r)
      && forall c :: c in s.conn ==> r.conn[c].retired == (s.conn[c].retired || Retires(s, ev, c))
  {
    hide PoolValid, Linked, Valid, Later, SetReady, LeaseRound, Resume, FinishOpen, Ask, Release, Expire, ShutDown,
      Evict, Operate, WithChannels, Admitted, HoldsAChannel;
    BaseNamed(cfg, s);
    match ev
    case Tick(ms) => TickQuiet(s, s.now + ms);
    case TransportSays(o, ready) => SetReadyQuiet(s, o, ready);
    case LeaseCalled(k, key, identity, deadlineMs, l) =>
      QuietSelf(s);
      LeaseRoundQuiet(cfg, s, k, key, identity, deadlineMs, l);
    case CallResumes(k, l) => ResumeQuiet(cfg, s, k, l);
    case OpenAnswers(o, ok) => FinishOpenQuiet(cfg, s, o, ok);
    case Asked(l, kind, o) => LinkedLease(s, l); AskQuiet(cfg, s, l, kind, o);
    case LeaseReleased(l) => ReleaseQuiet(cfg, s, l);
    case DeadlineFires(l) => LinkedLease(s, l); AdmittedExactly(s.ch, l, cfg.channelLimit); ExpireLater(cfg, s, l);
    case IdleFires(c) => ShutDownQuiet(cfg, s, c, End);
    case HardAgeFires(c) => ShutDownQuiet(cfg, s, c, Destroy);
    case Evicted(key) => EvictQuiet(cfg, s, key);
    case GrantCallback(_) => OperateQuiet(cfg, s, ev);
    case Replies(_, _) => OperateQuiet(cfg, s, ev);
    case StreamComes(_) => OperateQuiet(cfg, s, ev);
    case StreamOver(_) => OperateQuiet(cfg, s, ev);
  }

  lemma TickQuiet(s: State, later: int)
    requires s.now <= later
    ensures Quiet(s, s.(now := later)) && NoNewLease(s, s.(now := later))
  {
    ProgressSelf(s.ch);
  }

  lemma SetReadyQuiet(s: State, o: OpenId, ready: bool)
    requires Linked(s) && o in s.attempts
    ensures Quiet(s, SetReady(s, o, ready)) && NoNewLease(s, SetReady(s, o, ready))
  {
    hide Linked;
    ProgressSelf(s.ch);
  }

  lemma OperateQuiet(cfg: Config, s: State, ev: Event)
    requires Linked(s) && Enabled(s, ev) && Valid(s.ch, cfg.channelLimit)
    requires ev.GrantCallback? || ev.Replies? || ev.StreamComes? || ev.StreamOver?
    ensures var r := WithChannels(s, Operate(s, ev)); Quiet(s, r) && NoNewLease(s, r)
  {
    hide Linked, Valid, Operate, Quiet, Fits;
    OperateDoes(cfg, s, ev);
    ChannelsQuiet(s, Operate(s, ev));
  }

  /** Nothing goes back between any two states of a run. */
  lemma {:induction false} RunLater(cfg: Config, run: seq<State>, events: seq<Event>, i: nat, j: nat)
    requires IsRun(cfg, run, events) && i <= j < |run|
    ensures Later(run[i], run[j])
    decreases j - i
  {
    hide PoolValid, Linked, Step, Enabled, Later, HandsOut;
    if i == j {
      LaterSelf(run[i]);
    } else {
      RunLater(cfg, run, events, i, j - 1);
      assert Follows(cfg, run[j - 1], events[j - 1], run[j - 1 + 1]);
      RunValid(cfg, run, events, j - 1);
      StepLater(cfg, run[j - 1], events[j - 1]);
      LaterTwice(run[i], run[j - 1], run[j]);
    }
  }

  lemma LaterSelf(s: State)
    ensures Later(s, s)
  {
    ProgressSelf(s.ch);
  }
}
