/** Every synchronous stretch keeps the pool's invariant. */
module ReadPoolProofs {
  import opened Options
  import opened Channels
  import opened ChannelsProofs
  import opened ReadPool
  import opened ReadPoolInvariant

  // ---- Frames ----

  /** Connections as far as leases and opens are concerned. */
  ghost predicate SameConns(a: State, b: State) {
    && b.conn.Keys == a.conn.Keys
    && forall c :: c in a.conn ==>
         && b.conn[c].readyAt == a.conn[c].readyAt
         && b.conn[c].leases == a.conn[c].leases
         && b.conn[c].entry == a.conn[c].entry
  }

  lemma LeaseRowFrame(cfg: Config, l: LeaseId, lease: Lease, x: Connection, y: Connection, ops: set<OpId>, fewer: set<OpId>,
                      now: int, later: int)
    requires LeaseRow(cfg, l, lease, x, ops, now)
    requires y.readyAt == x.readyAt && y.leases == x.leases && fewer <= ops && now <= later
    ensures LeaseRow(cfg, l, lease, y, fewer, later)
  {
  }

  lemma LeasesFrame(cfg: Config, a: State, b: State)
    requires Linked(a) && Linked(b) && Leases(cfg, a)
    requires b.lease == a.lease && SameConns(a, b) && FewerOps(a.ch, b.ch) && a.now <= b.now
    ensures Leases(cfg, b)
  {
    hide WF, EntryLinked, LeaseRow;
    forall l | l in b.lease ensures LeaseRow(cfg, l, b.lease[l], b.conn[b.lease[l].conn], b.ch.leaseOps[l], b.now) {
      LeaseRowFrame(cfg, l, a.lease[l], a.conn[a.lease[l].conn], b.conn[a.lease[l].conn],
                    a.ch.leaseOps[l], b.ch.leaseOps[l], a.now, b.now);
    }
  }

  ghost predicate SameAttemptNames(a: State, b: State) {
    && a.attempts.Keys <= b.attempts.Keys
    && forall o :: o in a.attempts ==>
         b.attempts[o].identity == a.attempts[o].identity && b.attempts[o].key == a.attempts[o].key
  }

  lemma CallsFrame(cfg: Config, a: State, b: State)
    requires Calls(cfg, a) && b.calls == a.calls && SameAttemptNames(a, b) && a.lease.Keys <= b.lease.Keys
    ensures Calls(cfg, b)
  {
    forall k | k in b.calls ensures CallRow(cfg, b.calls[k], b.attempts, b.lease) {
      assert CallRow(cfg, a.calls[k], a.attempts, a.lease);
    }
  }

  lemma OwnedFrame(a: Channels, b: Channels, lease: map<LeaseId, Lease>)
    requires Owned(a, lease) && b.ops.Keys == a.ops.Keys && Progress(a, b)
    ensures Owned(b, lease)
  {
  }

  ghost predicate SameOpen(a: Attempt, b: Attempt) {
    && b.entry == a.entry && b.phase == a.phase && b.identity == a.identity && b.generation == a.generation
    && b.key == a.key && b.evictions == a.evictions
  }

  /** Entries and opens as far as what is pending is concerned. */
  ghost predicate SamePendings(a: State, b: State) {
    && b.entry.Keys == a.entry.Keys
    && (forall e :: e in a.entry ==> b.entry[e].pending == a.entry[e].pending && b.entry[e].lastOpen == a.entry[e].lastOpen)
    && b.attempts.Keys == a.attempts.Keys
    && (forall o :: o in a.attempts ==> SameOpen(a.attempts[o], b.attempts[o]))
  }

  lemma PendingsFrame(a: State, b: State)
    requires Pendings(a) && SamePendings(a, b)
    ensures Pendings(b)
  {
    forall e | e in b.entry ensures PendingRow(e, b.entry[e], b.attempts) {
      assert PendingRow(e, a.entry[e], a.attempts);
    }
  }

  /** What a step keeps that ends no lease and finishes no open. */
  lemma Frames(cfg: Config, a: State, b: State)
    requires Linked(a) && Linked(b) && Pendings(a) && Leases(cfg, a) && Calls(cfg, a)
    requires SamePendings(a, b) && SameConns(a, b) && FewerOps(a.ch, b.ch)
    requires b.lease == a.lease && b.calls == a.calls && a.now <= b.now
    ensures Pendings(b) && Leases(cfg, b) && Calls(cfg, b)
  {
    hide Linked, Pendings, Leases, Calls;
    PendingsFrame(a, b);
    LeasesFrame(cfg, a, b);
    CallsFrame(cfg, a, b);
  }

  // ---- shutDown ----

  lemma CloseChannels(cfg: Config, s: State, c: ConnId, how: How)
    requires Base(cfg, s, {}) && c in s.conn
    ensures var r := Close(s, c, how);
      && Valid(r.ch, cfg.channelLimit)
      && Owned(r.ch, r.lease)
      && FewerOps(s.ch, r.ch)
      && r.ch.connOps[c] == {}
  {
    hide Registry, Entries, Attempts, Conns, Leases, Calls, EntryLinked, WF, Valid, Owned, FewerOps, Progress,
      AbandonConnection;
    AbandonConnectionDoes(s.ch, c, cfg.channelLimit);
    OwnedFrame(s.ch, AbandonConnection(s.ch, c), s.lease);
  }

  lemma EntryRowElsewhere(e: EntryId, entry: Entry, a: map<ConnId, Connection>, b: map<ConnId, Connection>, c: ConnId)
    requires EntryRow(e, entry, a) && c !in entry.connections && c in b && b == a[c := b[c]]
    ensures EntryRow(e, entry, b)
  {
  }

  lemma EntryRowWithout(e: EntryId, entry: Entry, a: map<ConnId, Connection>, b: map<ConnId, Connection>, c: ConnId)
    requires EntryRow(e, entry, a) && c in b && b == a[c := b[c]]
    ensures EntryRow(e, Uninstall(entry, c).(connections := entry.connections - {c}), b)
  {
  }

  lemma CloseEntries(s: State, c: ConnId, how: How)
    requires Linked(s) && c in s.conn && Entries(s)
    ensures Entries(MarkClosed(s, c, how))
  {
    hide WF, EntryRow, EntryLinked;
    var r := MarkClosed(s, c, how);
    forall e | e in r.entry ensures EntryRow(e, r.entry[e], r.conn) {
      if e == s.conn[c].entry {
        EntryRowWithout(e, s.entry[e], s.conn, r.conn, c);
      } else {
        ListedByItsEntry(s, c, e);
        EntryRowElsewhere(e, s.entry[e], s.conn, r.conn, c);
      }
    }
  }

  lemma ListedByItsEntry(s: State, c: ConnId, e: EntryId)
    requires Entries(s) && c in s.conn && e in s.entry && s.conn[c].entry != e
    ensures c !in s.entry[e].connections
  {
    assert EntryRow(e, s.entry[e], s.conn);
  }

  lemma CloseAttempts(s: State, c: ConnId, how: How)
    requires Linked(s) && c in s.conn && !s.conn[c].closed && Attempts(s)
    ensures Attempts(MarkClosed(s, c, how))
  {
    hide WF, EntryLinked, AttemptRow;
    var r := MarkClosed(s, c, how);
    forall o | o in r.attempts
      ensures AttemptRow(o, r.attempts[o], r.entry[r.attempts[o].entry], r.conn, r.opens)
    {
      var e := s.attempts[o].entry;
      if o == c {
        AttemptRowCloses(o, s.attempts[o], s.entry[e], r.entry[e], s.conn, r.conn, s.opens, how);
      } else {
        AttemptRowSame(o, s.attempts[o], s.entry[e], r.entry[e], s.conn, r.conn, s.opens);
      }
    }
  }

  lemma AttemptRowCloses(o: OpenId, attempt: Attempt, a: Entry, b: Entry, was: map<ConnId, Connection>, conn: map<ConnId, Connection>,
                         opens: nat, how: How)
    requires AttemptRow(o, attempt, a, was, opens) && o in was && !was[o].closed
    requires b.key == a.key && b.generation == a.generation && b.evictions == a.evictions && b.lastOpen == a.lastOpen
    requires conn.Keys == was.Keys && conn[o].closed
    ensures AttemptRow(o, attempt.(disposals := attempt.disposals + [how]), b, conn, opens)
  {
  }

  lemma ConnRowFrame(cfg: Config, c: ConnId, connection: Connection, a: Attempt, b: Attempt, x: Entry, y: Entry,
                     ops: set<OpId>, fewer: set<OpId>, now: int, later: int)
    requires ConnRow(cfg, c, connection, a, x, ops, now)
    requires SameOpen(a, b) && (c in x.connections ==> c in y.connections) && fewer <= ops && now <= later
    ensures ConnRow(cfg, c, connection, b, y, fewer, later)
  {
  }

  lemma CloseConns(cfg: Config, s: State, c: ConnId, how: How)
    requires Base(cfg, s, {}) && c in s.conn
    ensures Conns(cfg, Close(s, c, how))
  {
    hide WF, EntryLinked, Entries, Pendings, Named, Attempts, Leases, Calls, Owned, Valid, Registry, ConnRow, HeldRow;
    hide AbandonConnection;
    CloseChannels(cfg, s, c, how);
    var r := Close(s, c, how);
    forall d | d in r.conn
      ensures ConnRow(cfg, d, r.conn[d], r.attempts[d], r.entry[r.conn[d].entry], r.ch.connOps[d], r.now)
      ensures HeldRow(d, r.conn[d], r.lease)
    {
      if d == c {
        CloseConnRow(cfg, s, c, r);
      } else {
        CloseOther(cfg, s, c, how, d, r);
      }
    }
  }

  lemma CloseOther(cfg: Config, s: State, c: ConnId, how: How, d: ConnId, r: State)
    requires Linked(s) && c in s.conn && d in s.conn && d != c && Conns(cfg, s) && r == Close(s, c, how) && Linked(r)
    requires d in r.conn && r.ch.connOps[d] <= s.ch.connOps[d]
    ensures ConnRow(cfg, d, r.conn[d], r.attempts[d], r.entry[r.conn[d].entry], r.ch.connOps[d], r.now)
    ensures HeldRow(d, r.conn[d], r.lease)
  {
    hide WF, EntryLinked, ConnRow, HeldRow, AbandonConnection;
    ConnRowFrame(cfg, d, s.conn[d], s.attempts[d], r.attempts[d], s.entry[s.conn[d].entry], r.entry[s.conn[d].entry],
                 s.ch.connOps[d], r.ch.connOps[d], s.now, s.now);
  }

  lemma CloseConnRow(cfg: Config, s: State, c: ConnId, r: State)
    requires Linked(s) && Linked(r) && c in s.conn && c in r.conn && Conns(cfg, s) && r.ch.connOps[c] == {}
    requires r.conn[c] == s.conn[c].(closed := true, idleTimer := None, hardTimer := None)
    requires SameOpen(s.attempts[c], r.attempts[c]) && r.lease == s.lease && r.now == s.now
    ensures ConnRow(cfg, c, r.conn[c], r.attempts[c], r.entry[r.conn[c].entry], r.ch.connOps[c], r.now)
    ensures HeldRow(c, r.conn[c], r.lease)
  {
    assert ConnRow(cfg, c, s.conn[c], s.attempts[c], s.entry[s.conn[c].entry], s.ch.connOps[c], s.now);
    assert HeldRow(c, s.conn[c], s.lease);
  }

  lemma CloseRegistry(s: State, c: ConnId, how: How)
    requires Linked(s) && Registry(s, {}) && c in s.conn
    ensures Registry(MarkClosed(s, c, how), {s.conn[c].entry})
  {
    hide WF, EntryLinked;
  }

  lemma CloseShape(s: State, c: ConnId, how: How)
    requires Linked(s) && c in s.conn && c in s.attempts && s.conn[c].entry in s.entry
    ensures var r := Close(s, c, how); SamePendings(s, r) && SameConns(s, r)
  {
    hide Linked, AbandonConnection;
  }

  lemma LinkedConn(s: State, c: ConnId)
    requires Linked(s) && c in s.conn
    ensures c in s.attempts && s.conn[c].entry in s.entry
  {
  }

  lemma CloseRest(cfg: Config, s: State, c: ConnId, how: How)
    requires Base(cfg, s, {}) && c in s.conn && !s.conn[c].closed
    ensures var r := Close(s, c, how); Pendings(r) && Leases(cfg, r) && Calls(cfg, r)
  {
    hide Linked, Pendings, Leases, Calls, Registry, Entries, Attempts, Conns, Owned, Valid, AbandonConnection;
    hide SamePendings, SameConns, FewerOps;
    assert c in s.attempts && s.conn[c].entry in s.entry by { LinkedConn(s, c); }
    CloseShape(s, c, how);
    CloseChannels(cfg, s, c, how);
    Frames(cfg, s, Close(s, c, how));
  }

  lemma CloseKeeps(cfg: Config, s: State, c: ConnId, how: How)
    requires Base(cfg, s, {}) && c in s.conn && !s.conn[c].closed
    ensures Base(cfg, Close(s, c, how), {s.conn[c].entry})
  {
    hide WF, Linked, Registry, Entries, Pendings, Attempts, Conns, Leases, Calls, Owned, Valid, AbandonConnection;
    CloseChannels(cfg, s, c, how);
    CloseEntries(s, c, how);
    CloseAttempts(s, c, how);
    CloseConns(cfg, s, c, how);
    CloseRegistry(s, c, how);
    CloseRest(cfg, s, c, how);
    ApartFromChannels(MarkClosed(s, c, how), Close(s, c, how), {s.conn[c].entry});
  }

  lemma ApartFromChannels(a: State, b: State, but: set<EntryId>)
    requires Linked(a) && Linked(b) && b == a.(ch := b.ch)
    ensures Registry(a, but) ==> Registry(b, but)
    ensures Entries(a) ==> Entries(b)
    ensures Named(a) ==> Named(b)
    ensures Attempts(a) ==> Attempts(b)
  {
    hide WF, EntryLinked, EntryRow, AttemptRow;
  }

  lemma EntriesSame(a: State, b: State, but: set<EntryId>)
    requires Linked(a) && Linked(b) && b.entries == a.entries && b.entry == a.entry && b.generations == a.generations
    ensures Registry(a, but) ==> Registry(b, but)
    ensures Named(a) ==> Named(b)
  {
    hide WF, EntryLinked;
  }

  lemma PruneKeeps(cfg: Config, s: State, key: Key, e: EntryId)
    requires Base(cfg, s, {e}) && e in s.entry && s.entry[e].key == key
    ensures Base(cfg, Prune(s, key, e), {})
  {
  }

  lemma ShutDownKeeps(cfg: Config, s: State, c: ConnId, how: How)
    requires Base(cfg, s, {}) && c in s.conn
    ensures Base(cfg, ShutDown(s, c, how), {})
  {
    if !s.conn[c].closed {
      CloseKeeps(cfg, s, c, how);
      hide Base;
      PruneKeeps(cfg, Close(s, c, how), s.conn[c].key, s.conn[c].entry);
    }
  }

  lemma CloseSettles(s: State, c: ConnId, how: How, but: set<ConnId>)
    requires Linked(s) && c in s.conn && SettledBut(s, but)
    ensures SettledBut(Close(s, c, how), but - {c})
  {
    hide WF, EntryLinked, AbandonConnection, SettledRow;
    var r := Close(s, c, how);
    forall d | d in r.conn && d !in but - {c} ensures SettledRow(d, r.conn[d], r.entry[r.conn[d].entry]) {
      if d == c {
        ClosedSettles(d, r.conn[d], r.entry[r.conn[d].entry]);
      } else {
        SettledStays(d, s.conn[d], s.entry[s.conn[d].entry], r.entry[r.conn[d].entry]);
      }
    }
  }

  lemma ClosedSettles(c: ConnId, connection: Connection, entry: Entry)
    requires connection.closed
    ensures SettledRow(c, connection, entry)
  {
  }

  lemma SettledStays(c: ConnId, connection: Connection, a: Entry, b: Entry)
    requires SettledRow(c, connection, a) && (a.installed == Some(c) ==> b.installed == Some(c))
    ensures SettledRow(c, connection, b)
  {
  }

  lemma ShutDownSettles(s: State, c: ConnId, how: How, but: set<ConnId>)
    requires Linked(s) && c in s.conn && SettledBut(s, but)
    ensures SettledBut(ShutDown(s, c, how), but - {c})
  {
    if !s.conn[c].closed { CloseSettles(s, c, how, but); }
  }

  // ---- Retiring, and arming the idle timer ----

  /** A step that touches nothing but one connection's `retired` and idle timer, and whether
      its entry has it installed. */
  ghost predicate Tweaked(a: State, b: State, c: ConnId) {
    && c in a.conn && c in b.conn && a.conn[c].entry in a.entry && a.conn[c].entry in b.entry
    && var e := a.conn[c].entry;
    && b == a.(conn := a.conn[c := b.conn[c]], entry := a.entry[e := b.entry[e]])
    && b.conn[c] == a.conn[c].(retired := b.conn[c].retired, idleTimer := b.conn[c].idleTimer)
    && b.entry[e] == a.entry[e].(installed := b.entry[e].installed)
  }

  lemma TweakShape(a: State, b: State, c: ConnId)
    requires Tweaked(a, b, c)
    ensures SamePendings(a, b) && SameConns(a, b)
  {
  }

  lemma TweakEntries(a: State, b: State, c: ConnId)
    requires Tweaked(a, b, c) && Entries(a) && EntryRow(a.conn[c].entry, b.entry[a.conn[c].entry], b.conn)
    ensures Entries(b)
  {
    hide EntryRow;
    forall e | e in b.entry && e != a.conn[c].entry ensures EntryRow(e, b.entry[e], b.conn) {
      ListedByItsEntry(a, c, e);
      EntryRowElsewhere(e, a.entry[e], a.conn, b.conn, c);
    }
  }

  lemma TweakAttempts(a: State, b: State, c: ConnId)
    requires Linked(a) && Linked(b) && Tweaked(a, b, c) && Attempts(a)
    ensures Attempts(b)
  {
    hide WF, EntryLinked, AttemptRow;
    forall o | o in b.attempts ensures AttemptRow(o, b.attempts[o], b.entry[b.attempts[o].entry], b.conn, b.opens) {
      AttemptRowSame(o, a.attempts[o], a.entry[a.attempts[o].entry], b.entry[a.attempts[o].entry], a.conn, b.conn, a.opens);
    }
  }

  lemma AttemptRowSame(o: OpenId, attempt: Attempt, a: Entry, b: Entry, was: map<ConnId, Connection>, conn: map<ConnId, Connection>,
                       opens: nat)
    requires AttemptRow(o, attempt, a, was, opens)
    requires b.key == a.key && b.generation == a.generation && b.evictions == a.evictions && b.lastOpen == a.lastOpen
    requires conn.Keys == was.Keys && (o in conn ==> conn[o].closed == was[o].closed)
    ensures AttemptRow(o, attempt, b, conn, opens)
  {
  }

  lemma TweakConnRow(cfg: Config, d: ConnId, x: Connection, y: Connection, attempt: Attempt, a: Entry, b: Entry,
                     ops: set<OpId>, now: int)
    requires ConnRow(cfg, d, x, attempt, a, ops, now) && b.connections == a.connections
    requires y == x.(retired := y.retired, idleTimer := y.idleTimer, leases := y.leases)
    requires y.idleTimer == x.idleTimer || !x.closed
    ensures ConnRow(cfg, d, y, attempt, b, ops, now)
  {
  }

  lemma TweakConns(cfg: Config, a: State, b: State, c: ConnId)
    requires Linked(a) && Linked(b) && Tweaked(a, b, c) && Conns(cfg, a)
    requires b.conn[c].idleTimer == a.conn[c].idleTimer || !a.conn[c].closed
    ensures Conns(cfg, b)
  {
    hide WF, EntryLinked, ConnRow, HeldRow;
    forall d | d in b.conn
      ensures ConnRow(cfg, d, b.conn[d], b.attempts[d], b.entry[b.conn[d].entry], b.ch.connOps[d], b.now)
      ensures HeldRow(d, b.conn[d], b.lease)
    {
      TweakConnRow(cfg, d, a.conn[d], b.conn[d], a.attempts[d], a.entry[a.conn[d].entry], b.entry[a.conn[d].entry],
                   a.ch.connOps[d], a.now);
      HeldSame(d, a.conn[d], b.conn[d], a.lease);
    }
  }

  lemma HeldSame(c: ConnId, a: Connection, b: Connection, lease: map<LeaseId, Lease>)
    requires HeldRow(c, a, lease) && b.leases == a.leases
    ensures HeldRow(c, b, lease)
  {
  }

  lemma TweakKeeps(cfg: Config, a: State, b: State, c: ConnId, but: set<EntryId>)
    requires Base(cfg, a, but) && Linked(b) && Tweaked(a, b, c)
    requires b.conn[c].idleTimer == a.conn[c].idleTimer || !a.conn[c].closed
    requires EntryRow(a.conn[c].entry, b.entry[a.conn[c].entry], b.conn)
    ensures Base(cfg, b, but)
  {
    hide Linked, Entries, Attempts, Conns, Pendings, Leases, Calls, Owned, Valid, EntryRow;
    hide SamePendings, SameConns;
    TweakShape(a, b, c);
    Frames(cfg, a, b);
    TweakEntries(a, b, c);
    TweakAttempts(a, b, c);
    TweakConns(cfg, a, b, c);
  }

  lemma RetiredEntryRow(s: State, c: ConnId)
    requires Linked(s) && c in s.conn && Entries(s)
    ensures var r := Retire(s, c); var e := s.conn[c].entry; EntryRow(e, r.entry[e], r.conn)
  {
    hide Linked;
    LinkedConn(s, c);
    var e := s.conn[c].entry;
    assert EntryRow(e, s.entry[e], s.conn);
  }

  lemma EntryRowTouched(e: EntryId, entry: Entry, conn: map<ConnId, Connection>, c: ConnId, connection: Connection)
    requires EntryRow(e, entry, conn) && c in conn
    requires connection.entry == conn[c].entry && connection.closed == conn[c].closed && connection.retired == conn[c].retired
    ensures EntryRow(e, entry, conn[c := connection])
  {
  }

  lemma RetireKeeps(cfg: Config, s: State, c: ConnId, but: set<EntryId>)
    requires Base(cfg, s, but) && c in s.conn
    ensures Base(cfg, Retire(s, c), but)
  {
    hide Registry, Entries, Attempts, Conns, Pendings, Named, Leases, Calls, Owned, Valid, Linked;
    LinkedConn(s, c);
    RetiredEntryRow(s, c);
    TweakKeeps(cfg, s, Retire(s, c), c, but);
  }

  lemma RetireSettles(s: State, c: ConnId)
    requires Linked(s) && c in s.conn && SettledBut(s, {}) && s.conn[c].leases != {}
    ensures SettledBut(Retire(s, c), {})
  {
    hide WF, EntryLinked;
    var r := Retire(s, c);
    forall d | d in r.conn ensures SettledRow(d, r.conn[d], r.entry[r.conn[d].entry]) {
      assert SettledRow(d, s.conn[d], s.entry[s.conn[d].entry]);
    }
  }

  lemma IdleEntryRow(cfg: Config, s: State, c: ConnId)
    requires Linked(s) && c in s.conn && Entries(s)
    ensures var r := ArmIdle(cfg, s, c); var e := s.conn[c].entry; EntryRow(e, r.entry[e], r.conn)
  {
    hide Linked, EntryRow;
    LinkedConn(s, c);
    var e := s.conn[c].entry;
    EntryRowTouched(e, s.entry[e], s.conn, c, ArmIdle(cfg, s, c).conn[c]);
  }

  lemma ArmIdleKeeps(cfg: Config, s: State, c: ConnId, but: set<EntryId>)
    requires Base(cfg, s, but) && c in s.conn && !s.conn[c].closed
    ensures Base(cfg, ArmIdle(cfg, s, c), but)
  {
    hide Registry, Entries, Attempts, Conns, Pendings, Named, Leases, Calls, Owned, Valid, Linked;
    LinkedConn(s, c);
    IdleEntryRow(cfg, s, c);
    TweakKeeps(cfg, s, ArmIdle(cfg, s, c), c, but);
  }

  lemma ArmIdleSettles(cfg: Config, s: State, c: ConnId, but: set<ConnId>)
    requires Linked(s) && c in s.conn && SettledBut(s, but)
    requires s.conn[c].leases == {} && s.entry[s.conn[c].entry].installed == Some(c)
    ensures SettledBut(ArmIdle(cfg, s, c), but - {c})
  {
    hide WF, EntryLinked;
    var r := ArmIdle(cfg, s, c);
    forall d | d in r.conn && d !in but - {c} ensures SettledRow(d, r.conn[d], r.entry[r.conn[d].entry]) {
      if d != c { assert SettledRow(d, s.conn[d], s.entry[s.conn[d].entry]); }
    }
  }

  // ---- afterLastLease ----

  lemma BaseLinks(cfg: Config, s: State, but: set<EntryId>)
    requires Base(cfg, s, but)
    ensures Linked(s)
  {
  }

  lemma StaySettled(s: State, c: ConnId)
    requires Linked(s) && c in s.conn && SettledBut(s, {c})
    requires s.conn[c].closed || (s.conn[c].leases != {} && s.conn[c].idleTimer == None)
    ensures SettledBut(s, {})
  {
    hide WF, EntryLinked;
  }

  lemma AfterLastLeaseKeeps(cfg: Config, s: State, c: ConnId)
    requires Base(cfg, s, {}) && c in s.conn && SettledBut(s, {c})
    requires s.conn[c].leases != {} && !s.conn[c].closed ==> s.conn[c].idleTimer == None
    ensures PoolValid(cfg, AfterLastLease(cfg, s, c))
  {
    hide Base, Linked, SettledBut, ShutDown, ArmIdle;
    BaseLinks(cfg, s, {});
    LinkedConn(s, c);
    assert {c} - {c} == {};
    if s.conn[c].closed || s.conn[c].leases != {} {
      StaySettled(s, c);
    } else if s.conn[c].retired {
      ShutDownKeeps(cfg, s, c, Destroy);
      ShutDownSettles(s, c, Destroy, {c});
    } else if s.entry[s.conn[c].entry].installed != Some(c) {
      ShutDownKeeps(cfg, s, c, End);
      ShutDownSettles(s, c, End, {c});
    } else {
      ArmIdleKeeps(cfg, s, c, {});
      ArmIdleSettles(cfg, s, c, {c});
    }
  }

  // ---- Steps of the operations alone ----

  /** A change of the channels that keeps their own invariant and adds no operation to a set. */
  ghost predicate Lighter(cfg: Config, s: State, ch: Channels) {
    && Fits(s, ch)
    && Valid(ch, cfg.channelLimit)
    && Owned(ch, s.lease)
    && FewerOps(s.ch, ch)
  }

  lemma ChannelConns(cfg: Config, s: State, ch: Channels)
    requires Linked(s) && Conns(cfg, s) && Lighter(cfg, s, ch)
    ensures Conns(cfg, WithChannels(s, ch))
  {
    hide WF, EntryLinked, ConnRow, HeldRow, Valid, Owned;
    forall c | c in s.conn
      ensures ConnRow(cfg, c, s.conn[c], s.attempts[c], s.entry[s.conn[c].entry], ch.connOps[c], s.now)
    {
      ConnRowFrame(cfg, c, s.conn[c], s.attempts[c], s.attempts[c], s.entry[s.conn[c].entry], s.entry[s.conn[c].entry],
                   s.ch.connOps[c], ch.connOps[c], s.now, s.now);
    }
  }

  lemma ChannelsKeep(cfg: Config, s: State, ch: Channels, but: set<EntryId>)
    requires Base(cfg, s, but) && Lighter(cfg, s, ch)
    ensures Base(cfg, WithChannels(s, ch), but)
  {
    hide Linked, Entries, Attempts, Conns, Pendings, Named, Leases, Calls, Owned, Valid, WF, FewerOps, Registry;
    var r := WithChannels(s, ch);
    ApartFromChannels(s, r, but);
    ChannelConns(cfg, s, ch);
    Frames(cfg, s, r);
  }

  /** Abandoning a lease's operations leaves it none. */
  lemma AbandonLeaseLighter(cfg: Config, s: State, l: LeaseId, cause: Cause)
    requires Base(cfg, s, {}) && l in s.lease
    ensures Lighter(cfg, s, AbandonLease(s.ch, l, cause))
    ensures AbandonLease(s.ch, l, cause).leaseOps[l] == {}
  {
    hide Registry, Entries, Attempts, Conns, Pendings, Leases, Calls, EntryLinked, WF, Valid, Owned, FewerOps,
      Progress, AbandonLease;
    AbandonLeaseDoes(s.ch, l, cause, cfg.channelLimit);
    OwnedFrame(s.ch, AbandonLease(s.ch, l, cause), s.lease);
  }

  // ---- release and expire ----

  lemma UnreleasedLess(lease: map<LeaseId, Lease>, l: LeaseId, row: Lease)
    requires l in lease && !lease[l].released && row.released
    ensures |Unreleased(lease[l := row])| == |Unreleased(lease)| - 1
  {
    assert Unreleased(lease) == Unreleased(lease[l := row]) + {l};
  }

  /** Connections apart from their leases and idle timers. */
  ghost predicate ConnsAlike(a: map<ConnId, Connection>, b: map<ConnId, Connection>) {
    && b.Keys == a.Keys
    && forall c :: c in a ==> b[c] == a[c].(leases := b[c].leases, idleTimer := b[c].idleTimer)
  }

  lemma EntriesAlike(a: State, b: State)
    requires Entries(a) && b.entry == a.entry && ConnsAlike(a.conn, b.conn)
    ensures Entries(b)
  {
    forall e | e in b.entry ensures EntryRow(e, b.entry[e], b.conn) {
      assert EntryRow(e, a.entry[e], a.conn);
    }
  }

  lemma AttemptsAlike(a: State, b: State)
    requires Linked(a) && Linked(b) && Attempts(a) && ConnsAlike(a.conn, b.conn)
    requires b.entry == a.entry && b.attempts == a.attempts && b.opens == a.opens
    ensures Attempts(b)
  {
    hide WF, EntryLinked;
    forall o | o in b.attempts ensures AttemptRow(o, b.attempts[o], b.entry[b.attempts[o].entry], b.conn, b.opens) {
      assert AttemptRow(o, a.attempts[o], a.entry[a.attempts[o].entry], a.conn, a.opens);
    }
  }

  lemma ReleasedHeld(c: ConnId, connection: Connection, lease: map<LeaseId, Lease>, l: LeaseId, row: Lease)
    requires HeldRow(c, connection, lease) && l in lease && row.conn == lease[l].conn
    ensures HeldRow(c, connection.(leases := connection.leases - {l}), lease[l := row])
    ensures l !in connection.leases ==> HeldRow(c, connection, lease[l := row])
    ensures !row.released ==> HeldRow(c, connection, lease[l := row])
  {
  }

  lemma ReleasedConns(cfg: Config, s: State, l: LeaseId)
    requires Linked(s) && Conns(cfg, s) && l in s.lease
    ensures Conns(cfg, MarkReleased(s, l))
  {
    hide WF, EntryLinked, HeldRow, ConnRow;
    var r := MarkReleased(s, l);
    forall c | c in r.conn
      ensures ConnRow(cfg, c, r.conn[c], r.attempts[c], r.entry[r.conn[c].entry], r.ch.connOps[c], r.now)
      ensures HeldRow(c, r.conn[c], r.lease)
    {
      TweakConnRow(cfg, c, s.conn[c], r.conn[c], s.attempts[c], s.entry[s.conn[c].entry], s.entry[s.conn[c].entry],
                   s.ch.connOps[c], s.now);
      ReleasedHeld(c, s.conn[c], s.lease, l, r.lease[l]);
      if c != s.lease[l].conn { HeldByOther(c, s.conn[c], s.lease, l); }
    }
  }

  lemma HeldByOther(c: ConnId, connection: Connection, lease: map<LeaseId, Lease>, l: LeaseId)
    requires HeldRow(c, connection, lease) && l in lease && lease[l].conn != c
    ensures l !in connection.leases
  {
  }

  lemma LeaseRowLess(cfg: Config, m: LeaseId, lease: Lease, connection: Connection, ops: set<OpId>, now: int, l: LeaseId)
    requires LeaseRow(cfg, m, lease, connection, ops, now) && m != l
    ensures LeaseRow(cfg, m, lease, connection.(leases := connection.leases - {l}), ops, now)
  {
  }

  lemma ReleasedLeases(cfg: Config, s: State, l: LeaseId)
    requires Linked(s) && Leases(cfg, s) && l in s.lease && s.ch.leaseOps[l] == {}
    ensures Leases(cfg, MarkReleased(s, l))
  {
    hide WF, EntryLinked, LeaseRow;
    var r := MarkReleased(s, l);
    forall m | m in r.lease ensures LeaseRow(cfg, m, r.lease[m], r.conn[r.lease[m].conn], r.ch.leaseOps[m], r.now) {
      if m == l {
        ReleasedRow(cfg, l, s.lease[l], s.conn[s.lease[l].conn], r.conn[s.lease[l].conn], s.now);
      } else {
        LeaseRowLess(cfg, m, s.lease[m], s.conn[s.lease[m].conn], s.ch.leaseOps[m], s.now, l);
      }
    }
  }

  lemma ReleasedRow(cfg: Config, l: LeaseId, lease: Lease, x: Connection, y: Connection, now: int)
    requires LeaseRow(cfg, l, lease, x, {}, now) && y.readyAt == x.readyAt
    ensures LeaseRow(cfg, l, lease.(released := true, timer := None), y, {}, now)
  {
  }

  lemma ReleasedShape(s: State, l: LeaseId)
    requires Linked(s) && l in s.lease && s.lease[l].conn in s.conn
    ensures var r := MarkReleased(s, l);
      ConnsAlike(s.conn, r.conn) && r.entry == s.entry && r.attempts == s.attempts && r.calls == s.calls
  {
    hide Linked;
  }

  lemma MarkReleasedKeeps(cfg: Config, s: State, l: LeaseId, but: set<EntryId>)
    requires Base(cfg, s, but) && l in s.lease && !s.lease[l].released && s.ch.leaseOps[l] == {}
    ensures Base(cfg, MarkReleased(s, l), but)
  {
    hide Linked, Registry, Named, Entries, Attempts, Conns, Pendings, Leases, Calls, Owned, Valid, WF, ConnsAlike;
    LinkedLease(s, l);
    var r := MarkReleased(s, l);
    ReleasedShape(s, l);
    EntriesSame(s, r, but);
    EntriesAlike(s, r);
    AttemptsAlike(s, r);
    ReleasedConns(cfg, s, l);
    ReleasedLeases(cfg, s, l);
    UnreleasedLess(s.lease, l, r.lease[l]);
    PendingsFrame(s, r);
    CallsFrame(cfg, s, r);
    assert Owned(r.ch, r.lease) by { OwnedSame(s.ch, s.lease, r.lease); }
  }

  lemma LinkedLease(s: State, l: LeaseId)
    requires Linked(s) && l in s.lease
    ensures s.lease[l].conn in s.conn && WF(s.ch) && l in s.ch.leaseOps
  {
  }

  lemma OwnedSame(ch: Channels, a: map<LeaseId, Lease>, b: map<LeaseId, Lease>)
    requires Owned(ch, a) && a.Keys <= b.Keys && forall l :: l in a ==> b[l].conn == a[l].conn
    ensures Owned(ch, b)
  {
  }

  lemma ReleasedSettles(s: State, l: LeaseId)
    requires Linked(s) && l in s.lease && SettledBut(s, {})
    ensures SettledBut(MarkReleased(s, l), {s.lease[l].conn})
  {
    hide WF, EntryLinked;
    var r := MarkReleased(s, l);
    forall c | c in r.conn && c != s.lease[l].conn ensures SettledRow(c, r.conn[c], r.entry[r.conn[c].entry]) {
      assert SettledRow(c, s.conn[c], s.entry[s.conn[c].entry]);
    }
  }

  lemma ReleaseKeeps(cfg: Config, s: State, l: LeaseId)
    requires PoolValid(cfg, s) && l in s.lease
    ensures PoolValid(cfg, Release(cfg, s, l))
  {
    hide Base, Linked, SettledBut, MarkReleased, AfterLastLease, Lighter, WF;
    BaseLinks(cfg, s, {});
    LinkedLease(s, l);
    if !s.lease[l].released {
      GiveBackKeeps(cfg, s, l);
      AfterLastLeaseKeeps(cfg, GiveBack(s, l), s.lease[l].conn);
    }
  }

  lemma GiveBackOrder(s: State, l: LeaseId)
    requires Linked(s) && l in s.lease && s.lease[l].conn in s.conn && WF(s.ch) && l in s.ch.leaseOps
    requires Fits(s, AbandonLease(s.ch, l, ConnectionLost))
    ensures GiveBack(s, l) == MarkReleased(WithChannels(s, AbandonLease(s.ch, l, ConnectionLost)), l)
  {
    hide Linked, AbandonLease, WF, Fits;
  }

  lemma GiveBackKeeps(cfg: Config, s: State, l: LeaseId)
    requires Linked(s) && PoolValid(cfg, s) && l in s.lease && !s.lease[l].released
    requires s.lease[l].conn in s.conn && WF(s.ch) && l in s.ch.leaseOps
    ensures var r := GiveBack(s, l); var c := s.lease[l].conn;
      Base(cfg, r, {}) && SettledBut(r, {c}) && (r.conn[c].leases != {} && !r.conn[c].closed ==> r.conn[c].idleTimer == None)
  {
    hide Base, Linked, SettledBut, MarkReleased, AfterLastLease, WF, GiveBack, AbandonLease, Fits, Owned, Valid,
      FewerOps;
    var lighter := AbandonLease(s.ch, l, ConnectionLost);
    AbandonLeaseLighter(cfg, s, l, ConnectionLost);
    ChannelsKeep(cfg, s, lighter, {});
    var mid := WithChannels(s, lighter);
    MarkReleasedKeeps(cfg, mid, l, {});
    ChannelsSettle(s, lighter, {});
    ReleasedSettles(mid, l);
    GiveBackOrder(s, l);
    ReleasedIdle(mid, l);
  }

  lemma ReleasedIdle(s: State, l: LeaseId)
    requires Linked(s) && l in s.lease && SettledBut(s, {}) && s.lease[l].conn in s.conn
    ensures var r := MarkReleased(s, l); var c := s.lease[l].conn;
      r.conn[c].leases != {} && !r.conn[c].closed ==> r.conn[c].idleTimer == None
  {
    hide WF, EntryLinked;
    var c := s.lease[l].conn;
    assert SettledRow(c, s.conn[c], s.entry[s.conn[c].entry]);
  }

  lemma ChannelsSettle(s: State, ch: Channels, but: set<ConnId>)
    requires Linked(s) && SettledBut(s, but) && Fits(s, ch)
    ensures SettledBut(WithChannels(s, ch), but)
  {
    hide WF, EntryLinked, SettledRow;
  }

  lemma ExpiredLeases(cfg: Config, s: State, l: LeaseId)
    requires Linked(s) && Leases(cfg, s) && l in s.lease && s.ch.leaseOps[l] == {}
    ensures Leases(cfg, MarkExpired(s, l))
  {
    hide WF, EntryLinked;
    var r := MarkExpired(s, l);
    forall m | m in r.lease ensures LeaseRow(cfg, m, r.lease[m], r.conn[r.lease[m].conn], r.ch.leaseOps[m], r.now) {
      assert LeaseRow(cfg, m, s.lease[m], s.conn[s.lease[m].conn], s.ch.leaseOps[m], s.now);
    }
  }

  lemma ExpiredConns(cfg: Config, s: State, l: LeaseId)
    requires Linked(s) && Conns(cfg, s) && l in s.lease && !s.lease[l].released
    ensures Conns(cfg, MarkExpired(s, l))
  {
    hide WF, EntryLinked, HeldRow, ConnRow;
    var r := MarkExpired(s, l);
    forall c | c in r.conn ensures HeldRow(c, r.conn[c], r.lease) {
      ReleasedHeld(c, s.conn[c], s.lease, l, r.lease[l]);
    }
  }

  lemma MarkExpiredKeeps(cfg: Config, s: State, l: LeaseId)
    requires Base(cfg, s, {}) && l in s.lease && !s.lease[l].released && s.ch.leaseOps[l] == {}
    ensures Base(cfg, MarkExpired(s, l), {})
  {
    hide Linked, Registry, Named, Entries, Attempts, Conns, Pendings, Leases, Calls, Owned, Valid, WF, ConnsAlike;
    LinkedLease(s, l);
    var r := MarkExpired(s, l);
    EntriesSame(s, r, {});
    ExpiredShape(s, l);
    EntriesAlike(s, r);
    AttemptsAlike(s, r);
    ExpiredConns(cfg, s, l);
    ExpiredLeases(cfg, s, l);
    PendingsFrame(s, r);
    CallsFrame(cfg, s, r);
    OwnedSame(s.ch, s.lease, r.lease);
    assert Unreleased(r.lease) == Unreleased(s.lease);
  }

  lemma ExpiredShape(s: State, l: LeaseId)
    requires Linked(s) && l in s.lease
    ensures var r := MarkExpired(s, l);
      ConnsAlike(s.conn, r.conn) && r.entry == s.entry && r.attempts == s.attempts && r.calls == s.calls
  {
    hide Linked;
  }

  lemma ExpireOrder(s: State, l: LeaseId)
    requires Linked(s) && l in s.lease && WF(s.ch) && l in s.ch.leaseOps && Fits(s, AbandonLease(s.ch, l, AtDeadline))
    ensures var done := MarkExpired(WithChannels(s, AbandonLease(s.ch, l, AtDeadline)), l);
      Expire(s, l) == if Admitted(s.ch, l) then Retire(done, s.lease[l].conn) else done
  {
    hide Linked, AbandonLease, WF, Fits, Admitted, Retire;
  }

  /** An operation's connection is open, and leased by the operation's lease. */
  lemma LeaseHolds(cfg: Config, s: State, l: LeaseId)
    requires Linked(s) && Leases(cfg, s) && l in s.lease && !s.lease[l].released
    ensures l in s.conn[s.lease[l].conn].leases
  {
    hide WF, EntryLinked;
    assert LeaseRow(cfg, l, s.lease[l], s.conn[s.lease[l].conn], s.ch.leaseOps[l], s.now);
  }

  lemma ExpireKeeps(cfg: Config, s: State, l: LeaseId)
    requires PoolValid(cfg, s) && l in s.lease && !s.lease[l].released
    ensures PoolValid(cfg, Expire(s, l))
  {
    hide Linked, Registry, Named, Entries, Attempts, Conns, Pendings, Leases, Calls, Owned, Valid, WF, SettledBut;
    hide MarkExpired, Retire, Expire, AbandonLease, Fits, FewerOps;
    LinkedLease(s, l);
    var lighter := AbandonLease(s.ch, l, AtDeadline);
    AbandonLeaseLighter(cfg, s, l, AtDeadline);
    ChannelsKeep(cfg, s, lighter, {});
    ChannelsSettle(s, lighter, {});
    var mid := WithChannels(s, lighter);
    MarkExpiredKeeps(cfg, mid, l);
    ExpiredSettles(mid, l);
    ExpireOrder(s, l);
    if Admitted(s.ch, l) {
      var late := MarkExpired(mid, l);
      LeaseHolds(cfg, s, l);
      RetireKeeps(cfg, late, s.lease[l].conn, {});
      RetireSettles(late, s.lease[l].conn);
    }
  }

  lemma ExpiredSettles(s: State, l: LeaseId)
    requires Linked(s) && l in s.lease && SettledBut(s, {})
    ensures SettledBut(MarkExpired(s, l), {})
  {
    hide WF, EntryLinked, SettledRow;
  }

  // ---- checkout ----

  lemma UnreleasedMore(lease: map<LeaseId, Lease>, l: LeaseId, row: Lease)
    requires l !in lease && !row.released
    ensures |Unreleased(lease[l := row])| == |Unreleased(lease)| + 1
  {
    assert Unreleased(lease[l := row]) == Unreleased(lease) + {l};
  }

  lemma CheckoutHeld(c: ConnId, connection: Connection, lease: map<LeaseId, Lease>, l: LeaseId, row: Lease)
    requires HeldRow(c, connection, lease) && l !in lease && !row.released
    ensures row.conn == c ==> HeldRow(c, connection.(idleTimer := None, leases := connection.leases + {l}), lease[l := row])
    ensures HeldRow(c, connection, lease[l := row])
  {
  }

  lemma CheckoutConns(cfg: Config, s: State, c: ConnId, deadlineMs: int, l: LeaseId, reused: bool)
    requires Linked(s) && Conns(cfg, s) && c in s.conn && l !in s.lease && !s.conn[c].closed
    ensures Conns(cfg, Checkout(s, c, deadlineMs, l, reused))
  {
    hide WF, EntryLinked, HeldRow, ConnRow;
    var r := Checkout(s, c, deadlineMs, l, reused);
    forall d | d in r.conn
      ensures ConnRow(cfg, d, r.conn[d], r.attempts[d], r.entry[r.conn[d].entry], r.ch.connOps[d], r.now)
      ensures HeldRow(d, r.conn[d], r.lease)
    {
      TweakConnRow(cfg, d, s.conn[d], r.conn[d], s.attempts[d], s.entry[s.conn[d].entry], s.entry[s.conn[d].entry],
                   s.ch.connOps[d], s.now);
      CheckoutHeld(d, s.conn[d], s.lease, l, r.lease[l]);
    }
  }

  lemma LeaseRowMore(cfg: Config, m: LeaseId, lease: Lease, x: Connection, y: Connection, ops: set<OpId>, now: int)
    requires LeaseRow(cfg, m, lease, x, ops, now) && y.readyAt == x.readyAt && x.leases <= y.leases
    ensures LeaseRow(cfg, m, lease, y, ops, now)
  {
  }

  ghost predicate MayCheckOut(cfg: Config, s: State, c: ConnId, deadlineMs: int, reused: bool) {
    && c in s.conn
    && !s.conn[c].closed
    && DeadlineFits(cfg, deadlineMs)
    && s.conn[c].readyAt <= s.now
    && (reused ==> s.conn[c].readyAt + cfg.hardAgeMs >= s.now + deadlineMs)
  }

  lemma CheckoutLeases(cfg: Config, s: State, c: ConnId, deadlineMs: int, l: LeaseId, reused: bool)
    requires Linked(s) && Leases(cfg, s) && l !in s.lease && MayCheckOut(cfg, s, c, deadlineMs, reused)
    ensures Leases(cfg, Checkout(s, c, deadlineMs, l, reused))
  {
    hide WF, EntryLinked, LeaseRow;
    var r := Checkout(s, c, deadlineMs, l, reused);
    forall m | m in r.lease ensures LeaseRow(cfg, m, r.lease[m], r.conn[r.lease[m].conn], r.ch.leaseOps[m], r.now) {
      if m == l {
        NewLeaseRow(cfg, l, r.lease[l], r.conn[c], s.now);
      } else {
        LeaseRowMore(cfg, m, s.lease[m], s.conn[s.lease[m].conn], r.conn[s.lease[m].conn], s.ch.leaseOps[m], s.now);
      }
    }
  }

  lemma NewLeaseRow(cfg: Config, l: LeaseId, lease: Lease, connection: Connection, now: int)
    requires l in connection.leases && DeadlineFits(cfg, lease.deadlineMs) && connection.readyAt <= now
    requires lease == Lease(lease.conn, false, false, Some(now + lease.deadlineMs), now, lease.deadlineMs, lease.reused)
    requires lease.reused ==> connection.readyAt + cfg.hardAgeMs >= now + lease.deadlineMs
    ensures LeaseRow(cfg, l, lease, connection, {}, now)
  {
  }

  lemma CheckoutShape(s: State, c: ConnId, deadlineMs: int, l: LeaseId, reused: bool)
    requires Linked(s) && c in s.conn && l !in s.lease && WF(s.ch)
    ensures var r := Checkout(s, c, deadlineMs, l, reused);
      && ConnsAlike(s.conn, r.conn)
      && r.entry == s.entry && r.attempts == s.attempts && r.calls == s.calls && r.entries == s.entries
      && r.generations == s.generations && r.opens == s.opens && r.ch.ops == s.ch.ops
  {
    hide Linked, WF;
  }

  lemma CheckoutKeeps(cfg: Config, s: State, c: ConnId, deadlineMs: int, l: LeaseId, reused: bool)
    requires PoolValid(cfg, s) && l !in s.lease && MayCheckOut(cfg, s, c, deadlineMs, reused)
    ensures PoolValid(cfg, Checkout(s, c, deadlineMs, l, reused))
  {
    hide Linked, Registry, Named, Entries, Attempts, Conns, Pendings, Leases, Calls, Owned, Valid, WF, ConnsAlike,
      SettledBut;
    LinkedKeys(s);
    var r := Checkout(s, c, deadlineMs, l, reused);
    CheckoutShape(s, c, deadlineMs, l, reused);
    EntriesSame(s, r, {});
    EntriesAlike(s, r);
    AttemptsAlike(s, r);
    CheckoutConns(cfg, s, c, deadlineMs, l, reused);
    CheckoutLeases(cfg, s, c, deadlineMs, l, reused);
    PendingsFrame(s, r);
    CallsFrame(cfg, s, r);
    CheckoutOwned(s.ch, r.ch, s.lease, r.lease);
    UnreleasedMore(s.lease, l, r.lease[l]);
    AddLeaseKeeps(s.ch, l, cfg.channelLimit);
    CheckoutSettles(s, c, deadlineMs, l, reused);
  }

  lemma CheckoutOwned(a: Channels, b: Channels, x: map<LeaseId, Lease>, y: map<LeaseId, Lease>)
    requires Owned(a, x) && b.ops == a.ops && x.Keys <= y.Keys && forall m :: m in x ==> y[m] == x[m]
    ensures Owned(b, y)
  {
  }

  lemma LinkedKeys(s: State)
    requires Linked(s)
    ensures WF(s.ch) && s.ch.leaseOps.Keys == s.lease.Keys && s.ch.limiters.Keys == s.conn.Keys
    ensures s.ch.connOps.Keys == s.conn.Keys
  {
  }

  lemma CheckoutSettles(s: State, c: ConnId, deadlineMs: int, l: LeaseId, reused: bool)
    requires Linked(s) && c in s.conn && l !in s.lease && SettledBut(s, {})
    ensures SettledBut(Checkout(s, c, deadlineMs, l, reused), {})
  {
    hide WF, EntryLinked;
    var r := Checkout(s, c, deadlineMs, l, reused);
    forall d | d in r.conn ensures SettledRow(d, r.conn[d], r.entry[r.conn[d].entry]) {
      assert SettledRow(d, s.conn[d], s.entry[s.conn[d].entry]);
    }
  }
}
