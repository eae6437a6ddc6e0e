/** Opens, installs, evicts and the calls that wait for them keep the pool's invariant. */
module ReadPoolOpenProofs {
  import opened Options
  import opened Channels
  import opened ChannelsProofs
  import opened ReadPool
  import opened ReadPoolInvariant
  import opened ReadPoolProofs

  // ---- entryFor ----

  lemma EntryForFresh(s: State, key: Key)
    requires Linked(s) && Named(s) && key !in s.entries
    ensures var g := s.generations + 1;
      g !in s.entry && EntryFor(s, key) == s.(generations := g, entries := s.entries[key := g], entry := s.entry[g := EmptyEntry(key, g)])
  {
    hide WF, EntryLinked;
  }

  lemma EntryForEntries(s: State, key: Key)
    requires Linked(s) && Named(s) && Entries(s) && Pendings(s) && Registry(s, {}) && key !in s.entries
    ensures var r := EntryFor(s, key);
      Entries(r) && Pendings(r) && Named(r) && Registry(r, {r.entries[key]})
  {
    hide WF, EntryLinked, EntryRow, PendingRow, EntryFor;
    EntryForFresh(s, key);
    EmptyRows(s.generations + 1, key, s);
  }

  lemma EmptyRows(g: nat, key: Key, s: State)
    ensures EntryRow(g, EmptyEntry(key, g), s.conn) && PendingRow(g, EmptyEntry(key, g), s.attempts)
  {
  }

  /** A step that leaves connections, opens, leases and channels alone. */
  lemma RestSame(cfg: Config, a: State, b: State)
    requires Linked(a) && Linked(b)
    requires b.conn == a.conn && b.attempts == a.attempts && b.lease == a.lease && b.ch == a.ch
    requires b.opens == a.opens && b.now == a.now
    requires forall e :: e in a.entry ==> e in b.entry && b.entry[e] == a.entry[e]
    ensures Attempts(a) ==> Attempts(b)
    ensures Conns(cfg, a) ==> Conns(cfg, b)
    ensures Leases(cfg, a) ==> Leases(cfg, b)
    ensures b.calls == a.calls && Calls(cfg, a) ==> Calls(cfg, b)
    ensures forall but :: SettledBut(a, but) ==> SettledBut(b, but)
  {
    hide WF, EntryLinked, AttemptRow, ConnRow, HeldRow, LeaseRow, CallRow, SettledRow;
  }

  lemma EntryForKeeps(cfg: Config, s: State, key: Key)
    requires PoolValid(cfg, s)
    ensures var r := EntryFor(s, key);
      && Base(cfg, r, {r.entries[key]}) && SettledBut(r, {})
      && r.entry[r.entries[key]].key == key
      && (Alive(r.entry[r.entries[key]]) ==> PoolValid(cfg, r))
      && r.conn == s.conn && r.attempts == s.attempts && r.lease == s.lease && r.now == s.now && r.calls == s.calls
  {
    hide Linked, Registry, Named, Entries, Attempts, Conns, Pendings, Leases, Calls, Owned, Valid, WF, SettledBut;
    if key in s.entries {
      RegistryWider(s, {}, {s.entries[key]});
      RegistryNames(s, key, {});
    } else {
      EntryForEntries(s, key);
      EntryForShape(s, key);
      RestSame(cfg, s, EntryFor(s, key));
    }
  }

  lemma EntryForShape(s: State, key: Key)
    requires Linked(s) && Named(s) && key !in s.entries
    ensures var r := EntryFor(s, key);
      && r == s.(generations := r.generations, entries := r.entries, entry := r.entry)
      && (forall e :: e in s.entry ==> e in r.entry && r.entry[e] == s.entry[e])
      && r.entries[key] in r.entry
      && r.entry[r.entries[key]].key == key && !Alive(r.entry[r.entries[key]])
  {
    hide WF, EntryLinked, EntryFor;
    EntryForFresh(s, key);
  }

  lemma RegistryWider(s: State, but: set<EntryId>, more: set<EntryId>)
    requires Linked(s) && Registry(s, but) && but <= more
    ensures Registry(s, more)
  {
    hide WF, EntryLinked;
  }

  lemma RegistryNames(s: State, key: Key, but: set<EntryId>)
    requires Linked(s) && Registry(s, but) && key in s.entries
    ensures s.entries[key] in s.entry && s.entry[s.entries[key]].key == key
  {
    hide WF, EntryLinked;
  }

  /** An exempt entry that is in use needs no exemption. */
  lemma RegistryAlive(s: State, e: EntryId)
    requires Linked(s) && Registry(s, {e}) && e in s.entry && Alive(s.entry[e])
    ensures Registry(s, {})
  {
    hide WF, EntryLinked;
  }

  // ---- startOpen ----

  /** Entries apart from what is pending in them. */
  ghost predicate EntriesAbout(a: map<EntryId, Entry>, b: map<EntryId, Entry>) {
    && b.Keys == a.Keys
    && forall e :: e in a ==> b[e] == a[e].(pending := b[e].pending, lastOpen := b[e].lastOpen)
  }

  lemma AboutEntries(a: State, b: State)
    requires Entries(a) && EntriesAbout(a.entry, b.entry) && b.conn == a.conn
    ensures Entries(b)
  {
    forall e | e in b.entry ensures EntryRow(e, b.entry[e], b.conn) {
      assert EntryRow(e, a.entry[e], a.conn);
    }
  }

  lemma AboutConns(cfg: Config, a: State, b: State)
    requires Linked(a) && Linked(b) && Conns(cfg, a) && EntriesAbout(a.entry, b.entry)
    requires b.conn == a.conn && b.ch == a.ch && b.lease == a.lease && b.now == a.now
    requires forall c :: c in a.conn ==> SameOpen(a.attempts[c], b.attempts[c])
    ensures Conns(cfg, b)
  {
    hide WF, EntryLinked, ConnRow, HeldRow, SameOpen;
    forall c | c in b.conn
      ensures ConnRow(cfg, c, b.conn[c], b.attempts[c], b.entry[b.conn[c].entry], b.ch.connOps[c], b.now)
    {
      ConnRowFrame(cfg, c, a.conn[c], a.attempts[c], b.attempts[c], a.entry[a.conn[c].entry], b.entry[a.conn[c].entry],
                   a.ch.connOps[c], a.ch.connOps[c], a.now, a.now);
    }
  }

  lemma AboutSettled(a: State, b: State, but: set<ConnId>)
    requires Linked(a) && Linked(b) && SettledBut(a, but) && EntriesAbout(a.entry, b.entry) && b.conn == a.conn
    ensures SettledBut(b, but)
  {
    hide WF, EntryLinked;
    forall c | c in b.conn && c !in but ensures SettledRow(c, b.conn[c], b.entry[b.conn[c].entry]) {
      assert SettledRow(c, a.conn[c], a.entry[a.conn[c].entry]);
    }
  }

  lemma AboutLeases(cfg: Config, a: State, b: State)
    requires Linked(a) && Linked(b) && Leases(cfg, a)
    requires b.conn == a.conn && b.lease == a.lease && b.ch == a.ch && b.now == a.now
    ensures Leases(cfg, b)
  {
    hide WF, EntryLinked, LeaseRow;
  }

  lemma StartShape(s: State, key: Key, e: EntryId, identity: Identity)
    requires Linked(s) && e in s.entry && s.opens + 1 !in s.attempts
    ensures var r := StartOpen(s, key, e, identity);
      && EntriesAbout(s.entry, r.entry)
      && r == s.(opens := s.opens + 1, attempts := r.attempts, entry := r.entry)
      && (forall o :: o in s.attempts ==> o in r.attempts && r.attempts[o] == s.attempts[o])
  {
    hide Linked;
  }

  lemma OpensFresh(s: State)
    requires Linked(s) && Attempts(s)
    ensures s.opens + 1 !in s.attempts && s.opens + 1 !in s.conn
  {
    hide WF, EntryLinked;
    assert forall o :: o in s.attempts ==> AttemptRow(o, s.attempts[o], s.entry[s.attempts[o].entry], s.conn, s.opens);
  }

  lemma StartAttempts(s: State, key: Key, e: EntryId, identity: Identity)
    requires Linked(s) && e in s.entry && Attempts(s) && s.entry[e].key == key
    ensures Attempts(StartOpen(s, key, e, identity))
  {
    hide WF, EntryLinked;
    OpensFresh(s);
    var r := StartOpen(s, key, e, identity);
    forall o | o in r.attempts ensures AttemptRow(o, r.attempts[o], r.entry[r.attempts[o].entry], r.conn, r.opens) {
      if o in s.attempts {
        assert AttemptRow(o, s.attempts[o], s.entry[s.attempts[o].entry], s.conn, s.opens);
      }
    }
  }

  lemma StartPendings(s: State, key: Key, e: EntryId, identity: Identity)
    requires Linked(s) && e in s.entry && Attempts(s) && Pendings(s)
    ensures Pendings(StartOpen(s, key, e, identity))
  {
    hide WF, EntryLinked, AttemptRow;
    OpensFresh(s);
    var r := StartOpen(s, key, e, identity);
    forall d | d in r.entry ensures PendingRow(d, r.entry[d], r.attempts) {
      if d != e { assert PendingRow(d, s.entry[d], s.attempts); }
    }
  }

  lemma StartRegistry(s: State, key: Key, e: EntryId, identity: Identity)
    requires Linked(s) && e in s.entry && Registry(s, {e}) && Named(s)
    ensures var r := StartOpen(s, key, e, identity); Registry(r, {}) && Named(r)
  {
    hide WF, EntryLinked;
  }

  lemma StartOpenKeeps(cfg: Config, s: State, key: Key, e: EntryId, identity: Identity)
    requires Base(cfg, s, {e}) && SettledBut(s, {}) && e in s.entry && s.entry[e].key == key
    ensures PoolValid(cfg, StartOpen(s, key, e, identity))
  {
    hide Linked, Registry, Named, Entries, Attempts, Conns, Pendings, Leases, Calls, Owned, Valid, WF, SettledBut;
    hide EntriesAbout;
    var r := StartOpen(s, key, e, identity);
    OpensFresh(s);
    StartShape(s, key, e, identity);
    AboutEntries(s, r);
    StartAttempts(s, key, e, identity);
    StartPendings(s, key, e, identity);
    StartRegistry(s, key, e, identity);
    LinkedAttempts(s);
    AboutConns(cfg, s, r);
    AboutLeases(cfg, s, r);
    CallsFrame(cfg, s, r);
    AboutSettled(s, r, {});
  }

  lemma LinkedAttempts(s: State)
    requires Linked(s)
    ensures s.conn.Keys <= s.attempts.Keys
  {
  }

  // ---- giveUp ----

  lemma RefuseAttempts(s: State, o: OpenId, r: State)
    requires Linked(s) && Linked(r) && Attempts(s) && o in s.attempts && s.attempts[o].phase == Opening
    requires r.attempts == s.attempts[o := s.attempts[o].(phase := GaveUp, disposals := s.attempts[o].disposals + [Destroy])]
    requires EntriesAbout(s.entry, r.entry) && r.conn == s.conn && r.opens == s.opens
    requires forall e :: e in s.entry ==> r.entry[e].lastOpen == s.entry[e].lastOpen
    ensures Attempts(r)
  {
    hide WF, EntryLinked;
    forall p | p in r.attempts ensures AttemptRow(p, r.attempts[p], r.entry[r.attempts[p].entry], r.conn, r.opens) {
      assert AttemptRow(p, s.attempts[p], s.entry[s.attempts[p].entry], s.conn, s.opens);
    }
  }

  /** The refused open leaves the entry as its pending open if it was the latest. */
  lemma RefusePendings(s: State, o: OpenId, r: State)
    requires Linked(s) && Pendings(s) && o in s.attempts && s.attempts[o].phase == Opening
    requires o in r.attempts && r.attempts[o].phase != Opening
    requires r.attempts == s.attempts[o := s.attempts[o].(phase := r.attempts[o].phase, disposals := r.attempts[o].disposals)]
    requires var e := s.attempts[o].entry; var entry := s.entry[e];
      r.entry == if IsPending(entry, o) then s.entry[e := entry.(pending := None)] else s.entry
    ensures Pendings(r)
  {
    hide WF, EntryLinked;
    forall d | d in r.entry ensures PendingRow(d, r.entry[d], r.attempts) {
      assert PendingRow(d, s.entry[d], s.attempts);
    }
  }

  lemma RefuseShape(s: State, o: OpenId)
    requires Linked(s) && o in s.attempts && s.attempts[o].entry in s.entry
    ensures var r := Refuse(s, o); var e := s.attempts[o].entry; var entry := s.entry[e];
      && EntriesAbout(s.entry, r.entry)
      && (forall d :: d in s.entry ==> r.entry[d].lastOpen == s.entry[d].lastOpen)
      && r == s.(attempts := r.attempts, entry := r.entry)
      && (forall p :: p in s.attempts && p != o ==> r.attempts[p] == s.attempts[p])
      && GiveUpOpen(s, o) == if IsPending(entry, o) then Prune(r, s.attempts[o].key, e) else r
  {
    hide Linked;
  }

  lemma RefuseRegistry(s: State, o: OpenId)
    requires Linked(s) && o in s.attempts && Registry(s, {}) && Named(s)
    ensures var r := Refuse(s, o); Registry(r, {s.attempts[o].entry}) && Named(r)
    ensures var entry := s.entry[s.attempts[o].entry];
      !IsPending(entry, o) ==> Registry(Refuse(s, o), {})
  {
    hide WF, EntryLinked;
  }

  lemma LinkedAttempt(s: State, o: OpenId)
    requires Linked(s) && o in s.attempts
    ensures s.attempts[o].entry in s.entry
  {
  }

  lemma OpeningNotIn(s: State, o: OpenId)
    requires Linked(s) && Attempts(s) && o in s.attempts && s.attempts[o].phase == Opening
    ensures o !in s.conn && s.attempts[o].key == s.entry[s.attempts[o].entry].key
  {
    hide WF, EntryLinked;
    assert AttemptRow(o, s.attempts[o], s.entry[s.attempts[o].entry], s.conn, s.opens);
  }

  lemma RefuseKeeps(cfg: Config, s: State, o: OpenId)
    requires PoolValid(cfg, s) && o in s.attempts && s.attempts[o].phase == Opening
    ensures var r := Refuse(s, o); Base(cfg, r, {s.attempts[o].entry}) && SettledBut(r, {})
  {
    hide Linked, Registry, Named, Entries, Attempts, Conns, Pendings, Leases, Calls, Owned, Valid, WF, SettledBut;
    hide EntriesAbout, Refuse;
    var r := Refuse(s, o);
    LinkedAttempt(s, o);
    OpeningNotIn(s, o);
    RefuseShape(s, o);
    RefusedRow(s, o);
    AboutEntries(s, r);
    RefuseAttempts(s, o, r);
    RefusePendings(s, o, r);
    RefuseRegistry(s, o);
    LinkedAttempts(s);
    AboutConns(cfg, s, r);
    AboutLeases(cfg, s, r);
    CallsFrame(cfg, s, r);
    AboutSettled(s, r, {});
  }

  lemma RefusedRow(s: State, o: OpenId)
    requires Linked(s) && o in s.attempts && s.attempts[o].entry in s.entry
    ensures var r := Refuse(s, o); var e := s.attempts[o].entry; var entry := s.entry[e];
      && r.attempts == s.attempts[o := s.attempts[o].(phase := GaveUp, disposals := s.attempts[o].disposals + [Destroy])]
      && r.entry == if IsPending(entry, o) then s.entry[e := entry.(pending := None)] else s.entry
  {
    hide Linked;
  }

  lemma GiveUpOpenKeeps(cfg: Config, s: State, o: OpenId)
    requires PoolValid(cfg, s) && o in s.attempts && s.attempts[o].phase == Opening
    ensures PoolValid(cfg, GiveUpOpen(s, o))
  {
    hide Linked, Registry, Named, Entries, Attempts, Conns, Pendings, Leases, Calls, Owned, Valid, WF, SettledBut;
    hide EntriesAbout, Refuse, GiveUpOpen, Prune;
    LinkedAttempt(s, o);
    OpeningNotIn(s, o);
    RefuseShape(s, o);
    RefuseKeeps(cfg, s, o);
    RefuseRegistry(s, o);
    var r := Refuse(s, o);
    var e := s.attempts[o].entry;
    RefusedEntryKey(s, o);
    PruneKeeps(cfg, r, s.attempts[o].key, e);
    PruneSettles(r, s.attempts[o].key, e);
  }

  lemma RefusedEntryKey(s: State, o: OpenId)
    requires Linked(s) && o in s.attempts && s.attempts[o].entry in s.entry
    ensures var e := s.attempts[o].entry; e in Refuse(s, o).entry && Refuse(s, o).entry[e].key == s.entry[e].key
  {
    hide Linked;
  }

  lemma PruneSettles(s: State, key: Key, e: EntryId)
    requires Linked(s) && e in s.entry && SettledBut(s, {})
    ensures SettledBut(Prune(s, key, e), {})
  {
    hide WF, EntryLinked, SettledRow;
  }

  // ---- install ----

  lemma PutInShape(cfg: Config, s: State, o: OpenId)
    requires Linked(s) && o in s.attempts && o !in s.conn && s.attempts[o].entry in s.entry && WF(s.ch)
    ensures var r := PutIn(cfg, s, o); var e := s.attempts[o].entry; var entry := s.entry[e]; var a := s.attempts[o];
      && r == s.(attempts := r.attempts, conn := r.conn, entry := r.entry, ch := AddConnection(s.ch, o))
      && r.attempts == s.attempts[o := a.(phase := Landed)]
      && r.conn == s.conn[o := Connection(a.key, e, a.identity, s.now, {}, false, false, None, Some(s.now + cfg.hardAgeMs))]
      && r.entry == s.entry[e := entry.(pending := None, installed := Some(o), connections := entry.connections + {o})]
  {
    hide Linked, WF, AddConnection;
  }

  lemma PutInEntries(cfg: Config, s: State, o: OpenId)
    requires Linked(s) && o in s.attempts && o !in s.conn && Entries(s)
    ensures Entries(PutIn(cfg, s, o))
  {
    hide WF, EntryLinked, EntryRow;
    var r := PutIn(cfg, s, o);
    forall e | e in r.entry ensures EntryRow(e, r.entry[e], r.conn) {
      EntryRowGains(e, s.entry[e], s.conn, o, r.conn[o]);
    }
  }

  lemma EntryRowGains(e: EntryId, entry: Entry, conn: map<ConnId, Connection>, o: ConnId, connection: Connection)
    requires EntryRow(e, entry, conn) && o !in conn && !connection.closed && !connection.retired
    ensures EntryRow(e, entry, conn[o := connection])
    ensures connection.entry == e ==>
      EntryRow(e, entry.(pending := None, installed := Some(o), connections := entry.connections + {o}), conn[o := connection])
  {
  }

  lemma PutInAttempts(cfg: Config, s: State, o: OpenId)
    requires Linked(s) && o in s.attempts && s.attempts[o].phase == Opening && o !in s.conn && Attempts(s)
    ensures Attempts(PutIn(cfg, s, o))
  {
    hide WF, EntryLinked;
    var r := PutIn(cfg, s, o);
    forall p | p in r.attempts ensures AttemptRow(p, r.attempts[p], r.entry[r.attempts[p].entry], r.conn, r.opens) {
      assert AttemptRow(p, s.attempts[p], s.entry[s.attempts[p].entry], s.conn, s.opens);
    }
  }

  lemma PutInPendings(cfg: Config, s: State, o: OpenId)
    requires Linked(s) && o in s.attempts && o !in s.conn && Current(s, o) && Pendings(s)
    ensures Pendings(PutIn(cfg, s, o))
  {
    hide WF, EntryLinked;
    var r := PutIn(cfg, s, o);
    forall d | d in r.entry ensures PendingRow(d, r.entry[d], r.attempts) {
      assert PendingRow(d, s.entry[d], s.attempts);
    }
  }

  lemma NewConnRow(cfg: Config, o: OpenId, connection: Connection, attempt: Attempt, entry: Entry, now: int)
    requires connection == Connection(attempt.key, attempt.entry, attempt.identity, now, {}, false, false, None,
                                      Some(now + cfg.hardAgeMs))
    requires o in entry.connections
    ensures ConnRow(cfg, o, connection, attempt, entry, {}, now) && forall lease :: HeldRow(o, connection, lease)
  {
  }

  lemma PutInConns(cfg: Config, s: State, o: OpenId, r: State)
    requires Linked(s) && o in s.attempts && o !in s.conn && Conns(cfg, s) && Linked(r) && r == PutIn(cfg, s, o)
    ensures Conns(cfg, r)
  {
    hide WF, EntryLinked, ConnRow, HeldRow;
    forall c | c in r.conn
      ensures ConnRow(cfg, c, r.conn[c], r.attempts[c], r.entry[r.conn[c].entry], r.ch.connOps[c], r.now)
      ensures HeldRow(c, r.conn[c], r.lease)
    {
      if c == o {
        NewConnRow(cfg, o, r.conn[o], r.attempts[o], r.entry[r.conn[o].entry], s.now);
      } else {
        ConnRowFrame(cfg, c, s.conn[c], s.attempts[c], r.attempts[c], s.entry[s.conn[c].entry], r.entry[s.conn[c].entry],
                     s.ch.connOps[c], r.ch.connOps[c], s.now, s.now);
      }
    }
  }

  lemma PutInLeases(cfg: Config, s: State, o: OpenId, r: State)
    requires Linked(s) && o in s.attempts && o !in s.conn && Leases(cfg, s) && Linked(r) && r == PutIn(cfg, s, o)
    ensures Leases(cfg, r)
  {
    hide WF, EntryLinked, LeaseRow;
  }

  lemma PutInRegistry(cfg: Config, s: State, o: OpenId)
    requires Linked(s) && o in s.attempts && o !in s.conn && Registry(s, {}) && Named(s)
    ensures var r := PutIn(cfg, s, o); Registry(r, {}) && Named(r)
  {
    hide WF, EntryLinked;
  }

  function InstalledBefore(s: State, o: OpenId): set<ConnId>
    requires o in s.attempts && s.attempts[o].entry in s.entry
  {
    match s.entry[s.attempts[o].entry].installed
    case None => {}
    case Some(c) => {c}
  }

  lemma PutInSettles(cfg: Config, s: State, o: OpenId)
    requires Linked(s) && o in s.attempts && o !in s.conn && SettledBut(s, {})
    ensures SettledBut(PutIn(cfg, s, o), InstalledBefore(s, o))
  {
    hide WF, EntryLinked;
    var r := PutIn(cfg, s, o);
    forall c | c in r.conn && c !in InstalledBefore(s, o) ensures SettledRow(c, r.conn[c], r.entry[r.conn[c].entry]) {
      if c != o { assert SettledRow(c, s.conn[c], s.entry[s.conn[c].entry]); }
    }
  }

  lemma PutInKeeps(cfg: Config, s: State, o: OpenId)
    requires PoolValid(cfg, s) && o in s.attempts && s.attempts[o].phase == Opening && o !in s.conn
    requires s.attempts[o].entry in s.entry && Current(s, o)
    ensures var r := PutIn(cfg, s, o); Base(cfg, r, {}) && SettledBut(r, InstalledBefore(s, o))
  {
    hide Linked, Registry, Named, Entries, Attempts, Conns, Pendings, Leases, Calls, Owned, Valid, WF, SettledBut,
      PutIn;
    LinkedKeys(s);
    PutInShape(cfg, s, o);
    var r := PutIn(cfg, s, o);
    PutInEntries(cfg, s, o);
    PutInAttempts(cfg, s, o);
    PutInPendings(cfg, s, o);
    PutInConns(cfg, s, o, r);
    PutInLeases(cfg, s, o, r);
    PutInRegistry(cfg, s, o);
    CallsFrame(cfg, s, r);
    CheckoutOwned(s.ch, r.ch, s.lease, r.lease);
    AddConnectionKeeps(s.ch, o, cfg.channelLimit);
    PutInSettles(cfg, s, o);
  }

  lemma InstallKeeps(cfg: Config, s: State, o: OpenId)
    requires PoolValid(cfg, s) && o in s.attempts && s.attempts[o].phase == Opening && o !in s.conn
    requires s.attempts[o].entry in s.entry && Current(s, o)
    ensures PoolValid(cfg, Install(cfg, s, o))
  {
    hide Base, Linked, SettledBut, PutIn, ShutDown, AfterLastLease, SameIdentity;
    BaseLinks(cfg, s, {});
    PutInKeeps(cfg, s, o);
    var previous := s.entry[s.attempts[o].entry].installed;
    if previous.Some? {
      var c := previous.value;
      var next := PutIn(cfg, s, o);
      PreviousIdle(cfg, s, o, c);
      assert {c} - {c} == {};
      ShutDownKeeps(cfg, next, c, Destroy);
      ShutDownSettles(next, c, Destroy, {c});
      AfterLastLeaseKeeps(cfg, next, c);
    }
  }

  lemma PreviousIdle(cfg: Config, s: State, o: OpenId, c: ConnId)
    requires Linked(s) && SettledBut(s, {}) && o in s.attempts && o !in s.conn && s.attempts[o].entry in s.entry
    requires s.entry[s.attempts[o].entry].installed == Some(c)
    ensures c in s.conn
    ensures var r := PutIn(cfg, s, o);
      c in r.conn && (r.conn[c].leases != {} && !r.conn[c].closed ==> r.conn[c].idleTimer == None)
  {
    hide WF;
    assert EntryLinked(s.entry[s.attempts[o].entry], s.conn);
    assert SettledRow(c, s.conn[c], s.entry[s.conn[c].entry]);
  }

  lemma FinishOpenKeeps(cfg: Config, s: State, o: OpenId, ok: bool)
    requires PoolValid(cfg, s) && o in s.attempts && s.attempts[o].phase == Opening && o !in s.conn
    ensures PoolValid(cfg, FinishOpen(cfg, s, o, ok))
  {
    hide PoolValid, Linked, Install, GiveUpOpen, Current;
    PoolLinks(cfg, s);
    LinkedAttempt(s, o);
    if ok && Current(s, o) && s.attempts[o].ready {
      InstallKeeps(cfg, s, o);
    } else {
      GiveUpOpenKeeps(cfg, s, o);
    }
  }

  lemma PoolLinks(cfg: Config, s: State)
    requires PoolValid(cfg, s)
    ensures Linked(s)
  {
  }

  // ---- lease ----

  lemma CallsPlus(cfg: Config, s: State, k: CallId, call: Call)
    requires Calls(cfg, s) && CallRow(cfg, call, s.attempts, s.lease)
    ensures Calls(cfg, s.(calls := s.calls[k := call]))
  {
    hide CallRow;
  }

  lemma WithCallKeeps(cfg: Config, s: State, k: CallId, call: Call)
    requires PoolValid(cfg, s) && CallRow(cfg, call, s.attempts, s.lease)
    ensures PoolValid(cfg, s.(calls := s.calls[k := call]))
  {
    hide Linked, Registry, Named, Entries, Attempts, Conns, Pendings, Leases, Calls, Owned, Valid, WF, SettledBut,
      CallRow;
    var r := s.(calls := s.calls[k := call]);
    CallsPlus(cfg, s, k, call);
    WithCallLinks(s, r);
    EntriesSame(s, r, {});
    ConnsAlikeSelf(s.conn);
    EntriesAlike(s, r);
    AttemptsAlike(s, r);
    PendingsFrame(s, r);
    RestSame(cfg, s, r);
  }

  lemma ConnsAlikeSelf(conn: map<ConnId, Connection>)
    ensures ConnsAlike(conn, conn)
  {
  }

  lemma WithCallLinks(a: State, b: State)
    requires Linked(a) && b == a.(calls := b.calls)
    ensures Linked(b) && SamePendings(a, b)
  {
    hide WF, EntryLinked;
  }

  lemma JoinedCall(cfg: Config, s: State, key: Key, e: EntryId, identity: Identity, deadlineMs: int)
    requires Linked(s) && Pendings(s) && Attempts(s) && e in s.entry && s.entry[e].key == key
    requires Joinable(s, e, identity)
    requires DeadlineFits(cfg, deadlineMs)
    ensures CallRow(cfg, Call(key, identity, deadlineMs, Awaits(s.entry[e].pending.value.id)), s.attempts, s.lease)
  {
    hide WF, EntryLinked;
    assert PendingRow(e, s.entry[e], s.attempts);
    var o := s.entry[e].lastOpen;
    assert o in s.attempts ==> AttemptRow(o, s.attempts[o], s.entry[s.attempts[o].entry], s.conn, s.opens);
  }

  lemma JoinableAlive(cfg: Config, s: State, e: EntryId, identity: Identity)
    requires Base(cfg, s, {e}) && SettledBut(s, {}) && e in s.entry && Joinable(s, e, identity)
    ensures PoolValid(cfg, s)
  {
    hide Linked, Registry, Named, Entries, Attempts, Conns, Pendings, Leases, Calls, Owned, Valid, WF, SettledBut;
    RegistryAlive(s, e);
  }

  lemma StartedCall(s: State, key: Key, e: EntryId, identity: Identity)
    requires Linked(s) && e in s.entry
    ensures var r := StartOpen(s, key, e, identity);
      r.attempts[r.opens].identity == identity && r.attempts[r.opens].key == key && r.calls == s.calls
  {
    hide Linked;
  }

  lemma AwaitKeeps(cfg: Config, s: State, k: CallId, key: Key, e: EntryId, identity: Identity, deadlineMs: int)
    requires Base(cfg, s, {e}) && SettledBut(s, {}) && e in s.entry && s.entry[e].key == key
    requires DeadlineFits(cfg, deadlineMs)
    ensures PoolValid(cfg, Await(s, k, key, e, identity, deadlineMs))
  {
    hide Linked, Registry, Named, Entries, Attempts, Conns, Pendings, Leases, Calls, Owned, Valid, WF, SettledBut;
    hide StartOpen, PoolValid, SameIdentity;
    if Joinable(s, e, identity) {
      JoinableAlive(cfg, s, e, identity);
      JoinedCall(cfg, s, key, e, identity, deadlineMs);
      WithCallKeeps(cfg, s, k, Call(key, identity, deadlineMs, Awaits(s.entry[e].pending.value.id)));
    } else {
      StartOpenKeeps(cfg, s, key, e, identity);
      StartedCall(s, key, e, identity);
      var r := StartOpen(s, key, e, identity);
      WithCallKeeps(cfg, r, k, Call(key, identity, deadlineMs, Awaits(r.opens)));
    }
  }

  lemma InstalledAlive(cfg: Config, s: State, e: EntryId)
    requires Base(cfg, s, {e}) && SettledBut(s, {}) && e in s.entry && s.entry[e].installed.Some?
    ensures PoolValid(cfg, s)
    ensures var c := s.entry[e].installed.value; c in s.conn && c in s.attempts && !s.conn[c].closed && s.conn[c].readyAt <= s.now
    ensures !s.conn[s.entry[e].installed.value].retired && s.conn[s.entry[e].installed.value].entry == e
  {
    hide Registry, Named, Attempts, Pendings, Leases, Calls, Owned, Valid, WF, SettledBut, EntryLinked;
    assert EntryRow(e, s.entry[e], s.conn);
    var c := s.entry[e].installed.value;
    assert ConnRow(cfg, c, s.conn[c], s.attempts[c], s.entry[s.conn[c].entry], s.ch.connOps[c], s.now);
    RegistryAlive(s, e);
  }

  lemma ShutDownEntryKey(s: State, c: ConnId, how: How, e: EntryId)
    requires Linked(s) && c in s.conn && e in s.entry
    ensures var r := ShutDown(s, c, how); e in r.entry && r.entry[e].key == s.entry[e].key
  {
    hide WF, EntryLinked, AbandonConnection;
  }

  lemma LeaseRoundKeeps(cfg: Config, s: State, k: CallId, key: Key, identity: Identity, deadlineMs: int, l: LeaseId)
    requires PoolValid(cfg, s) && l !in s.lease && DeadlineFits(cfg, deadlineMs)
    ensures PoolValid(cfg, LeaseRound(cfg, s, k, key, identity, deadlineMs, l))
  {
    hide Base, Linked, SettledBut, EntryFor, ShutDown, Await, Checkout, Usable, DeadlineFits;
    PoolLinks(cfg, s);
    EntryForKeeps(cfg, s, key);
    var found := EntryFor(s, key);
    var e := found.entries[key];
    EntryForIn(s, key);
    var installed := found.entry[e].installed;
    if installed.Some? {
      InstalledAlive(cfg, found, e);
      if !Usable(found, installed.value, identity) {
        UnusableRound(cfg, found, k, key, e, identity, deadlineMs);
      } else if found.conn[installed.value].readyAt + cfg.hardAgeMs >= found.now + deadlineMs {
        ReuseRound(cfg, found, k, key, e, identity, deadlineMs, l);
      } else {
        AwaitKeeps(cfg, found, k, key, e, identity, deadlineMs);
      }
    } else {
      AwaitKeeps(cfg, found, k, key, e, identity, deadlineMs);
    }
  }

  lemma EntryForIn(s: State, key: Key)
    requires Linked(s)
    ensures var r := EntryFor(s, key); r.entries[key] in r.entry
  {
    hide WF, EntryLinked;
  }

  /** The installed connection will not do: it is shut down, and its entry, which that may have
      taken out of the map, opens another. */
  lemma UnusableRound(cfg: Config, s: State, k: CallId, key: Key, e: EntryId, identity: Identity, deadlineMs: int)
    requires PoolValid(cfg, s) && e in s.entry && s.entry[e].key == key && DeadlineFits(cfg, deadlineMs)
    requires s.entry[e].installed.Some? && s.entry[e].installed.value in s.conn && Linked(s)
    ensures PoolValid(cfg, Await(ShutDown(s, s.entry[e].installed.value, Destroy), k, key, e, identity, deadlineMs))
  {
    hide Linked, SettledBut, ShutDown, Await, DeadlineFits, Registry, Named, Entries, Attempts, Conns, Pendings,
      Leases, Calls, Owned, Valid;
    var c := s.entry[e].installed.value;
    ShutDownKeeps(cfg, s, c, Destroy);
    ShutDownSettles(s, c, Destroy, {});
    assert {} - {c} == {};
    ShutDownEntryKey(s, c, Destroy, e);
    var r := ShutDown(s, c, Destroy);
    RegistryWider(r, {}, {e});
    AwaitKeeps(cfg, r, k, key, e, identity, deadlineMs);
  }

  lemma ReuseRound(cfg: Config, s: State, k: CallId, key: Key, e: EntryId, identity: Identity, deadlineMs: int, l: LeaseId)
    requires PoolValid(cfg, s) && e in s.entry && l !in s.lease && Linked(s)
    requires s.entry[e].installed.Some? && MayCheckOut(cfg, s, s.entry[e].installed.value, deadlineMs, true)
    ensures var r := Checkout(s, s.entry[e].installed.value, deadlineMs, l, true);
      PoolValid(cfg, r.(calls := s.calls[k := Call(key, identity, deadlineMs, Given(l))]))
  {
    hide PoolValid, Linked, Checkout;
    var c := s.entry[e].installed.value;
    var r := Checkout(s, c, deadlineMs, l, true);
    CheckoutKeeps(cfg, s, c, deadlineMs, l, true);
    CheckoutCalls(s, c, deadlineMs, l, true);
    WithCallKeeps(cfg, r, k, Call(key, identity, deadlineMs, Given(l)));
  }

  lemma CheckoutCalls(s: State, c: ConnId, deadlineMs: int, l: LeaseId, reused: bool)
    requires Linked(s) && c in s.conn && l !in s.lease
    ensures var r := Checkout(s, c, deadlineMs, l, reused); r.calls == s.calls && l in r.lease
  {
    hide WF, EntryLinked;
  }

  lemma ResumeKeeps(cfg: Config, s: State, k: CallId, l: LeaseId)
    requires PoolValid(cfg, s) && l !in s.lease && k in s.calls && s.calls[k].status.Awaits?
    requires Linked(s) && s.calls[k].status.open in s.attempts
    ensures PoolValid(cfg, Resume(cfg, s, k, l))
  {
    hide PoolValid, Linked, Checkout, LeaseRound;
    var call := s.calls[k];
    var o := call.status.open;
    CallFits(cfg, s, k);
    if o !in s.conn {
      WithCallKeeps(cfg, s, k, call.(status := Rejected));
    } else if Usable(s, o, call.identity) {
      ReadyBefore(cfg, s, o);
      CheckoutKeeps(cfg, s, o, call.deadlineMs, l, false);
      CheckoutCalls(s, o, call.deadlineMs, l, false);
      WithCallKeeps(cfg, Checkout(s, o, call.deadlineMs, l, false), k, call.(status := Given(l)));
    } else {
      LeaseRoundKeeps(cfg, s, k, call.key, call.identity, call.deadlineMs, l);
    }
  }

  lemma CallFits(cfg: Config, s: State, k: CallId)
    requires PoolValid(cfg, s) && k in s.calls
    ensures DeadlineFits(cfg, s.calls[k].deadlineMs)
  {
    hide Linked, Registry, Named, Entries, Attempts, Conns, Pendings, Leases, Owned, Valid, SettledBut;
  }

  lemma ReadyBefore(cfg: Config, s: State, c: ConnId)
    requires PoolValid(cfg, s) && c in s.conn
    ensures s.conn[c].readyAt <= s.now
  {
    hide Registry, Named, Entries, Attempts, Pendings, Leases, Calls, Owned, Valid, SettledBut, WF, EntryLinked;
    assert ConnRow(cfg, c, s.conn[c], s.attempts[c], s.entry[s.conn[c].entry], s.ch.connOps[c], s.now);
  }

  // ---- evict ----

  lemma ShutDownAllKeeps(cfg: Config, s: State, ids: set<ConnId>)
    requires PoolValid(cfg, s) && Linked(s) && ids <= s.conn.Keys
    ensures PoolValid(cfg, ShutDownAll(s, ids))
    decreases ids
  {
    hide Base, Linked, SettledBut, ShutDown;
    if ids != {} {
      var c := Least(ids);
      ShutDownKeeps(cfg, s, c, Destroy);
      ShutDownSettles(s, c, Destroy, {});
      assert {} - {c} == {};
      ShutDownAllKeeps(cfg, ShutDown(s, c, Destroy), ids - {c});
    }
  }

  /** `evict` gives the entry a generation no open has seen. */
  ghost function Bump(s: State, e: EntryId): (r: State)
    requires Linked(s) && e in s.entry
    ensures Linked(r) && r.conn == s.conn
  {
    hide WF;
    var g := s.generations + 1;
    s.(generations := g, entry := s.entry[e := s.entry[e].(generation := g, evictions := s.entry[e].evictions + 1)])
  }

  lemma BumpAttempts(s: State, e: EntryId)
    requires Linked(s) && e in s.entry && Attempts(s) && Named(s)
    ensures Attempts(Bump(s, e)) && Named(Bump(s, e))
  {
    hide WF, EntryLinked;
    var r := Bump(s, e);
    forall o | o in r.attempts ensures AttemptRow(o, r.attempts[o], r.entry[r.attempts[o].entry], r.conn, r.opens) {
      assert AttemptRow(o, s.attempts[o], s.entry[s.attempts[o].entry], s.conn, s.opens);
    }
  }

  lemma BumpEntries(s: State, e: EntryId)
    requires Linked(s) && e in s.entry
    ensures Entries(s) ==> Entries(Bump(s, e))
    ensures Registry(s, {}) ==> Registry(Bump(s, e), {})
    ensures SettledBut(s, {}) ==> SettledBut(Bump(s, e), {})
  {
    hide WF, EntryLinked;
    var r := Bump(s, e);
    if Entries(s) {
      forall d | d in r.entry ensures EntryRow(d, r.entry[d], r.conn) {
        assert EntryRow(d, s.entry[d], s.conn);
      }
    }
    if SettledBut(s, {}) {
      forall c | c in r.conn ensures SettledRow(c, r.conn[c], r.entry[r.conn[c].entry]) {
        assert SettledRow(c, s.conn[c], s.entry[s.conn[c].entry]);
      }
    }
  }

  lemma BumpConns(cfg: Config, s: State, e: EntryId)
    requires Linked(s) && e in s.entry && Conns(cfg, s)
    ensures Conns(cfg, Bump(s, e))
  {
    hide WF, EntryLinked, ConnRow, HeldRow;
    var r := Bump(s, e);
    forall c | c in r.conn
      ensures ConnRow(cfg, c, r.conn[c], r.attempts[c], r.entry[r.conn[c].entry], r.ch.connOps[c], r.now)
    {
      ConnRowFrame(cfg, c, s.conn[c], s.attempts[c], s.attempts[c], s.entry[s.conn[c].entry], r.entry[s.conn[c].entry],
                   s.ch.connOps[c], s.ch.connOps[c], s.now, s.now);
    }
  }

  lemma BumpShape(s: State, e: EntryId)
    requires Linked(s) && e in s.entry
    ensures var r := Bump(s, e);
      SamePendings(s, r) && r == s.(generations := r.generations, entry := r.entry) && r.entry[e].key == s.entry[e].key
  {
    hide Linked;
  }

  lemma BumpKeeps(cfg: Config, s: State, e: EntryId)
    requires PoolValid(cfg, s) && e in s.entry
    ensures PoolValid(cfg, Bump(s, e))
  {
    hide Linked, Registry, Named, Entries, Attempts, Conns, Pendings, Leases, Calls, Owned, Valid, WF, SettledBut, Bump;
    var r := Bump(s, e);
    BumpShape(s, e);
    BumpAttempts(s, e);
    BumpEntries(s, e);
    BumpConns(cfg, s, e);
    PendingsFrame(s, r);
    AboutLeases(cfg, s, r);
    CallsFrame(cfg, s, r);
  }

  lemma PruneKeepsAll(cfg: Config, s: State, key: Key, e: EntryId)
    requires PoolValid(cfg, s) && e in s.entry && s.entry[e].key == key
    ensures PoolValid(cfg, Prune(s, key, e))
  {
    hide Linked, Registry, Named, Entries, Attempts, Conns, Pendings, Leases, Calls, Owned, Valid, WF, SettledBut,
      Prune;
    RegistryWider(s, {}, {e});
    PruneKeeps(cfg, s, key, e);
    PruneSettles(s, key, e);
  }

  lemma ShutDownAllKey(s: State, ids: set<ConnId>, e: EntryId)
    requires Linked(s) && ids <= s.conn.Keys && e in s.entry
    ensures var r := ShutDownAll(s, ids); e in r.entry && r.entry[e].key == s.entry[e].key
    decreases ids
  {
    hide Linked, ShutDown;
    if ids != {} {
      var c := Least(ids);
      ShutDownEntryKey(s, c, Destroy, e);
      ShutDownAllKey(ShutDown(s, c, Destroy), ids - {c}, e);
    }
  }

  lemma EvictShape(s: State, key: Key)
    requires Linked(s) && key in s.entries
    ensures var e := s.entries[key]; var bumped := Bump(s, e);
      && s.entry[e].connections <= bumped.conn.Keys
      && Evict(s, key) == Prune(ShutDownAll(bumped, s.entry[e].connections), key, e)
  {
    hide WF, ShutDownAll, Prune;
    assert EntryLinked(s.entry[s.entries[key]], s.conn);
  }

  lemma EvictKeeps(cfg: Config, s: State, key: Key)
    requires PoolValid(cfg, s)
    ensures PoolValid(cfg, Evict(s, key))
  {
    hide Linked, Registry, Named, Entries, Attempts, Conns, Pendings, Leases, Calls, Owned, Valid, WF, SettledBut;
    hide Bump, ShutDownAll, Prune, Evict;
    if key in s.entries {
      var e := s.entries[key];
      RegistryNames(s, key, {});
      EvictShape(s, key);
      BumpShape(s, e);
      BumpKeeps(cfg, s, e);
      var bumped := Bump(s, e);
      ShutDownAllKeeps(cfg, bumped, s.entry[e].connections);
      ShutDownAllKey(bumped, s.entry[e].connections, e);
      PruneKeepsAll(cfg, ShutDownAll(bumped, s.entry[e].connections), key, e);
    } else {
      EvictNothing(s, key);
    }
  }

  lemma EvictNothing(s: State, key: Key)
    requires Linked(s) && key !in s.entries
    ensures Evict(s, key) == s
  {
  }

  // ---- Operations, the clock, and the transport ----

  lemma OperationKeeps(cfg: Config, s: State, ch: Channels)
    requires PoolValid(cfg, s) && Lighter(cfg, s, ch)
    ensures PoolValid(cfg, WithChannels(s, ch))
  {
    hide Base, Linked, SettledBut, WithChannels;
    PoolLinks(cfg, s);
    ChannelsKeep(cfg, s, ch, {});
    ChannelsSettle(s, ch, {});
  }

  /** Rows that say nothing about how many operations there are. */
  lemma OpenRows(cfg: Config, c: ConnId, connection: Connection, attempt: Attempt, entry: Entry, a: set<OpId>, b: set<OpId>, now: int)
    requires ConnRow(cfg, c, connection, attempt, entry, a, now) && !connection.closed
    ensures ConnRow(cfg, c, connection, attempt, entry, b, now)
  {
  }

  lemma RunningRows(cfg: Config, l: LeaseId, lease: Lease, connection: Connection, a: set<OpId>, b: set<OpId>, now: int)
    requires LeaseRow(cfg, l, lease, connection, a, now) && !lease.released && !lease.expired
    ensures LeaseRow(cfg, l, lease, connection, b, now)
  {
  }

  ghost predicate Begun(s: State, l: LeaseId, o: OpId, ch: Channels) {
    && l in s.lease && l in s.ch.leaseOps && s.lease[l].conn in s.conn && s.lease[l].conn in s.ch.connOps
    && Fits(s, ch)
    && Refusal(s, l).None?
    && o !in s.ch.ops && o in ch.ops && ch.ops == s.ch.ops[o := ch.ops[o]]
    && ch.ops[o].lease == l && ch.ops[o].conn == s.lease[l].conn
    && ch.connOps == s.ch.connOps[s.lease[l].conn := s.ch.connOps[s.lease[l].conn] + {o}]
    && ch.leaseOps == s.ch.leaseOps[l := s.ch.leaseOps[l] + {o}]
  }

  lemma BegunConns(cfg: Config, s: State, l: LeaseId, o: OpId, ch: Channels)
    requires Linked(s) && Begun(s, l, o, ch)
    ensures Conns(cfg, s) ==> Conns(cfg, WithChannels(s, ch))
    ensures Leases(cfg, s) ==> Leases(cfg, WithChannels(s, ch))
  {
    hide WF, EntryLinked, ConnRow, HeldRow, LeaseRow;
    var r := WithChannels(s, ch);
    if Conns(cfg, s) {
      forall c | c in s.conn
        ensures ConnRow(cfg, c, s.conn[c], s.attempts[c], s.entry[s.conn[c].entry], ch.connOps[c], s.now)
      {
        if c == s.lease[l].conn {
          OpenRows(cfg, c, s.conn[c], s.attempts[c], s.entry[s.conn[c].entry], s.ch.connOps[c], ch.connOps[c], s.now);
        }
      }
    }
    if Leases(cfg, s) {
      forall m | m in s.lease ensures LeaseRow(cfg, m, s.lease[m], s.conn[s.lease[m].conn], ch.leaseOps[m], s.now) {
        if m == l {
          RunningRows(cfg, l, s.lease[l], s.conn[s.lease[l].conn], s.ch.leaseOps[l], ch.leaseOps[l], s.now);
        }
      }
    }
  }

  lemma BegunOwned(s: State, l: LeaseId, o: OpId, ch: Channels)
    requires Begun(s, l, o, ch) && Owned(s.ch, s.lease)
    ensures Owned(ch, s.lease)
  {
    hide WF, Fits;
  }

  lemma AskBegins(cfg: Config, s: State, l: LeaseId, kind: Kind, o: OpId)
    requires Linked(s) && l in s.lease && o !in s.ch.ops && s.lease[l].conn in s.conn && Refusal(s, l).None?
    requires WF(s.ch) && l in s.ch.leaseOps && s.lease[l].conn in s.ch.limiters && s.lease[l].conn in s.ch.connOps
    ensures var ch := Begin(s.ch, o, l, s.lease[l].conn, kind, cfg.channelLimit);
      Begun(s, l, o, ch) && Ask(cfg, s, l, kind, o) == WithChannels(s, ch)
  {
    hide EntryLinked, WF;
  }

  lemma AskKeeps(cfg: Config, s: State, l: LeaseId, kind: Kind, o: OpId)
    requires PoolValid(cfg, s) && l in s.lease && Linked(s) && s.lease[l].conn in s.conn
    requires forall p :: p in s.ch.ops ==> p < o
    ensures PoolValid(cfg, Ask(cfg, s, l, kind, o))
  {
    hide Linked, Registry, Named, Entries, Attempts, Conns, Pendings, Leases, Calls, Owned, Valid, WF, SettledBut,
      Begun, Begin, Ask;
    if Refusal(s, l).Some? {
      AskRefused(cfg, s, l, kind, o);
    } else {
      LinkedKeys(s);
      var c := s.lease[l].conn;
      var ch := Begin(s.ch, o, l, c, kind, cfg.channelLimit);
      AskBegins(cfg, s, l, kind, o);
      BegunFits(s, l, o, ch);
      BeginKeeps(s.ch, o, l, c, kind, cfg.channelLimit);
      var r := WithChannels(s, ch);
      BegunConns(cfg, s, l, o, ch);
      BegunOwned(s, l, o, ch);
      ApartFromChannels(s, r, {});
      SamePendingsSelf(s, r);
      PendingsFrame(s, r);
      CallsFrame(cfg, s, r);
      ChannelsSettle(s, ch, {});
    }
  }

  lemma AskRefused(cfg: Config, s: State, l: LeaseId, kind: Kind, o: OpId)
    requires Linked(s) && l in s.lease && o !in s.ch.ops && s.lease[l].conn in s.conn && Refusal(s, l).Some?
    ensures Ask(cfg, s, l, kind, o) == s
  {
  }

  lemma BegunFits(s: State, l: LeaseId, o: OpId, ch: Channels)
    requires Begun(s, l, o, ch)
    ensures Fits(s, ch)
  {
  }

  lemma SamePendingsSelf(a: State, b: State)
    requires b == a.(ch := b.ch)
    ensures SamePendings(a, b)
  {
  }

  // ---- The clock and the transport ----

  lemma TickKeeps(cfg: Config, s: State, later: int)
    requires PoolValid(cfg, s) && s.now <= later
    ensures PoolValid(cfg, s.(now := later))
  {
    hide Linked, Registry, Named, Entries, Attempts, Conns, Pendings, Leases, Calls, Owned, Valid, WF, SettledBut;
    var r := s.(now := later);
    TickLinks(s, r);
    EntriesSame(s, r, {});
    ConnsAlikeSelf(s.conn);
    EntriesAlike(s, r);
    AttemptsAlike(s, r);
    TickConns(cfg, s, r);
    Frames(cfg, s, r);
    TickSettles(s, r);
  }

  lemma TickLinks(a: State, b: State)
    requires Linked(a) && b == a.(now := b.now)
    ensures Linked(b) && SamePendings(a, b) && SameConns(a, b) && FewerOps(a.ch, b.ch)
  {
    hide WF, EntryLinked;
  }

  lemma TickConns(cfg: Config, a: State, b: State)
    requires Linked(a) && Linked(b) && Conns(cfg, a) && b == a.(now := b.now) && a.now <= b.now
    ensures Conns(cfg, b)
  {
    hide WF, EntryLinked, ConnRow, HeldRow;
    forall c | c in b.conn
      ensures ConnRow(cfg, c, b.conn[c], b.attempts[c], b.entry[b.conn[c].entry], b.ch.connOps[c], b.now)
    {
      ConnRowFrame(cfg, c, a.conn[c], a.attempts[c], a.attempts[c], a.entry[a.conn[c].entry], a.entry[a.conn[c].entry],
                   a.ch.connOps[c], a.ch.connOps[c], a.now, b.now);
    }
  }

  lemma TickSettles(a: State, b: State)
    requires Linked(a) && Linked(b) && b.conn == a.conn && b.entry == a.entry && SettledBut(a, {})
    ensures SettledBut(b, {})
  {
    hide WF, EntryLinked, SettledRow;
  }

  ghost function SetReady(s: State, o: OpenId, ready: bool): (r: State)
    requires Linked(s) && o in s.attempts
    ensures Linked(r)
  {
    hide WF;
    s.(attempts := s.attempts[o := s.attempts[o].(ready := ready)])
  }

  lemma SetReadyShape(s: State, o: OpenId, ready: bool)
    requires Linked(s) && o in s.attempts
    ensures var r := SetReady(s, o, ready);
      SamePendings(s, r) && SameConns(s, r) && FewerOps(s.ch, r.ch) && r == s.(attempts := r.attempts)
  {
    hide Linked;
  }

  lemma SetReadyAttempts(cfg: Config, s: State, o: OpenId, ready: bool)
    requires Linked(s) && o in s.attempts
    ensures Attempts(s) ==> Attempts(SetReady(s, o, ready))
    ensures Conns(cfg, s) ==> Conns(cfg, SetReady(s, o, ready))
  {
    hide WF, EntryLinked, HeldRow;
    var r := SetReady(s, o, ready);
    if Attempts(s) {
      forall p | p in r.attempts ensures AttemptRow(p, r.attempts[p], r.entry[r.attempts[p].entry], r.conn, r.opens) {
        assert AttemptRow(p, s.attempts[p], s.entry[s.attempts[p].entry], s.conn, s.opens);
      }
    }
    if Conns(cfg, s) {
      forall c | c in r.conn
        ensures ConnRow(cfg, c, r.conn[c], r.attempts[c], r.entry[r.conn[c].entry], r.ch.connOps[c], r.now)
      {
        assert ConnRow(cfg, c, s.conn[c], s.attempts[c], s.entry[s.conn[c].entry], s.ch.connOps[c], s.now);
      }
    }
  }

  lemma SetReadyKeeps(cfg: Config, s: State, o: OpenId, ready: bool)
    requires PoolValid(cfg, s) && o in s.attempts
    ensures PoolValid(cfg, SetReady(s, o, ready))
  {
    hide Linked, Registry, Named, Entries, Attempts, Conns, Pendings, Leases, Calls, Owned, Valid, WF, SettledBut,
      SetReady;
    var r := SetReady(s, o, ready);
    SetReadyShape(s, o, ready);
    SetReadyAttempts(cfg, s, o, ready);
    EntriesSame(s, r, {});
    ConnsAlikeSelf(s.conn);
    EntriesAlike(s, r);
    Frames(cfg, s, r);
    TickSettles(s, r);
  }
}
