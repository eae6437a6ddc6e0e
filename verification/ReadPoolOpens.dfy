/** What a turn of `lease` opens, and where the entry it opens on stands. */
module ReadPoolOpens {
  import opened Options
  import opened Channels
  import opened ReadPool
  import opened ReadPoolInvariant
  import opened ReadPoolProofs
  import opened ReadPoolOpenProofs
  import opened ReadPoolRuns
  import opened ReadPoolHistory
  import opened ReadPoolTheorems

  // ---- Single flight ----

  /** An open under way that would still be installed if it answered now, for this key's
      entry and this identity. */
  ghost predicate InFlight(s: State, key: Key, identity: Identity, o: OpenId) {
    && key in s.entries && o in s.attempts && s.attempts[o].entry == s.entries[key] && s.entries[key] in s.entry
    && StillOpening(s, o) && LatestOpen(s, o) && Unevicted(s, o)
    && s.attempts[o].identity == identity
  }

  lemma JoinableExactly(cfg: Config, s: State, e: EntryId, identity: Identity)
    requires PoolValid(cfg, s) && e in s.entry
    ensures Joinable(s, e, identity) <==>
      var o := s.entry[e].lastOpen;
      && o in s.attempts && s.attempts[o].entry in s.entry && s.attempts[o].entry == e
      && StillOpening(s, o) && Unevicted(s, o) && s.attempts[o].identity == identity
    ensures Joinable(s, e, identity) ==> s.entry[e].pending.value.id == s.entry[e].lastOpen
  {
    hide Registry, Entries, Named, Conns, Leases, Calls, Owned, Valid, WF, SettledBut, EntryLinked, SameIdentity;
    assert PendingRow(e, s.entry[e], s.attempts);
    var o := s.entry[e].lastOpen;
    if o in s.attempts {
      assert AttemptRow(o, s.attempts[o], s.entry[s.attempts[o].entry], s.conn, s.opens);
    } else {
      NoOpenZero(cfg, s);
    }
  }

  lemma NoOpenZero(cfg: Config, s: State)
    requires PoolValid(cfg, s)
    ensures 0 !in s.attempts
  {
    hide PoolValid;
    if 0 in s.attempts { AttemptAt(cfg, s, 0); }
  }

  /** The call waits for the open `o`. */
  ghost predicate WaitsFor(s: State, k: CallId, o: OpenId) {
    k in s.calls && s.calls[k].status == Awaits(o)
  }

  lemma AwaitOpens(s: State, k: CallId, key: Key, e: EntryId, identity: Identity, deadlineMs: int)
    requires Linked(s) && e in s.entry
    ensures var r := Await(s, k, key, e, identity, deadlineMs);
      if Joinable(s, e, identity) then r.opens == s.opens && WaitsFor(r, k, s.entry[e].pending.value.id)
      else r.opens == s.opens + 1 && WaitsFor(r, k, r.opens)
    ensures Await(s, k, key, e, identity, deadlineMs).entries == s.entries
    ensures var r := Await(s, k, key, e, identity, deadlineMs);
      !Joinable(s, e, identity) ==> r.opens in r.attempts && r.attempts[r.opens].entry == e
  {
    hide Linked;
  }

  /** What a shutdown leaves of every entry: its pending open and its generation. */
  lemma ShutDownPending(s: State, c: ConnId, how: How, e: EntryId)
    requires Linked(s) && c in s.conn && e in s.entry
    ensures var r := ShutDown(s, c, how);
      && e in r.entry && r.entry[e].pending == s.entry[e].pending && r.entry[e].generation == s.entry[e].generation
      && r.lease == s.lease
  {
    hide Linked, AbandonConnection, Fits;
    LinkedConn(s, c);
  }

  /** The turn, as one of its three ends. */
  lemma RoundEnds(cfg: Config, s: State, k: CallId, key: Key, identity: Identity, deadlineMs: int, l: LeaseId)
    requires PoolValid(cfg, s) && Linked(s) && l !in s.lease
    ensures var found := EntryFor(s, key); var r := LeaseRound(cfg, s, k, key, identity, deadlineMs, l);
      && key in found.entries && found.entries[key] in found.entry
      && (r.lease == s.lease ==> r.opens == if Joinable(found, found.entries[key], identity) then s.opens else s.opens + 1)
      && (r.lease == s.lease && Joinable(found, found.entries[key], identity) ==>
            WaitsFor(r, k, found.entry[found.entries[key]].pending.value.id))
      && (r.lease == s.lease && !Joinable(found, found.entries[key], identity) ==> WaitsFor(r, k, r.opens))
  {
    hide PoolValid, Linked, EntryFor, ShutDown, Await, Checkout, Usable, Joinable;
    EntryForConns(s, key);
    BaseNamed(cfg, s);
    EntryForQuiet(s, key);
    var found := EntryFor(s, key);
    var e := found.entries[key];
    var installed := found.entry[e].installed;
    if installed.Some? { LinkedConn(found, installed.value); }
    if installed.Some? && !Usable(found, installed.value, identity) {
      ShutDownPending(found, installed.value, Destroy, e);
      JoinableFrame(found, ShutDown(found, installed.value, Destroy), e, identity);
      AwaitOpens(ShutDown(found, installed.value, Destroy), k, key, e, identity, deadlineMs);
    } else if installed.Some? && found.conn[installed.value].readyAt + cfg.hardAgeMs >= found.now + deadlineMs {
      CheckoutAdds(found, installed.value, deadlineMs, l, true);
    } else {
      AwaitOpens(found, k, key, e, identity, deadlineMs);
    }
  }

  lemma CheckoutAdds(s: State, c: ConnId, deadlineMs: int, l: LeaseId, reused: bool)
    requires Linked(s) && c in s.conn && l !in s.lease
    ensures l in Checkout(s, c, deadlineMs, l, reused).lease
  {
    hide Linked;
  }

  lemma JoinableFrame(a: State, b: State, e: EntryId, identity: Identity)
    requires e in a.entry && e in b.entry
    requires b.entry[e].pending == a.entry[e].pending && b.entry[e].generation == a.entry[e].generation
    ensures Joinable(b, e, identity) == Joinable(a, e, identity)
  {
  }

  /** From `a` to `b` the call opened nothing exactly if an open it can share was under way, and
      then it waits for that one; otherwise it opened one and waits for it. */
  ghost predicate SharesFlight(a: State, b: State, k: CallId, key: Key, identity: Identity) {
    && (b.opens == a.opens <==> exists o :: InFlight(a, key, identity, o))
    && (forall o :: InFlight(a, key, identity, o) ==> WaitsFor(b, k, o))
    && (b.opens != a.opens ==> b.opens == a.opens + 1 && WaitsFor(b, k, b.opens))
  }

  /** A turn of `lease` that gives out no lease opens nothing exactly if there is an open it can
      share. */
  lemma RoundFlight(cfg: Config, s: State, k: CallId, key: Key, identity: Identity, deadlineMs: int, l: LeaseId)
    requires PoolValid(cfg, s) && Linked(s) && l !in s.lease
    requires LeaseRound(cfg, s, k, key, identity, deadlineMs, l).lease == s.lease
    ensures SharesFlight(s, LeaseRound(cfg, s, k, key, identity, deadlineMs, l), k, key, identity)
  {
    hide PoolValid, Linked, LeaseRound, EntryFor, Joinable, SameIdentity, Unevicted;
    RoundEnds(cfg, s, k, key, identity, deadlineMs, l);
    if key in s.entries {
      MappedFound(s, key);
      JoinableExactly(cfg, s, s.entries[key], identity);
      var o := s.entry[s.entries[key]].lastOpen;
      if Joinable(s, s.entries[key], identity) { assert InFlight(s, key, identity, o); }
    } else {
      BaseNamed(cfg, s);
      UnmappedFound(s, key, identity);
    }
  }

  /** The event runs a turn of the call's loop: the first one, or the next one when the
      connection it waited for will not do. */
  ghost predicate RunsTurn(cfg: Config, s: State, ev: Event, k: CallId, key: Key, identity: Identity, deadlineMs: int, l: LeaseId)
    requires Linked(s) && Enabled(s, ev)
  {
    match ev
    case LeaseCalled(call, _, _, _, _) => 0 < deadlineMs < cfg.hardAgeMs && ev == LeaseCalled(k, key, identity, deadlineMs, l)
    case CallResumes(call, given) =>
      var row := s.calls[call];
      && call == k && given == l && key == row.key && identity == row.identity && deadlineMs == row.deadlineMs
      && row.status.open in s.conn && !Suits(s, row.status.open, identity)
    case _ => false
  }

  lemma TurnIsRound(cfg: Config, s: State, ev: Event, k: CallId, key: Key, identity: Identity, deadlineMs: int, l: LeaseId)
    requires Linked(s) && Enabled(s, ev) && RunsTurn(cfg, s, ev, k, key, identity, deadlineMs, l)
    ensures l !in s.lease && Step(cfg, s, ev) == LeaseRound(cfg, s, k, key, identity, deadlineMs, l)
  {
    hide Linked, LeaseRound, Usable, Suits;
    if ev.CallResumes? { SuitsExactly(s, s.calls[ev.call].status.open, identity); }
  }

  /** Any turn of any call that gives out no lease opens nothing exactly if an open it can share
      is under way, and then the call waits for that one; otherwise it opens one and waits. */
  lemma SingleFlight(cfg: Config, s: State, ev: Event, k: CallId, key: Key, identity: Identity, deadlineMs: int, l: LeaseId)
    requires PoolValid(cfg, s) && Linked(s) && Enabled(s, ev) && RunsTurn(cfg, s, ev, k, key, identity, deadlineMs, l)
    requires Step(cfg, s, ev).lease == s.lease
    ensures SharesFlight(s, Step(cfg, s, ev), k, key, identity)
  {
    hide PoolValid, Linked, LeaseRound, SharesFlight, RunsTurn, Step, Enabled;
    TurnIsRound(cfg, s, ev, k, key, identity, deadlineMs, l);
    RoundFlight(cfg, s, k, key, identity, deadlineMs, l);
  }

  lemma MappedFound(s: State, key: Key)
    requires Linked(s) && key in s.entries
    ensures EntryFor(s, key) == s && s.entries[key] in s.entry
  {
    hide WF, EntryLinked;
  }

  lemma UnmappedFound(s: State, key: Key, identity: Identity)
    requires Linked(s) && Named(s) && key !in s.entries
    ensures var r := EntryFor(s, key); key in r.entries && r.entries[key] in r.entry && !Joinable(r, r.entries[key], identity)
  {
    hide WF, EntryLinked;
    EntryForFresh(s, key);
  }

  // ---- Superseding ----

  /** An open that is installed replaces the entry's connection: one for another identity is
      destroyed at once, one nobody leases is ended, and one still leased stays open. */
  lemma Superseded(cfg: Config, s: State, o: OpenId, p: ConnId)
    requires PoolValid(cfg, s) && Linked(s) && Enabled(s, OpenAnswers(o, true)) && s.attempts[o].entry in s.entry
    requires s.attempts[o].ready && LatestOpen(s, o) && Unevicted(s, o)
    requires s.entry[s.attempts[o].entry].installed == Some(p)
    ensures p in s.conn && !s.conn[p].closed
    ensures var r := Step(cfg, s, OpenAnswers(o, true));
      if s.conn[p].identity != s.attempts[o].identity then ClosedBy(s, r, p, Destroy)
      else if s.conn[p].leases == {} then ClosedBy(s, r, p, End)
      else p in r.conn && r.conn[p] == s.conn[p]
  {
    hide PoolValid, Linked, PutIn, ShutDown, SameIdentity, WF, GiveUpOpen, Unevicted;
    AttemptAt(cfg, s, o);
    CurrentExactly(s, o);
    LinkedKeys(s);
    PreviousOpen(cfg, s, s.attempts[o].entry);
    PutInShape(cfg, s, o);
    PreviousIn(cfg, s, o);
    var next := PutIn(cfg, s, o);
    if !SameIdentity(s.conn[p].identity, s.attempts[o].identity) {
      ShutDownDisposes(next, p, Destroy);
    } else {
      ShutDownDisposes(next, p, End);
    }
  }

  lemma PreviousOpen(cfg: Config, s: State, e: EntryId)
    requires PoolValid(cfg, s) && e in s.entry && s.entry[e].installed.Some?
    ensures var p := s.entry[e].installed.value;
      p in s.conn && p in s.attempts && !s.conn[p].closed && !s.conn[p].retired && s.conn[p].entry == e
  {
    hide Registry, Named, Attempts, Conns, Pendings, Leases, Calls, Owned, Valid, WF, SettledBut, EntryLinked;
    assert EntryRow(e, s.entry[e], s.conn);
  }

  // ---- Orphaned entries ----

  /** The map no longer knows the entry under its key. */
  ghost predicate Orphan(s: State, key: Key, e: EntryId) {
    !(key in s.entries && s.entries[key] == e)
  }

  /** The entry the map held for the key left it exactly if the connection was its only one and
      no open was pending, and then the call opened on it all the same. */
  ghost predicate OrphansExactly(a: State, b: State, k: CallId, key: Key, c: ConnId) {
    && key in a.entries && a.entries[key] in a.entry
    && var e := a.entries[key];
    && (Orphan(b, key, e) <==> a.entry[e].connections == {c} && a.entry[e].pending.None?)
    && (Orphan(b, key, e) ==> key !in b.entries && b.opens == a.opens + 1 && WaitsFor(b, k, b.opens)
                              && b.opens in b.attempts && b.attempts[b.opens].entry == e)
  }

  lemma RoundOrphans(cfg: Config, s: State, k: CallId, key: Key, identity: Identity, deadlineMs: int, l: LeaseId, c: ConnId)
    requires PoolValid(cfg, s) && Linked(s) && l !in s.lease
    requires key in s.entries && s.entries[key] in s.entry && s.entry[s.entries[key]].installed == Some(c)
    requires c in s.conn && c in s.attempts && !Suits(s, c, identity)
    ensures OrphansExactly(s, LeaseRound(cfg, s, k, key, identity, deadlineMs, l), k, key, c)
  {
    hide PoolValid, Linked, Registry, ShutDown, Await, Joinable, Usable, Suits;
    SuitsExactly(s, c, identity);
    var e := s.entries[key];
    PoolRegistry(cfg, s);
    RegistryNames(s, key, {});
    PreviousOpen(cfg, s, e);
    OpenConnsListed(cfg, s, c);
    ShutDownPrunes(s, c, Destroy);
    ShutDownPending(s, c, Destroy, e);
    JoinableFrame(s, ShutDown(s, c, Destroy), e, identity);
    AwaitOpens(ShutDown(s, c, Destroy), k, key, e, identity, deadlineMs);
    assert s.entry[e].pending.None? ==> !Joinable(s, e, identity) by { NotPending(s, e, identity); }
  }

  /** Any turn that shuts its installed connection down opens on the entry it started with, and
      that entry has left the map exactly if the connection was its only one and no open was
      pending. */
  lemma OrphanedExactly(cfg: Config, s: State, ev: Event, k: CallId, key: Key, identity: Identity, deadlineMs: int, l: LeaseId,
                        c: ConnId)
    requires PoolValid(cfg, s) && Linked(s) && Enabled(s, ev) && RunsTurn(cfg, s, ev, k, key, identity, deadlineMs, l)
    requires key in s.entries && s.entries[key] in s.entry && s.entry[s.entries[key]].installed == Some(c)
    requires c in s.conn && c in s.attempts && !Suits(s, c, identity)
    ensures OrphansExactly(s, Step(cfg, s, ev), k, key, c)
  {
    hide PoolValid, Linked, LeaseRound, OrphansExactly, RunsTurn, Step, Enabled, Suits;
    TurnIsRound(cfg, s, ev, k, key, identity, deadlineMs, l);
    RoundOrphans(cfg, s, k, key, identity, deadlineMs, l, c);
  }

  lemma NotPending(s: State, e: EntryId, identity: Identity)
    requires e in s.entry
    ensures s.entry[e].pending.None? ==> !Joinable(s, e, identity)
  {
  }

  lemma ShutDownPrunes(s: State, c: ConnId, how: How)
    requires Linked(s) && c in s.conn && !s.conn[c].closed && s.conn[c].entry in s.entry
    requires s.conn[c].key in s.entries && s.entries[s.conn[c].key] == s.conn[c].entry
    requires c in s.entry[s.conn[c].entry].connections
    ensures var r := ShutDown(s, c, how); var entry := s.entry[s.conn[c].entry];
      r.entries == if entry.connections == {c} && entry.pending.None? then s.entries - {s.conn[c].key} else s.entries
  {
    hide Linked, AbandonConnection, Fits;
    var entry := s.entry[s.conn[c].entry];
    assert entry.connections - {c} == {} <==> entry.connections == {c};
  }
}
