/** What each turn of a call of `lease` comes to. */
module ReadPoolHandOuts {
  import opened Options
  import opened Channels
  import opened ReadPool
  import opened ReadPoolInvariant
  import opened ReadPoolProofs
  import opened ReadPoolOpenProofs
  import opened ReadPoolRuns
  import opened ReadPoolHistory
  import opened ReadPoolTheorems
  import opened ReadPoolOpens

  /** The key's entry has this connection installed. */
  ghost predicate InstalledFor(s: State, key: Key, c: ConnId) {
    && key in s.entries && s.entries[key] in s.entry && s.entry[s.entries[key]].installed == Some(c)
    && c in s.conn && c in s.attempts
  }

  /** A lease taken now ends no later than the connection's hard age. */
  predicate EndsInTime(cfg: Config, s: State, c: ConnId, deadlineMs: int)
    requires c in s.conn
  {
    s.now + deadlineMs <= s.conn[c].readyAt + cfg.hardAgeMs
  }

  /** From `a` to `b` the turn reused the installed connection, destroyed it, or left it alone. */
  ghost predicate TurnComesTo(cfg: Config, a: State, b: State, key: Key, identity: Identity, deadlineMs: int, l: LeaseId) {
    && (l in b.lease <==> exists c :: InstalledFor(a, key, c) && Suits(a, c, identity) && EndsInTime(cfg, a, c, deadlineMs))
    && (forall c :: InstalledFor(a, key, c) && Suits(a, c, identity) && EndsInTime(cfg, a, c, deadlineMs) ==>
          l in b.lease && b.lease[l].conn == c && b.lease[l].reused)
    && (forall c :: InstalledFor(a, key, c) && Suits(a, c, identity) && !EndsInTime(cfg, a, c, deadlineMs) ==>
          c in b.conn && b.conn[c] == a.conn[c])
    && (forall c :: InstalledFor(a, key, c) && !Suits(a, c, identity) ==> ClosedBy(a, b, c, Destroy))
  }

  lemma CheckoutGives(s: State, c: ConnId, deadlineMs: int, l: LeaseId, reused: bool)
    requires Linked(s) && c in s.conn && l !in s.lease
    ensures var r := Checkout(s, c, deadlineMs, l, reused); l in r.lease && r.lease[l].conn == c && r.lease[l].reused == reused
  {
    hide Linked;
  }

  lemma AwaitSpares(s: State, k: CallId, key: Key, e: EntryId, identity: Identity, deadlineMs: int)
    requires Linked(s) && e in s.entry
    ensures var r := Await(s, k, key, e, identity, deadlineMs);
      && r.conn == s.conn && r.lease == s.lease
      && forall o :: o in s.attempts && o <= s.opens ==> o in r.attempts && r.attempts[o] == s.attempts[o]
  {
    hide Linked;
  }

  lemma RoundComesTo(cfg: Config, s: State, k: CallId, key: Key, identity: Identity, deadlineMs: int, l: LeaseId)
    requires PoolValid(cfg, s) && Linked(s) && l !in s.lease
    ensures TurnComesTo(cfg, s, LeaseRound(cfg, s, k, key, identity, deadlineMs, l), key, identity, deadlineMs, l)
  {
    hide PoolValid, Linked, EntryFor, ShutDown, Await, Checkout, Usable, Suits, ClosedBy, Joinable;
    EntryForConns(s, key);
    var found := EntryFor(s, key);
    var e := found.entries[key];
    var installed := found.entry[e].installed;
    if key in s.entries {
      MappedFound(s, key);
      if installed.Some? {
        var c := installed.value;
        LinkedConn(s, c);
        SuitsExactly(s, c, identity);
        assert InstalledFor(s, key, c);
        if !Suits(s, c, identity) {
          UnfitDestroyed(cfg, s, k, key, e, identity, deadlineMs, c);
        } else if EndsInTime(cfg, s, c, deadlineMs) {
          CheckoutGives(s, c, deadlineMs, l, true);
        } else {
          AwaitSpares(s, k, key, e, identity, deadlineMs);
        }
      } else {
        AwaitSpares(s, k, key, e, identity, deadlineMs);
      }
    } else {
      NothingInstalled(cfg, s, key);
      AwaitSpares(found, k, key, e, identity, deadlineMs);
    }
  }

  lemma NothingInstalled(cfg: Config, s: State, key: Key)
    requires PoolValid(cfg, s) && Linked(s) && key !in s.entries
    ensures var r := EntryFor(s, key); r.entries[key] in r.entry && r.entry[r.entries[key]].installed == None && r.lease == s.lease
  {
    hide PoolValid, Linked;
    BaseNamed(cfg, s);
    EntryForFresh(s, key);
  }

  lemma UnfitDestroyed(cfg: Config, s: State, k: CallId, key: Key, e: EntryId, identity: Identity, deadlineMs: int, c: ConnId)
    requires PoolValid(cfg, s) && Linked(s) && e in s.entry && s.entry[e].installed == Some(c) && c in s.conn
    ensures var shut := ShutDown(s, c, Destroy); e in shut.entry
    ensures var r := Await(ShutDown(s, c, Destroy), k, key, e, identity, deadlineMs); ClosedBy(s, r, c, Destroy) && r.lease == s.lease
  {
    hide PoolValid, Linked, ShutDown, Await;
    PreviousOpen(cfg, s, e);
    ShutDownDisposes(s, c, Destroy);
    ShutDownPending(s, c, Destroy, e);
    AttemptAt(cfg, s, c);
    ShutDownOpens(s, c, Destroy);
    AwaitSpares(ShutDown(s, c, Destroy), k, key, e, identity, deadlineMs);
  }

  lemma ShutDownOpens(s: State, c: ConnId, how: How)
    requires Linked(s) && c in s.conn
    ensures ShutDown(s, c, how).opens == s.opens
  {
    hide Linked, ShutDown;
  }

  /** A turn gives out a lease exactly if the key's entry has a connection installed that is open,
      not retired, ready, of the identity asked for, and young enough for the deadline; and then
      the lease is on that connection. One that is merely too old stays as it is, and any other
      is destroyed. */
  lemma TurnExactly(cfg: Config, s: State, ev: Event, k: CallId, key: Key, identity: Identity, deadlineMs: int, l: LeaseId)
    requires PoolValid(cfg, s) && Linked(s) && Enabled(s, ev) && RunsTurn(cfg, s, ev, k, key, identity, deadlineMs, l)
    ensures TurnComesTo(cfg, s, Step(cfg, s, ev), key, identity, deadlineMs, l)
  {
    hide PoolValid, Linked, LeaseRound, TurnComesTo, RunsTurn, Step, Enabled;
    TurnIsRound(cfg, s, ev, k, key, identity, deadlineMs, l);
    RoundComesTo(cfg, s, k, key, identity, deadlineMs, l);
  }

  /** A call with a deadline that is not positive or not below the hard age throws and changes
      nothing; any other runs a turn. */
  lemma ThrowsExactly(cfg: Config, s: State, k: CallId, key: Key, identity: Identity, deadlineMs: int, l: LeaseId)
    requires PoolValid(cfg, s) && Linked(s) && Enabled(s, LeaseCalled(k, key, identity, deadlineMs, l))
    ensures Step(cfg, s, LeaseCalled(k, key, identity, deadlineMs, l)) == s <==> !(0 < deadlineMs < cfg.hardAgeMs)
  {
    hide PoolValid, Linked, LeaseRound;
    if DeadlineFits(cfg, deadlineMs) { RoundStatus(cfg, s, k, key, identity, deadlineMs, l); }
  }

  /** A call that waited for an open is rejected exactly if that open was not installed, and is
      given a lease on the new connection if that still suits it. */
  lemma ResumesExactly(cfg: Config, s: State, k: CallId, l: LeaseId)
    requires PoolValid(cfg, s) && Linked(s) && Enabled(s, CallResumes(k, l))
    ensures var r := Step(cfg, s, CallResumes(k, l)); var o := s.calls[k].status.open;
      && k in r.calls && (o !in s.conn <==> r.calls[k].status == Rejected)
      && (o in s.conn && Suits(s, o, s.calls[k].identity) ==>
            l in r.lease && r.lease[l].conn == o && !r.lease[l].reused && r.calls[k].status == Given(l))
  {
    hide PoolValid, Linked, LeaseRound, Usable, Suits, Checkout;
    var call := s.calls[k];
    var o := call.status.open;
    if o in s.conn {
      SuitsExactly(s, o, call.identity);
      CheckoutGives(s, o, call.deadlineMs, l, false);
      RoundStatus(cfg, s, k, call.key, call.identity, call.deadlineMs, l);
    }
  }

  lemma RoundStatus(cfg: Config, s: State, k: CallId, key: Key, identity: Identity, deadlineMs: int, l: LeaseId)
    requires Linked(s) && l !in s.lease
    ensures var r := LeaseRound(cfg, s, k, key, identity, deadlineMs, l); k in r.calls && r.calls[k].status != Rejected
  {
    hide Linked, EntryFor, ShutDown, Checkout, Usable, StartOpen, Joinable;
    EntryForConns(s, key);
    var found := EntryFor(s, key);
    var e := found.entries[key];
    var installed := found.entry[e].installed;
    if installed.Some? { ShutDownHasEntry(found, installed.value, Destroy, e); }
  }
}
