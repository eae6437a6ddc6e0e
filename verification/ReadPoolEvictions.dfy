/** What an evict means for the opens that are under way. */
module ReadPoolEvictions {
  import opened Options
  import opened Channels
  import opened ReadPool
  import opened ReadPoolInvariant
  import opened ReadPoolProofs
  import opened ReadPoolOpenProofs
  import opened ReadPoolRuns
  import opened ReadPoolHistory
  import opened ReadPoolTheorems
  import opened ReadPoolLeases

  /** Like a run, from any state on. */
  ghost predicate IsPath(cfg: Config, path: seq<State>, events: seq<Event>) {
    |path| == |events| + 1 && forall i :: 0 <= i < |events| ==> Follows(cfg, path[i], events[i], path[i + 1])
  }

  /** Some events from this state on install the open. */
  ghost predicate CanLand(cfg: Config, s: State, o: OpenId) {
    exists path: seq<State>, events: seq<Event> :: IsPath(cfg, path, events) && path[0] == s && o in path[|path| - 1].conn
  }

  /** An open for the key that has not been installed. */
  ghost predicate OpenFor(s: State, key: Key, o: OpenId) {
    o in s.attempts && s.attempts[o].key == key && o !in s.conn
  }

  /** One that would be installed if it answered well now. */
  ghost predicate Promising(s: State, o: OpenId) {
    && o in s.attempts && s.attempts[o].entry in s.entry && o !in s.conn
    && StillOpening(s, o) && LatestOpen(s, o) && Unevicted(s, o)
  }

  /** Every such open for the key is on the entry the map holds for it. */
  ghost predicate OpensMapped(s: State, key: Key) {
    forall o :: OpenFor(s, key, o) && Promising(s, o) ==> key in s.entries && s.entries[key] == s.attempts[o].entry
  }

  // ---- What will not land ----

  ghost predicate Dead(s: State, o: OpenId) {
    o in s.attempts && o !in s.conn && !Promising(s, o)
  }

  lemma DeadStep(cfg: Config, s: State, ev: Event, o: OpenId)
    requires PoolValid(cfg, s) && Linked(s) && Enabled(s, ev) && Dead(s, o)
    ensures Dead(Step(cfg, s, ev), o)
  {
    hide PoolValid, Linked, Enabled, Step, Later, HandsOut, Retires;
    var r := Step(cfg, s, ev);
    StepKeeps(cfg, s, ev);
    StepLater(cfg, s, ev);
    AttemptAt(cfg, s, o);
    StillDead(cfg, s, r, o);
    if o in r.conn {
      NewConnection(cfg, s, ev, o);
      DeadRefused(cfg, s, ev, o);
    }
  }

  lemma DeadRefused(cfg: Config, s: State, ev: Event, o: OpenId)
    requires PoolValid(cfg, s) && Linked(s) && Enabled(s, ev) && Dead(s, o) && ev.OpenAnswers? && ev.open == o
    requires s.attempts[o].entry in s.entry
    ensures o !in Step(cfg, s, ev).conn
  {
    hide PoolValid, Linked, Unevicted, LatestOpen, Step;
    InstalledExactly(cfg, s, o, ev.ok);
  }

  /** An open that is over, or no longer the latest, or met by an evict, is so in every later
      state. */
  lemma StillDead(cfg: Config, a: State, b: State, o: OpenId)
    requires PoolValid(cfg, a) && PoolValid(cfg, b) && Later(a, b) && Dead(a, o)
    ensures o in b.attempts && !Promising(b, o)
  {
    hide PoolValid, Progress;
    AttemptAt(cfg, a, o);
  }

  lemma {:induction false} DeadNeverLands(cfg: Config, path: seq<State>, events: seq<Event>, i: nat, o: OpenId)
    requires IsPath(cfg, path, events) && i < |path| && PoolValid(cfg, path[0]) && Dead(path[0], o)
    ensures PoolValid(cfg, path[i]) && Dead(path[i], o)
    decreases i
  {
    hide PoolValid, Linked, Enabled, Step, Dead;
    if i > 0 {
      DeadNeverLands(cfg, path, events, i - 1, o);
      assert Follows(cfg, path[i - 1], events[i - 1], path[i - 1 + 1]);
      StepKeeps(cfg, path[i - 1], events[i - 1]);
      DeadStep(cfg, path[i - 1], events[i - 1], o);
    }
  }

  lemma DeadCannotLand(cfg: Config, s: State, o: OpenId)
    requires PoolValid(cfg, s) && Dead(s, o)
    ensures !CanLand(cfg, s, o)
  {
    hide PoolValid, Dead, Follows;
    if CanLand(cfg, s, o) {
      var path: seq<State>, events: seq<Event> :| IsPath(cfg, path, events) && path[0] == s && o in path[|path| - 1].conn;
      DeadNeverLands(cfg, path, events, |path| - 1, o);
      DeadIsOut(path[|path| - 1], o);
    }
  }

  lemma DeadIsOut(s: State, o: OpenId)
    requires Dead(s, o)
    ensures o !in s.conn
  {
  }

  // ---- What can ----

  lemma PromisingLands(cfg: Config, s: State, o: OpenId)
    requires PoolValid(cfg, s) && Linked(s) && Promising(s, o)
    ensures CanLand(cfg, s, o)
  {
    hide PoolValid, Linked, Step, Unevicted, LatestOpen;
    var ready := Step(cfg, s, TransportSays(o, true));
    SaysReady(cfg, s, o);
    StepKeeps(cfg, s, TransportSays(o, true));
    var landed := Step(cfg, ready, OpenAnswers(o, true));
    InstalledExactly(cfg, ready, o, true);
    var path, events := [s, ready, landed], [TransportSays(o, true), OpenAnswers(o, true)];
    assert Follows(cfg, path[0], events[0], path[1]) && Follows(cfg, path[1], events[1], path[2]);
    assert IsPath(cfg, path, events) && path[0] == s && o in path[|path| - 1].conn;
  }

  lemma SaysReady(cfg: Config, s: State, o: OpenId)
    requires Linked(s) && Promising(s, o)
    ensures var r := Step(cfg, s, TransportSays(o, true)); Linked(r) && Promising(r, o) && r.attempts[o].ready
  {
    hide Linked;
  }

  // ---- The evict ----

  lemma ShutDownSparesEntry(s: State, c: ConnId, how: How, x: EntryId, o: OpenId)
    requires Linked(s) && c in s.conn && s.conn[c].entry != x && x in s.entry && o in s.attempts && o != c
    ensures var r := ShutDown(s, c, how); x in r.entry && r.entry[x] == s.entry[x] && o in r.attempts && r.attempts[o] == s.attempts[o]
  {
    hide Linked, AbandonConnection, Fits;
    LinkedConn(s, c);
  }

  lemma ShutDownAllSparesEntry(s: State, ids: set<ConnId>, x: EntryId, o: OpenId)
    requires Linked(s) && ids <= s.conn.Keys && x in s.entry && o in s.attempts && o !in ids
    requires forall c :: c in ids ==> s.conn[c].entry != x
    ensures var r := ShutDownAll(s, ids); x in r.entry && r.entry[x] == s.entry[x] && o in r.attempts && r.attempts[o] == s.attempts[o]
    decreases ids
  {
    hide Linked, ShutDown;
    if ids != {} {
      var c := Least(ids);
      var next := ShutDown(s, c, Destroy);
      ShutDownSparesEntry(s, c, Destroy, x, o);
      forall d | d in ids - {c} ensures d in next.conn && next.conn[d].entry != x {
        ShutDownSpares(s, c, Destroy, d);
      }
      ShutDownAllSparesEntry(next, ids - {c}, x, o);
    }
  }

  /** An evict leaves an open on another entry as promising as it was. */
  lemma EvictSparesOpen(cfg: Config, s: State, key: Key, o: OpenId)
    requires PoolValid(cfg, s) && Linked(s) && Promising(s, o)
    requires key in s.entries ==> s.entries[key] != s.attempts[o].entry
    ensures Promising(Evict(s, key), o)
  {
    hide PoolValid, Linked, Registry, Bump, ShutDownAll, Prune, Evict;
    if key in s.entries {
      var e, x := s.entries[key], s.attempts[o].entry;
      PoolRegistry(cfg, s);
      RegistryNames(s, key, {});
      var ids := s.entry[e].connections;
      EvictShape(s, key);
      BumpShape(s, e);
      BumpSpares(s, e, x, o);
      forall c | c in ids ensures c in s.conn && s.conn[c].entry == e { ListedHere(cfg, s, c, e); }
      ShutDownAllSparesEntry(Bump(s, e), ids, x, o);
      ShutDownAllKey(Bump(s, e), ids, e);
      EvictConns(s, key);
      PrunedTables(ShutDownAll(Bump(s, e), ids), key, e);
    } else {
      EvictNothing(s, key);
    }
  }

  lemma PrunedTables(s: State, key: Key, e: EntryId)
    requires Linked(s) && e in s.entry
    ensures var r := Prune(s, key, e); r.entry == s.entry && r.attempts == s.attempts
  {
    hide Linked;
  }

  lemma BumpSpares(s: State, e: EntryId, x: EntryId, o: OpenId)
    requires Linked(s) && e in s.entry && x in s.entry && x != e && o in s.attempts
    ensures var r := Bump(s, e); x in r.entry && r.entry[x] == s.entry[x] && o in r.attempts && r.attempts[o] == s.attempts[o]
    ensures Bump(s, e).conn == s.conn
  {
    hide Linked;
  }

  lemma ListedHere(cfg: Config, s: State, c: ConnId, e: EntryId)
    requires PoolValid(cfg, s) && e in s.entry && c in s.entry[e].connections
    ensures c in s.conn && s.conn[c].entry == e
  {
    hide Registry, Named, Attempts, Conns, Pendings, Leases, Calls, Owned, Valid, WF, SettledBut, EntryLinked;
    assert EntryRow(e, s.entry[e], s.conn);
  }

  /** An evict kills every open on the entry it meets. */
  lemma EvictKills(cfg: Config, s: State, key: Key, o: OpenId)
    requires PoolValid(cfg, s) && Linked(s) && OpenFor(s, key, o)
    requires key in s.entries && s.entries[key] == s.attempts[o].entry
    ensures Dead(Step(cfg, s, Evicted(key)), o)
  {
    hide PoolValid, Linked, Unevicted, LatestOpen, EntryClosed, Evict;
    EvictClosesEntry(cfg, s, key);
    EvictConns(s, key);
  }

  /** After `evict(key)` no open begun before it for the key can be installed exactly if every
      open for the key that still could be was on the entry the map held. */
  lemma EvictStopsOpensExactly(cfg: Config, s: State, key: Key)
    requires PoolValid(cfg, s) && Linked(s)
    ensures (forall o :: OpenFor(s, key, o) ==> !CanLand(cfg, Step(cfg, s, Evicted(key)), o)) <==> OpensMapped(s, key)
  {
    hide PoolValid, Linked, Promising, CanLand, Dead, Evict;
    var r := Step(cfg, s, Evicted(key));
    StepKeeps(cfg, s, Evicted(key));
    forall o | OpenFor(s, key, o)
      ensures CanLand(cfg, r, o) <==> Promising(s, o) && !(key in s.entries && s.entries[key] == s.attempts[o].entry)
    {
      if !Promising(s, o) {
        NotPromising(s, o);
        DeadStep(cfg, s, Evicted(key), o);
        DeadCannotLand(cfg, r, o);
      } else if key in s.entries && s.entries[key] == s.attempts[o].entry {
        EvictKills(cfg, s, key, o);
        DeadCannotLand(cfg, r, o);
      } else {
        EvictSparesOpen(cfg, s, key, o);
        PromisingLands(cfg, r, o);
      }
    }
  }

  lemma NotPromising(s: State, o: OpenId)
    requires o in s.attempts && o !in s.conn && !Promising(s, o)
    ensures Dead(s, o)
  {
  }

  /** An evict clears its key for good, connections and opens, exactly if the entry the map held
      had them all. */
  lemma EvictForGoodExactly(cfg: Config, s: State, key: Key)
    requires PoolValid(cfg, s) && Linked(s)
    ensures var r := Step(cfg, s, Evicted(key));
      NoneOpen(r, key) && (forall o :: OpenFor(s, key, o) ==> !CanLand(cfg, r, o)) <==> AllMapped(s, key) && OpensMapped(s, key)
  {
    hide PoolValid, Linked, NoneOpen, AllMapped, OpensMapped, CanLand, Step;
    EvictClearsKeyExactly(cfg, s, key);
    EvictStopsOpensExactly(cfg, s, key);
  }
}
