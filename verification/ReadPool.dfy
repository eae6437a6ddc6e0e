/** The pool of SSH connections kept for reads: its records, and every synchronous stretch of
    its code as one function from a state to the next.

    A record is a row known by its number, as in `Channels`. A connection, the transport it
    runs on and the open that made it share one number, because each open creates one
    transport and installs at most one connection. Names the caller makes up (calls, leases,
    operations) arrive with the event that creates them. */
module ReadPool {
  import opened Options
  import opened Channels

  type Key = string
  type EntryId = nat
  type OpenId = nat
  type CallId = nat

  datatype Config = Config(idleMs: int, hardAgeMs: int, channelLimit: nat)

  datatype Identity = Identity(
    hostname: string,
    port: int,
    username: string,
    sshKeyId: string,
    hostKeyFingerprint: string)

  predicate SameIdentity(a: Identity, b: Identity): (same: bool)
    ensures same <==> a == b
  {
    && a.hostname == b.hostname
    && a.port == b.port
    && a.username == b.username
    && a.sshKeyId == b.sshKeyId
    && a.hostKeyFingerprint == b.hostKeyFingerprint
  }

  datatype Pending = Pending(id: OpenId, identity: Identity, generation: nat)

  /** `key`, `lastOpen` and `evictions` are history: whose entry this is, its latest open, and
      how many evicts hit it. */
  datatype Entry = Entry(
    key: Key,
    generation: nat,
    installed: Option<ConnId>,
    pending: Option<Pending>,
    connections: set<ConnId>,
    lastOpen: OpenId,
    evictions: nat)

  datatype Phase = Opening | GaveUp | Landed

  datatype How = End | Destroy

  /** One open and the transport it created. `ready` is what the transport says of itself;
      `disposals` lists every `close` and `destroy` the pool called on it. */
  datatype Attempt = Attempt(
    key: Key,
    entry: EntryId,
    identity: Identity,
    generation: nat,
    evictions: nat,
    phase: Phase,
    ready: bool,
    disposals: seq<How>)

  datatype Connection = Connection(
    key: Key,
    entry: EntryId,
    identity: Identity,
    readyAt: int,
    leases: set<LeaseId>,
    retired: bool,
    closed: bool,
    idleTimer: Option<int>,
    hardTimer: Option<int>)

  /** `reused` tells a lease on the installed connection from one on a connection this call
      waited for. */
  datatype Lease = Lease(
    conn: ConnId,
    expired: bool,
    released: bool,
    timer: Option<int>,
    takenAt: int,
    deadlineMs: int,
    reused: bool)

  datatype Status = Awaits(open: OpenId) | Given(lease: LeaseId) | Rejected

  /** One call of `lease` that has not thrown for its deadline. */
  datatype Call = Call(key: Key, identity: Identity, deadlineMs: int, status: Status)

  datatype State = State(
    now: int,
    entries: map<Key, EntryId>,
    entry: map<EntryId, Entry>,
    attempts: map<OpenId, Attempt>,
    conn: map<ConnId, Connection>,
    lease: map<LeaseId, Lease>,
    calls: map<CallId, Call>,
    generations: nat,
    opens: nat,
    leaseCount: int,
    ch: Channels)

  // ---- Reference integrity ----

  ghost predicate Linked(s: State) {
    && (forall k :: k in s.entries ==> s.entries[k] in s.entry)
    && (forall e :: e in s.entry ==> EntryLinked(s.entry[e], s.conn))
    && (forall c :: c in s.conn ==> s.conn[c].entry in s.entry && c in s.attempts)
    && (forall l :: l in s.lease ==> s.lease[l].conn in s.conn)
    && (forall o :: o in s.attempts ==> s.attempts[o].entry in s.entry)
    && WF(s.ch)
    && s.ch.limiters.Keys == s.conn.Keys
    && s.ch.connOps.Keys == s.conn.Keys
    && s.ch.leaseOps.Keys == s.lease.Keys
  }

  ghost predicate EntryLinked(entry: Entry, conn: map<ConnId, Connection>) {
    entry.connections <= conn.Keys && (entry.installed.Some? ==> entry.installed.value in conn)
  }

  /** The rows stay; only what they say changes. */
  ghost predicate SameRows(a: State, b: State) {
    && b.entry.Keys == a.entry.Keys
    && b.attempts.Keys == a.attempts.Keys
    && b.conn.Keys == a.conn.Keys
    && b.lease.Keys == a.lease.Keys
    && b.calls == a.calls
    && b.now == a.now
    && b.opens == a.opens
  }

  /** Rows that keep their links, and entries that list no more than they did, stay linked. */
  lemma Relink(a: State, b: State)
    requires Linked(a) && SameRows(a, b) && b.entries == a.entries && b.ch == a.ch
    requires forall c :: c in a.conn ==> b.conn[c].entry == a.conn[c].entry
    requires forall l :: l in a.lease ==> b.lease[l].conn == a.lease[l].conn
    requires forall o :: o in a.attempts ==> b.attempts[o].entry == a.attempts[o].entry
    requires forall e :: e in a.entry ==>
      && b.entry[e].connections <= a.entry[e].connections
      && (b.entry[e].installed == a.entry[e].installed || b.entry[e].installed == None)
    ensures Linked(b)
  {
    hide WF, EntryLinked;
    forall e | e in b.entry ensures EntryLinked(b.entry[e], b.conn) {
      RelinkEntry(a.entry[e], b.entry[e], a.conn, b.conn);
    }
  }

  lemma RelinkEntry(a: Entry, b: Entry, was: map<ConnId, Connection>, conn: map<ConnId, Connection>)
    requires EntryLinked(a, was) && conn.Keys == was.Keys
    requires b.connections <= a.connections && (b.installed == a.installed || b.installed == None)
    ensures EntryLinked(b, conn)
  {
  }

  predicate Usable(s: State, c: ConnId, identity: Identity)
    requires c in s.conn && c in s.attempts
  {
    && !s.conn[c].closed
    && !s.conn[c].retired
    && s.attempts[c].ready
    && SameIdentity(s.conn[c].identity, identity)
  }

  /** Channels for exactly this state's connections and leases. */
  ghost predicate Fits(s: State, ch: Channels) {
    && WF(ch)
    && ch.limiters.Keys == s.conn.Keys
    && ch.connOps.Keys == s.conn.Keys
    && ch.leaseOps.Keys == s.lease.Keys
  }

  ghost function WithChannels(s: State, ch: Channels): (r: State)
    requires Linked(s) && Fits(s, ch)
    ensures Linked(r) && r == s.(ch := ch)
  {
    hide WF;
    s.(ch := ch)
  }

  // ---- Connections ----

  ghost function Prune(s: State, key: Key, e: EntryId): (r: State)
    requires Linked(s) && e in s.entry
    ensures Linked(r) && r == s.(entries := r.entries)
  {
    if s.entry[e].connections != {} || s.entry[e].pending.Some? then s
    else if key in s.entries && s.entries[key] == e then s.(entries := s.entries - {key})
    else s
  }

  function Uninstall(entry: Entry, c: ConnId): Entry {
    entry.(installed := if entry.installed == Some(c) then None else entry.installed)
  }

  /** What `shutDown` writes on the connection, its entry and its transport. */
  ghost function MarkClosed(s: State, c: ConnId, how: How): (r: State)
    requires Linked(s) && c in s.conn
    ensures Linked(r) && SameRows(s, r) && r.ch == s.ch
  {
    hide WF, EntryLinked;
    var connection := s.conn[c];
    var entry := s.entry[connection.entry];
    var r :=
      s.(conn := s.conn[c := connection.(closed := true, idleTimer := None, hardTimer := None)],
         entry := s.entry[connection.entry := Uninstall(entry, c).(connections := entry.connections - {c})],
         attempts := s.attempts[c := s.attempts[c].(disposals := s.attempts[c].disposals + [how])]);
    Relink(s, r);
    r
  }

  /** `shutDown` up to its last line. */
  ghost function Close(s: State, c: ConnId, how: How): (r: State)
    requires Linked(s) && c in s.conn
    ensures Linked(r) && SameRows(s, r)
  {
    hide WF, MarkClosed;
    WithChannels(MarkClosed(s, c, how), AbandonConnection(s.ch, c))
  }

  ghost function ShutDown(s: State, c: ConnId, how: How): (r: State)
    requires Linked(s) && c in s.conn
    ensures Linked(r) && SameRows(s, r)
  {
    if s.conn[c].closed then s
    else Prune(Close(s, c, how), s.conn[c].key, s.conn[c].entry)
  }

  ghost function ShutDownAll(s: State, ids: set<ConnId>): (r: State)
    requires Linked(s) && ids <= s.conn.Keys
    ensures Linked(r) && SameRows(s, r)
    decreases ids
  {
    if ids == {} then s
    else
      var c := Least(ids);
      ShutDownAll(ShutDown(s, c, Destroy), ids - {c})
  }

  ghost function Retire(s: State, c: ConnId): (r: State)
    requires Linked(s) && c in s.conn
    ensures Linked(r) && SameRows(s, r)
  {
    hide WF, EntryLinked;
    var e := s.conn[c].entry;
    var r := s.(conn := s.conn[c := s.conn[c].(retired := true)],
                entry := s.entry[e := Uninstall(s.entry[e], c)]);
    Relink(s, r);
    r
  }

  ghost function ArmIdle(cfg: Config, s: State, c: ConnId): (r: State)
    requires Linked(s) && c in s.conn
    ensures Linked(r) && SameRows(s, r)
  {
    hide WF;
    s.(conn := s.conn[c := s.conn[c].(idleTimer := Some(s.now + cfg.idleMs))])
  }

  ghost function AfterLastLease(cfg: Config, s: State, c: ConnId): (r: State)
    requires Linked(s) && c in s.conn
    ensures Linked(r) && SameRows(s, r)
  {
    if s.conn[c].closed || s.conn[c].leases != {} then s
    else if s.conn[c].retired then ShutDown(s, c, Destroy)
    else if s.entry[s.conn[c].entry].installed != Some(c) then ShutDown(s, c, End)
    else ArmIdle(cfg, s, c)
  }

  // ---- Leases ----

  ghost function MarkExpired(s: State, l: LeaseId): (r: State)
    requires Linked(s) && l in s.lease
    ensures Linked(r) && SameRows(s, r) && r.ch == s.ch && r.conn == s.conn
  {
    s.(lease := s.lease[l := s.lease[l].(expired := true, timer := None)])
  }

  /** `expire`: the deadline retires the connection exactly if an operation had been admitted. */
  ghost function Expire(s: State, l: LeaseId): (r: State)
    requires Linked(s) && l in s.lease
    ensures Linked(r) && SameRows(s, r)
  {
    hide WF, MarkExpired;
    var done := WithChannels(MarkExpired(s, l), AbandonLease(s.ch, l, AtDeadline));
    if Admitted(s.ch, l) then Retire(done, s.lease[l].conn) else done
  }

  ghost function MarkReleased(s: State, l: LeaseId): (r: State)
    requires Linked(s) && l in s.lease
    ensures Linked(r) && SameRows(s, r) && r.ch == s.ch
  {
    hide WF, EntryLinked;
    var c := s.lease[l].conn;
    var r := s.(lease := s.lease[l := s.lease[l].(released := true, timer := None)],
                leaseCount := s.leaseCount - 1,
                conn := s.conn[c := s.conn[c].(leases := s.conn[c].leases - {l})]);
    Relink(s, r);
    r
  }

  ghost function GiveBack(s: State, l: LeaseId): (r: State)
    requires Linked(s) && l in s.lease
    ensures Linked(r) && SameRows(s, r)
  {
    hide WF, MarkReleased;
    WithChannels(MarkReleased(s, l), AbandonLease(s.ch, l, ConnectionLost))
  }

  ghost function Release(cfg: Config, s: State, l: LeaseId): (r: State)
    requires Linked(s) && l in s.lease
    ensures Linked(r) && SameRows(s, r)
  {
    if s.lease[l].released then s else AfterLastLease(cfg, GiveBack(s, l), s.lease[l].conn)
  }

  ghost function Checkout(s: State, c: ConnId, deadlineMs: int, l: LeaseId, reused: bool): (r: State)
    requires Linked(s) && c in s.conn && l !in s.lease
    ensures Linked(r)
  {
    hide WF;
    s.(conn := s.conn[c := s.conn[c].(idleTimer := None, leases := s.conn[c].leases + {l})],
       lease := s.lease[l := Lease(c, false, false, Some(s.now + deadlineMs), s.now, deadlineMs, reused)],
       leaseCount := s.leaseCount + 1,
       ch := AddLease(s.ch, l))
  }

  // ---- Opens ----

  function EmptyEntry(key: Key, generation: nat): Entry {
    Entry(key, generation, None, None, {}, 0, 0)
  }

  /** `entryFor`: the entry made for a key is named after the generation it starts with. */
  ghost function EntryFor(s: State, key: Key): (r: State)
    requires Linked(s)
    ensures Linked(r) && key in r.entries
  {
    if key in s.entries then s
    else
      var g := s.generations + 1;
      s.(generations := g,
         entries := s.entries[key := g],
         entry := if g in s.entry then s.entry else s.entry[g := EmptyEntry(key, g)])
  }

  ghost function StartOpen(s: State, key: Key, e: EntryId, identity: Identity): (r: State)
    requires Linked(s) && e in s.entry
    ensures Linked(r) && r.opens == s.opens + 1 && r.opens in r.attempts
  {
    hide WF;
    var o := s.opens + 1;
    var entry := s.entry[e];
    s.(opens := o,
       attempts := s.attempts[o := Attempt(key, e, identity, entry.generation, entry.evictions, Opening, false, [])],
       entry := s.entry[e := entry.(pending := Some(Pending(o, identity, entry.generation)), lastOpen := o)])
  }

  predicate IsPending(entry: Entry, o: OpenId) {
    entry.pending.Some? && entry.pending.value.id == o
  }

  function Clear(entry: Entry, o: OpenId): (r: Entry)
    ensures r.connections == entry.connections && r.installed == entry.installed
  {
    if IsPending(entry, o) then entry.(pending := None) else entry
  }

  /** `giveUp` before it prunes the entry. */
  ghost function Refuse(s: State, o: OpenId): (r: State)
    requires Linked(s) && o in s.attempts
    ensures Linked(r) && SameRows(s, r)
  {
    hide WF, EntryLinked, Clear;
    var attempt := s.attempts[o];
    var e := attempt.entry;
    var r := s.(attempts := s.attempts[o := attempt.(phase := GaveUp, disposals := attempt.disposals + [Destroy])],
                entry := s.entry[e := Clear(s.entry[e], o)]);
    Relink(s, r);
    r
  }

  ghost function GiveUpOpen(s: State, o: OpenId): (r: State)
    requires Linked(s) && o in s.attempts
    ensures Linked(r) && SameRows(s, r)
  {
    var e := s.attempts[o].entry;
    if IsPending(s.entry[e], o) then Prune(Refuse(s, o), s.attempts[o].key, e) else Refuse(s, o)
  }

  /** `install` up to what it does about the connection it replaces. */
  ghost function PutIn(cfg: Config, s: State, o: OpenId): (r: State)
    requires Linked(s) && o in s.attempts && o !in s.conn
    ensures Linked(r) && o in r.conn
  {
    var attempt := s.attempts[o];
    var entry := s.entry[attempt.entry];
    s.(attempts := s.attempts[o := attempt.(phase := Landed)],
       conn := s.conn[o := Connection(attempt.key, attempt.entry, attempt.identity, s.now, {}, false, false,
                                      None, Some(s.now + cfg.hardAgeMs))],
       entry := s.entry[attempt.entry := entry.(pending := None, installed := Some(o),
                                                connections := entry.connections + {o})],
       ch := AddConnection(s.ch, o))
  }

  ghost function Install(cfg: Config, s: State, o: OpenId): (r: State)
    requires Linked(s) && o in s.attempts && o !in s.conn
    ensures Linked(r) && o in r.conn
  {
    var previous := s.entry[s.attempts[o].entry].installed;
    var next := PutIn(cfg, s, o);
    if previous.None? then next
    else if !SameIdentity(s.conn[previous.value].identity, s.attempts[o].identity)
    then ShutDown(next, previous.value, Destroy)
    else AfterLastLease(cfg, next, previous.value)
  }

  predicate Current(s: State, o: OpenId)
    requires o in s.attempts && s.attempts[o].entry in s.entry
  {
    var entry := s.entry[s.attempts[o].entry];
    IsPending(entry, o) && entry.generation == s.attempts[o].generation
  }

  /** The part of `startOpen` that runs once `open` has answered. */
  ghost function FinishOpen(cfg: Config, s: State, o: OpenId, ok: bool): (r: State)
    requires Linked(s) && o in s.attempts && o !in s.conn
    ensures Linked(r)
  {
    if ok && Current(s, o) && s.attempts[o].ready then Install(cfg, s, o) else GiveUpOpen(s, o)
  }

  ghost predicate Joinable(s: State, e: EntryId, identity: Identity)
    requires e in s.entry
  {
    var pending := s.entry[e].pending;
    pending.Some? && pending.value.generation == s.entry[e].generation && SameIdentity(pending.value.identity, identity)
  }

  /** The rest of `lease`'s round once no installed connection will do. */
  ghost function Await(s: State, k: CallId, key: Key, e: EntryId, identity: Identity, deadlineMs: int): (r: State)
    requires Linked(s) && e in s.entry
    ensures Linked(r)
  {
    if Joinable(s, e, identity)
    then s.(calls := s.calls[k := Call(key, identity, deadlineMs, Awaits(s.entry[e].pending.value.id))])
    else
      var r := StartOpen(s, key, e, identity);
      r.(calls := s.calls[k := Call(key, identity, deadlineMs, Awaits(r.opens))])
  }

  /** One turn of `lease`'s loop. */
  ghost function LeaseRound(cfg: Config, s: State, k: CallId, key: Key, identity: Identity, deadlineMs: int, l: LeaseId)
    : (r: State)
    requires Linked(s) && l !in s.lease
    ensures Linked(r)
  {
    var found := EntryFor(s, key);
    var e := found.entries[key];
    var installed := found.entry[e].installed;
    if installed.Some? && !Usable(found, installed.value, identity)
    then Await(ShutDown(found, installed.value, Destroy), k, key, e, identity, deadlineMs)
    else if installed.Some? && found.conn[installed.value].readyAt + cfg.hardAgeMs >= found.now + deadlineMs
    then
      var r := Checkout(found, installed.value, deadlineMs, l, true);
      r.(calls := found.calls[k := Call(key, identity, deadlineMs, Given(l))])
    else Await(found, k, key, e, identity, deadlineMs)
  }

  predicate DeadlineFits(cfg: Config, deadlineMs: int) {
    0 < deadlineMs < cfg.hardAgeMs
  }

  /** `lease` from its call to its first `await`; a deadline that does not fit throws. */
  ghost function LeaseCall(cfg: Config, s: State, k: CallId, key: Key, identity: Identity, deadlineMs: int, l: LeaseId)
    : (r: State)
    requires Linked(s) && l !in s.lease
    ensures Linked(r)
  {
    if DeadlineFits(cfg, deadlineMs) then LeaseRound(cfg, s, k, key, identity, deadlineMs, l) else s
  }

  /** `lease` after the open it waited for is over. */
  ghost function Resume(cfg: Config, s: State, k: CallId, l: LeaseId): (r: State)
    requires Linked(s) && l !in s.lease && k in s.calls && s.calls[k].status.Awaits?
    requires s.calls[k].status.open in s.attempts
    ensures Linked(r)
  {
    var call := s.calls[k];
    var o := call.status.open;
    if o !in s.conn then s.(calls := s.calls[k := call.(status := Rejected)])
    else if Usable(s, o, call.identity) then
      var r := Checkout(s, o, call.deadlineMs, l, false);
      r.(calls := s.calls[k := call.(status := Given(l))])
    else LeaseRound(cfg, s, k, call.key, call.identity, call.deadlineMs, l)
  }

  ghost function Evict(s: State, key: Key): (r: State)
    requires Linked(s)
    ensures Linked(r)
  {
    if key !in s.entries then s
    else
      var e := s.entries[key];
      var entry := s.entry[e];
      var g := s.generations + 1;
      var bumped := s.(generations := g, entry := s.entry[e := entry.(generation := g, evictions := entry.evictions + 1)]);
      Prune(ShutDownAll(bumped, entry.connections), key, e)
  }

  // ---- Operations ----

  /** What `begin` answers at once instead of making an operation. */
  function Refusal(s: State, l: LeaseId): Option<Answer>
    requires l in s.lease && s.lease[l].conn in s.conn
  {
    if s.lease[l].released || s.conn[s.lease[l].conn].closed then Some(Lost)
    else if s.lease[l].expired then Some(QueueExpired)
    else None
  }

  ghost function Ask(cfg: Config, s: State, l: LeaseId, kind: Kind, o: OpId): (r: State)
    requires Linked(s) && l in s.lease && o !in s.ch.ops
    ensures Linked(r)
  {
    if Refusal(s, l).Some? then s
    else s.(ch := Begin(s.ch, o, l, s.lease[l].conn, kind, cfg.channelLimit))
  }

  /** `outcomeOf` for an error, the result otherwise. */
  function Outcome(s: State, c: ConnId, ok: bool): Answer
    requires c in s.conn && c in s.attempts
  {
    if ok then Replied else if s.conn[c].closed || !s.attempts[c].ready then Lost else Failed
  }
}
