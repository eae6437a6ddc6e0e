/** What holds of the pool between any two synchronous stretches of its code. */
module ReadPoolInvariant {
  import opened Options
  import opened Channels
  import opened ReadPool

  // ---- Rows ----

  ghost predicate Alive(entry: Entry) {
    entry.pending.Some? || entry.connections != {}
  }

  /** The pending open is the entry's latest one for as long as that is still opening. */
  ghost predicate PendingRow(e: EntryId, entry: Entry, attempts: map<OpenId, Attempt>) {
    if entry.lastOpen == 0 then entry.pending == None
    else
      && entry.lastOpen in attempts
      && attempts[entry.lastOpen].entry == e
      && entry.pending == (if attempts[entry.lastOpen].phase != Opening then None
                           else Some(Pending(entry.lastOpen, attempts[entry.lastOpen].identity,
                                             attempts[entry.lastOpen].generation)))
  }

  /** An entry lists its open connections; the installed one is among them and not retired. */
  ghost predicate EntryRow(e: EntryId, entry: Entry, conn: map<ConnId, Connection>) {
    && (forall c :: c in entry.connections ==> c in conn && conn[c].entry == e && !conn[c].closed)
    && (entry.installed.Some? ==> entry.installed.value in entry.connections && !conn[entry.installed.value].retired)
  }

  /** An open that is no older than its entry's generation has met no evict, and a transport is
      disposed of exactly once: when its open was refused or its connection closed. */
  ghost predicate AttemptRow(o: OpenId, attempt: Attempt, entry: Entry, conn: map<ConnId, Connection>, opens: nat) {
    && 0 < o <= opens
    && o <= entry.lastOpen
    && attempt.key == entry.key
    && attempt.generation <= entry.generation && attempt.evictions <= entry.evictions
    && (attempt.generation == entry.generation <==> attempt.evictions == entry.evictions)
    && (o in conn <==> attempt.phase == Landed)
    && |attempt.disposals| == (if attempt.phase == GaveUp || (o in conn && conn[o].closed) then 1 else 0)
  }

  /** A connection is what its open asked for; while open it is listed and its hard-age timer
      runs, once closed it has no timer and no operation. */
  ghost predicate ConnRow(cfg: Config, c: ConnId, connection: Connection, attempt: Attempt, entry: Entry,
                          ops: set<OpId>, now: int) {
    && connection.key == attempt.key && connection.entry == attempt.entry && connection.identity == attempt.identity
    && connection.readyAt <= now
    && (if connection.closed
        then connection.hardTimer == None && connection.idleTimer == None && ops == {}
        else c in entry.connections && connection.hardTimer == Some(connection.readyAt + cfg.hardAgeMs))
  }

  ghost predicate HeldRow(c: ConnId, connection: Connection, lease: map<LeaseId, Lease>) {
    forall l :: l in connection.leases ==> l in lease && lease[l].conn == c && !lease[l].released
  }

  /** A lease is in its connection's set until it is released, its timer runs until it is
      released or expires, and it has no operation after either. */
  ghost predicate LeaseRow(cfg: Config, l: LeaseId, lease: Lease, connection: Connection, ops: set<OpId>, now: int) {
    && (!lease.released ==> l in connection.leases)
    && (lease.expired || lease.released ==> ops == {})
    && lease.timer == (if lease.expired || lease.released then None else Some(lease.takenAt + lease.deadlineMs))
    && DeadlineFits(cfg, lease.deadlineMs)
    && connection.readyAt <= lease.takenAt <= now
    && (lease.reused ==> lease.takenAt + lease.deadlineMs <= connection.readyAt + cfg.hardAgeMs)
  }

  ghost predicate CallRow(cfg: Config, call: Call, attempts: map<OpenId, Attempt>, lease: map<LeaseId, Lease>) {
    && DeadlineFits(cfg, call.deadlineMs)
    && match call.status
       case Awaits(o) => o in attempts && attempts[o].identity == call.identity && attempts[o].key == call.key
       case Given(l) => l in lease
       case Rejected => true
  }

  /** An open connection nobody leases is its entry's installed one, and only such a
      connection has its idle timer running. */
  ghost predicate SettledRow(c: ConnId, connection: Connection, entry: Entry) {
    connection.closed ||
    (&& (connection.leases == {} ==> entry.installed == Some(c))
     && (connection.idleTimer.Some? ==> entry.installed == Some(c) && connection.leases == {}))
  }

  // ---- Tables ----

  /** Every mapped entry belongs to its key and, `but` aside, is in use. */
  ghost predicate Registry(s: State, but: set<EntryId>)
    requires Linked(s)
  {
    forall k :: k in s.entries ==>
      s.entry[s.entries[k]].key == k && (s.entries[k] in but || Alive(s.entry[s.entries[k]]))
  }

  ghost predicate Entries(s: State) {
    forall e :: e in s.entry ==> EntryRow(e, s.entry[e], s.conn)
  }

  ghost predicate Pendings(s: State) {
    forall e :: e in s.entry ==> PendingRow(e, s.entry[e], s.attempts)
  }

  ghost predicate Named(s: State) {
    forall e :: e in s.entry ==> 0 < e <= s.generations && s.entry[e].generation <= s.generations
  }

  ghost predicate Attempts(s: State)
    requires Linked(s)
  {
    forall o :: o in s.attempts ==> AttemptRow(o, s.attempts[o], s.entry[s.attempts[o].entry], s.conn, s.opens)
  }

  ghost predicate Conns(cfg: Config, s: State)
    requires Linked(s)
  {
    forall c :: c in s.conn ==>
      && ConnRow(cfg, c, s.conn[c], s.attempts[c], s.entry[s.conn[c].entry], s.ch.connOps[c], s.now)
      && HeldRow(c, s.conn[c], s.lease)
  }

  ghost predicate Leases(cfg: Config, s: State)
    requires Linked(s)
  {
    forall l :: l in s.lease ==> LeaseRow(cfg, l, s.lease[l], s.conn[s.lease[l].conn], s.ch.leaseOps[l], s.now)
  }

  ghost predicate Owned(ch: Channels, lease: map<LeaseId, Lease>) {
    forall o :: o in ch.ops ==> ch.ops[o].lease in lease && ch.ops[o].conn == lease[ch.ops[o].lease].conn
  }

  ghost function Unreleased(lease: map<LeaseId, Lease>): set<LeaseId> {
    set l | l in lease && !lease[l].released
  }

  ghost predicate Calls(cfg: Config, s: State) {
    forall k :: k in s.calls ==> CallRow(cfg, s.calls[k], s.attempts, s.lease)
  }

  ghost predicate SettledBut(s: State, but: set<ConnId>)
    requires Linked(s)
  {
    forall c :: c in s.conn && c !in but ==> SettledRow(c, s.conn[c], s.entry[s.conn[c].entry])
  }

  /** Everything but the claim about connections nobody leases. `but` names entries that may be
      in the map although nothing uses them. */
  ghost predicate Base(cfg: Config, s: State, but: set<EntryId>) {
    && Linked(s)
    && Registry(s, but)
    && Entries(s)
    && Pendings(s)
    && Named(s)
    && Attempts(s)
    && Conns(cfg, s)
    && Leases(cfg, s)
    && Calls(cfg, s)
    && Owned(s.ch, s.lease)
    && s.leaseCount == |Unreleased(s.lease)|
    && Valid(s.ch, cfg.channelLimit)
  }

  ghost predicate PoolValid(cfg: Config, s: State) {
    Base(cfg, s, {}) && SettledBut(s, {})
  }
}
