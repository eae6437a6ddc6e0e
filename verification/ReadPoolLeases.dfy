/** What the pool promises about the leases it hands out. */
module ReadPoolLeases {
  import opened Options
  import opened Channels
  import opened ReadPool
  import opened ReadPoolInvariant
  import opened ReadPoolProofs
  import opened ReadPoolOpenProofs
  import opened ReadPoolRuns
  import opened ReadPoolHistory
  import opened ReadPoolTheorems

  // ---- Hand-out ----

  /** The event is a turn of a call that asked for this key, identity and deadline, and `l` is
      the name its lease gets. */
  ghost predicate AsksFor(s: State, ev: Event, key: Key, identity: Identity, deadlineMs: int, l: LeaseId) {
    match ev
    case LeaseCalled(_, wantedKey, wanted, wantedMs, given) =>
      wantedKey == key && wanted == identity && wantedMs == deadlineMs && given == l
    case CallResumes(k, given) =>
      && k in s.calls && s.calls[k].key == key && s.calls[k].identity == identity && s.calls[k].deadlineMs == deadlineMs
      && given == l
    case _ => false
  }

  /** The lease is on a connection of this key that is open, not retired, ready and of this
      identity. */
  ghost predicate WellGiven(s: State, l: LeaseId, key: Key, identity: Identity, deadlineMs: int) {
    && l in s.lease && s.lease[l].conn in s.conn && s.lease[l].conn in s.attempts
    && Suits(s, s.lease[l].conn, identity) && s.conn[s.lease[l].conn].key == key
    && s.lease[l].deadlineMs == deadlineMs && s.lease[l].takenAt == s.now
    && l in s.conn[s.lease[l].conn].leases
  }

  /** A lease comes into being only for a call that asked, and on a connection that suits it. */
  lemma HandOutSafety(cfg: Config, run: seq<State>, events: seq<Event>, i: nat, l: LeaseId)
    requires IsRun(cfg, run, events) && i < |events| && l !in run[i].lease && l in run[i + 1].lease
    ensures exists key, identity, deadlineMs ::
      AsksFor(run[i], events[i], key, identity, deadlineMs, l) && WellGiven(run[i + 1], l, key, identity, deadlineMs)
  {
    hide PoolValid, Linked, Step, Enabled, Later;
    RunValid(cfg, run, events, i);
    assert Follows(cfg, run[i], events[i], run[i + 1]);
    StepLater(cfg, run[i], events[i]);
    match events[i]
    case LeaseCalled(k, key, identity, deadlineMs, _) =>
      assert AsksFor(run[i], events[i], key, identity, deadlineMs, l);
      assert WellGiven(run[i + 1], l, key, identity, deadlineMs);
    case CallResumes(k, _) =>
      var call := run[i].calls[k];
      assert AsksFor(run[i], events[i], call.key, call.identity, call.deadlineMs, l);
      assert WellGiven(run[i + 1], l, call.key, call.identity, call.deadlineMs);
    case _ =>
  }

  /** A connection that is closed or retired gets no lease it did not have, in no later state. */
  lemma {:induction false} NeverLeasedAgain(cfg: Config, run: seq<State>, events: seq<Event>, i: nat, j: nat, c: ConnId, l: LeaseId)
    requires IsRun(cfg, run, events) && i <= j < |run| && c in run[i].conn
    requires (run[i].conn[c].closed || run[i].conn[c].retired)
    requires l in run[j].lease && run[j].lease[l].conn == c
    ensures l in run[i].lease
    decreases j
  {
    hide PoolValid, Linked, Step, Enabled, Progress;
    if i < j {
      if l in run[j - 1].lease {
        RunLater(cfg, run, events, j - 1, j);
        NeverLeasedAgain(cfg, run, events, i, j - 1, c, l);
      } else {
        RunLater(cfg, run, events, i, j);
        HandOutSafety(cfg, run, events, j - 1, l);
      }
    }
  }

  // ---- Retirement ----

  ghost predicate RetiredAt(run: seq<State>, events: seq<Event>, i: nat, c: ConnId) {
    && i < |events| && i < |run| && Linked(run[i]) && Enabled(run[i], events[i])
    && c in run[i].conn && Retires(run[i], events[i], c)
  }

  /** A connection is retired exactly if, at some time, the deadline of one of its leases
      fired while an operation of that lease held a channel. */
  lemma {:induction false} RetiredExactly(cfg: Config, run: seq<State>, events: seq<Event>, j: nat, c: ConnId)
    requires IsRun(cfg, run, events) && j < |run| && c in run[j].conn
    ensures run[j].conn[c].retired <==> exists i: nat :: i < j && RetiredAt(run, events, i, c)
    decreases j
  {
    hide PoolValid, Linked, Step, Enabled, Later, Retires, HandsOut;
    if j > 0 {
      var s, ev := run[j - 1], events[j - 1];
      assert Follows(cfg, s, ev, run[j - 1 + 1]);
      RunValid(cfg, run, events, j - 1);
      if c in s.conn {
        RetiredExactly(cfg, run, events, j - 1, c);
        StepLater(cfg, s, ev);
        assert run[j].conn[c].retired == (s.conn[c].retired || RetiredAt(run, events, j - 1, c));
      } else {
        NewConnection(cfg, s, ev, c);
        forall i: nat | i < j ensures !RetiredAt(run, events, i, c) {
          if RetiredAt(run, events, i, c) { StillThere(cfg, run, events, i, j - 1, c); }
        }
      }
    }
  }

  lemma StillThere(cfg: Config, run: seq<State>, events: seq<Event>, i: nat, j: nat, c: ConnId)
    requires IsRun(cfg, run, events) && i <= j < |run| && c in run[i].conn
    ensures c in run[j].conn
  {
    hide IsRun, Progress;
    RunLater(cfg, run, events, i, j);
  }

  /** A connection comes into being only as its open's answer is installed, and not retired. */
  lemma NewConnection(cfg: Config, s: State, ev: Event, c: ConnId)
    requires PoolValid(cfg, s) && Linked(s) && Enabled(s, ev)
    requires c !in s.conn && c in Step(cfg, s, ev).conn
    ensures ev.OpenAnswers? && ev.open == c && !Step(cfg, s, ev).conn[c].retired && !Step(cfg, s, ev).conn[c].closed
  {
    hide PoolValid, Linked, SetReady, LeaseCall, Resume, FinishOpen, Ask, Release, Expire, ShutDown, Evict, Operate,
      WithChannels;
    match ev
    case OpenAnswers(p, ok) =>
      FinishOpenConns(cfg, s, p, ok);
      LinkedAttempt(s, p);
      InstalledExactly(cfg, s, p, ok);
    case LeaseCalled(k, key, identity, deadlineMs, l) => LeaseCallConns(cfg, s, k, key, identity, deadlineMs, l);
    case CallResumes(k, l) => ResumeConns(cfg, s, k, l);
    case Asked(l, kind, p) => AskConns(cfg, s, l, kind, p);
    case Evicted(key) => EvictConns(s, key);
    case TransportSays(p, ready) => SetReadyConns(s, p, ready);
    case _ => OperateConns(cfg, s, ev);
  }

  // ---- The count ----

  ghost function SumOfLeases(conn: map<ConnId, Connection>, ids: set<ConnId>): nat
    requires ids <= conn.Keys
    decreases ids
  {
    if ids == {} then 0
    else
      var c := Least(ids);
      |conn[c].leases| + SumOfLeases(conn, ids - {c})
  }

  ghost function LeasesOn(lease: map<LeaseId, Lease>, ids: set<ConnId>): set<LeaseId> {
    set l | l in lease && !lease[l].released && lease[l].conn in ids
  }

  /** A connection's set holds exactly its leases that are not released. */
  ghost predicate SetsExact(s: State) {
    forall c :: c in s.conn ==> s.conn[c].leases == LeasesOn(s.lease, {c})
  }

  lemma SetsAreExact(cfg: Config, s: State)
    requires PoolValid(cfg, s)
    ensures SetsExact(s) && s.leaseCount == |Unreleased(s.lease)|
    ensures LeasesOn(s.lease, s.conn.Keys) == Unreleased(s.lease)
  {
    hide Registry, Entries, Pendings, Named, Attempts, Calls, Owned, Valid, WF, EntryLinked, SettledBut, ConnRow;
    forall l | l in s.lease ensures !s.lease[l].released ==> l in s.conn[s.lease[l].conn].leases {
      assert LeaseRow(cfg, l, s.lease[l], s.conn[s.lease[l].conn], s.ch.leaseOps[l], s.now);
    }
    forall c | c in s.conn ensures s.conn[c].leases == LeasesOn(s.lease, {c}) {
      assert HeldRow(c, s.conn[c], s.lease);
    }
  }

  lemma {:induction false} SumCounts(s: State, ids: set<ConnId>)
    requires SetsExact(s) && ids <= s.conn.Keys
    ensures SumOfLeases(s.conn, ids) == |LeasesOn(s.lease, ids)|
    decreases ids
  {
    if ids == {} {
      assert LeasesOn(s.lease, {}) == {};
    } else {
      var c := Least(ids);
      SumCounts(s, ids - {c});
      assert LeasesOn(s.lease, ids) == LeasesOn(s.lease, {c}) + LeasesOn(s.lease, ids - {c});
      assert LeasesOn(s.lease, {c}) !! LeasesOn(s.lease, ids - {c});
    }
  }

  /** `activeLeases` is the sum of the sizes of all lease sets. */
  lemma LeasesCounted(cfg: Config, run: seq<State>, events: seq<Event>, i: nat)
    requires IsRun(cfg, run, events) && i < |run|
    ensures run[i].leaseCount == SumOfLeases(run[i].conn, run[i].conn.Keys)
  {
    hide PoolValid, IsRun;
    RunValid(cfg, run, events, i);
    SetsAreExact(cfg, run[i]);
    SumCounts(run[i], run[i].conn.Keys);
  }

  // ---- Deadlines ----

  /** A lease nobody has given back and whose deadline has not fired. */
  ghost predicate Running(s: State, l: LeaseId) {
    l in s.lease && !s.lease[l].released && !s.lease[l].expired
  }

  /** A running lease's timer is set for its deadline, its connection's for the hard age, and a
      lease on a reused connection, or on a fresh one whose caller resumes at the instant it was
      installed, was taken soon enough to end before the hard age. */
  lemma DeadlineFitsHardAge(cfg: Config, run: seq<State>, events: seq<Event>, i: nat, l: LeaseId)
    requires IsRun(cfg, run, events) && i < |run| && Running(run[i], l)
    ensures var s := run[i]; var lease := s.lease[l]; lease.conn in s.conn
    ensures var s := run[i]; var lease := s.lease[l]; var connection := s.conn[lease.conn];
      && lease.timer == Some(lease.takenAt + lease.deadlineMs)
      && (!connection.closed ==>
            && connection.hardTimer.Some?
            && (lease.timer.value <= connection.hardTimer.value <==>
                lease.takenAt - connection.readyAt <= cfg.hardAgeMs - lease.deadlineMs))
      && (lease.reused || lease.takenAt == connection.readyAt ==>
            lease.takenAt - connection.readyAt <= cfg.hardAgeMs - lease.deadlineMs)
  {
    hide PoolValid, IsRun;
    RunValid(cfg, run, events, i);
    LeaseAt(cfg, run[i], l);
  }

  lemma LeaseAt(cfg: Config, s: State, l: LeaseId)
    requires PoolValid(cfg, s) && l in s.lease
    ensures s.lease[l].conn in s.conn && l in s.ch.leaseOps && s.lease[l].conn in s.attempts
    ensures s.conn[s.lease[l].conn].entry in s.entry && s.lease[l].conn in s.ch.connOps
    ensures LeaseRow(cfg, l, s.lease[l], s.conn[s.lease[l].conn], s.ch.leaseOps[l], s.now)
    ensures var c := s.lease[l].conn;
      ConnRow(cfg, c, s.conn[c], s.attempts[c], s.entry[s.conn[c].entry], s.ch.connOps[c], s.now)
  {
    hide Registry, Entries, Pendings, Named, Attempts, Calls, Owned, Valid, WF, EntryLinked, SettledBut, ConnRow,
      LeaseRow;
  }

  /** When the hard age fires, every lease on the connection that was taken soon enough after it
      became ready has already reached its own deadline: none is cut short. */
  lemma NeverCutShort(cfg: Config, run: seq<State>, events: seq<Event>, i: nat, l: LeaseId)
    requires IsRun(cfg, run, events) && i < |run| && Running(run[i], l)
    requires Enabled(run[i], HardAgeFires(run[i].lease[l].conn)) && TakenSoon(cfg, run[i], l)
    ensures Enabled(run[i], DeadlineFires(l))
  {
    hide PoolValid, IsRun;
    RunValid(cfg, run, events, i);
    LeaseAt(cfg, run[i], l);
  }

  ghost predicate TakenSoon(cfg: Config, s: State, l: LeaseId) {
    && l in s.lease && s.lease[l].conn in s.conn
    && s.lease[l].takenAt - s.conn[s.lease[l].conn].readyAt <= cfg.hardAgeMs - s.lease[l].deadlineMs
  }

  ghost predicate OnOpenConnection(s: State, l: LeaseId) {
    l in s.lease && s.lease[l].conn in s.conn && !s.conn[s.lease[l].conn].closed
  }

  /** After some time the hard age of the lease's connection can fire before its deadline can. */
  ghost predicate CanBeCut(cfg: Config, s: State, l: LeaseId)
    requires Linked(s) && l in s.lease
  {
    exists ms: nat ::
      var later := Step(cfg, s, Tick(ms));
      Enabled(later, HardAgeFires(s.lease[l].conn)) && !Enabled(later, DeadlineFires(l))
  }

  /** A lease whose deadline is still to come can be cut short by the hard age exactly if it was
      not taken soon enough. */
  lemma CutShortExactly(cfg: Config, run: seq<State>, events: seq<Event>, i: nat, l: LeaseId)
    requires IsRun(cfg, run, events) && i < |run| && Running(run[i], l) && OnOpenConnection(run[i], l)
    ensures Linked(run[i])
    ensures CanBeCut(cfg, run[i], l) <==> !Enabled(run[i], DeadlineFires(l)) && !TakenSoon(cfg, run[i], l)
  {
    hide PoolValid, IsRun, Linked;
    var s := run[i];
    RunValid(cfg, run, events, i);
    PoolLinks(cfg, s);
    LeaseAt(cfg, s, l);
    if !Enabled(s, DeadlineFires(l)) && !TakenSoon(cfg, s, l) {
      var hardAge := s.conn[s.lease[l].conn].hardTimer.value;
      var ms: nat := if s.now < hardAge then hardAge - s.now else 0;
      var later := Step(cfg, s, Tick(ms));
      assert Enabled(later, HardAgeFires(s.lease[l].conn)) && !Enabled(later, DeadlineFires(l));
    }
  }
}
