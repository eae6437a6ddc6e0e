/** What the pool of read connections promises, in every state of every run. */
module ReadPoolTheorems {
  import opened Options
  import opened Channels
  import opened ChannelsProofs
  import opened ReadPool
  import opened ReadPoolInvariant
  import opened ReadPoolProofs
  import opened ReadPoolOpenProofs
  import opened ReadPoolRuns
  import opened ReadPoolHistory

  // ---- Slots ----

  ghost function Holding(ops: map<OpId, Op>, c: ConnId): set<OpId> {
    set o | o in ops && ops[o].conn == c && ops[o].holdsSlot
  }

  ghost function GrantedNotRun(ops: map<OpId, Op>, c: ConnId): set<OpId> {
    set o | o in ops && ops[o].conn == c && ops[o].ticket == Granted
  }

  /** A connection's permits in use are the operations holding a slot and the grants whose
      callback has not run; they never exceed the limit, and nobody waits while one is free. */
  lemma SlotsConserved(cfg: Config, run: seq<State>, events: seq<Event>, i: nat, c: ConnId)
    requires IsRun(cfg, run, events) && i < |run| && c in run[i].conn
    ensures var ch := run[i].ch;
      && c in ch.limiters
      && ch.limiters[c].active == |Holding(ch.ops, c)| + |GrantedNotRun(ch.ops, c)|
      && ch.limiters[c].active <= cfg.channelLimit
      && (ch.limiters[c].waiting != [] ==> ch.limiters[c].active == cfg.channelLimit)
  {
    hide PoolValid;
    RunValid(cfg, run, events, i);
    PoolChannels(cfg, run[i]);
    var ch := run[i].ch;
    HolderParts(ch, c, cfg.channelLimit);
  }

  lemma PoolChannels(cfg: Config, s: State)
    requires PoolValid(cfg, s)
    ensures Linked(s) && Valid(s.ch, cfg.channelLimit) && WF(s.ch) && OpsOk(s.ch) && Placed(s.ch)
    ensures Owned(s.ch, s.lease)
    ensures s.ch.limiters.Keys == s.conn.Keys && s.ch.leaseOps.Keys == s.lease.Keys && s.ch.connOps.Keys == s.conn.Keys
  {
    hide Registry, Entries, Pendings, Named, Attempts, Conns, Leases, Calls, SettledBut, EntryLinked, LimiterOk,
      OpOk, QueueKnown;
  }

  lemma HolderParts(ch: Channels, c: ConnId, limit: nat)
    requires Valid(ch, limit) && c in ch.limiters
    ensures ch.limiters[c].active == |Holding(ch.ops, c)| + |GrantedNotRun(ch.ops, c)|
    ensures ch.limiters[c].active <= limit && (ch.limiters[c].waiting != [] ==> ch.limiters[c].active == limit)
  {
    hide WF, OpMember, Queue;
    assert LimiterOk(ch.ops, c, ch.limiters[c], limit, 0);
    forall o | o in ch.ops ensures !(ch.ops[o].holdsSlot && ch.ops[o].ticket == Granted) {
      assert OpOk(ch, o);
    }
    assert Holders(ch.ops, c) == Holding(ch.ops, c) + GrantedNotRun(ch.ops, c);
    assert Holding(ch.ops, c) !! GrantedNotRun(ch.ops, c);
  }

  /** An operation gets at most one permit and gives back no more than it got; once it is out
      of the sets and no grant is under way, it has given back exactly what it got. */
  lemma PermitReturnedOnce(cfg: Config, run: seq<State>, events: seq<Event>, i: nat, o: OpId)
    requires IsRun(cfg, run, events) && i < |run| && o in run[i].ch.ops
    ensures var ch := run[i].ch; var op := ch.ops[o];
      && op.conn in ch.connOps
      && op.releases <= op.grants <= 1
      && (o !in ch.connOps[op.conn] && op.ticket != Granted ==> op.releases == op.grants)
      && (o in ch.connOps[op.conn] ==> op.releases == 0)
  {
    hide PoolValid;
    RunValid(cfg, run, events, i);
    PoolChannels(cfg, run[i]);
    RowAt(run[i].ch, o);
  }

  lemma RowAt(ch: Channels, o: OpId)
    requires WF(ch) && OpsOk(ch) && o in ch.ops
    ensures ch.ops[o].conn in ch.connOps && ch.ops[o].lease in ch.leaseOps
    ensures RowOk(ch.ops[o], o in ch.connOps[ch.ops[o].conn], o in ch.leaseOps[ch.ops[o].lease])
  {
    hide RowOk;
    assert OpOk(ch, o);
  }

  /** Channels are given out in the order they were asked for: of two operations that wait for a
      channel of one connection, the later one is not admitted while the earlier one waits. */
  lemma FirstComeFirstServed(cfg: Config, run: seq<State>, events: seq<Event>, i: nat, j: nat, p: OpId, o: OpId)
    requires IsRun(cfg, run, events) && i <= j < |run|
    requires p in run[i].ch.ops && o in run[i].ch.ops && p < o && run[i].ch.ops[p].conn == run[i].ch.ops[o].conn
    requires run[i].ch.ops[p].ticket == Waiting && run[i].ch.ops[o].ticket == Waiting
    ensures p in run[j].ch.ops && o in run[j].ch.ops
    ensures run[j].ch.ops[p].ticket == Waiting ==>
      var later := run[j].ch.ops[o]; later.ticket != Granted && later.state == Queued && !later.holdsSlot && later.grants == 0
  {
    hide PoolValid, IsRun, OpLater, WF, OpsOk, Placed, Owned;
    RunLater(cfg, run, events, i, j);
    RunValid(cfg, run, events, i);
    RunValid(cfg, run, events, j);
    PoolChannels(cfg, run[i]);
    PoolChannels(cfg, run[j]);
    CoreOf(run[i].ch, o);
    CoreOf(run[j].ch, o);
    assert WaitsBefore(run[i].ch.ops, p, o);
  }

  // ---- Answers ----

  /** A reader that asks is given an operation exactly if its lease is neither released nor over
      its deadline and the connection is open: one of the kind it asked for, on that connection,
      which gets a channel at once or waits for one. */
  lemma AskedExactly(cfg: Config, s: State, l: LeaseId, kind: Kind, o: OpId)
    requires PoolValid(cfg, s) && Linked(s) && Enabled(s, Asked(l, kind, o))
    ensures var r := Step(cfg, s, Asked(l, kind, o)); var c := s.lease[l].conn;
      && c in s.conn && c in s.ch.limiters
      && (o in r.ch.ops <==> !s.lease[l].released && !s.lease[l].expired && !s.conn[c].closed)
      && (o in r.ch.ops ==>
            && r.ch.ops[o].lease == l && r.ch.ops[o].conn == c && r.ch.ops[o].kind == kind && r.ch.ops[o].answers == []
            && r.ch.ops[o].ticket == if s.ch.limiters[c].active < cfg.channelLimit then Granted else Waiting)
  {
    hide WF, EntryLinked, PoolValid;
    LinkedLease(s, l);
  }

  ghost predicate GrantTaken(a: Channels, b: Channels, o: OpId) {
    && o in a.ops && o in b.ops
    && if a.ops[o].settled then b.ops[o].releases == a.ops[o].releases + 1 && !b.ops[o].holdsSlot
       else b.ops[o].holdsSlot && b.ops[o].inFlight && b.ops[o].state == Requested
  }

  /** A grant lets the operation it was given to be asked of the transport, unless that has been
      abandoned meanwhile. */
  lemma GrantAdmits(cfg: Config, s: State, o: OpId)
    requires PoolValid(cfg, s) && Linked(s) && Enabled(s, GrantCallback(o))
    ensures GrantTaken(s.ch, Step(cfg, s, GrantCallback(o)).ch, o)
  {
    hide PoolValid, Linked, WF, FreePermit, OpsOk, Placed, Owned, LimitersOk;
    PoolChannels(cfg, s);
    CoreOf(s.ch, o);
    if s.ch.ops[o].settled { LateGrantIs(s.ch, o); }
  }

  /** A stream that reaches an operation nobody gave up is handed to its caller. */
  lemma StreamHanded(cfg: Config, s: State, o: OpId)
    requires PoolValid(cfg, s) && Linked(s) && Enabled(s, StreamComes(o)) && !s.ch.ops[o].settled
    ensures var r := Step(cfg, s, StreamComes(o));
      AnsweredWith(s.ch, r.ch, o, Handed) && r.ch.ops[o].stream == Live && r.ch.ops[o].attached
  {
    hide PoolValid, Linked, WF, OpsOk, Placed, Owned, LimitersOk;
    PoolChannels(cfg, s);
    CoreOf(s.ch, o);
  }

  /** Whoever asks is answered at most once: the answers of an operation never change once
      there is one, and there is one exactly when the operation is settled. */
  lemma AnsweredOnce(cfg: Config, run: seq<State>, events: seq<Event>, i: nat, j: nat, o: OpId)
    requires IsRun(cfg, run, events) && i <= j < |run| && o in run[i].ch.ops
    ensures o in run[j].ch.ops
    ensures |run[j].ch.ops[o].answers| == (if run[j].ch.ops[o].settled then 1 else 0)
    ensures run[i].ch.ops[o].settled ==> run[j].ch.ops[o].settled && run[j].ch.ops[o].answers == run[i].ch.ops[o].answers
  {
    hide PoolValid, IsRun, Orderly, WF, OpsOk, Placed, Owned;
    RunLater(cfg, run, events, i, j);
    RunValid(cfg, run, events, i);
    RunValid(cfg, run, events, j);
    PoolChannels(cfg, run[i]);
    PoolChannels(cfg, run[j]);
    CoreOf(run[i].ch, o);
    CoreOf(run[j].ch, o);
  }

  /** A stream nobody has closed belongs to an operation its caller was handed, one the
      connection still knows and that still holds its slot. */
  lemma LiveStreamsAreHeld(cfg: Config, run: seq<State>, events: seq<Event>, i: nat, o: OpId)
    requires IsRun(cfg, run, events) && i < |run| && o in run[i].ch.ops && run[i].ch.ops[o].stream == Live
    ensures var ch := run[i].ch; var op := ch.ops[o];
      && op.attached && op.settled && op.holdsSlot && op.releases == 0
      && op.conn in ch.connOps && o in ch.connOps[op.conn] && op.lease in ch.leaseOps && o in ch.leaseOps[op.lease]
  {
    hide PoolValid;
    RunValid(cfg, run, events, i);
    PoolChannels(cfg, run[i]);
    RowAt(run[i].ch, o);
  }

  /** A stream that reaches an operation already settled is closed in the same step, and the
      caller gets nothing more. */
  lemma LateStreamCloses(cfg: Config, s: State, o: OpId)
    requires PoolValid(cfg, s) && Linked(s) && Enabled(s, StreamComes(o)) && s.ch.ops[o].settled
    ensures var r := Step(cfg, s, StreamComes(o));
      o in r.ch.ops && r.ch.ops[o].stream == Closed && r.ch.ops[o].answers == s.ch.ops[o].answers && !r.ch.ops[o].attached
  {
    hide Registry, Entries, Pendings, Named, Attempts, Conns, Leases, Calls, SettledBut, WF, EntryLinked;
    RowAt(s.ch, o);
  }

  /** The operation had no answer, and now has this one. */
  ghost predicate AnsweredWith(a: Channels, b: Channels, o: OpId, answer: Answer) {
    o in a.ops && a.ops[o].answers == [] && o in b.ops && b.ops[o].settled && b.ops[o].answers == [answer]
  }

  lemma AbandonedAnswer(ch: Channels, ids: set<OpId>, cause: Cause, limit: nat, o: OpId)
    requires Valid(ch, limit) && ids <= ch.ops.Keys && o in ids && !ch.ops[o].settled
    ensures AnsweredWith(ch, AbandonAll(ch, ids, cause), o, Reason(cause, ch.ops[o]))
  {
    hide WF, Placed, LimitersOk, AbandonAll, OpMember;
    AbandonAllDoes(ch, ids, cause, limit);
    assert OpOk(ch, o);
  }

  /** At a lease's deadline, whoever still waits for a channel hears that it waited too long, and
      whoever was admitted that the host did not answer in time. */
  lemma AnswersAtDeadline(cfg: Config, s: State, l: LeaseId, o: OpId)
    requires PoolValid(cfg, s) && Linked(s) && Enabled(s, DeadlineFires(l)) && l in s.ch.leaseOps && o in s.ch.leaseOps[l]
    requires o in s.ch.ops && !s.ch.ops[o].settled
    ensures AnsweredWith(s.ch, Step(cfg, s, DeadlineFires(l)).ch, o,
                         if s.ch.ops[o].state == Queued then QueueExpired else DeadlinePassed)
  {
    hide PoolValid, Linked, AbandonAll, AnsweredWith, Valid, WF, Admitted, Fits, MarkExpired;
    PoolChannels(cfg, s);
    LeaseOpsIn(s.ch, l);
    AbandonedAnswer(s.ch, s.ch.leaseOps[l], AtDeadline, cfg.channelLimit, o);
    ExpireChannels(s, l);
  }

  lemma LeaseOpsIn(ch: Channels, l: LeaseId)
    requires WF(ch) && l in ch.leaseOps
    ensures ch.leaseOps[l] <= ch.ops.Keys
  {
  }

  lemma ConnOpsIn(ch: Channels, c: ConnId)
    requires WF(ch) && c in ch.connOps
    ensures ch.connOps[c] <= ch.ops.Keys && c in ch.limiters
  {
  }

  lemma ExpireChannels(s: State, l: LeaseId)
    requires Linked(s) && l in s.lease && WF(s.ch) && l in s.ch.leaseOps
    ensures Expire(s, l).ch == AbandonLease(s.ch, l, AtDeadline)
  {
    hide Linked, AbandonLease, WF, Fits, MarkExpired, Admitted;
  }

  /** When a connection is closed, whatever closes it, every unanswered operation on it hears
      that the connection is lost. */
  lemma AnswersOnClose(cfg: Config, s: State, c: ConnId, how: How, o: OpId)
    requires PoolValid(cfg, s) && Linked(s) && c in s.conn && !s.conn[c].closed && c in s.ch.connOps && o in s.ch.connOps[c]
    requires o in s.ch.ops && !s.ch.ops[o].settled
    ensures AnsweredWith(s.ch, ShutDown(s, c, how).ch, o, Lost)
  {
    hide PoolValid, Linked, AbandonAll, AnsweredWith, Valid, WF, Fits, MarkClosed, Prune;
    PoolChannels(cfg, s);
    ConnOpsIn(s.ch, c);
    LinkedConn(s, c);
    AbandonedAnswer(s.ch, s.ch.connOps[c], ConnectionLost, cfg.channelLimit, o);
    PrunesMapOnly(Close(s, c, how), s.conn[c].key, s.conn[c].entry);
  }

  lemma PrunesMapOnly(s: State, key: Key, e: EntryId)
    requires Linked(s) && e in s.entry
    ensures Prune(s, key, e).ch == s.ch
  {
    hide Linked;
  }

  /** An operation of a lease not given back is unanswered. */
  ghost predicate AwaitsOn(s: State, l: LeaseId, o: OpId) {
    && l in s.lease && !s.lease[l].released && l in s.ch.leaseOps && o in s.ch.leaseOps[l]
    && o in s.ch.ops && !s.ch.ops[o].settled
  }

  /** The same when a lease is given back, for the lease's own operations. */
  lemma AnswersOnRelease(cfg: Config, s: State, l: LeaseId, o: OpId)
    requires PoolValid(cfg, s) && Linked(s) && Enabled(s, LeaseReleased(l)) && AwaitsOn(s, l, o)
    ensures AnsweredWith(s.ch, Step(cfg, s, LeaseReleased(l)).ch, o, Lost)
  {
    hide PoolValid, Linked, AbandonAll, AnsweredWith, Valid, WF, Fits, MarkReleased, AfterLastLease, Later, Release;
    PoolChannels(cfg, s);
    LeaseOpsIn(s.ch, l);
    AbandonedAnswer(s.ch, s.ch.leaseOps[l], ConnectionLost, cfg.channelLimit, o);
    GiveBackLater(cfg, s, l);
    StepKeeps(cfg, s, LeaseReleased(l));
    PoolChannels(cfg, Release(cfg, s, l));
    AnswerStays(s.ch, GiveBack(s, l), Release(cfg, s, l), o, Lost);
  }

  lemma GiveBackLater(cfg: Config, s: State, l: LeaseId)
    requires Linked(s) && l in s.lease && !s.lease[l].released && Valid(s.ch, cfg.channelLimit) && l in s.ch.leaseOps
    ensures GiveBack(s, l).ch == AbandonLease(s.ch, l, ConnectionLost) && Later(GiveBack(s, l), Release(cfg, s, l))
  {
    hide Linked, AbandonLease, Valid, WF, Fits, MarkReleased, AfterLastLease, Later;
    LinkedLease(s, l);
    AbandonLeaseDoes(s.ch, l, ConnectionLost, cfg.channelLimit);
    AfterLastLeaseQuiet(cfg, GiveBack(s, l), s.lease[l].conn);
  }

  lemma AnswerStays(ch: Channels, a: State, b: State, o: OpId, answer: Answer)
    requires AnsweredWith(ch, a.ch, o, answer) && Later(a, b) && WF(b.ch) && OpsOk(b.ch)
    ensures AnsweredWith(ch, b.ch, o, answer)
  {
    hide WF, OpMember, OpsOk;
    RowAt(b.ch, o);
  }

  /** An answer from the transport reaches an operation nobody gave up, and says what became of
      it: the result, the error, or that the connection is lost. */
  lemma AnswersReply(cfg: Config, s: State, o: OpId, ok: bool)
    requires PoolValid(cfg, s) && Linked(s) && Enabled(s, Replies(o, ok)) && !s.ch.ops[o].settled
    ensures var c := s.ch.ops[o].conn;
      && c in s.conn && c in s.attempts
      && AnsweredWith(s.ch, Step(cfg, s, Replies(o, ok)).ch, o,
                      if ok then Replied else if s.conn[c].closed || !s.attempts[c].ready then Lost else Failed)
  {
    hide PoolValid, Linked, WF, FinishOp, Fits, OpMember;
    PoolChannels(cfg, s);
    RowAt(s.ch, o);
    LinkedConn(s, s.ch.ops[o].conn);
    RewriteWF(s.ch, o, Settle(s.ch.ops[o].(inFlight := false), OutcomeOf(s, o, ok)));
  }

  ghost predicate Over(s: State, l: LeaseId)
    requires Linked(s) && l in s.lease
  {
    s.lease[l].released || s.lease[l].expired || s.conn[s.lease[l].conn].closed
  }

  lemma OverHasNoOps(cfg: Config, s: State, l: LeaseId)
    requires PoolValid(cfg, s) && Linked(s) && l in s.lease && Over(s, l)
    ensures l in s.ch.leaseOps && s.ch.leaseOps[l] == {}
  {
    hide Registry, Entries, Pendings, Named, Attempts, Calls, SettledBut, EntryLinked, OpCore, OpMember, LimitersOk,
      QueueKnown;
    assert LeaseRow(cfg, l, s.lease[l], s.conn[s.lease[l].conn], s.ch.leaseOps[l], s.now);
    var c := s.lease[l].conn;
    assert ConnRow(cfg, c, s.conn[c], s.attempts[c], s.entry[s.conn[c].entry], s.ch.connOps[c], s.now);
    forall o | o in s.ch.ops ensures o !in s.ch.leaseOps[l] {
      RowAt(s.ch, o);
    }
  }

  /** Once a lease is released or expired, or its connection is closed, it has no operation,
      then and in every later state. */
  lemma OverStaysEmpty(cfg: Config, run: seq<State>, events: seq<Event>, i: nat, j: nat, l: LeaseId)
    requires IsRun(cfg, run, events) && i <= j < |run| && l in run[i].lease && Linked(run[i]) && Over(run[i], l)
    ensures l in run[j].lease && l in run[j].ch.leaseOps && run[j].ch.leaseOps[l] == {}
  {
    hide PoolValid, IsRun;
    RunLater(cfg, run, events, i, j);
    RunValid(cfg, run, events, j);
    PoolLinks(cfg, run[j]);
    LinkedLease(run[i], l);
    LinkedLease(run[j], l);
    OverHasNoOps(cfg, run[j], l);
  }

  /** Once a lease is over, every operation ever asked for on it has exactly one answer. */
  lemma OverIsAnswered(cfg: Config, run: seq<State>, events: seq<Event>, i: nat, j: nat, o: OpId)
    requires IsRun(cfg, run, events) && i <= j < |run| && o in run[j].ch.ops
    requires run[j].ch.ops[o].lease in run[i].lease && Linked(run[i]) && Over(run[i], run[j].ch.ops[o].lease)
    ensures run[j].ch.ops[o].settled && |run[j].ch.ops[o].answers| == 1
  {
    hide PoolValid, IsRun, Linked, Over, LimitersOk;
    OverStaysEmpty(cfg, run, events, i, j, run[j].ch.ops[o].lease);
    RunValid(cfg, run, events, j);
    PoolChannels(cfg, run[j]);
    RowAt(run[j].ch, o);
  }

  // ---- No leak ----

  /** An open connection nobody leases is its entry's installed one; an idle timer runs only
      on such a connection; and every open connection has its hard-age timer running. */
  lemma NoLeakedConnection(cfg: Config, run: seq<State>, events: seq<Event>, i: nat, c: ConnId)
    requires IsRun(cfg, run, events) && i < |run| && c in run[i].conn
    ensures var s := run[i]; var connection := s.conn[c];
      && connection.entry in s.entry
      && (!connection.closed && connection.leases == {} ==> s.entry[connection.entry].installed == Some(c))
      && (connection.idleTimer.Some? ==>
            s.entry[connection.entry].installed == Some(c) && !connection.closed && !connection.retired && connection.leases == {})
      && (!connection.closed ==> connection.hardTimer == Some(connection.readyAt + cfg.hardAgeMs))
  {
    hide PoolValid, Linked;
    RunValid(cfg, run, events, i);
    InstalledRow(cfg, run[i], c);
  }

  lemma InstalledRow(cfg: Config, s: State, c: ConnId)
    requires PoolValid(cfg, s) && c in s.conn
    ensures var connection := s.conn[c];
      && connection.entry in s.entry
      && SettledRow(c, connection, s.entry[connection.entry])
      && (connection.closed ==> connection.idleTimer == None)
      && (!connection.closed ==> connection.hardTimer == Some(connection.readyAt + cfg.hardAgeMs))
      && (s.entry[connection.entry].installed == Some(c) ==> !connection.retired)
  {
    hide Registry, Pendings, Named, Attempts, Leases, Calls, Owned, Valid, WF, EntryLinked, HeldRow;
    assert ConnRow(cfg, c, s.conn[c], s.attempts[c], s.entry[s.conn[c].entry], s.ch.connOps[c], s.now);
    assert EntryRow(s.conn[c].entry, s.entry[s.conn[c].entry], s.conn);
  }

  /** Closed by being disposed of in the given way. */
  ghost predicate ClosedBy(a: State, b: State, c: ConnId, how: How) {
    && c in a.attempts && c in b.attempts && c in b.conn
    && b.conn[c].closed && b.attempts[c].disposals == a.attempts[c].disposals + [how]
  }

  ghost predicate AfterLastRelease(cfg: Config, s: State, c: ConnId, r: State) {
    && c in s.conn && c in r.conn && s.conn[c].entry in s.entry
    && if s.conn[c].retired then ClosedBy(s, r, c, Destroy)
       else if s.entry[s.conn[c].entry].installed != Some(c) then ClosedBy(s, r, c, End)
       else !r.conn[c].closed && r.conn[c].idleTimer == Some(s.now + cfg.idleMs)
  }

  ghost predicate LastLease(s: State, l: LeaseId) {
    && l in s.lease && !s.lease[l].released
    && var c := s.lease[l].conn;
       c in s.conn && s.conn[c].leases == {l} && !s.conn[c].closed
  }

  /** The last release of a retired connection destroys it, that of a superseded one ends it,
      and that of the installed one starts its idle time. */
  lemma LastRelease(cfg: Config, s: State, l: LeaseId)
    requires Linked(s) && LastLease(s, l)
    ensures AfterLastRelease(cfg, s, s.lease[l].conn, Step(cfg, s, LeaseReleased(l)))
  {
    hide Linked, AbandonLease, AbandonConnection, WF, Fits;
    LinkedConn(s, s.lease[l].conn);
    LinkedLease(s, l);
  }

  // ---- Transports ----

  ghost predicate StillOpening(s: State, o: OpenId)
    requires o in s.attempts
  {
    s.attempts[o].phase == Opening
  }

  ghost predicate OwnedOpen(s: State, o: OpenId) {
    o in s.conn && !s.conn[o].closed
  }

  ghost predicate Disposed(s: State, o: OpenId)
    requires o in s.attempts
  {
    |s.attempts[o].disposals| == 1
  }

  /** Every transport is at every moment exactly one of: still opening, owned by an open
      connection, or disposed of; and it is disposed of at most once. */
  lemma TransportsConserved(cfg: Config, run: seq<State>, events: seq<Event>, i: nat, o: OpenId)
    requires IsRun(cfg, run, events) && i < |run| && o in run[i].attempts
    ensures var s := run[i];
      && (StillOpening(s, o) || OwnedOpen(s, o) || Disposed(s, o))
      && !(StillOpening(s, o) && OwnedOpen(s, o))
      && !(StillOpening(s, o) && Disposed(s, o))
      && !(OwnedOpen(s, o) && Disposed(s, o))
      && |s.attempts[o].disposals| <= 1
  {
    hide PoolValid, Linked;
    RunValid(cfg, run, events, i);
    AttemptAt(cfg, run[i], o);
  }

  lemma AttemptAt(cfg: Config, s: State, o: OpenId)
    requires PoolValid(cfg, s) && o in s.attempts
    ensures s.attempts[o].entry in s.entry
    ensures AttemptRow(o, s.attempts[o], s.entry[s.attempts[o].entry], s.conn, s.opens)
    ensures PendingRow(s.attempts[o].entry, s.entry[s.attempts[o].entry], s.attempts)
  {
    hide Registry, Entries, Named, Conns, Leases, Calls, Owned, Valid, WF, SettledBut, AttemptRow, PendingRow;
  }

  // ---- Opens ----

  /** No evict has hit the open's entry since it began. */
  ghost predicate Unevicted(s: State, o: OpenId)
    requires o in s.attempts && s.attempts[o].entry in s.entry
  {
    s.entry[s.attempts[o].entry].evictions == s.attempts[o].evictions
  }

  ghost predicate LatestOpen(s: State, o: OpenId)
    requires o in s.attempts && s.attempts[o].entry in s.entry
  {
    s.entry[s.attempts[o].entry].lastOpen == o
  }

  /** The latest open is the greatest of all that were ever begun on the entry. */
  lemma LatestIsGreatest(cfg: Config, s: State, o: OpenId, p: OpenId)
    requires PoolValid(cfg, s) && o in s.attempts && p in s.attempts && s.attempts[p].entry == s.attempts[o].entry
    requires s.attempts[o].entry in s.entry && LatestOpen(s, o)
    ensures p <= o
  {
    hide PoolValid;
    AttemptAt(cfg, s, p);
  }

  ghost predicate Refused(a: State, b: State, o: OpenId) {
    && o in a.attempts && o in b.attempts && o !in b.conn
    && b.attempts[o].phase == GaveUp && b.attempts[o].disposals == a.attempts[o].disposals + [Destroy]
  }

  ghost predicate Installs(a: State, b: State, o: OpenId) {
    && o in a.attempts && o in b.attempts && o !in a.conn && o in b.conn
    && b.attempts[o].phase == Landed && b.attempts[o].disposals == a.attempts[o].disposals
    && b.conn[o].identity == a.attempts[o].identity && b.conn[o].readyAt == a.now && !b.conn[o].closed && !b.conn[o].retired
    && a.attempts[o].entry in b.entry && b.entry[a.attempts[o].entry].installed == Some(o)
  }

  /** An open that answers is installed exactly if it succeeded, its transport is ready, it is
      still its entry's latest open, and no evict hit that entry since it began. Every other
      answer is refused and its transport destroyed. */
  lemma InstalledExactly(cfg: Config, s: State, o: OpenId, ok: bool)
    requires PoolValid(cfg, s) && Linked(s) && Enabled(s, OpenAnswers(o, ok)) && s.attempts[o].entry in s.entry
    ensures var r := Step(cfg, s, OpenAnswers(o, ok));
      if ok && s.attempts[o].ready && LatestOpen(s, o) && Unevicted(s, o) then Installs(s, r, o) else Refused(s, r, o)
  {
    hide PoolValid, Linked, Install, GiveUpOpen, WF;
    AttemptAt(cfg, s, o);
    CurrentExactly(s, o);
    if ok && Current(s, o) && s.attempts[o].ready {
      LinkedKeys(s);
      InstallInstalls(cfg, s, o);
    } else {
      GiveUpRefuses(s, o);
    }
  }

  lemma CurrentExactly(s: State, o: OpenId)
    requires o in s.attempts && s.attempts[o].entry in s.entry && s.attempts[o].phase == Opening
    requires AttemptRow(o, s.attempts[o], s.entry[s.attempts[o].entry], s.conn, s.opens)
    requires PendingRow(s.attempts[o].entry, s.entry[s.attempts[o].entry], s.attempts)
    ensures Current(s, o) <==> LatestOpen(s, o) && Unevicted(s, o)
  {
  }

  lemma GiveUpRefuses(s: State, o: OpenId)
    requires Linked(s) && o in s.attempts && s.attempts[o].entry in s.entry && o !in s.conn
    ensures Refused(s, GiveUpOpen(s, o), o)
  {
    hide Linked;
  }

  lemma InstallInstalls(cfg: Config, s: State, o: OpenId)
    requires PoolValid(cfg, s) && Linked(s) && o in s.attempts && o !in s.conn && s.attempts[o].phase == Opening
    requires s.attempts[o].entry in s.entry && Current(s, o) && WF(s.ch)
    ensures Installs(s, Install(cfg, s, o), o)
  {
    hide PoolValid, Linked, PutIn, ShutDown, AfterLastLease, SameIdentity, WF;
    PutInShape(cfg, s, o);
    var next := PutIn(cfg, s, o);
    var previous := s.entry[s.attempts[o].entry].installed;
    if previous.Some? {
      PreviousIn(cfg, s, o);
      ShutDownSpares(next, previous.value, Destroy, o);
      ShutDownSpares(next, previous.value, End, o);
      AfterLastLeaseSpares(cfg, next, previous.value, o);
    }
  }

  /** Shutting one connection down leaves every other one, and whether it is installed. */
  ghost predicate Spared(a: State, b: State, d: ConnId) {
    && d in a.conn && d in b.conn && b.conn[d] == a.conn[d]
    && d in a.attempts && d in b.attempts && b.attempts[d] == a.attempts[d]
    && a.conn[d].entry in a.entry && a.conn[d].entry in b.entry
    && (a.entry[a.conn[d].entry].installed == Some(d) ==> b.entry[a.conn[d].entry].installed == Some(d))
  }

  lemma ShutDownSpares(s: State, c: ConnId, how: How, d: ConnId)
    requires Linked(s) && c in s.conn && d in s.conn && c != d
    ensures Spared(s, ShutDown(s, c, how), d)
  {
    hide Linked, AbandonConnection, Fits;
    LinkedConn(s, c);
    LinkedConn(s, d);
  }

  lemma AfterLastLeaseSpares(cfg: Config, s: State, c: ConnId, d: ConnId)
    requires Linked(s) && c in s.conn && d in s.conn && c != d
    ensures Spared(s, AfterLastLease(cfg, s, c), d)
  {
    hide Linked, ShutDown;
    LinkedConn(s, c);
    LinkedConn(s, d);
    ShutDownSpares(s, c, Destroy, d);
    ShutDownSpares(s, c, End, d);
  }

  // ---- evict ----

  lemma ShutDownDisposes(s: State, c: ConnId, how: How)
    requires Linked(s) && c in s.conn && !s.conn[c].closed
    ensures ClosedBy(s, ShutDown(s, c, how), c, how)
  {
    hide Linked, AbandonConnection, Fits;
    LinkedConn(s, c);
  }

  /** Each of these open connections is destroyed. */
  ghost predicate AllDestroyed(a: State, b: State, ids: set<ConnId>) {
    forall c :: c in ids && c in a.conn && !a.conn[c].closed ==> ClosedBy(a, b, c, Destroy)
  }

  lemma {:induction false} ShutDownAllCloses(s: State, ids: set<ConnId>)
    requires Linked(s) && ids <= s.conn.Keys
    ensures AllDestroyed(s, ShutDownAll(s, ids), ids)
    decreases ids
  {
    hide Linked, ShutDown;
    if ids != {} {
      var c := Least(ids);
      var next := ShutDown(s, c, Destroy);
      ShutDownAllCloses(next, ids - {c});
      ShutDownAllSpares(next, ids - {c}, c);
      if !s.conn[c].closed { ShutDownDisposes(s, c, Destroy); }
      forall d | d in ids && d != c && !s.conn[d].closed ensures ClosedBy(s, ShutDownAll(s, ids), d, Destroy) {
        ShutDownSpares(s, c, Destroy, d);
      }
    }
  }

  lemma OpenConnsListed(cfg: Config, s: State, c: ConnId)
    requires PoolValid(cfg, s) && c in s.conn && !s.conn[c].closed
    ensures s.conn[c].entry in s.entry && c in s.entry[s.conn[c].entry].connections
    ensures s.conn[c].key == s.entry[s.conn[c].entry].key
  {
    hide Registry, Entries, Pendings, Named, Leases, Calls, Owned, Valid, WF, SettledBut;
    assert ConnRow(cfg, c, s.conn[c], s.attempts[c], s.entry[s.conn[c].entry], s.ch.connOps[c], s.now);
    assert AttemptRow(c, s.attempts[c], s.entry[s.attempts[c].entry], s.conn, s.opens);
  }

  /** Every connection that was on the entry is closed: it is destroyed if it was not yet. */
  ghost predicate EntryClosed(a: State, b: State, e: EntryId) {
    && (forall c :: c in a.conn && a.conn[c].entry == e ==> c in b.conn && b.conn[c].closed)
    && (forall c :: c in a.conn && a.conn[c].entry == e && !a.conn[c].closed ==> ClosedBy(a, b, c, Destroy))
  }

  /** Every open that was begun on the entry has met an evict since. */
  ghost predicate OpensEvicted(a: State, b: State, e: EntryId) {
    forall o :: o in a.attempts && a.attempts[o].entry == e ==>
      o in b.attempts && b.attempts[o].entry in b.entry && !Unevicted(b, o)
  }

  /** `evict` closes every connection of the entry the map holds for the key, and makes every
      open begun on that entry before one that an evict has hit. */
  lemma EvictClosesEntry(cfg: Config, s: State, key: Key)
    requires PoolValid(cfg, s) && Linked(s) && key in s.entries
    ensures var r := Step(cfg, s, Evicted(key)); EntryClosed(s, r, s.entries[key]) && OpensEvicted(s, r, s.entries[key])
  {
    hide PoolValid, Linked, Bump, ShutDownAll, Prune, Evict, Registry, Named, Valid, Later, EntryClosed, OpensEvicted;
    var e := s.entries[key];
    EvictShape(s, key);
    BaseNamed(cfg, s);
    PoolRegistry(cfg, s);
    RegistryNames(s, key, {});
    BumpQuiet(s, e);
    var bumped := Bump(s, e);
    var shut := ShutDownAll(bumped, s.entry[e].connections);
    ShutDownAllCloses(bumped, s.entry[e].connections);
    ShutDownAllQuiet(cfg, bumped, s.entry[e].connections);
    BumpShape(s, e);
    ShutDownAllKey(bumped, s.entry[e].connections, e);
    BumpedCloses(cfg, s, e, bumped, shut);
    BumpedEvicts(cfg, s, e, shut);
    ClosedFrame(s, e, shut, Evict(s, key));
  }

  lemma ClosedFrame(a: State, e: EntryId, b: State, r: State)
    requires EntryClosed(a, b, e) && OpensEvicted(a, b, e) && r == b.(entries := r.entries)
    ensures EntryClosed(a, r, e) && OpensEvicted(a, r, e)
  {
  }

  lemma BumpedCloses(cfg: Config, s: State, e: EntryId, bumped: State, shut: State)
    requires PoolValid(cfg, s) && e in s.entry && Later(bumped, shut) && bumped.conn == s.conn && bumped.attempts == s.attempts
    requires AllDestroyed(bumped, shut, s.entry[e].connections)
    ensures EntryClosed(s, shut, e)
  {
    hide PoolValid, Later;
    forall c | c in s.conn && s.conn[c].entry == e
      ensures c in shut.conn && shut.conn[c].closed && (!s.conn[c].closed ==> ClosedBy(s, shut, c, Destroy))
    {
      if !s.conn[c].closed { OpenConnsListed(cfg, s, c); } else { ClosedStays(bumped, shut, c); }
    }
  }

  lemma BumpedEvicts(cfg: Config, s: State, e: EntryId, shut: State)
    requires PoolValid(cfg, s) && Linked(s) && e in s.entry && Later(Bump(s, e), shut)
    ensures OpensEvicted(s, shut, e)
  {
    hide PoolValid, Linked, Later, Bump;
    forall o | o in s.attempts && s.attempts[o].entry == e
      ensures o in shut.attempts && shut.attempts[o].entry in shut.entry && !Unevicted(shut, o)
    {
      AttemptAt(cfg, s, o);
      BumpedEvictions(s, e, o);
      LaterEvictions(Bump(s, e), shut, e, o);
    }
  }

  lemma ClosedStays(a: State, b: State, c: ConnId)
    requires Later(a, b) && c in a.conn && a.conn[c].closed
    ensures c in b.conn && b.conn[c].closed
  {
  }

  lemma BumpedEvictions(s: State, e: EntryId, o: OpenId)
    requires Linked(s) && e in s.entry && o in s.attempts
    ensures var r := Bump(s, e); e in r.entry && o in r.attempts && r.attempts[o] == s.attempts[o]
    ensures Bump(s, e).entry[e].evictions == s.entry[e].evictions + 1
  {
    hide Linked;
  }

  lemma LaterEvictions(a: State, b: State, e: EntryId, o: OpenId)
    requires Later(a, b) && e in a.entry && o in a.attempts
    ensures e in b.entry && o in b.attempts && a.entry[e].evictions <= b.entry[e].evictions
    ensures b.attempts[o].evictions == a.attempts[o].evictions && b.attempts[o].entry == a.attempts[o].entry
  {
  }

  /** An open an evict has hit before it was installed is never installed, in no later state. */
  lemma {:induction false} EvictedOpenNeverLands(cfg: Config, run: seq<State>, events: seq<Event>, i: nat, j: nat, o: OpenId)
    requires IsRun(cfg, run, events) && i <= j < |run|
    requires o in run[i].attempts && run[i].attempts[o].entry in run[i].entry && !Unevicted(run[i], o)
    requires o !in run[i].conn
    ensures o !in run[j].conn
    decreases j
  {
    hide PoolValid, Linked, Later, Unevicted, Enabled, Step;
    if i < j {
      EvictedOpenNeverLands(cfg, run, events, i, j - 1, o);
      RunLater(cfg, run, events, i, j - 1);
      RunValid(cfg, run, events, i);
      RunValid(cfg, run, events, j - 1);
      assert Follows(cfg, run[j - 1], events[j - 1], run[j - 1 + 1]);
      StillEvicted(cfg, run[i], run[j - 1], o);
      LandsOnlyByAnswer(cfg, run[j - 1], events[j - 1], o);
    }
  }

  lemma StillEvicted(cfg: Config, a: State, b: State, o: OpenId)
    requires PoolValid(cfg, a) && PoolValid(cfg, b) && Later(a, b)
    requires o in a.attempts && a.attempts[o].entry in a.entry && !Unevicted(a, o)
    ensures o in b.attempts && b.attempts[o].entry in b.entry && !Unevicted(b, o)
  {
    hide PoolValid, Progress;
    AttemptAt(cfg, a, o);
  }

  /** A connection appears only when its open answers while it is still current. */
  lemma LandsOnlyByAnswer(cfg: Config, s: State, ev: Event, o: OpenId)
    requires PoolValid(cfg, s) && Linked(s) && Enabled(s, ev)
    requires o in s.attempts && s.attempts[o].entry in s.entry && !Unevicted(s, o) && o !in s.conn
    ensures o !in Step(cfg, s, ev).conn
  {
    hide PoolValid, Linked, Unevicted, SetReady, LeaseCall, Resume, FinishOpen, Ask, Release, Expire, ShutDown,
      Evict, Operate, WithChannels;
    match ev
    case OpenAnswers(p, ok) =>
      if p == o {
        LinkedAttempt(s, o);
        InstalledExactly(cfg, s, o, ok);
      } else {
        FinishOpenConns(cfg, s, p, ok);
      }
    case LeaseCalled(k, key, identity, deadlineMs, l) => LeaseCallConns(cfg, s, k, key, identity, deadlineMs, l);
    case CallResumes(k, l) => ResumeConns(cfg, s, k, l);
    case Asked(l, kind, p) => AskConns(cfg, s, l, kind, p);
    case Evicted(key) => EvictConns(s, key);
    case TransportSays(p, ready) => SetReadyConns(s, p, ready);
    case _ => OperateConns(cfg, s, ev);
  }

  lemma OperateConns(cfg: Config, s: State, ev: Event)
    requires Linked(s) && Enabled(s, ev)
    requires !ev.OpenAnswers? && !ev.LeaseCalled? && !ev.CallResumes? && !ev.Asked? && !ev.Evicted?
    requires !ev.TransportSays?
    ensures Step(cfg, s, ev).conn.Keys == s.conn.Keys
  {
    hide Linked, Release, Expire, ShutDown, Operate, Fits;
  }

  lemma SetReadyConns(s: State, o: OpenId, ready: bool)
    requires Linked(s) && o in s.attempts
    ensures SetReady(s, o, ready).conn.Keys == s.conn.Keys
  {
    hide Linked;
  }

  lemma AskConns(cfg: Config, s: State, l: LeaseId, kind: Kind, o: OpId)
    requires Linked(s) && l in s.lease && o !in s.ch.ops
    ensures Ask(cfg, s, l, kind, o).conn.Keys == s.conn.Keys
  {
    hide WF, EntryLinked, Begin;
  }

  lemma EvictConns(s: State, key: Key)
    requires Linked(s)
    ensures Evict(s, key).conn.Keys == s.conn.Keys
  {
    hide WF, ShutDownAll, Prune;
    if key in s.entries { EvictShape(s, key); }
  }

  lemma FinishOpenConns(cfg: Config, s: State, o: OpenId, ok: bool)
    requires Linked(s) && o in s.attempts && o !in s.conn
    ensures FinishOpen(cfg, s, o, ok).conn.Keys <= s.conn.Keys + {o}
  {
    hide WF, EntryLinked, GiveUpOpen, PutIn, ShutDown, AfterLastLease, SameIdentity;
    PutInConnKeys(cfg, s, o);
  }

  lemma PutInConnKeys(cfg: Config, s: State, o: OpenId)
    requires Linked(s) && o in s.attempts && o !in s.conn
    ensures PutIn(cfg, s, o).conn.Keys == s.conn.Keys + {o}
  {
    hide WF, EntryLinked;
  }

  lemma AwaitConns(s: State, k: CallId, key: Key, e: EntryId, identity: Identity, deadlineMs: int)
    requires Linked(s) && e in s.entry
    ensures Await(s, k, key, e, identity, deadlineMs).conn.Keys == s.conn.Keys
  {
    hide Linked;
  }

  lemma EntryForConns(s: State, key: Key)
    requires Linked(s)
    ensures var r := EntryFor(s, key); r.conn == s.conn && r.entries[key] in r.entry && r.lease == s.lease
    ensures var r := EntryFor(s, key); var installed := r.entry[r.entries[key]].installed;
      installed.Some? ==> installed.value in r.conn
  {
    hide WF;
    var r := EntryFor(s, key);
    assert EntryLinked(r.entry[r.entries[key]], r.conn);
  }

  lemma CheckoutConnKeys(s: State, c: ConnId, deadlineMs: int, l: LeaseId, reused: bool)
    requires Linked(s) && c in s.conn && l !in s.lease
    ensures Checkout(s, c, deadlineMs, l, reused).conn.Keys == s.conn.Keys
  {
    hide Linked;
  }

  lemma LeaseRoundConns(cfg: Config, s: State, k: CallId, key: Key, identity: Identity, deadlineMs: int, l: LeaseId)
    requires Linked(s) && l !in s.lease
    ensures LeaseRound(cfg, s, k, key, identity, deadlineMs, l).conn.Keys == s.conn.Keys
  {
    hide Linked, Usable, ShutDown, Await, EntryFor, Checkout;
    EntryForConns(s, key);
    var found := EntryFor(s, key);
    var e := found.entries[key];
    var installed := found.entry[e].installed;
    if installed.Some? {
      ShutDownHasEntry(found, installed.value, Destroy, e);
      AwaitConns(ShutDown(found, installed.value, Destroy), k, key, e, identity, deadlineMs);
      CheckoutConnKeys(found, installed.value, deadlineMs, l, true);
    }
    AwaitConns(found, k, key, e, identity, deadlineMs);
  }

  lemma ShutDownHasEntry(s: State, c: ConnId, how: How, e: EntryId)
    requires Linked(s) && c in s.conn && e in s.entry
    ensures e in ShutDown(s, c, how).entry
  {
    hide Linked, ShutDown;
  }

  lemma LeaseCallConns(cfg: Config, s: State, k: CallId, key: Key, identity: Identity, deadlineMs: int, l: LeaseId)
    requires Linked(s) && l !in s.lease
    ensures LeaseCall(cfg, s, k, key, identity, deadlineMs, l).conn.Keys == s.conn.Keys
  {
    hide Linked, LeaseRound;
    LeaseRoundConns(cfg, s, k, key, identity, deadlineMs, l);
  }

  lemma ResumeConns(cfg: Config, s: State, k: CallId, l: LeaseId)
    requires Linked(s) && l !in s.lease && k in s.calls && s.calls[k].status.Awaits?
    requires s.calls[k].status.open in s.attempts
    ensures Resume(cfg, s, k, l).conn.Keys == s.conn.Keys
  {
    hide Linked, LeaseRound, Usable;
    LeaseRoundConns(cfg, s, k, s.calls[k].key, s.calls[k].identity, s.calls[k].deadlineMs, l);
  }

  // ---- Timers ----

  /** The idle timer runs on an open connection and ends it; the hard-age timer runs on every open
      connection and destroys it. */
  lemma TimersDispose(cfg: Config, s: State, c: ConnId)
    requires PoolValid(cfg, s) && Linked(s)
    ensures Enabled(s, IdleFires(c)) ==> ClosedBy(s, Step(cfg, s, IdleFires(c)), c, End)
    ensures Enabled(s, HardAgeFires(c)) ==> ClosedBy(s, Step(cfg, s, HardAgeFires(c)), c, Destroy)
  {
    hide PoolValid, Linked, ShutDown, ClosedBy;
    if c in s.conn {
      if s.conn[c].closed {
        NoTimerOnceClosed(cfg, s, c);
      } else {
        ShutDownDisposes(s, c, End);
        ShutDownDisposes(s, c, Destroy);
      }
    }
  }

  lemma NoTimerOnceClosed(cfg: Config, s: State, c: ConnId)
    requires PoolValid(cfg, s) && c in s.conn && s.conn[c].closed
    ensures s.conn[c].idleTimer == None && s.conn[c].hardTimer == None
  {
    hide Registry, Pendings, Named, Attempts, Leases, Calls, Owned, Valid, WF, EntryLinked, HeldRow, SettledBut;
    assert ConnRow(cfg, c, s.conn[c], s.attempts[c], s.entry[s.conn[c].entry], s.ch.connOps[c], s.now);
  }

  // ---- evict, by key ----

  /** Every open connection for the key belongs to the entry the map holds for it. */
  ghost predicate AllMapped(s: State, key: Key) {
    forall c :: c in s.conn && s.conn[c].key == key && !s.conn[c].closed ==>
      key in s.entries && s.entries[key] == s.conn[c].entry
  }

  /** No connection for the key is open. */
  ghost predicate NoneOpen(s: State, key: Key) {
    forall c :: c in s.conn && s.conn[c].key == key ==> s.conn[c].closed
  }

  /** `evict` leaves no connection for its key open exactly if every open one was in the entry
      the map holds. It need not be: see `OrphanSurvivesEvict`. */
  lemma EvictClearsKeyExactly(cfg: Config, s: State, key: Key)
    requires PoolValid(cfg, s) && Linked(s)
    ensures NoneOpen(Step(cfg, s, Evicted(key)), key) <==> AllMapped(s, key)
  {
    hide PoolValid, Linked, Evict, Later, Unevicted;
    var r := Step(cfg, s, Evicted(key));
    EvictConns(s, key);
    StepLater(cfg, s, Evicted(key));
    if key in s.entries { EvictClosesEntry(cfg, s, key); } else { EvictNothing(s, key); }
    forall c | c in s.conn ensures c in r.conn && r.conn[c].key == s.conn[c].key && (s.conn[c].closed ==> r.conn[c].closed) {
      KeyStays(s, r, c);
    }
    forall c | c in s.conn && !s.conn[c].closed && s.conn[c].key == key && !(key in s.entries && s.entries[key] == s.conn[c].entry)
      ensures !r.conn[c].closed
    {
      if key in s.entries { EvictSpares(cfg, s, key, c); }
    }
  }

  lemma KeyStays(a: State, b: State, c: ConnId)
    requires Later(a, b) && c in a.conn
    ensures c in b.conn && b.conn[c].key == a.conn[c].key && (a.conn[c].closed ==> b.conn[c].closed)
  {
  }

  lemma ShutDownAllSpares(s: State, ids: set<ConnId>, d: ConnId)
    requires Linked(s) && ids <= s.conn.Keys && d in s.conn && d !in ids
    ensures d in ShutDownAll(s, ids).conn && ShutDownAll(s, ids).conn[d] == s.conn[d]
    ensures d in s.attempts && d in ShutDownAll(s, ids).attempts && ShutDownAll(s, ids).attempts[d] == s.attempts[d]
    decreases ids
  {
    hide Linked, ShutDown;
    LinkedConn(s, d);
    if ids != {} {
      var c := Least(ids);
      ShutDownSpares(s, c, Destroy, d);
      ShutDownAllSpares(ShutDown(s, c, Destroy), ids - {c}, d);
    }
  }

  lemma EvictSpares(cfg: Config, s: State, key: Key, d: ConnId)
    requires PoolValid(cfg, s) && Linked(s) && key in s.entries && d in s.conn && s.conn[d].entry != s.entries[key]
    ensures d in Evict(s, key).conn && Evict(s, key).conn[d] == s.conn[d]
  {
    hide PoolValid, Linked, ShutDownAll, Prune, Evict, Bump, Registry;
    var e := s.entries[key];
    EvictShape(s, key);
    PoolRegistry(cfg, s);
    RegistryNames(s, key, {});
    BumpShapeConn(s, e, d);
    NotListed(cfg, s, d, e);
    ShutDownAllSpares(Bump(s, e), s.entry[e].connections, d);
  }

  lemma BumpShapeConn(s: State, e: EntryId, d: ConnId)
    requires Linked(s) && e in s.entry && d in s.conn
    ensures d in Bump(s, e).conn && Bump(s, e).conn[d] == s.conn[d]
  {
    hide Linked;
  }

  lemma NotListed(cfg: Config, s: State, d: ConnId, e: EntryId)
    requires PoolValid(cfg, s) && d in s.conn && e in s.entry && s.conn[d].entry != e
    ensures d !in s.entry[e].connections
  {
    hide Registry, Pendings, Named, Attempts, Conns, Leases, Calls, Owned, Valid, SettledBut, Linked;
    ListedByItsEntry(s, d, e);
  }
}
