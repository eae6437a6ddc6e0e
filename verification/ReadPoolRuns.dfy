/** Runs of the pool: every event the outside world can deliver, in any order. */
module ReadPoolRuns {
  import opened Options
  import opened Channels
  import opened ChannelsProofs
  import opened ReadPool
  import opened ReadPoolInvariant
  import opened ReadPoolProofs
  import opened ReadPoolOpenProofs

  /** One promise or timer callback, one call by a reader, a tick of the clock, or a change of
      what a transport says of itself. */
  datatype Event =
    | Tick(ms: nat)
    | TransportSays(open: OpenId, ready: bool)
    | LeaseCalled(call: CallId, key: Key, identity: Identity, deadlineMs: int, newLease: LeaseId)
    | CallResumes(call: CallId, newLease: LeaseId)
    | OpenAnswers(open: OpenId, ok: bool)
    | Asked(lease: LeaseId, kind: Kind, newOp: OpId)
    | GrantCallback(op: OpId)
    | Replies(op: OpId, ok: bool)
    | StreamComes(op: OpId)
    | StreamOver(op: OpId)
    | LeaseReleased(lease: LeaseId)
    | DeadlineFires(lease: LeaseId)
    | IdleFires(conn: ConnId)
    | HardAgeFires(conn: ConnId)
    | Evicted(key: Key)

  predicate Due(timer: Option<int>, now: int) {
    timer.Some? && timer.value <= now
  }

  /** When an event can happen. A timer may fire late but not early, a call resumes once the
      open it waits for is over, and operations are numbered in the order they are asked for. */
  predicate Enabled(s: State, ev: Event) {
    match ev
    case Tick(_) => true
    case TransportSays(o, _) => o in s.attempts
    case LeaseCalled(k, _, _, _, l) => k !in s.calls && l !in s.lease
    case CallResumes(k, l) =>
      && k in s.calls && s.calls[k].status.Awaits? && l !in s.lease
      && s.calls[k].status.open in s.attempts && s.attempts[s.calls[k].status.open].phase != Opening
    case OpenAnswers(o, _) => o in s.attempts && s.attempts[o].phase == Opening && o !in s.conn
    case Asked(l, _, o) => l in s.lease && forall p :: p in s.ch.ops ==> p < o
    case GrantCallback(o) => o in s.ch.ops && s.ch.ops[o].ticket == Granted
    case Replies(o, ok) => o in s.ch.ops && s.ch.ops[o].inFlight && (ok ==> s.ch.ops[o].kind == Exec)
    case StreamComes(o) => o in s.ch.ops && s.ch.ops[o].inFlight && s.ch.ops[o].kind == Forward
    case StreamOver(o) => o in s.ch.ops && s.ch.ops[o].attached
    case LeaseReleased(l) => l in s.lease
    case DeadlineFires(l) => l in s.lease && Due(s.lease[l].timer, s.now)
    case IdleFires(c) => c in s.conn && Due(s.conn[c].idleTimer, s.now)
    case HardAgeFires(c) => c in s.conn && Due(s.conn[c].hardTimer, s.now)
    case Evicted(_) => true
  }

  /** What an event about one operation does to the channels. */
  ghost function Operate(s: State, ev: Event): (r: Channels)
    requires Linked(s) && Enabled(s, ev)
    requires ev.GrantCallback? || ev.Replies? || ev.StreamComes? || ev.StreamOver?
    ensures Fits(s, r) && r.ops.Keys == s.ch.ops.Keys
  {
    match ev
    case GrantCallback(o) => GrantRuns(s.ch, o)
    case Replies(o, ok) => Answered(s.ch, o, OutcomeOf(s, o, ok))
    case StreamComes(o) => StreamArrives(s.ch, o)
    case StreamOver(o) => StreamEnds(s.ch, o)
  }

  ghost function OutcomeOf(s: State, o: OpId, ok: bool): Answer
    requires Linked(s) && o in s.ch.ops
  {
    Outcome(s, s.ch.ops[o].conn, ok)
  }

  ghost function Step(cfg: Config, s: State, ev: Event): (r: State)
    requires Linked(s) && Enabled(s, ev)
    ensures Linked(r)
  {
    hide WF, EntryLinked;
    match ev
    case Tick(ms) => s.(now := s.now + ms)
    case TransportSays(o, ready) => SetReady(s, o, ready)
    case LeaseCalled(k, key, identity, deadlineMs, l) => LeaseCall(cfg, s, k, key, identity, deadlineMs, l)
    case CallResumes(k, l) => Resume(cfg, s, k, l)
    case OpenAnswers(o, ok) => FinishOpen(cfg, s, o, ok)
    case Asked(l, kind, o) => Ask(cfg, s, l, kind, o)
    case LeaseReleased(l) => Release(cfg, s, l)
    case DeadlineFires(l) => Expire(s, l)
    case IdleFires(c) => ShutDown(s, c, End)
    case HardAgeFires(c) => ShutDown(s, c, Destroy)
    case Evicted(key) => Evict(s, key)
    case GrantCallback(_) => WithChannels(s, Operate(s, ev))
    case Replies(_, _) => WithChannels(s, Operate(s, ev))
    case StreamComes(_) => WithChannels(s, Operate(s, ev))
    case StreamOver(_) => WithChannels(s, Operate(s, ev))
  }

  const START := State(0, map[], map[], map[], map[], map[], map[], 0, 0, 0, Channels(map[], map[], map[], map[]))

  /** A run is the states `run[0]`, `run[1]`, ... with `events[i]` between `run[i]` and
      `run[i + 1]`. */
  ghost predicate IsRun(cfg: Config, run: seq<State>, events: seq<Event>) {
    && |run| == |events| + 1
    && run[0] == START
    && forall i :: 0 <= i < |events| ==> Follows(cfg, run[i], events[i], run[i + 1])
  }

  ghost predicate Follows(cfg: Config, a: State, ev: Event, b: State) {
    Linked(a) && Enabled(a, ev) && b == Step(cfg, a, ev)
  }

  // ---- Every step keeps the invariant ----

  lemma OperateDoes(cfg: Config, s: State, ev: Event)
    requires Linked(s) && Enabled(s, ev) && Valid(s.ch, cfg.channelLimit)
    requires ev.GrantCallback? || ev.Replies? || ev.StreamComes? || ev.StreamOver?
    ensures var r := Operate(s, ev); Valid(r, cfg.channelLimit) && Progress(s.ch, r) && FewerOps(s.ch, r)
  {
    hide Linked, Valid, Progress, FewerOps, WF;
    match ev
    case GrantCallback(o) => GrantRunsDoes(s.ch, o, cfg.channelLimit);
    case Replies(o, ok) => AnsweredDoes(s.ch, o, OutcomeOf(s, o, ok), cfg.channelLimit);
    case StreamComes(o) => StreamArrivesDoes(s.ch, o, cfg.channelLimit);
    case StreamOver(o) => StreamEndsDoes(s.ch, o, cfg.channelLimit);
  }

  lemma OperateKeeps(cfg: Config, s: State, ev: Event)
    requires PoolValid(cfg, s) && Linked(s) && Enabled(s, ev)
    requires ev.GrantCallback? || ev.Replies? || ev.StreamComes? || ev.StreamOver?
    ensures PoolValid(cfg, WithChannels(s, Operate(s, ev)))
  {
    hide Linked, Registry, Named, Entries, Attempts, Conns, Pendings, Leases, Calls, Owned, Valid, SettledBut,
      Operate, Fits, WF, Progress, FewerOps;
    OperateDoes(cfg, s, ev);
    OperateOwned(s, Operate(s, ev));
    OperationKeeps(cfg, s, Operate(s, ev));
  }

  lemma OperateOwned(s: State, ch: Channels)
    requires Linked(s) && Fits(s, ch) && Owned(s.ch, s.lease) && Progress(s.ch, ch) && ch.ops.Keys == s.ch.ops.Keys
    ensures Owned(ch, s.lease)
  {
    hide Linked, Fits;
    OwnedFrame(s.ch, ch, s.lease);
  }

  lemma StepKeeps(cfg: Config, s: State, ev: Event)
    requires PoolValid(cfg, s) && Linked(s) && Enabled(s, ev)
    ensures PoolValid(cfg, Step(cfg, s, ev))
  {
    hide PoolValid, Linked, SetReady, LeaseCall, Resume, FinishOpen, Ask, Release, Expire, ShutDown, Evict, Operate,
      WithChannels;
    match ev
    case Tick(ms) => TickKeeps(cfg, s, s.now + ms);
    case TransportSays(o, ready) => SetReadyKeeps(cfg, s, o, ready);
    case LeaseCalled(k, key, identity, deadlineMs, l) => LeaseCallKeeps(cfg, s, k, key, identity, deadlineMs, l);
    case CallResumes(k, l) => ResumeKeeps(cfg, s, k, l);
    case OpenAnswers(o, ok) => FinishOpenKeeps(cfg, s, o, ok);
    case Asked(l, kind, o) => LinkedLease(s, l); AskKeeps(cfg, s, l, kind, o);
    case LeaseReleased(l) => ReleaseKeeps(cfg, s, l);
    case DeadlineFires(l) => TimerRuns(cfg, s, l); ExpireKeeps(cfg, s, l);
    case IdleFires(c) => ShutDownPool(cfg, s, c, End);
    case HardAgeFires(c) => ShutDownPool(cfg, s, c, Destroy);
    case Evicted(key) => EvictKeeps(cfg, s, key);
    case GrantCallback(_) => OperateKeeps(cfg, s, ev);
    case Replies(_, _) => OperateKeeps(cfg, s, ev);
    case StreamComes(_) => OperateKeeps(cfg, s, ev);
    case StreamOver(_) => OperateKeeps(cfg, s, ev);
  }

  lemma LeaseCallKeeps(cfg: Config, s: State, k: CallId, key: Key, identity: Identity, deadlineMs: int, l: LeaseId)
    requires PoolValid(cfg, s) && Linked(s) && l !in s.lease
    ensures PoolValid(cfg, LeaseCall(cfg, s, k, key, identity, deadlineMs, l))
  {
    hide PoolValid, Linked, LeaseRound;
    if DeadlineFits(cfg, deadlineMs) { LeaseRoundKeeps(cfg, s, k, key, identity, deadlineMs, l); }
  }

  /** A lease whose timer runs is neither released nor expired. */
  lemma TimerRuns(cfg: Config, s: State, l: LeaseId)
    requires PoolValid(cfg, s) && l in s.lease && s.lease[l].timer.Some?
    ensures !s.lease[l].released && !s.lease[l].expired
  {
    hide Registry, Named, Entries, Attempts, Conns, Pendings, Calls, Owned, Valid, SettledBut, WF, EntryLinked;
    assert LeaseRow(cfg, l, s.lease[l], s.conn[s.lease[l].conn], s.ch.leaseOps[l], s.now);
  }

  lemma ShutDownPool(cfg: Config, s: State, c: ConnId, how: How)
    requires PoolValid(cfg, s) && Linked(s) && c in s.conn
    ensures PoolValid(cfg, ShutDown(s, c, how))
  {
    hide Base, Linked, SettledBut, ShutDown;
    ShutDownKeeps(cfg, s, c, how);
    ShutDownSettles(s, c, how, {});
    assert {} - {c} == {};
  }

  /** The invariant holds in every state of every run. */
  lemma {:induction false} RunValid(cfg: Config, run: seq<State>, events: seq<Event>, i: nat)
    requires IsRun(cfg, run, events) && i < |run|
    ensures PoolValid(cfg, run[i])
    decreases i
  {
    hide PoolValid, Linked, Step, Enabled;
    if i == 0 {
      StartValid(cfg);
    } else {
      RunValid(cfg, run, events, i - 1);
      assert Follows(cfg, run[i - 1], events[i - 1], run[i - 1 + 1]);
      StepKeeps(cfg, run[i - 1], events[i - 1]);
    }
  }

  lemma StartValid(cfg: Config)
    ensures PoolValid(cfg, START)
  {
  }
}
