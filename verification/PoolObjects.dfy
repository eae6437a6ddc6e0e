/** The pool as the program has it: objects that refer to one another and are changed in place.
    Each method is one synchronous stretch of the code; what it does to the whole heap is one
    function of `Channels` or `ReadPool` on the tables the heap stands for. */
module PoolObjects {
  import opened Options
  import C = Channels
  import P = ReadPool
  import I = ReadPoolInvariant
  import R = ReadPoolRuns
  import L = ReadPoolOpenProofs

  class Entry {
    const id: P.EntryId
    const key: P.Key
    var generation: nat
    var installed: Connection?
    var pending: Option<P.Pending>
    var connections: set<Connection>
    ghost var lastOpen: P.OpenId
    ghost var evictions: nat

    constructor (id: P.EntryId, key: P.Key)
      ensures this.id == id && this.key == key && Row() == P.EmptyEntry(key, id) && installed == null
      ensures connections == {}
    {
      this.id, this.key, generation := id, key, id;
      installed, pending, connections, lastOpen, evictions := null, None, {}, 0, 0;
    }

    ghost function Row(): P.Entry
      reads this
    {
      P.Entry(key, generation, if installed == null then None else Some(installed.id), pending, ConnIds(connections),
              lastOpen, evictions)
    }
  }

  /** One open and the transport it created. */
  class Opening {
    const id: P.OpenId
    const key: P.Key
    const entry: Entry
    const identity: P.Identity
    const generation: nat
    ghost const evictions: nat
    var phase: P.Phase
    var ready: bool
    ghost var disposals: seq<P.How>

    constructor (id: P.OpenId, key: P.Key, entry: Entry, identity: P.Identity)
      ensures this.id == id && this.entry == entry
      ensures Row() == P.Attempt(key, entry.id, identity, entry.generation, entry.evictions, P.Opening, false, [])
    {
      this.id, this.key, this.entry, this.identity := id, key, entry, identity;
      generation, evictions := entry.generation, entry.evictions;
      phase, ready, disposals := P.Opening, false, [];
    }

    ghost function Row(): P.Attempt
      reads this
    {
      P.Attempt(key, entry.id, identity, generation, evictions, phase, ready, disposals)
    }
  }

  class ChannelLimiter {
    const id: C.ConnId
    const limit: nat
    var active: nat
    var waiting: seq<Op>

    constructor (id: C.ConnId, limit: nat)
      ensures this.id == id && this.limit == limit && Row() == C.Limiter(0, [])
    {
      this.id, this.limit, active, waiting := id, limit, 0, [];
    }

    ghost function Row(): C.Limiter
      reads this
    {
      C.Limiter(active, Ids(waiting))
    }
  }

  class Connection {
    const id: C.ConnId
    const transport: Opening
    const readyAt: int
    const limiter: ChannelLimiter
    var leases: set<Lease>
    var ops: set<Op>
    var retired: bool
    var closed: bool
    var idleTimer: Option<int>
    var hardTimer: Option<int>

    constructor (transport: Opening, limiter: ChannelLimiter, now: int, hardAgeMs: int)
      ensures id == transport.id && this.transport == transport && this.limiter == limiter && ops == {} && leases == {}
      ensures Row() == P.Connection(transport.key, transport.entry.id, transport.identity, now, {}, false, false,
                                    None, Some(now + hardAgeMs))
    {
      id, this.transport, this.limiter, readyAt := transport.id, transport, limiter, now;
      leases, ops, retired, closed, idleTimer, hardTimer := {}, {}, false, false, None, Some(now + hardAgeMs);
    }

    ghost function Row(): P.Connection
      reads this`leases, this`retired, this`closed, this`idleTimer, this`hardTimer
    {
      P.Connection(transport.key, transport.entry.id, transport.identity, readyAt, LeaseIds(leases), retired, closed,
                   idleTimer, hardTimer)
    }
  }

  class Lease {
    const id: C.LeaseId
    const connection: Connection
    const takenAt: int
    const deadlineMs: int
    const reused: bool
    var ops: set<Op>
    var expired: bool
    var released: bool
    var timer: Option<int>

    constructor (id: C.LeaseId, connection: Connection, now: int, deadlineMs: int, reused: bool)
      ensures this.id == id && this.connection == connection && ops == {}
      ensures Row() == P.Lease(connection.id, false, false, Some(now + deadlineMs), now, deadlineMs, reused)
    {
      this.id, this.connection, takenAt, this.deadlineMs, this.reused := id, connection, now, deadlineMs, reused;
      ops, expired, released, timer := {}, false, false, Some(now + deadlineMs);
    }

    ghost function Row(): P.Lease
      reads this`expired, this`released, this`timer
    {
      P.Lease(connection.id, expired, released, timer, takenAt, deadlineMs, reused)
    }
  }

  class Op {
    const id: C.OpId
    const lease: Lease
    const kind: C.Kind
    var state: C.OpState
    var ticket: C.Ticket
    var holdsSlot: bool
    var settled: bool
    var inFlight: bool
    var attached: bool
    var stream: C.Stream
    ghost var answers: seq<C.Answer>
    ghost var grants: nat
    ghost var releases: nat

    constructor (id: C.OpId, lease: Lease, kind: C.Kind)
      ensures this.id == id && this.lease == lease && Row() == C.NewOp(lease.id, lease.connection.id, kind)
    {
      this.id, this.lease, this.kind := id, lease, kind;
      state, ticket, holdsSlot, settled, inFlight, attached, stream := C.Queued, C.Spent, false, false, false, false, C.NoStream;
      answers, grants, releases := [], 0, 0;
    }

    ghost function Row(): C.Op
      reads this
    {
      C.Op(lease.id, lease.connection.id, kind, state, ticket, holdsSlot, settled, inFlight, attached, stream, answers, grants,
           releases)
    }
  }

  ghost function Ids(s: seq<Op>): seq<C.OpId> {
    seq(|s|, i requires 0 <= i < |s| => s[i].id)
  }

  ghost function OpIds(s: set<Op>): set<C.OpId> {
    set o | o in s :: o.id
  }

  ghost function ConnIds(s: set<Connection>): set<C.ConnId> {
    set c | c in s :: c.id
  }

  ghost function LeaseIds(s: set<Lease>): set<C.LeaseId> {
    set l | l in s :: l.id
  }

  class ReadConnections {
    const cfg: P.Config
    var now: int
    var entries: map<P.Key, Entry>
    var generations: nat
    var opens: nat
    var leaseCount: int
    var calls: map<P.CallId, P.Call>
    ghost var entryOf: map<P.EntryId, Entry>
    ghost var openOf: map<P.OpenId, Opening>
    ghost var limiterOf: map<C.ConnId, ChannelLimiter>
    ghost var connOf: map<C.ConnId, Connection>
    ghost var leaseOf: map<C.LeaseId, Lease>
    ghost var opOf: map<C.OpId, Op>

    // ---- The tables ----

    ghost function OpsView(): map<C.OpId, C.Op>
      reads this`opOf, opOf.Values
    {
      map o | o in opOf :: opOf[o].Row()
    }

    ghost function LimitersView(): map<C.ConnId, C.Limiter>
      reads this`limiterOf, limiterOf.Values
    {
      map c | c in limiterOf :: limiterOf[c].Row()
    }

    ghost function ConnOpsView(): map<C.ConnId, set<C.OpId>>
      reads this`connOf, connOf.Values`ops
    {
      map c | c in connOf :: OpIds(connOf[c].ops)
    }

    ghost function LeaseOpsView(): map<C.LeaseId, set<C.OpId>>
      reads this`leaseOf, leaseOf.Values`ops
    {
      map l | l in leaseOf :: OpIds(leaseOf[l].ops)
    }

    ghost function ChannelsView(): C.Channels
      reads this`opOf, this`limiterOf, this`connOf, this`leaseOf, opOf.Values, limiterOf.Values, connOf.Values`ops, leaseOf.Values`ops
    {
      C.Channels(OpsView(), LimitersView(), ConnOpsView(), LeaseOpsView())
    }

    // ---- Objects and numbers name the same things ----

    ghost predicate HasOp(o: Op)
      reads this`opOf
    {
      o.id in opOf && opOf[o.id] == o
    }

    ghost predicate HasConn(c: Connection)
      reads this`connOf, this`limiterOf
    {
      c.id in connOf && connOf[c.id] == c && c.limiter.id == c.id && c.id in limiterOf && limiterOf[c.id] == c.limiter
    }

    ghost predicate HasLease(l: Lease)
      reads this`leaseOf
    {
      l.id in leaseOf && leaseOf[l.id] == l
    }

    ghost predicate QueueKnown(limiter: ChannelLimiter)
      reads this`opOf, limiter`waiting
    {
      && (forall i :: 0 <= i < |limiter.waiting| ==> HasOp(limiter.waiting[i]))
      && (forall i, j :: 0 <= i < j < |limiter.waiting| ==> limiter.waiting[i] != limiter.waiting[j])
    }

    ghost predicate OpsNamed()
      reads this`opOf, this`leaseOf, this`connOf, this`limiterOf
    {
      forall o :: o in opOf ==> opOf[o].id == o && HasLease(opOf[o].lease) && HasConn(opOf[o].lease.connection)
    }

    ghost predicate QueuesKnown()
      reads this`opOf, this`limiterOf, limiterOf.Values`waiting
    {
      forall c :: c in limiterOf ==> limiterOf[c].id == c && limiterOf[c].limit == cfg.channelLimit && QueueKnown(limiterOf[c])
    }

    ghost predicate ConnOpsKnown()
      reads this`opOf, this`connOf, this`limiterOf, connOf.Values`ops
    {
      forall c :: c in connOf ==> connOf[c].id == c && HasConn(connOf[c]) && forall o :: o in connOf[c].ops ==> HasOp(o)
    }

    ghost predicate LeaseOpsKnown()
      reads this`opOf, this`leaseOf, this`connOf, this`limiterOf, leaseOf.Values`ops
    {
      forall l :: l in leaseOf ==>
        leaseOf[l].id == l && HasConn(leaseOf[l].connection) && forall o :: o in leaseOf[l].ops ==> HasOp(o)
    }

    ghost predicate OpsKnown()
      reads this`opOf, this`limiterOf, this`connOf, this`leaseOf, limiterOf.Values`waiting, connOf.Values`ops, leaseOf.Values`ops
    {
      OpsNamed() && QueuesKnown() && ConnOpsKnown() && LeaseOpsKnown()
    }

    // ---- What a write does to the tables ----

    /** Only this operation was written. */
    twostate lemma OpWritten(op: Op)
      requires opOf == old(opOf) && old(OpsNamed()) && old(HasOp(op))
      requires forall o :: o in opOf && opOf[o] != op ==> unchanged(opOf[o])
      ensures OpsView() == old(OpsView())[op.id := op.Row()]
    {
    }

    twostate lemma LimiterWritten(limiter: ChannelLimiter)
      requires limiterOf == old(limiterOf) && old(QueuesKnown()) && limiter.id in limiterOf
      requires limiterOf[limiter.id] == limiter
      requires forall c :: c in limiterOf && limiterOf[c] != limiter ==> unchanged(limiterOf[c])
      ensures LimitersView() == old(LimitersView())[limiter.id := limiter.Row()]
    {
    }

    twostate lemma ConnOpsWritten(connection: Connection)
      requires connOf == old(connOf) && old(ConnOpsKnown()) && old(HasConn(connection))
      requires forall c :: c in connOf && connOf[c] != connection ==> connOf[c].ops == old(connOf[c].ops)
      ensures ConnOpsView() == old(ConnOpsView())[connection.id := OpIds(connection.ops)]
    {
    }

    twostate lemma LeaseOpsWritten(lease: Lease)
      requires leaseOf == old(leaseOf) && old(LeaseOpsKnown()) && old(HasLease(lease))
      requires forall l :: l in leaseOf && leaseOf[l] != lease ==> leaseOf[l].ops == old(leaseOf[l].ops)
      ensures LeaseOpsView() == old(LeaseOpsView())[lease.id := OpIds(lease.ops)]
    {
    }

    lemma OpIdsWithout(s: set<Op>, op: Op)
      requires OpsNamed() && HasOp(op) && forall o :: o in s ==> HasOp(o)
      ensures OpIds(s - {op}) == OpIds(s) - {op.id}
    {
    }

    // ---- Operations ----

    lemma QueueAt(limiter: ChannelLimiter)
      requires QueuesKnown() && limiter.id in limiterOf && limiterOf[limiter.id] == limiter
      ensures QueueKnown(limiter)
    {
    }

    /** One queue was written, and only knows operations of the pool, each once. */
    twostate lemma QueueWritten(limiter: ChannelLimiter)
      requires limiterOf == old(limiterOf) && opOf == old(opOf) && old(QueuesKnown())
      requires limiter.id in limiterOf && limiterOf[limiter.id] == limiter && QueueKnown(limiter)
      requires forall c :: c in limiterOf && limiterOf[c] != limiter ==> limiterOf[c].waiting == old(limiterOf[c].waiting)
      ensures QueuesKnown()
    {
      forall c | c in limiterOf ensures QueueKnown(limiterOf[c]) {
        if limiterOf[c] != limiter { assert old(QueueKnown(limiterOf[c])); }
      }
    }

    /** The permit goes to the longest waiter. */
    method Admit(limiter: ChannelLimiter)
      requires OpsKnown() && limiter.id in limiterOf && limiterOf[limiter.id] == limiter && limiter.waiting != []
      modifies limiter, limiter.waiting[0]
      ensures OpsKnown()
      ensures limiter.active == old(limiter.active) + 1 && limiter.waiting == old(limiter.waiting)[1..]
      ensures HasOp(old(limiter.waiting[0])) && old(limiter.waiting[0]).Row() == C.Grant(old(limiter.waiting[0].Row()))
      ensures ConnOpsView() == old(ConnOpsView()) && LeaseOpsView() == old(LeaseOpsView())
    {
      hide OpsView, LimitersView, ConnOpsView, LeaseOpsView, OpsNamed, QueuesKnown, ConnOpsKnown, LeaseOpsKnown;
      QueueAt(limiter);
      var next := limiter.waiting[0];
      limiter.waiting := limiter.waiting[1..];
      next.ticket := C.Granted;
      next.grants := next.grants + 1;
      limiter.active := limiter.active + 1;
      QueueWritten(limiter);
    }

    lemma RowAt(op: Op)
      requires HasOp(op)
      ensures op.id in OpsView() && OpsView()[op.id] == op.Row()
    {
    }

    lemma LimiterAt(limiter: ChannelLimiter)
      requires limiter.id in limiterOf && limiterOf[limiter.id] == limiter
      ensures limiter.id in LimitersView() && LimitersView()[limiter.id] == limiter.Row()
    {
    }

    /** `release` of the limiter. */
    method ReleasePermit(limiter: ChannelLimiter)
      requires OpsKnown() && limiter.id in limiterOf && limiterOf[limiter.id] == limiter && C.WF(ChannelsView())
      modifies limiter, opOf.Values
      ensures OpsKnown() && ChannelsView() == C.FreePermit(old(ChannelsView()), limiter.id)
    {
      hide OpsView, LimitersView, ConnOpsView, LeaseOpsView, OpsNamed, QueuesKnown, ConnOpsKnown, LeaseOpsKnown, C.WF;
      LimiterAt(limiter);
      QueueAt(limiter);
      ghost var was := Ids(limiter.waiting);
      limiter.active := if limiter.active == 0 then 0 else limiter.active - 1;
      if limiter.waiting != [] {
        var next := limiter.waiting[0];
        RowAt(next);
        Admit(limiter);
        OpWritten(next);
        assert Ids(limiter.waiting) == was[1..] && was[0] == next.id;
        assert OpsView() == old(OpsView())[was[0] := C.Grant(old(OpsView())[was[0]])];
      } else {
        QueueWritten(limiter);
        assert OpsView() == old(OpsView());
      }
      LimiterWritten(limiter);
    }

    twostate lemma ConnOpsShrunk(connection: Connection)
      requires connOf == old(connOf) && opOf == old(opOf) && limiterOf == old(limiterOf) && old(ConnOpsKnown())
      requires connection.ops <= old(connection.ops)
      requires forall c :: c in connOf && connOf[c] != connection ==> connOf[c].ops == old(connOf[c].ops)
      ensures ConnOpsKnown()
    {
    }

    twostate lemma LeaseOpsShrunk(lease: Lease)
      requires leaseOf == old(leaseOf) && opOf == old(opOf) && connOf == old(connOf) && limiterOf == old(limiterOf)
      requires old(LeaseOpsKnown()) && lease.ops <= old(lease.ops)
      requires forall l :: l in leaseOf && leaseOf[l] != lease ==> leaseOf[l].ops == old(leaseOf[l].ops)
      ensures LeaseOpsKnown()
    {
    }

    lemma OpHome(op: Op)
      requires OpsKnown() && HasOp(op)
      ensures HasLease(op.lease) && HasConn(op.lease.connection)
      ensures forall o :: o in op.lease.ops ==> HasOp(o)
      ensures forall o :: o in op.lease.connection.ops ==> HasOp(o)
    {
    }

    lemma ConnOpsAt(connection: Connection)
      requires HasConn(connection)
      ensures connection.id in ConnOpsView() && ConnOpsView()[connection.id] == OpIds(connection.ops)
    {
    }

    lemma LeaseOpsAt(lease: Lease)
      requires HasLease(lease)
      ensures lease.id in LeaseOpsView() && LeaseOpsView()[lease.id] == OpIds(lease.ops)
    {
    }

    /** The operation leaves both sets. */
    method Forget(op: Op)
      requires OpsKnown() && HasOp(op) && C.WF(ChannelsView())
      modifies op.lease`ops, op.lease.connection`ops
      ensures OpsKnown() && ChannelsView() == C.Drop(old(ChannelsView()), op.id)
    {
      hide OpsView, LimitersView, ConnOpsView, LeaseOpsView, OpsNamed, QueuesKnown, ConnOpsKnown, LeaseOpsKnown,
        OpIds, C.WF;
      var lease, connection := op.lease, op.lease.connection;
      OpHome(op);
      RowAt(op);
      ConnOpsAt(connection);
      LeaseOpsAt(lease);
      OpIdsWithout(lease.ops, op);
      OpIdsWithout(connection.ops, op);
      lease.ops := lease.ops - {op};
      connection.ops := connection.ops - {op};
      ConnOpsShrunk(connection);
      LeaseOpsShrunk(lease);
      ConnOpsWritten(connection);
      LeaseOpsWritten(lease);
    }

    /** The operation gives up its slot. */
    method GiveSlotBack(op: Op)
      requires OpsKnown() && HasOp(op) && C.WF(ChannelsView())
      modifies opOf.Values, op.lease.connection.limiter
      ensures OpsKnown() && op.id in old(ChannelsView()).ops
      ensures var ch, o := old(ChannelsView()), op.id;
        var vacated := ch.(ops := ch.ops[o := C.Vacate(ch.ops[o])]);
        C.WF(vacated) && op.lease.connection.id in ch.limiters
        && ChannelsView() == C.FreePermit(vacated, op.lease.connection.id)
    {
      hide OpsView, LimitersView, ConnOpsView, LeaseOpsView, OpsNamed, QueuesKnown, ConnOpsKnown, LeaseOpsKnown,
        C.WF, C.FreePermit;
      OpHome(op);
      RowAt(op);
      LimiterAt(op.lease.connection.limiter);
      op.holdsSlot := false;
      op.releases := op.releases + 1;
      OpWritten(op);
      KeepsWF(op);
      ReleasePermit(op.lease.connection.limiter);
    }

    method FinishOp(op: Op)
      requires OpsKnown() && HasOp(op) && C.WF(ChannelsView())
      modifies opOf.Values, op.lease`ops, op.lease.connection`ops, op.lease.connection.limiter
      ensures OpsKnown() && ChannelsView() == C.FinishOp(old(ChannelsView()), op.id)
    {
      hide OpsKnown, ChannelsView, C.WF, C.FreePermit;
      OpInView(op);
      Forget(op);
      OpInView(op);
      if !op.holdsSlot { return; }
      GiveSlotBack(op);
    }

    lemma OpInView(op: Op)
      requires HasOp(op)
      ensures op.id in ChannelsView().ops && ChannelsView().ops[op.id] == op.Row()
    {
    }

    /** Writing an operation's own fields leaves the tables linked. */
    twostate lemma KeepsWF(op: Op)
      requires old(C.WF(ChannelsView())) && old(HasOp(op)) && opOf == old(opOf)
      requires ChannelsView() == old(ChannelsView()).(ops := old(OpsView())[op.id := op.Row()])
      ensures C.WF(ChannelsView())
    {
    }

    lemma WithoutOne(s: seq<Op>, i: nat)
      requires i < |s| && OpsNamed() && forall j :: 0 <= j < |s| ==> HasOp(s[j])
      requires forall j, k :: 0 <= j < k < |s| ==> s[j] != s[k]
      ensures C.Without(Ids(s), s[i].id) == Ids(s[..i] + s[i + 1..])
    {
      hide C.Without;
      WithoutAt(Ids(s), i);
    }

    lemma WithoutNone(s: seq<Op>, op: Op)
      requires OpsNamed() && HasOp(op) && op !in s && forall j :: 0 <= j < |s| ==> HasOp(s[j])
      ensures C.Without(Ids(s), op.id) == Ids(s)
    {
      hide C.Without;
      WithoutAbsent(Ids(s), op.id);
    }

    /** The abort listener: a waiter leaves the queue. */
    method LeaveQueue(limiter: ChannelLimiter, op: Op)
      requires OpsKnown() && HasOp(op) && limiter.id in limiterOf && limiterOf[limiter.id] == limiter
      modifies limiter`waiting
      ensures OpsKnown()
      ensures limiter.Row() == old(limiter.Row()).(waiting := C.Without(old(limiter.Row()).waiting, op.id))
      ensures LimitersView() == old(LimitersView())[limiter.id := limiter.Row()]
    {
      hide OpsView, LimitersView, ConnOpsView, LeaseOpsView, QueuesKnown, ConnOpsKnown, LeaseOpsKnown, C.Without,
        OpsNamed;
      QueueAt(limiter);
      var index := 0;
      while index < |limiter.waiting| && limiter.waiting[index] != op
        invariant index <= |limiter.waiting|
        invariant op !in limiter.waiting[..index]
      {
        index := index + 1;
      }
      if index < |limiter.waiting| {
        WithoutOne(limiter.waiting, index);
        limiter.waiting := limiter.waiting[..index] + limiter.waiting[index + 1..];
      } else {
        assert limiter.waiting[..index] == limiter.waiting;
        WithoutNone(limiter.waiting, op);
      }
      QueueWritten(limiter);
      LimiterWritten(limiter);
    }

    /** What `controller.abort` does to the limiter. */
    method Abort(op: Op)
      requires OpsKnown() && HasOp(op) && C.WF(ChannelsView())
      modifies op, op.lease.connection.limiter`waiting
      ensures OpsKnown() && ChannelsView() == C.Abort(old(ChannelsView()), op.id)
    {
      hide OpsView, LimitersView, ConnOpsView, LeaseOpsView, OpsNamed, QueuesKnown, ConnOpsKnown, LeaseOpsKnown,
        C.WF, C.Without;
      OpHome(op);
      RowAt(op);
      LimiterAt(op.lease.connection.limiter);
      if op.ticket != C.Waiting { return; }
      op.ticket := C.Spent;
      OpWritten(op);
      LeaveQueue(op.lease.connection.limiter, op);
    }

    /** The first part of `abandon`: settle, destroy the stream, abort. */
    method GiveUp(op: Op, why: C.Answer)
      requires OpsKnown() && HasOp(op) && C.WF(ChannelsView())
      modifies op, op.lease.connection.limiter`waiting
      ensures OpsKnown() && ChannelsView() == C.GiveUp(old(ChannelsView()), op.id, why)
    {
      hide OpsView, LimitersView, ConnOpsView, LeaseOpsView, OpsNamed, QueuesKnown, ConnOpsKnown, LeaseOpsKnown,
        C.WF, C.Abort;
      RowAt(op);
      if !op.settled {
        op.settled := true;
        op.answers := op.answers + [why];
      }
      if op.attached { op.stream := C.Closed; }
      OpWritten(op);
      KeepsWF(op);
      Abort(op);
    }

    method Abandon(op: Op, why: C.Answer)
      requires OpsKnown() && HasOp(op) && C.WF(ChannelsView())
      modifies opOf.Values, op.lease`ops, op.lease.connection`ops, op.lease.connection.limiter
      ensures OpsKnown() && ChannelsView() == C.Abandon(old(ChannelsView()), op.id, why)
    {
      hide OpsKnown, ChannelsView, C.WF, C.GiveUp, C.FinishOp;
      OpInView(op);
      GiveUp(op, why);
      FinishOp(op);
    }

    /** The operation that was begun first. */
    method Oldest(ops: set<Op>) returns (op: Op)
      requires OpsNamed() && ops != {} && forall o :: o in ops ==> HasOp(o)
      ensures op in ops && OpIds(ops) != {} && op.id == C.Least(OpIds(ops))
    {
      var left := ops;
      op :| op in left;
      left := left - {op};
      while left != {}
        invariant left <= ops && op in ops && forall o :: o in ops && o !in left ==> op.id <= o.id
        decreases left
      {
        var o :| o in left;
        if o.id < op.id { op := o; }
        left := left - {o};
      }
      assert op.id in OpIds(ops);
      LeastIs(OpIds(ops), op.id);
    }

    method AbandonOldest(ops: set<Op>, cause: C.Cause) returns (op: Op)
      requires OpsKnown() && C.WF(ChannelsView()) && ops != {} && forall o :: o in ops ==> HasOp(o)
      modifies opOf.Values, limiterOf.Values, connOf.Values`ops, leaseOf.Values`ops
      ensures OpsKnown() && op in ops && OpIds(ops) != {} && op.id == C.Least(OpIds(ops))
      ensures OpIds(ops - {op}) == OpIds(ops) - {op.id}
      ensures var ch := old(ChannelsView());
        op.id in ch.ops && ChannelsView() == C.Abandon(ch, op.id, C.Reason(cause, ch.ops[op.id]))
    {
      hide OpsView, LimitersView, ConnOpsView, LeaseOpsView, OpsNamed, QueuesKnown, ConnOpsKnown, LeaseOpsKnown,
        OpIds, C.WF, C.Abandon;
      op := Oldest(ops);
      OpHome(op);
      OpInView(op);
      OpIdsWithout(ops, op);
      Abandon(op, if cause == C.ConnectionLost then C.Lost else if op.state == C.Queued then C.QueueExpired else C.DeadlinePassed);
    }

    /** The loop over a copy of a set of operations, in the order they were begun. */
    method AbandonAll(ops: set<Op>, cause: C.Cause)
      requires OpsKnown() && C.WF(ChannelsView()) && forall o :: o in ops ==> HasOp(o)
      modifies opOf.Values, limiterOf.Values, connOf.Values`ops, leaseOf.Values`ops
      ensures OpsKnown() && OpIds(ops) <= old(ChannelsView()).ops.Keys
      ensures ChannelsView() == C.AbandonAll(old(ChannelsView()), OpIds(ops), cause)
    {
      hide OpsKnown, ChannelsView, OpIds, C.WF, C.Abandon, C.AbandonAll;
      IdsKnown(ops);
      var left := ops;
      while left != {}
        invariant left <= ops && OpsKnown() && C.WF(ChannelsView()) && OpIds(left) <= ChannelsView().ops.Keys
        invariant C.AbandonAll(ChannelsView(), OpIds(left), cause) == C.AbandonAll(old(ChannelsView()), OpIds(ops), cause)
        decreases left
      {
        AbandonStep(ChannelsView(), OpIds(left), cause);
        var op := AbandonOldest(left, cause);
        left := left - {op};
      }
      NoOps();
      AbandonNone(ChannelsView(), cause);
    }

    lemma IdsKnown(ops: set<Op>)
      requires forall o :: o in ops ==> HasOp(o)
      ensures OpIds(ops) <= ChannelsView().ops.Keys
    {
    }

    lemma NoOps()
      ensures OpIds({}) == {}
    {
    }

    /** `whenAdmitted`'s callback. */
    method GrantRuns(op: Op)
      requires OpsKnown() && HasOp(op) && C.WF(ChannelsView())
      modifies opOf.Values, op.lease.connection.limiter
      ensures OpsKnown() && ChannelsView() == C.GrantRuns(old(ChannelsView()), op.id)
    {
      hide OpsView, LimitersView, ConnOpsView, LeaseOpsView, OpsNamed, QueuesKnown, ConnOpsKnown, LeaseOpsKnown,
        C.WF, C.FreePermit;
      OpHome(op);
      RowAt(op);
      op.ticket := C.Spent;
      if op.settled {
        op.releases := op.releases + 1;
        OpWritten(op);
        KeepsWF(op);
        ReleasePermit(op.lease.connection.limiter);
        return;
      }
      op.holdsSlot := true;
      op.state := C.Requested;
      op.inFlight := true;
      OpWritten(op);
    }

    /** The transport answers an exec, or refuses a forward. */
    method Answered(op: Op, answer: C.Answer)
      requires OpsKnown() && HasOp(op) && C.WF(ChannelsView())
      modifies opOf.Values, op.lease`ops, op.lease.connection`ops, op.lease.connection.limiter
      ensures OpsKnown() && ChannelsView() == C.Answered(old(ChannelsView()), op.id, answer)
    {
      hide OpsView, LimitersView, ConnOpsView, LeaseOpsView, OpsNamed, QueuesKnown, ConnOpsKnown, LeaseOpsKnown,
        C.WF, C.FinishOp;
      RowAt(op);
      op.inFlight := false;
      if op.settled {
        OpWritten(op);
        return;
      }
      op.settled := true;
      op.answers := op.answers + [answer];
      OpWritten(op);
      KeepsWF(op);
      FinishOp(op);
    }

    /** The transport delivers a forward's stream. */
    method StreamArrives(op: Op)
      requires OpsKnown() && HasOp(op) && C.WF(ChannelsView())
      modifies op
      ensures OpsKnown() && ChannelsView() == C.StreamArrives(old(ChannelsView()), op.id)
    {
      hide OpsView, LimitersView, ConnOpsView, LeaseOpsView, OpsNamed, QueuesKnown, ConnOpsKnown, LeaseOpsKnown, C.WF;
      RowAt(op);
      op.inFlight := false;
      if op.settled {
        op.stream := C.Closed;
        OpWritten(op);
        return;
      }
      op.settled := true;
      op.answers := op.answers + [C.Handed];
      op.state := C.Open;
      op.attached := true;
      op.stream := C.Live;
      OpWritten(op);
    }

    /** The stream's socket reports a close, or the caller closes it. */
    method StreamEnds(op: Op)
      requires OpsKnown() && HasOp(op) && C.WF(ChannelsView())
      modifies opOf.Values, op.lease`ops, op.lease.connection`ops, op.lease.connection.limiter
      ensures OpsKnown() && ChannelsView() == C.StreamEnds(old(ChannelsView()), op.id)
    {
      hide OpsView, LimitersView, ConnOpsView, LeaseOpsView, OpsNamed, QueuesKnown, ConnOpsKnown, LeaseOpsKnown,
        C.WF, C.FinishOp;
      RowAt(op);
      if op.attached { op.stream := C.Closed; }
      OpWritten(op);
      KeepsWF(op);
      FinishOp(op);
    }

    // ---- A new operation ----

    /** One operation was added, to no set or queue yet. */
    twostate lemma OpAdded(new op: Op)
      requires op.id !in old(opOf) && opOf == old(opOf)[op.id := op] && old(OpsKnown())
      requires leaseOf == old(leaseOf) && connOf == old(connOf) && limiterOf == old(limiterOf)
      requires HasLease(op.lease) && HasConn(op.lease.connection)
      requires forall c :: c in limiterOf ==> limiterOf[c].waiting == old(limiterOf[c].waiting)
      requires forall c :: c in connOf ==> connOf[c].ops == old(connOf[c].ops)
      requires forall l :: l in leaseOf ==> leaseOf[l].ops == old(leaseOf[l].ops)
      ensures OpsKnown()
    {
    }

    twostate lemma OpAddedView(new op: Op)
      requires op.id !in old(opOf) && opOf == old(opOf)[op.id := op]
      requires forall o :: o in old(opOf) ==> unchanged(old(opOf)[o])
      ensures OpsView() == old(OpsView())[op.id := op.Row()]
    {
    }

    twostate lemma ConnOpsGrown(connection: Connection, new op: Op)
      requires connOf == old(connOf) && opOf == old(opOf) && limiterOf == old(limiterOf) && old(ConnOpsKnown())
      requires HasOp(op)
      requires connection.ops == old(connection.ops) + {op}
      requires forall c :: c in connOf && connOf[c] != connection ==> connOf[c].ops == old(connOf[c].ops)
      ensures ConnOpsKnown() && OpIds(connection.ops) == old(OpIds(connection.ops)) + {op.id}
    {
    }

    twostate lemma LeaseOpsGrown(lease: Lease, new op: Op)
      requires leaseOf == old(leaseOf) && opOf == old(opOf) && connOf == old(connOf) && limiterOf == old(limiterOf)
      requires old(LeaseOpsKnown()) && HasOp(op) && lease.ops == old(lease.ops) + {op}
      requires forall l :: l in leaseOf && leaseOf[l] != lease ==> leaseOf[l].ops == old(leaseOf[l].ops)
      ensures LeaseOpsKnown() && OpIds(lease.ops) == old(OpIds(lease.ops)) + {op.id}
    {
    }

    /** The operation joins both sets. */
    method Enlist(op: Op)
      requires OpsKnown() && HasOp(op)
      modifies op.lease`ops, op.lease.connection`ops
      ensures OpsKnown()
      ensures var l, c := op.lease.id, op.lease.connection.id;
        && l in old(LeaseOpsView()) && c in old(ConnOpsView())
        && LeaseOpsView() == old(LeaseOpsView())[l := old(LeaseOpsView())[l] + {op.id}]
        && ConnOpsView() == old(ConnOpsView())[c := old(ConnOpsView())[c] + {op.id}]
    {
      hide OpsView, LimitersView, ConnOpsView, LeaseOpsView, OpsNamed, QueuesKnown, ConnOpsKnown, LeaseOpsKnown,
        OpIds;
      var lease, connection := op.lease, op.lease.connection;
      OpHome(op);
      ConnOpsAt(connection);
      LeaseOpsAt(lease);
      lease.ops := lease.ops + {op};
      connection.ops := connection.ops + {op};
      LeaseOpsGrown(lease, op);
      ConnOpsGrown(connection, op);
      ConnOpsWritten(connection);
      LeaseOpsWritten(lease);
    }

    lemma QueueLimit(limiter: ChannelLimiter)
      requires QueuesKnown() && limiter.id in limiterOf && limiterOf[limiter.id] == limiter
      ensures limiter.limit == cfg.channelLimit
    {
    }

    /** `acquire` of the limiter. */
    method Acquire(limiter: ChannelLimiter, op: Op)
      requires OpsKnown() && HasOp(op) && limiter.id in limiterOf && limiterOf[limiter.id] == limiter
      requires op !in limiter.waiting
      modifies limiter, op
      ensures OpsKnown()
      ensures var free := old(limiter.active) < cfg.channelLimit; var was := old(limiter.Row());
        && LimitersView() == old(LimitersView())[limiter.id := if free then was.(active := was.active + 1)
                                                              else was.(waiting := was.waiting + [op.id])]
        && OpsView() == old(OpsView())[op.id := if free then C.Grant(old(op.Row())) else old(op.Row()).(ticket := C.Waiting)]
    {
      hide OpsView, LimitersView, ConnOpsView, LeaseOpsView, OpsNamed, QueuesKnown, ConnOpsKnown, LeaseOpsKnown;
      QueueAt(limiter);
      QueueLimit(limiter);
      if limiter.active < limiter.limit {
        limiter.active := limiter.active + 1;
        op.ticket := C.Granted;
        op.grants := op.grants + 1;
      } else {
        ghost var was := Ids(limiter.waiting);
        limiter.waiting := limiter.waiting + [op];
        op.ticket := C.Waiting;
        assert Ids(limiter.waiting) == was + [op.id];
      }
      QueueWritten(limiter);
      LimiterWritten(limiter);
      OpWritten(op);
    }

    lemma NotQueued(limiter: ChannelLimiter, op: Op)
      requires QueuesKnown() && limiter.id in limiterOf && limiterOf[limiter.id] == limiter && op.id !in opOf
      ensures op !in limiter.waiting
    {
      assert QueueKnown(limiter);
    }

    method CreateOp(lease: Lease, id: C.OpId, kind: C.Kind) returns (op: Op)
      requires OpsKnown() && HasLease(lease) && HasConn(lease.connection) && id !in opOf
      modifies this`opOf
      ensures fresh(op) && op.id == id && op.lease == lease && opOf == old(opOf)[id := op] && OpsKnown()
      ensures op.Row() == C.NewOp(lease.id, lease.connection.id, kind)
      ensures id !in old(OpsView()) && OpsView() == old(OpsView())[id := op.Row()]
      ensures op !in lease.connection.limiter.waiting
    {
      hide OpsView, LimitersView, ConnOpsView, LeaseOpsView, OpsNamed, QueuesKnown, ConnOpsKnown, LeaseOpsKnown;
      op := new Op(id, lease, kind);
      NotQueued(lease.connection.limiter, op);
      opOf := opOf[id := op];
      OpAdded(op);
      OpAddedView(op);
      NoOpYet(id);
    }

    /** The operation joins its sets and asks for a channel. */
    method Join(op: Op)
      requires OpsKnown() && HasOp(op) && op !in op.lease.connection.limiter.waiting
      modifies op, op.lease`ops, op.lease.connection`ops, op.lease.connection.limiter
      ensures OpsKnown()
      ensures var l, c := op.lease.id, op.lease.connection.id;
        && l in old(LeaseOpsView()) && c in old(ConnOpsView()) && c in old(LimitersView())
        && LeaseOpsView() == old(LeaseOpsView())[l := old(LeaseOpsView())[l] + {op.id}]
        && ConnOpsView() == old(ConnOpsView())[c := old(ConnOpsView())[c] + {op.id}]
        && var was := old(LimitersView())[c]; var free := was.active < cfg.channelLimit;
        && LimitersView() == old(LimitersView())[c := if free then was.(active := was.active + 1)
                                                     else was.(waiting := was.waiting + [op.id])]
        && OpsView() == old(OpsView())[op.id := if free then C.Grant(old(op.Row())) else old(op.Row()).(ticket := C.Waiting)]
    {
      hide OpsView, LimitersView, ConnOpsView, LeaseOpsView, OpsKnown;
      OpFrame(op);
      LimiterAt(op.lease.connection.limiter);
      Enlist(op);
      Acquire(op.lease.connection.limiter, op);
    }

    /** `begin`'s new operation, and `whenAdmitted`'s wait for a channel. */
    method Begin(lease: Lease, id: C.OpId, kind: C.Kind) returns (op: Op)
      requires OpsKnown() && C.WF(ChannelsView()) && HasLease(lease) && HasConn(lease.connection) && id !in opOf
      modifies this`opOf, lease`ops, lease.connection`ops, lease.connection.limiter
      ensures fresh(op) && opOf == old(opOf)[id := op] && OpsKnown()
      ensures lease.id in old(ChannelsView()).leaseOps && lease.connection.id in old(ChannelsView()).limiters
      ensures id !in old(ChannelsView()).ops
      ensures ChannelsView() == C.Begin(old(ChannelsView()), id, lease.id, lease.connection.id, kind, cfg.channelLimit)
    {
      hide OpsView, LimitersView, ConnOpsView, LeaseOpsView, OpsKnown, C.WF, C.Begin;
      LimiterAt(lease.connection.limiter);
      LeaseOpsAt(lease);
      op := CreateOp(lease, id, kind);
      Join(op);
      BeginIs(old(ChannelsView()), id, lease.id, lease.connection.id, kind, cfg.channelLimit, ChannelsView());
    }

    twostate lemma NoOpYet(id: C.OpId)
      requires id !in old(opOf)
      ensures id !in old(OpsView())
    {
    }

    // ---- The pool's tables ----

    ghost function EntriesView(): map<P.Key, P.EntryId>
      reads this`entries
    {
      map k | k in entries :: entries[k].id
    }

    ghost function EntryView(): map<P.EntryId, P.Entry>
      reads this`entryOf, entryOf.Values
    {
      map e | e in entryOf :: entryOf[e].Row()
    }

    ghost function OpenView(): map<P.OpenId, P.Attempt>
      reads this`openOf, openOf.Values
    {
      map o | o in openOf :: openOf[o].Row()
    }

    ghost function ConnView(): map<C.ConnId, P.Connection>
      reads this`connOf, connOf.Values`leases, connOf.Values`retired, connOf.Values`closed, connOf.Values`idleTimer,
        connOf.Values`hardTimer
    {
      map c | c in connOf :: connOf[c].Row()
    }

    ghost function LeaseView(): map<C.LeaseId, P.Lease>
      reads this`leaseOf, leaseOf.Values`expired, leaseOf.Values`released, leaseOf.Values`timer
    {
      map l | l in leaseOf :: leaseOf[l].Row()
    }

    /** The state the heap stands for. */
    ghost function View(): P.State
      reads this, entryOf.Values, openOf.Values, connOf.Values, leaseOf.Values, limiterOf.Values, opOf.Values
    {
      P.State(now, EntriesView(), EntryView(), OpenView(), ConnView(), LeaseView(), calls, generations, opens, leaseCount,
              ChannelsView())
    }

    /** All of it but the channels. */
    ghost function Rest(): P.State
      reads this, entryOf.Values, openOf.Values, connOf.Values`leases, connOf.Values`retired, connOf.Values`closed,
        connOf.Values`idleTimer, connOf.Values`hardTimer, leaseOf.Values`expired, leaseOf.Values`released, leaseOf.Values`timer
    {
      P.State(now, EntriesView(), EntryView(), OpenView(), ConnView(), LeaseView(), calls, generations, opens, leaseCount,
              C.Channels(map[], map[], map[], map[]))
    }

    lemma ViewParts()
      ensures View() == Rest().(ch := ChannelsView())
    {
    }

    ghost predicate HasEntry(e: Entry)
      reads this`entryOf
    {
      e.id in entryOf && entryOf[e.id] == e
    }

    ghost predicate HasOpening(o: Opening)
      reads this`openOf
    {
      o.id in openOf && openOf[o.id] == o
    }

    ghost predicate MapKnown()
      reads this`entries, this`entryOf
    {
      forall k :: k in entries ==> HasEntry(entries[k])
    }

    ghost predicate EntriesKnown()
      reads this`entryOf, this`connOf, this`limiterOf, entryOf.Values
    {
      forall e :: e in entryOf ==>
        && entryOf[e].id == e
        && (entryOf[e].installed != null ==> HasConn(entryOf[e].installed))
        && forall c :: c in entryOf[e].connections ==> HasConn(c)
    }

    ghost predicate OpensKnown()
      reads this`openOf, this`entryOf
    {
      forall o :: o in openOf ==> openOf[o].id == o && HasEntry(openOf[o].entry)
    }

    ghost predicate ConnsKnown()
      reads this`connOf, this`openOf, this`leaseOf, connOf.Values`leases
    {
      forall c :: c in connOf ==>
        connOf[c].id == c && connOf[c].transport.id == c && HasOpening(connOf[c].transport) && forall l :: l in connOf[c].leases ==> HasLease(l)
    }

    ghost predicate Counted()
      reads this`entryOf, this`openOf, this`connOf, this`limiterOf, this`generations, this`opens
    {
      && (forall e :: e in entryOf ==> e <= generations)
      && (forall o :: o in openOf ==> o <= opens)
      && limiterOf.Keys == connOf.Keys
    }

    ghost predicate PoolKnown()
      reads this`entries, this`entryOf, this`connOf, this`limiterOf, this`openOf, this`leaseOf, this`generations, this`opens,
        entryOf.Values, connOf.Values`leases
    {
      MapKnown() && EntriesKnown() && OpensKnown() && ConnsKnown() && Counted()
    }

    // ---- What a write does to the pool's tables ----

    twostate lemma EntryWritten(entry: Entry)
      requires entryOf == old(entryOf) && old(EntriesKnown()) && HasEntry(entry)
      requires forall e :: e in entryOf && entryOf[e] != entry ==> unchanged(entryOf[e])
      ensures EntryView() == old(EntryView())[entry.id := entry.Row()]
    {
    }

    /** One entry was written, and only refers to connections of the pool. */
    twostate lemma EntryStays(entry: Entry)
      requires entryOf == old(entryOf) && connOf == old(connOf) && limiterOf == old(limiterOf)
      requires old(EntriesKnown()) && HasEntry(entry)
      requires forall e :: e in entryOf && entryOf[e] != entry ==> unchanged(entryOf[e])
      requires entry.installed != null ==> HasConn(entry.installed)
      requires forall c :: c in entry.connections ==> HasConn(c)
      ensures EntriesKnown()
    {
    }

    twostate lemma OpenWritten(opening: Opening)
      requires openOf == old(openOf) && old(OpensKnown()) && HasOpening(opening)
      requires forall o :: o in openOf && openOf[o] != opening ==> unchanged(openOf[o])
      ensures OpenView() == old(OpenView())[opening.id := opening.Row()]
    {
    }

    /** Of all connections, only this one was written. */
    twostate predicate OnlyConn(connection: Connection)
      reads this`connOf, connOf.Values
    {
      connOf == old(connOf) && forall c :: c in connOf && connOf[c] != connection ==> unchanged(connOf[c])
    }

    twostate lemma ConnWritten(connection: Connection)
      requires old(ConnsKnown()) && HasConn(connection) && OnlyConn(connection)
      ensures ConnView() == old(ConnView())[connection.id := connection.Row()]
    {
    }

    twostate lemma LeaseWritten(lease: Lease)
      requires leaseOf == old(leaseOf) && old(LeaseOpsKnown()) && HasLease(lease)
      requires forall l :: l in leaseOf && leaseOf[l] != lease ==> unchanged(leaseOf[l])
      ensures LeaseView() == old(LeaseView())[lease.id := lease.Row()]
    {
    }

    lemma EntryAt(entry: Entry)
      requires HasEntry(entry)
      ensures entry.id in EntryView() && EntryView()[entry.id] == entry.Row()
    {
    }

    lemma OpenAt(opening: Opening)
      requires HasOpening(opening)
      ensures opening.id in OpenView() && OpenView()[opening.id] == opening.Row()
    {
    }

    lemma ConnAt(connection: Connection)
      requires HasConn(connection)
      ensures connection.id in ConnView() && ConnView()[connection.id] == connection.Row()
    {
    }

    lemma LeaseAt(lease: Lease)
      requires HasLease(lease)
      ensures lease.id in LeaseView() && LeaseView()[lease.id] == lease.Row()
    {
    }

    /** What a connection refers to. */
    lemma ConnHome(connection: Connection)
      requires OpsKnown() && PoolKnown() && HasConn(connection)
      ensures HasOpening(connection.transport) && connection.transport.id == connection.id
      ensures HasEntry(connection.transport.entry)
      ensures forall o :: o in connection.ops ==> HasOp(o)
      ensures forall l :: l in connection.leases ==> HasLease(l)
    {
    }

    lemma EntryHome(entry: Entry)
      requires EntriesKnown() && HasEntry(entry)
      ensures entry.installed != null ==> HasConn(entry.installed)
      ensures forall c :: c in entry.connections ==> HasConn(c)
    {
    }

    lemma ConnIdsWithout(s: set<Connection>, connection: Connection)
      requires HasConn(connection) && forall c :: c in s ==> HasConn(c)
      ensures ConnIds(s - {connection}) == ConnIds(s) - {connection.id}
    {
    }

    /** Every object of the pool. */
    ghost function Objects(): set<object>
      reads this`entryOf, this`openOf, this`connOf, this`limiterOf, this`leaseOf, this`opOf
    {
      (set e | e in entryOf.Values) + (set o | o in openOf.Values) + (set c | c in connOf.Values)
      + (set c | c in limiterOf.Values) + (set l | l in leaseOf.Values) + (set o | o in opOf.Values)
    }

    /** No object joined or left, and the pool's own counters stay. */
    twostate predicate SameObjects()
      reads this
    {
      && entryOf == old(entryOf) && openOf == old(openOf) && connOf == old(connOf) && limiterOf == old(limiterOf)
      && leaseOf == old(leaseOf) && opOf == old(opOf)
      && now == old(now) && calls == old(calls) && opens == old(opens) && generations == old(generations)
    }

    /** The operations, limiters, connections and leases are among the pool's objects. */
    lemma ChannelsIn()
      ensures forall o :: o in opOf.Values ==> o in Objects()
      ensures forall c :: c in limiterOf.Values ==> c in Objects()
      ensures forall c :: c in connOf.Values ==> c in Objects()
      ensures forall l :: l in leaseOf.Values ==> l in Objects()
    {
    }

    // ---- Connections ----

    method Prune(key: P.Key, entry: Entry)
      requires OpsKnown() && PoolKnown() && P.Linked(View()) && HasEntry(entry)
      modifies this`entries
      ensures OpsKnown() && PoolKnown() && entry.id in old(View()).entry
      ensures View() == P.Prune(old(View()), key, entry.id)
    {
      hide OpsKnown, EntriesKnown, OpensKnown, ConnsKnown, Counted, P.Linked, EntryView, OpenView, ConnView,
        LeaseView, ChannelsView;
      EntryAt(entry);
      NoConns(entry.connections);
      if entry.connections != {} || entry.pending.Some? { return; }
      if key in entries && entries[key] == entry {
        entries := entries - {key};
        assert EntriesView() == old(EntriesView()) - {key};
      }
    }

    lemma NoConns(s: set<Connection>)
      ensures ConnIds(s) == {} <==> s == {}
    {
      if s != {} {
        var c :| c in s;
        assert c.id in ConnIds(s);
      }
    }

    /** A connection is taken out of its entry. */
    method Unlist(connection: Connection)
      requires EntriesKnown() && HasConn(connection) && HasEntry(connection.transport.entry)
      modifies connection.transport.entry
      ensures EntriesKnown()
      ensures var e := connection.transport.entry; var was := old(e.Row());
        EntryView() == old(EntryView())[e.id := P.Uninstall(was, connection.id).(connections := was.connections - {connection.id})]
    {
      hide EntriesKnown, EntryView, ConnIds;
      var entry := connection.transport.entry;
      EntryHome(entry);
      ConnIdsWithout(entry.connections, connection);
      if entry.installed == connection { entry.installed := null; }
      entry.connections := entry.connections - {connection};
      EntryStays(entry);
      EntryWritten(entry);
    }

    lemma LinkedWF()
      requires P.Linked(View())
      ensures C.WF(ChannelsView()) && View().ch == ChannelsView()
    {
      hide C.WF, ChannelsView, EntriesView, EntryView, OpenView, ConnView, LeaseView;
    }

    /** What `shutDown` writes on the connection and its entry. */
    method MarkClosed(connection: Connection)
      requires OpsKnown() && PoolKnown() && HasConn(connection) && HasEntry(connection.transport.entry)
      modifies connection`closed, connection`idleTimer, connection`hardTimer, connection.transport.entry
      ensures OpsKnown() && PoolKnown()
      ensures ConnView() == old(ConnView())[connection.id := old(connection.Row()).(closed := true, idleTimer := None, hardTimer := None)]
      ensures var e := connection.transport.entry; var was := old(e.Row());
        EntryView() == old(EntryView())[e.id := P.Uninstall(was, connection.id).(connections := was.connections - {connection.id})]
    {
      hide OpsKnown, EntriesKnown, ConnsKnown, OpensKnown, MapKnown, Counted, EntryView, ConnView;
      connection.closed := true;
      connection.idleTimer := None;
      connection.hardTimer := None;
      ConnWritten(connection);
      Unlist(connection);
    }

    /** `destroy` or `close` of the transport. */
    method Dispose(opening: Opening, how: P.How)
      requires OpensKnown() && HasOpening(opening)
      modifies opening
      ensures OpensKnown()
      ensures OpenView() == old(OpenView())[opening.id := old(opening.Row()).(disposals := old(opening.Row()).disposals + [how])]
    {
      hide OpensKnown, OpenView;
      opening.disposals := opening.disposals + [how];
      OpenWritten(opening);
    }

    lemma ConnOpsInView(connection: Connection)
      requires HasConn(connection)
      ensures connection.id in ChannelsView().connOps && ChannelsView().connOps[connection.id] == OpIds(connection.ops)
      ensures connection.id in ChannelsView().limiters
    {
    }

    /** What `shutDown` writes on the connection, its entry and its transport. */
    method CloseRecords(connection: Connection, how: P.How)
      requires OpsKnown() && PoolKnown() && P.Linked(View()) && HasConn(connection)
      modifies connection`closed, connection`idleTimer, connection`hardTimer, connection.transport, connection.transport.entry
      ensures OpsKnown() && PoolKnown() && connection.id in old(View()).conn
      ensures View() == P.MarkClosed(old(View()), connection.id, how)
    {
      hide OpsKnown, EntriesKnown, ConnsKnown, OpensKnown, MapKnown, Counted, EntryView, ConnView, OpenView,
        LeaseView, EntriesView, ChannelsView, P.Uninstall, P.Linked;
      ConnHome(connection);
      ConnAt(connection);
      EntryAt(connection.transport.entry);
      OpenAt(connection.transport);
      MarkClosed(connection);
      Dispose(connection.transport, how);
    }

    /** Operations change nothing but the channels. */
    method AbandonOps(ops: set<Op>, cause: C.Cause)
      requires OpsKnown() && PoolKnown() && C.WF(ChannelsView()) && forall o :: o in ops ==> HasOp(o)
      modifies opOf.Values, limiterOf.Values, connOf.Values`ops, leaseOf.Values`ops
      ensures OpsKnown() && PoolKnown() && OpIds(ops) <= old(ChannelsView()).ops.Keys
      ensures View() == old(View()).(ch := C.AbandonAll(old(ChannelsView()), OpIds(ops), cause))
    {
      hide OpsKnown, PoolKnown, View, Rest, ChannelsView, C.WF, C.AbandonAll, OpIds;
      ViewParts();
      AbandonAll(ops, cause);
      ViewParts();
    }

    method AbandonConnection(connection: Connection)
      requires OpsKnown() && PoolKnown() && P.Linked(View()) && HasConn(connection)
      modifies opOf.Values, limiterOf.Values, connOf.Values`ops, leaseOf.Values`ops
      ensures OpsKnown() && PoolKnown() && C.WF(old(View()).ch) && connection.id in old(View()).ch.limiters
      ensures P.Linked(View()) && View() == old(View()).(ch := C.AbandonConnection(old(View()).ch, connection.id))
    {
      hide OpsKnown, PoolKnown, View, ChannelsView, C.WF, C.AbandonAll, P.Linked, OpIds;
      ConnHome(connection);
      ConnOpsInView(connection);
      LinkedWF();
      AbandonOps(connection.ops, C.ConnectionLost);
      StillLinked(old(View()), View().ch);
    }

    /** `shutDown` up to its last line. */
    method Close(connection: Connection, how: P.How)
      requires OpsKnown() && PoolKnown() && P.Linked(View()) && HasConn(connection)
      modifies connection`closed, connection`idleTimer, connection`hardTimer, connection.transport, connection.transport.entry
      modifies opOf.Values, limiterOf.Values, connOf.Values`ops, leaseOf.Values`ops
      ensures OpsKnown() && PoolKnown() && connection.id in old(View()).conn
      ensures View() == P.Close(old(View()), connection.id, how)
    {
      hide OpsKnown, PoolKnown, View, P.Linked, P.MarkClosed, C.AbandonConnection, C.WF, P.Fits;
      ConnHome(connection);
      CloseRecords(connection, how);
      AbandonConnection(connection);
    }

    method ShutDown(connection: Connection, how: P.How)
      requires OpsKnown() && PoolKnown() && P.Linked(View()) && HasConn(connection)
      modifies this`entries, connection`closed, connection`idleTimer, connection`hardTimer, connection.transport,
        connection.transport.entry
      modifies opOf.Values, limiterOf.Values, connOf.Values`ops, leaseOf.Values`ops
      ensures OpsKnown() && PoolKnown() && connection.id in old(View()).conn
      ensures View() == P.ShutDown(old(View()), connection.id, how)
    {
      hide OpsKnown, PoolKnown, EntryView, ConnView, OpenView, LeaseView, EntriesView, ChannelsView, C.WF, P.Close,
        P.Prune, P.Linked;
      ConnHome(connection);
      ConnAt(connection);
      if connection.closed { return; }
      Close(connection, how);
      Prune(connection.transport.key, connection.transport.entry);
    }

    method Uninstall(entry: Entry, connection: Connection)
      requires EntriesKnown() && HasConn(connection) && HasEntry(entry)
      modifies entry`installed
      ensures EntriesKnown()
      ensures EntryView() == old(EntryView())[entry.id := P.Uninstall(old(entry.Row()), connection.id)]
    {
      hide EntriesKnown, EntryView, ConnIds;
      EntryHome(entry);
      if entry.installed == connection { entry.installed := null; }
      EntryStays(entry);
      EntryWritten(entry);
    }

    method Retire(connection: Connection)
      requires OpsKnown() && PoolKnown() && P.Linked(View()) && HasConn(connection)
      modifies connection`retired, connection.transport.entry`installed
      ensures OpsKnown() && PoolKnown() && connection.id in old(View()).conn
      ensures View() == P.Retire(old(View()), connection.id)
    {
      hide OpsKnown, EntriesKnown, ConnsKnown, OpensKnown, MapKnown, Counted, EntryView, ConnView, OpenView,
        LeaseView, EntriesView, ChannelsView, P.Uninstall, P.Linked;
      ConnHome(connection);
      ConnAt(connection);
      EntryAt(connection.transport.entry);
      connection.retired := true;
      ConnWritten(connection);
      Uninstall(connection.transport.entry, connection);
    }

    method ArmIdle(connection: Connection)
      requires OpsKnown() && PoolKnown() && P.Linked(View()) && HasConn(connection)
      modifies connection`idleTimer
      ensures OpsKnown() && PoolKnown() && connection.id in old(View()).conn
      ensures View() == P.ArmIdle(cfg, old(View()), connection.id)
    {
      hide OpsKnown, EntriesKnown, ConnsKnown, OpensKnown, MapKnown, Counted, EntryView, ConnView, OpenView,
        LeaseView, EntriesView, ChannelsView, P.Linked;
      ConnAt(connection);
      connection.idleTimer := Some(now + cfg.idleMs);
      ConnWritten(connection);
    }

    lemma NoLeases(s: set<Lease>)
      ensures LeaseIds(s) == {} <==> s == {}
    {
      if s != {} {
        var l :| l in s;
        assert l.id in LeaseIds(s);
      }
    }

    lemma InstalledAt(entry: Entry, connection: Connection)
      requires EntriesKnown() && HasEntry(entry) && HasConn(connection)
      ensures entry.installed == connection <==> entry.Row().installed == Some(connection.id)
    {
    }

    lemma ConnInView(connection: Connection)
      requires HasConn(connection)
      ensures connection.id in View().conn && View().conn[connection.id] == connection.Row()
    {
    }

    lemma EntryInView(entry: Entry)
      requires HasEntry(entry)
      ensures entry.id in View().entry && View().entry[entry.id] == entry.Row()
    {
    }

    lemma LeaseInView(lease: Lease)
      requires HasLease(lease)
      ensures lease.id in View().lease && View().lease[lease.id] == lease.Row()
    {
    }

    method AfterLastLease(connection: Connection)
      requires OpsKnown() && PoolKnown() && P.Linked(View()) && HasConn(connection)
      modifies this`entries, connection`closed, connection`idleTimer, connection`hardTimer, connection.transport,
        connection.transport.entry
      modifies opOf.Values, limiterOf.Values, connOf.Values`ops, leaseOf.Values`ops
      ensures OpsKnown() && PoolKnown() && connection.id in old(View()).conn
      ensures View() == P.AfterLastLease(cfg, old(View()), connection.id)
    {
      hide OpsKnown, PoolKnown, View, P.Linked, P.ShutDown, P.ArmIdle, LeaseIds;
      ConnHome(connection);
      ConnInView(connection);
      EntryInView(connection.transport.entry);
      NoLeases(connection.leases);
      InstalledIs(connection);
      if connection.closed || connection.leases != {} { return; }
      if connection.retired {
        ShutDown(connection, P.Destroy);
      } else if connection.transport.entry.installed != connection {
        ShutDown(connection, P.End);
      } else {
        ArmIdle(connection);
      }
    }

    lemma InstalledIs(connection: Connection)
      requires OpsKnown() && PoolKnown() && HasConn(connection)
      ensures var entry := connection.transport.entry;
        entry.installed == connection <==> entry.Row().installed == Some(connection.id)
    {
      ConnHome(connection);
      InstalledAt(connection.transport.entry, connection);
    }

    // ---- Leases ----

    lemma LeaseHome(lease: Lease)
      requires OpsKnown() && HasLease(lease)
      ensures HasConn(lease.connection) && forall o :: o in lease.ops ==> HasOp(o)
    {
    }

    lemma LeaseOpsInView(lease: Lease)
      requires HasLease(lease)
      ensures lease.id in ChannelsView().leaseOps && ChannelsView().leaseOps[lease.id] == OpIds(lease.ops)
    {
    }

    method AbandonLease(lease: Lease, cause: C.Cause)
      requires OpsKnown() && PoolKnown() && P.Linked(View()) && HasLease(lease)
      modifies opOf.Values, limiterOf.Values, connOf.Values`ops, leaseOf.Values`ops
      ensures OpsKnown() && PoolKnown() && C.WF(old(View()).ch) && lease.id in old(View()).ch.leaseOps
      ensures P.Linked(View()) && View() == old(View()).(ch := C.AbandonLease(old(View()).ch, lease.id, cause))
    {
      hide OpsKnown, PoolKnown, View, ChannelsView, C.WF, C.AbandonAll, P.Linked, OpIds;
      LeaseHome(lease);
      LeaseOpsInView(lease);
      LinkedWF();
      AbandonOps(lease.ops, cause);
      StillLinked(old(View()), View().ch);
    }

    method MarkExpired(lease: Lease)
      requires OpsKnown() && PoolKnown() && P.Linked(View()) && HasLease(lease)
      modifies lease`expired, lease`timer
      ensures OpsKnown() && PoolKnown() && lease.id in old(View()).lease
      ensures View() == P.MarkExpired(old(View()), lease.id)
    {
      hide OpsNamed, QueuesKnown, ConnOpsKnown, LeaseOpsKnown, PoolKnown, EntryView, ConnView, OpenView, LeaseView,
        EntriesView, ChannelsView, P.Linked;
      LeaseAt(lease);
      lease.expired := true;
      lease.timer := None;
      LeaseWritten(lease);
    }

    /** Some operation of the lease is past waiting for a channel. */
    method AnyAdmitted(lease: Lease) returns (admitted: bool)
      requires OpsKnown() && P.Linked(View()) && HasLease(lease)
      ensures C.WF(View().ch) && lease.id in View().ch.leaseOps && (admitted <==> C.Admitted(View().ch, lease.id))
    {
      hide OpsNamed, QueuesKnown, ConnOpsKnown, LeaseOpsKnown, C.WF, View, P.Linked, C.Admitted;
      LinkedWF();
      LeaseHome(lease);
      LeaseOpsInView(lease);
      admitted := false;
      var left := lease.ops;
      while left != {}
        invariant left <= lease.ops
        invariant admitted <==> exists o :: o in lease.ops && o !in left && o.state != C.Queued
        decreases left
      {
        var o :| o in left;
        if o.state != C.Queued { admitted := true; }
        left := left - {o};
      }
      AdmittedIs(lease);
    }

    lemma AdmittedIs(lease: Lease)
      requires OpsKnown() && HasLease(lease) && C.WF(ChannelsView()) && lease.id in ChannelsView().leaseOps
      requires ChannelsView().leaseOps[lease.id] == OpIds(lease.ops)
      ensures C.Admitted(ChannelsView(), lease.id) <==> exists o :: o in lease.ops && o.state != C.Queued
    {
      hide C.WF, OpsKnown, LimitersView, ConnOpsView, LeaseOpsView;
      LeaseHome(lease);
      var ch := ChannelsView();
      if C.Admitted(ch, lease.id) {
        var i :| i in ch.leaseOps[lease.id] && ch.ops[i].state != C.Queued;
        var o :| o in lease.ops && o.id == i;
        assert HasOp(o);
      }
      if o :| o in lease.ops && o.state != C.Queued {
        assert HasOp(o);
        assert o.id in ch.leaseOps[lease.id] && ch.ops[o.id].state != C.Queued;
      }
    }

    /** The deadline of a lease fires. */
    method Expire(lease: Lease)
      requires OpsKnown() && PoolKnown() && P.Linked(View()) && HasLease(lease)
      modifies lease`expired, lease`timer, lease.connection`retired, lease.connection.transport.entry`installed
      modifies opOf.Values, limiterOf.Values, connOf.Values`ops, leaseOf.Values`ops
      ensures OpsKnown() && PoolKnown() && lease.id in old(View()).lease
      ensures View() == P.Expire(old(View()), lease.id)
    {
      hide OpsKnown, PoolKnown, View, P.Linked, P.MarkExpired, P.Retire, C.WF, C.AbandonLease, C.Admitted, P.Fits;
      LeaseHome(lease);
      LeaseInView(lease);
      var admitted := AnyAdmitted(lease);
      MarkExpired(lease);
      AbandonLease(lease, C.AtDeadline);
      if admitted { Retire(lease.connection); }
    }

    twostate lemma LeasesShrunk(connection: Connection)
      requires old(ConnsKnown()) && connOf == old(connOf) && openOf == old(openOf) && leaseOf == old(leaseOf)
      requires connection.leases <= old(connection.leases)
      requires forall c :: c in connOf && connOf[c] != connection ==> connOf[c].leases == old(connOf[c].leases)
      ensures ConnsKnown()
    {
    }

    lemma LeaseIdsWithout(s: set<Lease>, lease: Lease)
      requires HasLease(lease) && forall l :: l in s ==> HasLease(l)
      ensures LeaseIds(s - {lease}) == LeaseIds(s) - {lease.id}
    {
    }

    method MarkReleased(lease: Lease)
      requires OpsKnown() && PoolKnown() && P.Linked(View()) && HasLease(lease)
      modifies this`leaseCount, lease`released, lease`timer, lease.connection`leases
      ensures OpsKnown() && PoolKnown() && lease.id in old(View()).lease
      ensures View() == P.MarkReleased(old(View()), lease.id)
    {
      hide OpsNamed, QueuesKnown, ConnOpsKnown, LeaseOpsKnown, EntriesKnown, ConnsKnown, OpensKnown, MapKnown,
        Counted, EntryView, ConnView, OpenView, LeaseView, EntriesView, ChannelsView, P.Linked, LeaseIds;
      LeaseHome(lease);
      ConnHome(lease.connection);
      LeaseAt(lease);
      ConnAt(lease.connection);
      LeaseIdsWithout(lease.connection.leases, lease);
      lease.released := true;
      lease.timer := None;
      leaseCount := leaseCount - 1;
      lease.connection.leases := lease.connection.leases - {lease};
      LeaseWritten(lease);
      ConnWritten(lease.connection);
      LeasesShrunk(lease.connection);
    }

    method Release(lease: Lease)
      requires OpsKnown() && PoolKnown() && P.Linked(View()) && HasLease(lease)
      modifies this`leaseCount, this`entries, lease`released, lease`timer
      modifies lease.connection`leases, lease.connection`closed, lease.connection`idleTimer, lease.connection`hardTimer
      modifies lease.connection.transport, lease.connection.transport.entry
      modifies opOf.Values, limiterOf.Values, connOf.Values`ops, leaseOf.Values`ops
      ensures OpsKnown() && PoolKnown() && lease.id in old(View()).lease
      ensures View() == P.Release(cfg, old(View()), lease.id)
    {
      hide OpsKnown, PoolKnown, View, P.Linked, P.MarkReleased, P.AfterLastLease, C.WF, C.AbandonLease, P.Fits;
      LeaseHome(lease);
      LeaseInView(lease);
      if lease.released { return; }
      MarkReleased(lease);
      AbandonLease(lease, C.ConnectionLost);
      AfterLastLease(lease.connection);
    }

    /** One lease was added, to no connection's set yet. */
    twostate lemma LeaseAdded(lease: Lease)
      requires old(OpsKnown()) && old(ConnsKnown()) && lease.id !in old(leaseOf)
      requires leaseOf == old(leaseOf)[lease.id := lease]
      requires opOf == old(opOf) && connOf == old(connOf) && limiterOf == old(limiterOf) && openOf == old(openOf)
      requires HasConn(lease.connection) && lease.ops == {}
      requires forall c :: c in limiterOf ==> limiterOf[c].waiting == old(limiterOf[c].waiting)
      requires forall c :: c in connOf ==> connOf[c].ops == old(connOf[c].ops) && connOf[c].leases == old(connOf[c].leases)
      requires forall l :: l in old(leaseOf) ==> old(leaseOf)[l].ops == old(leaseOf[l].ops)
      ensures OpsKnown() && ConnsKnown()
    {
    }

    twostate lemma LeaseAddedViews(lease: Lease)
      requires lease.id !in old(leaseOf) && leaseOf == old(leaseOf)[lease.id := lease] && lease.ops == {}
      requires forall l :: l in old(leaseOf) ==> unchanged(old(leaseOf)[l])
      ensures lease.id !in old(LeaseView()) && LeaseView() == old(LeaseView())[lease.id := lease.Row()]
      ensures LeaseOpsView() == old(LeaseOpsView())[lease.id := {}]
    {
      assert OpIds(lease.ops) == {};
    }

    twostate lemma LeasesGrown(connection: Connection, new lease: Lease)
      requires old(ConnsKnown()) && connOf == old(connOf) && openOf == old(openOf) && leaseOf == old(leaseOf)
      requires HasLease(lease)
      requires connection.leases == old(connection.leases) + {lease}
      requires forall c :: c in connOf && connOf[c] != connection ==> connOf[c].leases == old(connOf[c].leases)
      ensures ConnsKnown() && LeaseIds(connection.leases) == old(LeaseIds(connection.leases)) + {lease.id}
    {
    }

    /** The pool takes a new lease in. */
    method AdoptLease(lease: Lease)
      requires OpsKnown() && PoolKnown() && P.Linked(View()) && HasConn(lease.connection)
      requires lease.id !in leaseOf && lease.ops == {}
      modifies this`leaseOf
      ensures leaseOf == old(leaseOf)[lease.id := lease]
      ensures OpsKnown() && PoolKnown() && lease.id !in old(View()).lease && C.WF(old(View()).ch)
      ensures View() == old(View()).(ch := C.AddLease(old(View()).ch, lease.id), lease := old(View()).lease[lease.id := lease.Row()])
    {
      hide OpsNamed, QueuesKnown, ConnOpsKnown, LeaseOpsKnown, EntriesKnown, ConnsKnown, OpensKnown, MapKnown,
        Counted, EntryView, ConnView, OpenView, LeaseView, EntriesView, OpsView, LimitersView, ConnOpsView,
        LeaseOpsView, C.WF, P.Linked;
      LinkedWF();
      leaseOf := leaseOf[lease.id := lease];
      LeaseAdded(lease);
      LeaseAddedViews(lease);
    }

    method CreateLease(connection: Connection, id: C.LeaseId, deadlineMs: int, reused: bool) returns (lease: Lease)
      requires OpsKnown() && PoolKnown() && P.Linked(View()) && HasConn(connection) && id !in leaseOf
      modifies this`leaseOf
      ensures fresh(lease) && lease.id == id && lease.connection == connection && leaseOf == old(leaseOf)[id := lease]
      ensures OpsKnown() && PoolKnown() && id !in old(View()).lease && C.WF(old(View()).ch)
      ensures View() == old(View()).(ch := C.AddLease(old(View()).ch, id),
        lease := old(View()).lease[id := P.Lease(connection.id, false, false, Some(now + deadlineMs), now, deadlineMs, reused)])
    {
      hide OpsKnown, PoolKnown, View, C.WF, C.AddLease, P.Linked;
      lease := new Lease(id, connection, now, deadlineMs, reused);
      AdoptLease(lease);
    }

    method HoldLease(connection: Connection, lease: Lease)
      requires ConnsKnown() && HasConn(connection) && HasLease(lease)
      modifies connection`idleTimer, connection`leases
      ensures ConnsKnown() && connection.id in old(ConnView())
      ensures var was := old(connection.Row());
        ConnView() == old(ConnView())[connection.id := was.(idleTimer := None, leases := was.leases + {lease.id})]
    {
      hide ConnsKnown, ConnView, LeaseIds;
      ConnAt(connection);
      connection.idleTimer := None;
      connection.leases := connection.leases + {lease};
      ConnWritten(connection);
      LeasesGrown(connection, lease);
    }

    method TakeLease(connection: Connection, lease: Lease)
      requires OpsKnown() && PoolKnown() && HasConn(connection) && HasLease(lease)
      modifies this`leaseCount, connection`idleTimer, connection`leases
      ensures OpsKnown() && PoolKnown() && connection.id in old(View()).conn
      ensures View() == old(View()).(leaseCount := old(leaseCount) + 1,
        conn := old(View()).conn[connection.id := old(connection.Row()).(idleTimer := None, leases := old(connection.Row()).leases + {lease.id})])
    {
      hide OpsKnown, EntriesKnown, ConnsKnown, OpensKnown, MapKnown, Counted, EntryView, ConnView, OpenView, LeaseView,
        EntriesView, ChannelsView;
      HoldLease(connection, lease);
      leaseCount := leaseCount + 1;
    }

    method Checkout(connection: Connection, deadlineMs: int, id: C.LeaseId, reused: bool) returns (lease: Lease)
      requires OpsKnown() && PoolKnown() && P.Linked(View()) && HasConn(connection) && id !in leaseOf
      modifies this`leaseOf, this`leaseCount, connection`idleTimer, connection`leases
      ensures fresh(lease) && lease.id == id && lease.connection == connection && leaseOf == old(leaseOf)[id := lease]
      ensures OpsKnown() && PoolKnown() && id !in old(View()).lease && connection.id in old(View()).conn
      ensures View() == P.Checkout(old(View()), connection.id, deadlineMs, id, reused)
    {
      hide OpsKnown, PoolKnown, View, C.WF, C.AddLease, P.Linked, LeaseIds;
      ConnInView(connection);
      ClockInView();
      lease := CreateLease(connection, id, deadlineMs, reused);
      TakeLease(connection, lease);
    }

    lemma ClockInView()
      ensures View().now == now && View().leaseCount == leaseCount
    {
    }

    // ---- Opens ----

    /** One entry was added and put in the map under its key. */
    twostate lemma EntryAdded(new entry: Entry)
      requires old(PoolKnown()) && entry.id !in old(entryOf) && entryOf == old(entryOf)[entry.id := entry]
      requires entries == old(entries)[entry.key := entry]
      requires generations == old(generations) + 1 == entry.id && opens == old(opens)
      requires connOf == old(connOf) && limiterOf == old(limiterOf) && openOf == old(openOf) && leaseOf == old(leaseOf)
      requires entry.installed == null && entry.connections == {}
      requires forall c :: c in connOf ==> connOf[c].leases == old(connOf[c].leases)
      requires forall e :: e in old(entryOf) ==> unchanged(old(entryOf)[e])
      ensures PoolKnown()
      ensures EntryView() == old(EntryView())[entry.id := entry.Row()]
      ensures EntriesView() == old(EntriesView())[entry.key := entry.id]
    {
    }

    lemma EntriesInView(key: P.Key)
      requires MapKnown()
      ensures key in View().entries <==> key in entries
      ensures key in entries ==> View().entries[key] == entries[key].id && HasEntry(entries[key])
    {
    }

    lemma FreshGeneration()
      requires Counted()
      ensures generations + 1 !in entryOf && generations + 1 !in View().entry && View().generations == generations
    {
    }

    method EntryFor(key: P.Key) returns (entry: Entry)
      requires OpsKnown() && PoolKnown() && P.Linked(View())
      modifies this`entries, this`entryOf, this`generations
      ensures OpsKnown() && PoolKnown() && HasEntry(entry) && key in entries && entries[key] == entry
      ensures forall e :: e in entryOf && e !in old(entryOf) ==> fresh(entryOf[e])
      ensures forall e :: e in old(entryOf) ==> e in entryOf && entryOf[e] == old(entryOf)[e]
      ensures View() == P.EntryFor(old(View()), key)
    {
      hide OpsKnown, EntriesKnown, ConnsKnown, OpensKnown, MapKnown, Counted, EntryView, ConnView, OpenView,
        LeaseView, EntriesView, ChannelsView, P.Linked;
      EntriesInView(key);
      if key in entries { return entries[key]; }
      FreshGeneration();
      entry := new Entry(generations + 1, key);
      generations := generations + 1;
      entries := entries[key := entry];
      entryOf := entryOf[entry.id := entry];
      EntryAdded(entry);
    }

    /** One open was added. */
    twostate lemma OpenAdded(opening: Opening)
      requires old(PoolKnown()) && opening.id !in old(openOf) && openOf == old(openOf)[opening.id := opening]
      requires generations == old(generations) && opens == old(opens) + 1 == opening.id && HasEntry(opening.entry)
      requires connOf == old(connOf) && limiterOf == old(limiterOf) && entryOf == old(entryOf)
      requires leaseOf == old(leaseOf)
      requires forall c :: c in connOf ==> connOf[c].leases == old(connOf[c].leases)
      requires forall o :: o in old(openOf) ==> unchanged(old(openOf)[o])
      ensures OpensKnown() && ConnsKnown() && Counted()
      ensures OpenView() == old(OpenView())[opening.id := opening.Row()]
    {
    }

    lemma FreshOpen()
      requires Counted()
      ensures opens + 1 !in openOf && View().opens == opens
    {
    }

    /** The pool takes a new opening in. */
    method AdoptOpening(opening: Opening)
      requires OpsKnown() && PoolKnown() && HasEntry(opening.entry) && opening.id == opens + 1
      modifies this`opens, this`openOf
      ensures opens == old(opens) + 1 && OpsKnown() && PoolKnown() && openOf == old(openOf)[opens := opening]
      ensures View() == old(View()).(opens := opens, attempts := old(View()).attempts[opens := opening.Row()])
    {
      hide OpsKnown, EntriesKnown, ConnsKnown, OpensKnown, MapKnown, Counted, EntryView, ConnView, OpenView,
        LeaseView, EntriesView, ChannelsView;
      FreshOpen();
      opens := opens + 1;
      openOf := openOf[opens := opening];
      OpenAdded(opening);
    }

    method CreateOpening(key: P.Key, entry: Entry, identity: P.Identity) returns (opening: Opening)
      requires OpsKnown() && PoolKnown() && HasEntry(entry)
      modifies this`opens, this`openOf
      ensures fresh(opening) && opening.entry == entry && opening.id == opens == old(opens) + 1
      ensures OpsKnown() && PoolKnown() && openOf == old(openOf)[opening.id := opening]
      ensures View() == old(View()).(opens := opens,
        attempts := old(View()).attempts[opens := P.Attempt(key, entry.id, identity, entry.generation, entry.evictions, P.Opening, false, [])])
    {
      hide OpsKnown, PoolKnown, View;
      opening := new Opening(opens + 1, key, entry, identity);
      AdoptOpening(opening);
    }

    method SetPending(entry: Entry, pending: Option<P.Pending>, ghost lastOpen: P.OpenId)
      requires OpsKnown() && PoolKnown() && HasEntry(entry)
      modifies entry`pending, entry`lastOpen
      ensures OpsKnown() && PoolKnown() && entry.id in old(View()).entry
      ensures View() == old(View()).(entry := old(View()).entry[entry.id := old(entry.Row()).(pending := pending, lastOpen := lastOpen)])
    {
      hide OpsKnown, EntriesKnown, ConnsKnown, OpensKnown, MapKnown, Counted, EntryView, ConnView, OpenView,
        LeaseView, EntriesView, ChannelsView, ConnIds;
      EntryAt(entry);
      EntryHome(entry);
      entry.pending := pending;
      entry.lastOpen := lastOpen;
      EntryStays(entry);
      EntryWritten(entry);
    }

    method StartOpen(key: P.Key, entry: Entry, identity: P.Identity) returns (opening: Opening)
      requires OpsKnown() && PoolKnown() && P.Linked(View()) && HasEntry(entry)
      modifies this`opens, this`openOf, entry`pending, entry`lastOpen
      ensures fresh(opening) && opening.id == opens && openOf == old(openOf)[opening.id := opening]
      ensures OpsKnown() && PoolKnown() && entry.id in old(View()).entry
      ensures View() == P.StartOpen(old(View()), key, entry.id, identity)
    {
      hide OpsKnown, PoolKnown, View, P.Linked, C.WF;
      EntryInView(entry);
      OpensInView();
      opening := CreateOpening(key, entry, identity);
      SetPending(entry, Some(P.Pending(opening.id, identity, entry.generation)), opening.id);
    }

    lemma OpensInView()
      ensures View().opens == opens && View().calls == calls
    {
    }

    lemma OpeningInView(opening: Opening)
      requires HasOpening(opening)
      ensures opening.id in View().attempts && View().attempts[opening.id] == opening.Row()
    {
    }

    lemma OpeningHome(opening: Opening)
      requires PoolKnown() && HasOpening(opening)
      ensures HasEntry(opening.entry)
    {
    }

    method RefuseOpening(opening: Opening)
      requires OpsKnown() && PoolKnown() && HasOpening(opening)
      modifies opening`phase, opening`disposals
      ensures OpsKnown() && PoolKnown() && opening.id in old(View()).attempts
      ensures View() == old(View()).(attempts := old(View()).attempts[opening.id :=
        old(opening.Row()).(phase := P.GaveUp, disposals := old(opening.Row()).disposals + [P.Destroy])])
    {
      hide OpsKnown, EntriesKnown, ConnsKnown, OpensKnown, MapKnown, Counted, EntryView, ConnView, OpenView,
        LeaseView, EntriesView, ChannelsView;
      OpenAt(opening);
      opening.disposals := opening.disposals + [P.Destroy];
      opening.phase := P.GaveUp;
      OpenWritten(opening);
    }

    /** `giveUp`. */
    method GiveUpOpen(opening: Opening)
      requires OpsKnown() && PoolKnown() && P.Linked(View()) && HasOpening(opening)
      modifies this`entries, opening`phase, opening`disposals, opening.entry`pending, opening.entry`lastOpen
      ensures OpsKnown() && PoolKnown() && opening.id in old(View()).attempts
      ensures View() == P.GiveUpOpen(old(View()), opening.id)
    {
      hide OpsKnown, PoolKnown, View, P.Linked, P.Prune;
      var entry := opening.entry;
      OpeningHome(opening);
      OpeningInView(opening);
      EntryInView(entry);
      RefuseOpening(opening);
      if entry.pending.None? || entry.pending.value.id != opening.id {
        NothingCleared(old(View()), opening.id);
        return;
      }
      SetPending(entry, None, entry.lastOpen);
      assert View() == P.Refuse(old(View()), opening.id);
      Prune(opening.key, entry);
    }

    /** One connection was added with its limiter, known to no entry and holding nothing yet. */
    twostate lemma ConnAdded(connection: Connection)
      requires old(OpsKnown()) && old(PoolKnown()) && connection.id !in old(connOf)
      requires connOf == old(connOf)[connection.id := connection]
      requires limiterOf == old(limiterOf)[connection.id := connection.limiter]
      requires opOf == old(opOf) && leaseOf == old(leaseOf) && openOf == old(openOf) && entryOf == old(entryOf)
      requires generations == old(generations) && opens == old(opens)
      requires connection.limiter.id == connection.id && connection.limiter.limit == cfg.channelLimit
      requires connection.limiter.waiting == []
      requires connection.transport.id == connection.id && HasOpening(connection.transport)
      requires connection.ops == {} && connection.leases == {}
      requires forall c :: c in old(connOf) ==> unchanged(old(connOf)[c])
      requires forall c :: c in old(limiterOf) ==> unchanged(old(limiterOf)[c])
      requires forall l :: l in leaseOf ==> unchanged(leaseOf[l])
      requires forall e :: e in entryOf ==> unchanged(entryOf[e])
      ensures OpsNamed() && QueuesKnown() && ConnOpsKnown() && LeaseOpsKnown()
    {
    }

    twostate lemma ConnAddedPool(connection: Connection)
      requires old(OpsKnown()) && old(PoolKnown()) && connection.id !in old(connOf)
      requires connOf == old(connOf)[connection.id := connection]
      requires limiterOf == old(limiterOf)[connection.id := connection.limiter]
      requires opOf == old(opOf) && leaseOf == old(leaseOf) && openOf == old(openOf) && entryOf == old(entryOf)
      requires generations == old(generations) && opens == old(opens)
      requires connection.limiter.id == connection.id && connection.limiter.limit == cfg.channelLimit
      requires connection.limiter.waiting == []
      requires connection.transport.id == connection.id && HasOpening(connection.transport)
      requires connection.ops == {} && connection.leases == {}
      requires forall c :: c in old(connOf) ==> unchanged(old(connOf)[c])
      requires forall c :: c in old(limiterOf) ==> unchanged(old(limiterOf)[c])
      requires forall l :: l in leaseOf ==> unchanged(leaseOf[l])
      requires forall e :: e in entryOf ==> unchanged(entryOf[e])
      ensures EntriesKnown() && ConnsKnown() && Counted()
    {
      hide OpsKnown;
    }

    twostate lemma ConnAddedView(connection: Connection)
      requires connection.id !in old(connOf) && connOf == old(connOf)[connection.id := connection]
      requires forall c :: c in old(connOf) ==> unchanged(old(connOf)[c])
      ensures ConnView() == old(ConnView())[connection.id := connection.Row()]
    {
    }

    twostate lemma ConnAddedViews(connection: Connection)
      requires connection.id !in old(connOf) && connection.id !in old(limiterOf)
      requires connOf == old(connOf)[connection.id := connection]
      requires limiterOf == old(limiterOf)[connection.id := connection.limiter]
      requires connection.ops == {}
      requires forall c :: c in old(connOf) ==> unchanged(old(connOf)[c])
      requires forall c :: c in old(limiterOf) ==> unchanged(old(limiterOf)[c])
      ensures LimitersView() == old(LimitersView())[connection.id := connection.limiter.Row()]
      ensures ConnOpsView() == old(ConnOpsView())[connection.id := {}]
    {
      assert OpIds(connection.ops) == {};
    }

    twostate lemma ConnAddedChannels(connection: Connection)
      requires connection.id !in old(connOf) && connection.id !in old(limiterOf) && old(C.WF(ChannelsView()))
      requires connOf == old(connOf)[connection.id := connection]
      requires limiterOf == old(limiterOf)[connection.id := connection.limiter]
      requires opOf == old(opOf) && leaseOf == old(leaseOf)
      requires connection.ops == {} && connection.limiter.Row() == C.Limiter(0, [])
      requires forall c :: c in old(connOf) ==> unchanged(old(connOf)[c])
      requires forall c :: c in old(limiterOf) ==> unchanged(old(limiterOf)[c])
      requires forall l :: l in leaseOf ==> unchanged(leaseOf[l])
      requires forall o :: o in opOf ==> unchanged(opOf[o])
      ensures ChannelsView() == C.AddConnection(old(ChannelsView()), connection.id)
      ensures ConnView() == old(ConnView())[connection.id := connection.Row()]
    {
      hide OpsView, LeaseOpsView, LimitersView, ConnOpsView, ConnView, C.WF;
      ConnAddedView(connection);
      ConnAddedViews(connection);
    }

    lemma SameCount()
      requires Counted()
      ensures forall c :: c in connOf <==> c in limiterOf
    {
    }

    /** The pool takes a new connection in. */
    method Adopt(connection: Connection)
      requires OpsKnown() && PoolKnown() && P.Linked(View()) && connection.id !in connOf
      requires connection.limiter.id == connection.id && connection.limiter.limit == cfg.channelLimit
      requires connection.limiter.Row() == C.Limiter(0, []) && connection.ops == {} && connection.leases == {}
      requires connection.transport.id == connection.id && HasOpening(connection.transport)
      modifies this`connOf, this`limiterOf
      ensures connOf == old(connOf)[connection.id := connection]
      ensures limiterOf == old(limiterOf)[connection.id := connection.limiter]
      ensures HasConn(connection) && OpsKnown() && PoolKnown() && C.WF(old(View()).ch)
      ensures View() == old(View()).(ch := C.AddConnection(old(View()).ch, connection.id),
                                     conn := old(View()).conn[connection.id := connection.Row()])
    {
      hide OpsNamed, QueuesKnown, ConnOpsKnown, LeaseOpsKnown, EntriesKnown, ConnsKnown, OpensKnown, MapKnown,
        Counted, ChannelsView, EntryView, ConnView, OpenView, LeaseView, EntriesView, C.AddConnection, C.WF, P.Linked;
      LinkedWF();
      SameCount();
      connOf := connOf[connection.id := connection];
      limiterOf := limiterOf[connection.id := connection.limiter];
      ConnAdded(connection);
      ConnAddedPool(connection);
      ConnAddedChannels(connection);
    }

    method CreateConnection(opening: Opening) returns (connection: Connection)
      requires OpsKnown() && PoolKnown() && P.Linked(View()) && HasOpening(opening) && opening.id !in connOf
      modifies this`connOf, this`limiterOf
      ensures fresh(connection) && fresh(connection.limiter) && connection.id == opening.id
      ensures connection.transport == opening
      ensures connOf == old(connOf)[connection.id := connection]
      ensures limiterOf == old(limiterOf)[connection.id := connection.limiter]
      ensures HasConn(connection) && OpsKnown() && PoolKnown() && C.WF(old(View()).ch)
      ensures View() == old(View()).(ch := C.AddConnection(old(View()).ch, opening.id),
        conn := old(View()).conn[opening.id := P.Connection(opening.key, opening.entry.id, opening.identity, now, {}, false, false,
                                                          None, Some(now + cfg.hardAgeMs))])
    {
      hide OpsKnown, PoolKnown, ChannelsView, EntryView, ConnView, OpenView, LeaseView, EntriesView,
        C.AddConnection, C.WF, P.Linked;
      var limiter := new ChannelLimiter(opening.id, cfg.channelLimit);
      connection := new Connection(opening, limiter, now, cfg.hardAgeMs);
      Adopt(connection);
    }

    method SetLanded(opening: Opening)
      requires OpsKnown() && PoolKnown() && HasOpening(opening)
      modifies opening`phase
      ensures OpsKnown() && PoolKnown() && opening.id in old(View()).attempts
      ensures View() == old(View()).(attempts := old(View()).attempts[opening.id := old(opening.Row()).(phase := P.Landed)])
    {
      hide OpsKnown, EntriesKnown, ConnsKnown, OpensKnown, MapKnown, Counted, EntryView, ConnView, OpenView,
        LeaseView, EntriesView, ChannelsView;
      OpenAt(opening);
      opening.phase := P.Landed;
      OpenWritten(opening);
    }

    lemma ConnIdsWith(s: set<Connection>, connection: Connection)
      ensures ConnIds(s + {connection}) == ConnIds(s) + {connection.id}
    {
    }

    method SetInstalled(entry: Entry, connection: Connection)
      requires OpsKnown() && PoolKnown() && HasEntry(entry) && HasConn(connection)
      modifies entry`pending, entry`installed, entry`connections
      ensures OpsKnown() && PoolKnown() && entry.id in old(View()).entry
      ensures View() == old(View()).(entry := old(View()).entry[entry.id := old(entry.Row()).(
        pending := None, installed := Some(connection.id), connections := old(entry.Row()).connections + {connection.id})])
    {
      hide OpsKnown, EntriesKnown, ConnsKnown, OpensKnown, MapKnown, Counted, EntryView, ConnView, OpenView,
        LeaseView, EntriesView, ChannelsView, ConnIds;
      EntryAt(entry);
      EntryHome(entry);
      ConnIdsWith(entry.connections, connection);
      entry.pending := None;
      entry.installed := connection;
      entry.connections := entry.connections + {connection};
      EntryStays(entry);
      EntryWritten(entry);
    }

    /** `install` up to what it does about the connection it replaces. */
    method PutIn(opening: Opening) returns (connection: Connection)
      requires OpsKnown() && PoolKnown() && P.Linked(View()) && HasOpening(opening) && opening.id !in connOf
      modifies this`connOf, this`limiterOf, opening`phase, opening.entry`pending, opening.entry`installed, opening.entry`connections
      ensures fresh(connection) && fresh(connection.limiter) && connection.id == opening.id
      ensures connection.transport == opening
      ensures connOf == old(connOf)[connection.id := connection]
      ensures limiterOf == old(limiterOf)[connection.id := connection.limiter]
      ensures HasConn(connection) && OpsKnown() && PoolKnown()
      ensures opening.id in old(View()).attempts && opening.id !in old(View()).conn
      ensures View() == P.PutIn(cfg, old(View()), opening.id)
    {
      hide OpsKnown, PoolKnown, View, P.Linked, C.WF, C.AddConnection;
      OpeningHome(opening);
      OpeningInView(opening);
      EntryInView(opening.entry);
      ClockInView();
      NotInView(opening.id);
      connection := CreateConnection(opening);
      SetLanded(opening);
      SetInstalled(opening.entry, connection);
    }

    lemma NotInView(c: C.ConnId)
      ensures c in View().conn <==> c in connOf
    {
    }

    /** What `install` does about the connection it replaces. */
    method Supersede(previous: Connection, identity: P.Identity)
      requires OpsKnown() && PoolKnown() && P.Linked(View()) && HasConn(previous)
      modifies this`entries, Objects()
      ensures SameObjects() && OpsKnown() && PoolKnown() && previous.id in old(View()).conn
      ensures View() == if !P.SameIdentity(previous.transport.identity, identity)
                        then P.ShutDown(old(View()), previous.id, P.Destroy) else P.AfterLastLease(cfg, old(View()), previous.id)
    {
      hide OpsKnown, PoolKnown, View, P.Linked, P.ShutDown, P.AfterLastLease, Objects;
      ChannelsIn();
      ConnObjects(previous);
      if !P.SameIdentity(previous.transport.identity, identity) {
        ShutDown(previous, P.Destroy);
      } else {
        AfterLastLease(previous);
      }
    }

    twostate lemma ObjectsGrew(new connection: Connection)
      requires connection.id !in old(connOf) && connection.id !in old(limiterOf)
      requires connOf == old(connOf)[connection.id := connection]
      requires limiterOf == old(limiterOf)[connection.id := connection.limiter]
      requires entryOf == old(entryOf) && openOf == old(openOf) && leaseOf == old(leaseOf) && opOf == old(opOf)
      ensures Objects() == old(Objects()) + {connection, connection.limiter}
    {
      ValuesGrow(old(connOf), connection.id, connection);
      ValuesGrow(old(limiterOf), connection.id, connection.limiter);
    }

    method Install(opening: Opening) returns (connection: Connection)
      requires OpsKnown() && PoolKnown() && P.Linked(View()) && HasOpening(opening) && opening.id !in connOf
      modifies this`entries, this`connOf, this`limiterOf, Objects()
      ensures fresh(connection) && fresh(connection.limiter) && connection.id == opening.id
      ensures connOf == old(connOf)[connection.id := connection]
      ensures limiterOf == old(limiterOf)[connection.id := connection.limiter]
      ensures HasConn(connection) && OpsKnown() && PoolKnown()
      ensures opening.id in old(View()).attempts && opening.id !in old(View()).conn
      ensures View() == P.Install(cfg, old(View()), opening.id)
    {
      hide OpsKnown, PoolKnown, View, P.Linked, P.PutIn, P.ShutDown, P.AfterLastLease, Objects;
      var previous := opening.entry.installed;
      InstallFrame(opening);
      connection := PutIn(opening);
      ObjectsGrew(connection);
      if previous != null { Supersede(previous, opening.identity); }
    }

    lemma InstallFrame(opening: Opening)
      requires PoolKnown() && HasOpening(opening) && opening.id !in connOf
      ensures opening in Objects() && opening.entry in Objects()
      ensures opening.id !in limiterOf && opening.id !in View().conn
      ensures opening.id in View().attempts && View().attempts[opening.id] == opening.Row()
      ensures opening.entry.id in View().entry && View().entry[opening.entry.id] == opening.entry.Row()
      ensures opening.entry.installed != null ==>
        && HasConn(opening.entry.installed) && opening.entry.installed.id in View().conn
        && View().conn[opening.entry.installed.id] == opening.entry.installed.Row()
    {
      hide View;
      OpeningHome(opening);
      OpeningInView(opening);
      EntryInView(opening.entry);
      NotInView(opening.id);
      if opening.entry.installed != null {
        PreviousHome(opening.entry);
        ConnInView(opening.entry.installed);
      }
    }

    lemma PreviousHome(entry: Entry)
      requires PoolKnown() && HasEntry(entry) && entry.installed != null
      ensures HasConn(entry.installed)
    {
    }

    /** The part of `startOpen` that runs once `open` has answered. */
    method FinishOpen(opening: Opening, ok: bool)
      requires OpsKnown() && PoolKnown() && P.Linked(View()) && HasOpening(opening) && opening.id !in connOf
      modifies this`entries, this`connOf, this`limiterOf, Objects()
      ensures OpsKnown() && PoolKnown() && opening.id in old(View()).attempts && opening.id !in old(View()).conn
      ensures View() == P.FinishOpen(cfg, old(View()), opening.id, ok)
    {
      hide OpsKnown, PoolKnown, View, P.Linked, P.Install, P.GiveUpOpen, Objects;
      InstallFrame(opening);
      var entry := opening.entry;
      var current := entry.pending.Some? && entry.pending.value.id == opening.id && entry.generation == opening.generation;
      if ok && current && opening.ready {
        var connection := Install(opening);
      } else {
        GiveUpOpen(opening);
      }
    }

    method SetCall(k: P.CallId, call: P.Call)
      requires OpsKnown() && PoolKnown()
      modifies this`calls
      ensures OpsKnown() && PoolKnown() && View() == old(View()).(calls := old(calls)[k := call])
    {
      hide OpsKnown, PoolKnown, EntryView, ConnView, OpenView, LeaseView, EntriesView, ChannelsView;
      calls := calls[k := call];
    }

    /** The rest of `lease`'s round once no installed connection will do. */
    method Await(k: P.CallId, key: P.Key, entry: Entry, identity: P.Identity, deadlineMs: int)
      requires OpsKnown() && PoolKnown() && P.Linked(View()) && HasEntry(entry)
      modifies this`opens, this`openOf, this`calls, entry`pending, entry`lastOpen
      ensures OpsKnown() && PoolKnown() && entry.id in old(View()).entry
      ensures View() == P.Await(old(View()), k, key, entry.id, identity, deadlineMs)
    {
      hide OpsKnown, PoolKnown, View, P.Linked, P.StartOpen;
      EntryInView(entry);
      OpensInView();
      var pending := entry.pending;
      if pending.Some? && pending.value.generation == entry.generation && P.SameIdentity(pending.value.identity, identity) {
        SetCall(k, P.Call(key, identity, deadlineMs, P.Awaits(pending.value.id)));
        return;
      }
      var opening := StartOpen(key, entry, identity);
      OpensInView();
      SetCall(k, P.Call(key, identity, deadlineMs, P.Awaits(opening.id)));
    }

    predicate Usable(connection: Connection, identity: P.Identity)
      reads connection`closed, connection`retired, connection.transport`ready
    {
      !connection.closed && !connection.retired && connection.transport.ready
      && P.SameIdentity(connection.transport.identity, identity)
    }

    lemma UsableIs(connection: Connection, identity: P.Identity)
      requires OpsKnown() && PoolKnown() && HasConn(connection)
      ensures connection.id in View().conn && connection.id in View().attempts
      ensures View().conn[connection.id] == connection.Row()
      ensures P.Usable(View(), connection.id, identity) <==> Usable(connection, identity)
    {
      hide OpsKnown, PoolKnown, View, P.SameIdentity;
      ConnHome(connection);
      ConnInView(connection);
      OpeningInView(connection.transport);
    }

    /** `lease` is given a lease on the connection. */
    method Give(k: P.CallId, call: P.Call, connection: Connection, l: C.LeaseId, reused: bool)
      requires OpsKnown() && PoolKnown() && P.Linked(View()) && HasConn(connection) && l !in leaseOf
      modifies this`leaseOf, this`leaseCount, this`calls, connection`idleTimer, connection`leases
      ensures OpsKnown() && PoolKnown() && l !in old(View()).lease && connection.id in old(View()).conn
      ensures var r := P.Checkout(old(View()), connection.id, call.deadlineMs, l, reused);
        View() == r.(calls := old(calls)[k := call])
    {
      hide OpsKnown, PoolKnown, View, P.Linked, P.Checkout;
      var lease := Checkout(connection, call.deadlineMs, l, reused);
      OpensInView();
      SetCall(k, call);
    }

    /** What the round does about an installed connection that will not do. */
    method Replace(k: P.CallId, key: P.Key, entry: Entry, identity: P.Identity, deadlineMs: int, installed: Connection)
      requires OpsKnown() && PoolKnown() && P.Linked(View()) && HasEntry(entry) && HasConn(installed)
      modifies this`entries, this`opens, this`openOf, this`calls, Objects()
      ensures OpsKnown() && PoolKnown() && installed.id in old(View()).conn
      ensures var r := P.ShutDown(old(View()), installed.id, P.Destroy);
        entry.id in r.entry && View() == P.Await(r, k, key, entry.id, identity, deadlineMs)
    {
      hide OpsKnown, PoolKnown, View, P.Linked, P.ShutDown, P.Await;
      ConnHome(installed);
      EntryInView(entry);
      ShutDown(installed, P.Destroy);
      Await(k, key, entry, identity, deadlineMs);
    }

    /** What the map holds for a key, as the tables see it. */
    lemma FoundFrame(key: P.Key, entry: Entry, identity: P.Identity)
      requires OpsKnown() && PoolKnown() && key in entries && entries[key] == entry
      ensures HasEntry(entry) && key in View().entries && View().entries[key] == entry.id
      ensures entry.id in View().entry && View().entry[entry.id] == entry.Row()
      ensures entry.installed != null ==>
        && HasConn(entry.installed)
        && entry.installed.id in View().conn && entry.installed.id in View().attempts
        && View().conn[entry.installed.id] == entry.installed.Row()
        && (P.Usable(View(), entry.installed.id, identity) <==> Usable(entry.installed, identity))
      ensures View().now == now && View().calls == calls
    {
      hide OpsKnown, View, EntriesKnown, ConnsKnown, OpensKnown, Counted, MapKnown, P.Usable, Usable;
      EntriesInView(key);
      EntryInView(entry);
      ClockInView();
      OpensInView();
      if entry.installed != null {
        PreviousHome(entry);
        UsableIs(entry.installed, identity);
      }
    }

    /** One turn of `lease`'s loop. */
    method LeaseRound(k: P.CallId, key: P.Key, identity: P.Identity, deadlineMs: int, l: C.LeaseId)
      requires OpsKnown() && PoolKnown() && P.Linked(View()) && l !in leaseOf
      modifies this, Objects()
      ensures OpsKnown() && PoolKnown() && l !in old(View()).lease
      ensures View() == P.LeaseRound(cfg, old(View()), k, key, identity, deadlineMs, l)
    {
      hide OpsKnown, PoolKnown, View, P.Linked, P.EntryFor, P.ShutDown, P.Await, P.Checkout, P.Usable, Usable;
      NoLeaseYet(l);
      var entry := EntryFor(key);
      FoundFrame(key, entry, identity);
      var installed := entry.installed;
      if installed != null && !Usable(installed, identity) {
        Replace(k, key, entry, identity, deadlineMs, installed);
      } else if installed != null && installed.readyAt + cfg.hardAgeMs >= now + deadlineMs {
        Give(k, P.Call(key, identity, deadlineMs, P.Given(l)), installed, l, true);
      } else {
        Await(k, key, entry, identity, deadlineMs);
      }
    }

    lemma NoLeaseYet(l: C.LeaseId)
      requires l !in leaseOf
      ensures l !in View().lease
    {
    }

    /** `lease` from its call to its first `await`; it throws if the deadline does not fit. */
    method LeaseCall(k: P.CallId, key: P.Key, identity: P.Identity, deadlineMs: int, l: C.LeaseId) returns (threw: bool)
      requires OpsKnown() && PoolKnown() && P.Linked(View()) && l !in leaseOf
      modifies this, Objects()
      ensures OpsKnown() && PoolKnown() && l !in old(View()).lease && threw == !P.DeadlineFits(cfg, deadlineMs)
      ensures View() == P.LeaseCall(cfg, old(View()), k, key, identity, deadlineMs, l)
    {
      hide OpsKnown, PoolKnown, View, P.Linked, P.LeaseRound, Objects;
      NoLeaseYet(l);
      if !(deadlineMs > 0 && deadlineMs < cfg.hardAgeMs) { return true; }
      LeaseRound(k, key, identity, deadlineMs, l);
      threw := false;
    }

    /** `lease` after the open it waited for is over: `connection` is what the open came to. */
    method Resume(k: P.CallId, connection: Connection?, l: C.LeaseId)
      requires OpsKnown() && PoolKnown() && P.Linked(View()) && l !in leaseOf
      requires k in calls && calls[k].status.Awaits? && calls[k].status.open in openOf
      requires if connection == null then calls[k].status.open !in connOf else HasConn(connection) && connection.id == calls[k].status.open
      modifies this, Objects()
      ensures OpsKnown() && PoolKnown() && l !in old(View()).lease
      ensures k in old(View()).calls && old(View()).calls[k] == old(calls)[k]
      ensures old(calls)[k].status.open in old(View()).attempts
      ensures View() == P.Resume(cfg, old(View()), k, l)
    {
      hide OpsKnown, PoolKnown, View, P.Linked, P.LeaseRound, P.Checkout, P.Usable, Usable, Objects;
      NoLeaseYet(l);
      ResumeFrame(k, connection);
      var call := calls[k];
      if connection == null {
        SetCall(k, call.(status := P.Rejected));
        return;
      }
      UsableIs(connection, call.identity);
      if Usable(connection, call.identity) {
        ConnInObjects(connection);
        Give(k, call.(status := P.Given(l)), connection, l, false);
      } else {
        LeaseRound(k, call.key, call.identity, call.deadlineMs, l);
      }
    }

    lemma ResumeFrame(k: P.CallId, connection: Connection?)
      requires k in calls && calls[k].status.Awaits? && calls[k].status.open in openOf
      requires if connection == null then calls[k].status.open !in connOf else HasConn(connection) && connection.id == calls[k].status.open
      ensures View().calls == calls && calls[k].status.open in View().attempts
      ensures connection == null <==> calls[k].status.open !in View().conn
    {
    }

    lemma ConnInObjects(connection: Connection)
      requires HasConn(connection)
      ensures connection in Objects()
    {
    }

    // ---- Eviction ----

    method OldestConnection(connections: set<Connection>) returns (connection: Connection)
      requires connections != {} && forall c :: c in connections ==> HasConn(c)
      ensures connection in connections && ConnIds(connections) != {} && connection.id == C.Least(ConnIds(connections))
    {
      var left := connections;
      connection :| connection in left;
      left := left - {connection};
      while left != {}
        invariant left <= connections && connection in connections
        invariant forall c :: c in connections && c !in left ==> connection.id <= c.id
        decreases left
      {
        var c :| c in left;
        if c.id < connection.id { connection := c; }
        left := left - {c};
      }
      assert connection.id in ConnIds(connections);
      LeastIs(ConnIds(connections), connection.id);
    }

    method ShutDownOldest(connections: set<Connection>) returns (connection: Connection)
      requires OpsKnown() && PoolKnown() && P.Linked(View()) && connections != {} && forall c :: c in connections ==> HasConn(c)
      modifies this`entries, Objects()
      ensures SameObjects() && OpsKnown() && PoolKnown() && connection in connections && ConnIds(connections) != {}
      ensures connection.id == C.Least(ConnIds(connections)) && connection.id in old(View()).conn
      ensures ConnIds(connections - {connection}) == ConnIds(connections) - {connection.id}
      ensures View() == P.ShutDown(old(View()), connection.id, P.Destroy)
    {
      hide OpsKnown, PoolKnown, View, P.Linked, P.ShutDown, ConnIds, Objects;
      ChannelsIn();
      connection := OldestConnection(connections);
      ConnObjects(connection);
      ConnIdsWithout(connections, connection);
      ShutDown(connection, P.Destroy);
    }

    method ShutDownAll(connections: set<Connection>)
      requires OpsKnown() && PoolKnown() && P.Linked(View()) && forall c :: c in connections ==> HasConn(c)
      modifies this`entries, Objects()
      ensures SameObjects() && OpsKnown() && PoolKnown() && ConnIds(connections) <= old(View()).conn.Keys
      ensures View() == P.ShutDownAll(old(View()), ConnIds(connections))
    {
      hide OpsKnown, PoolKnown, View, P.Linked, P.ShutDown, P.ShutDownAll, ConnIds, Objects;
      ConnIdsKnown(connections);
      var left := connections;
      while left != {}
        invariant left <= connections && SameObjects() && OpsKnown() && PoolKnown() && P.Linked(View())
        invariant ConnIds(left) <= View().conn.Keys
        invariant P.ShutDownAll(View(), ConnIds(left)) == P.ShutDownAll(old(View()), ConnIds(connections))
        decreases left
      {
        ShutDownStep(View(), ConnIds(left));
        var connection := ShutDownOldest(left);
        left := left - {connection};
      }
      NoConns({});
      ShutDownNone(View());
    }

    lemma ConnIdsKnown(connections: set<Connection>)
      requires forall c :: c in connections ==> HasConn(c)
      ensures ConnIds(connections) <= View().conn.Keys
    {
    }

    method Bump(entry: Entry)
      requires OpsKnown() && PoolKnown() && HasEntry(entry)
      modifies this`generations, entry`generation, entry`evictions
      ensures OpsKnown() && PoolKnown() && entry.id in old(View()).entry
      ensures View() == old(View()).(generations := old(generations) + 1, entry := old(View()).entry[entry.id :=
        old(entry.Row()).(generation := old(generations) + 1, evictions := old(entry.Row()).evictions + 1)])
    {
      hide OpsKnown, EntriesKnown, ConnsKnown, OpensKnown, MapKnown, EntryView, ConnView, OpenView, LeaseView,
        EntriesView, ChannelsView, ConnIds;
      EntryAt(entry);
      EntryHome(entry);
      generations := generations + 1;
      entry.generation := generations;
      entry.evictions := entry.evictions + 1;
      EntryStays(entry);
      EntryWritten(entry);
    }

    method Evict(key: P.Key)
      requires OpsKnown() && PoolKnown() && P.Linked(View())
      modifies this`entries, this`generations, Objects()
      ensures OpsKnown() && PoolKnown()
      ensures View() == P.Evict(old(View()), key)
    {
      hide OpsKnown, PoolKnown, View, P.Linked, P.ShutDownAll, P.Prune;
      EvictFrame(key);
      if key !in entries { return; }
      var entry := entries[key];
      Bump(entry);
      BumpedLinked(old(View()), entry.id, View());
      ShutDownAll(entry.connections);
      Prune(key, entry);
    }

    lemma EvictFrame(key: P.Key)
      requires PoolKnown()
      ensures key in View().entries <==> key in entries
      ensures key in entries ==>
        && HasEntry(entries[key]) && View().entries[key] == entries[key].id
        && entries[key].id in View().entry && View().entry[entries[key].id] == entries[key].Row()
        && (forall c :: c in entries[key].connections ==> HasConn(c))
      ensures View().generations == generations
    {
      hide View, EntriesKnown, MapKnown;
      EntriesInView(key);
      GenerationsInView();
      if key in entries {
        EntryInView(entries[key]);
        EntryHome(entries[key]);
      }
    }

    lemma GenerationsInView()
      ensures View().generations == generations
    {
    }

    // ---- Operations, and all tables ----

    lemma OpFrame(op: Op)
      requires OpsKnown() && HasOp(op)
      ensures HasLease(op.lease) && HasConn(op.lease.connection)
    {
    }

    method RunGrant(op: Op)
      requires OpsKnown() && PoolKnown() && P.Linked(View()) && HasOp(op)
      modifies opOf.Values, limiterOf.Values, connOf.Values`ops, leaseOf.Values`ops
      ensures OpsKnown() && PoolKnown() && C.WF(old(View()).ch) && op.id in old(View()).ch.ops
      ensures View() == old(View()).(ch := C.GrantRuns(old(View()).ch, op.id))
    {
      hide OpsKnown, PoolKnown, EntryView, ConnView, OpenView, LeaseView, EntriesView, ChannelsView, P.Linked, C.WF,
        C.GrantRuns, C.Answered, C.StreamArrives, C.StreamEnds;
      LinkedWF();
      OpInView(op);
      OpFrame(op);
      GrantRuns(op);
    }

    method RunAnswer(op: Op, answer: C.Answer)
      requires OpsKnown() && PoolKnown() && P.Linked(View()) && HasOp(op)
      modifies opOf.Values, limiterOf.Values, connOf.Values`ops, leaseOf.Values`ops
      ensures OpsKnown() && PoolKnown() && C.WF(old(View()).ch) && op.id in old(View()).ch.ops
      ensures View() == old(View()).(ch := C.Answered(old(View()).ch, op.id, answer))
    {
      hide OpsKnown, PoolKnown, EntryView, ConnView, OpenView, LeaseView, EntriesView, ChannelsView, P.Linked, C.WF,
        C.GrantRuns, C.Answered, C.StreamArrives, C.StreamEnds;
      LinkedWF();
      OpInView(op);
      OpFrame(op);
      Answered(op, answer);
    }

    method RunStream(op: Op)
      requires OpsKnown() && PoolKnown() && P.Linked(View()) && HasOp(op)
      modifies opOf.Values, limiterOf.Values, connOf.Values`ops, leaseOf.Values`ops
      ensures OpsKnown() && PoolKnown() && C.WF(old(View()).ch) && op.id in old(View()).ch.ops
      ensures View() == old(View()).(ch := C.StreamArrives(old(View()).ch, op.id))
    {
      hide OpsKnown, PoolKnown, EntryView, ConnView, OpenView, LeaseView, EntriesView, ChannelsView, P.Linked, C.WF,
        C.GrantRuns, C.Answered, C.StreamArrives, C.StreamEnds;
      LinkedWF();
      OpInView(op);
      OpFrame(op);
      StreamArrives(op);
    }

    method RunEnd(op: Op)
      requires OpsKnown() && PoolKnown() && P.Linked(View()) && HasOp(op)
      modifies opOf.Values, limiterOf.Values, connOf.Values`ops, leaseOf.Values`ops
      ensures OpsKnown() && PoolKnown() && C.WF(old(View()).ch) && op.id in old(View()).ch.ops
      ensures View() == old(View()).(ch := C.StreamEnds(old(View()).ch, op.id))
    {
      hide OpsKnown, PoolKnown, EntryView, ConnView, OpenView, LeaseView, EntriesView, ChannelsView, P.Linked, C.WF,
        C.GrantRuns, C.Answered, C.StreamArrives, C.StreamEnds;
      LinkedWF();
      OpInView(op);
      OpFrame(op);
      StreamEnds(op);
    }

    method Ask(lease: Lease, kind: C.Kind, id: C.OpId) returns (refusal: Option<C.Answer>)
      requires OpsKnown() && PoolKnown() && P.Linked(View()) && HasLease(lease) && id !in opOf
      modifies this`opOf, lease`ops, lease.connection`ops, lease.connection.limiter
      ensures OpsKnown() && PoolKnown() && lease.id in old(View()).lease && id !in old(View()).ch.ops
      ensures refusal == (if old(lease.released) || old(lease.connection.closed) then Some(C.Lost)
                          else if old(lease.expired) then Some(C.QueueExpired) else None)
      ensures View() == P.Ask(cfg, old(View()), lease.id, kind, id)
    {
      hide OpsKnown, PoolKnown, EntryView, ConnView, OpenView, LeaseView, EntriesView, ChannelsView, P.Linked, C.WF,
        C.Begin;
      LinkedWF();
      LeaseHome(lease);
      LeaseInView(lease);
      ConnInView(lease.connection);
      NoOpInView(id);
      if lease.released || lease.connection.closed { return Some(C.Lost); }
      if lease.expired { return Some(C.QueueExpired); }
      var op := Begin(lease, id, kind);
      refusal := None;
    }

    lemma NoOpInView(id: C.OpId)
      requires id !in opOf
      ensures id !in ChannelsView().ops
    {
    }

    // ---- The events ----

    /** The objects are named, and the state they stand for is one a run can reach. */
    ghost predicate Valid()
      reads this, entryOf.Values, openOf.Values, connOf.Values, leaseOf.Values, limiterOf.Values, opOf.Values
    {
      OpsKnown() && PoolKnown() && I.PoolValid(cfg, View())
    }

    lemma ValidLinked()
      requires Valid()
      ensures P.Linked(View())
    {
      hide OpsKnown, PoolKnown, View;
      L.PoolLinks(cfg, View());
    }

    constructor (cfg: P.Config)
      ensures this.cfg == cfg && Valid() && View() == R.START && Objects() == {}
    {
      hide I.PoolValid;
      this.cfg := cfg;
      now, entries, generations, opens, leaseCount, calls := 0, map[], 0, 0, 0, map[];
      entryOf, openOf, limiterOf, connOf, leaseOf, opOf := map[], map[], map[], map[], map[], map[];
      new;
      R.StartValid(cfg);
    }

    method DeadlineFires(lease: Lease)
      requires Valid() && HasLease(lease) && R.Enabled(View(), R.DeadlineFires(lease.id))
      modifies this, Objects()
      ensures Valid() && R.Follows(cfg, old(View()), R.DeadlineFires(lease.id), View())
    {
      hide OpsKnown, PoolKnown, View, P.Linked, I.PoolValid, Objects, P.LeaseCall, P.Resume, P.FinishOpen, P.Ask,
        P.Release, P.Expire, P.ShutDown, P.Evict, R.Operate, P.WithChannels;
      ValidLinked();
      ChannelsIn();
      R.StepKeeps(cfg, View(), R.DeadlineFires(lease.id));
      LeaseInObjects(lease);
      Expire(lease);
    }

    method LeaseReleased(lease: Lease)
      requires Valid() && HasLease(lease) && R.Enabled(View(), R.LeaseReleased(lease.id))
      modifies this, Objects()
      ensures Valid() && R.Follows(cfg, old(View()), R.LeaseReleased(lease.id), View())
    {
      hide OpsKnown, PoolKnown, View, P.Linked, I.PoolValid, Objects, P.LeaseCall, P.Resume, P.FinishOpen, P.Ask,
        P.Release, P.Expire, P.ShutDown, P.Evict, R.Operate, P.WithChannels;
      ValidLinked();
      ChannelsIn();
      R.StepKeeps(cfg, View(), R.LeaseReleased(lease.id));
      LeaseInObjects(lease);
      Release(lease);
    }

    method IdleFires(connection: Connection)
      requires Valid() && HasConn(connection) && R.Enabled(View(), R.IdleFires(connection.id))
      modifies this, Objects()
      ensures Valid() && R.Follows(cfg, old(View()), R.IdleFires(connection.id), View())
    {
      hide OpsKnown, PoolKnown, View, P.Linked, I.PoolValid, Objects, P.LeaseCall, P.Resume, P.FinishOpen, P.Ask,
        P.Release, P.Expire, P.ShutDown, P.Evict, R.Operate, P.WithChannels;
      ValidLinked();
      ChannelsIn();
      R.StepKeeps(cfg, View(), R.IdleFires(connection.id));
      ConnObjects(connection);
      ShutDown(connection, P.End);
    }

    method HardAgeFires(connection: Connection)
      requires Valid() && HasConn(connection) && R.Enabled(View(), R.HardAgeFires(connection.id))
      modifies this, Objects()
      ensures Valid() && R.Follows(cfg, old(View()), R.HardAgeFires(connection.id), View())
    {
      hide OpsKnown, PoolKnown, View, P.Linked, I.PoolValid, Objects, P.LeaseCall, P.Resume, P.FinishOpen, P.Ask,
        P.Release, P.Expire, P.ShutDown, P.Evict, R.Operate, P.WithChannels;
      ValidLinked();
      ChannelsIn();
      R.StepKeeps(cfg, View(), R.HardAgeFires(connection.id));
      ConnObjects(connection);
      ShutDown(connection, P.Destroy);
    }

    method Evicted(key: P.Key)
      requires Valid() && R.Enabled(View(), R.Evicted(key))
      modifies this, Objects()
      ensures Valid() && R.Follows(cfg, old(View()), R.Evicted(key), View())
    {
      hide OpsKnown, PoolKnown, View, P.Linked, I.PoolValid, Objects, P.LeaseCall, P.Resume, P.FinishOpen, P.Ask,
        P.Release, P.Expire, P.ShutDown, P.Evict, R.Operate, P.WithChannels;
      ValidLinked();
      R.StepKeeps(cfg, View(), R.Evicted(key));
      Evict(key);
    }

    method OpenAnswers(opening: Opening, ok: bool)
      requires Valid() && HasOpening(opening) && R.Enabled(View(), R.OpenAnswers(opening.id, ok))
      modifies this, Objects()
      ensures Valid() && R.Follows(cfg, old(View()), R.OpenAnswers(opening.id, ok), View())
    {
      hide OpsKnown, PoolKnown, View, P.Linked, I.PoolValid, Objects, P.LeaseCall, P.Resume, P.FinishOpen, P.Ask,
        P.Release, P.Expire, P.ShutDown, P.Evict, R.Operate, P.WithChannels;
      ValidLinked();
      R.StepKeeps(cfg, View(), R.OpenAnswers(opening.id, ok));
      NotInView(opening.id);
      FinishOpen(opening, ok);
    }

    method LeaseCalled(k: P.CallId, key: P.Key, identity: P.Identity, deadlineMs: int, l: C.LeaseId) returns (threw: bool)
      requires Valid() && R.Enabled(View(), R.LeaseCalled(k, key, identity, deadlineMs, l))
      modifies this, Objects()
      ensures Valid() && R.Follows(cfg, old(View()), R.LeaseCalled(k, key, identity, deadlineMs, l), View())
      ensures threw <==> !(0 < deadlineMs < cfg.hardAgeMs)
    {
      hide OpsKnown, PoolKnown, View, P.Linked, I.PoolValid, Objects, P.LeaseCall, P.Resume, P.FinishOpen, P.Ask,
        P.Release, P.Expire, P.ShutDown, P.Evict, R.Operate, P.WithChannels;
      ValidLinked();
      R.StepKeeps(cfg, View(), R.LeaseCalled(k, key, identity, deadlineMs, l));
      LeaseNotInView(l);
      threw := LeaseCall(k, key, identity, deadlineMs, l);
    }

    method Asked(lease: Lease, kind: C.Kind, id: C.OpId) returns (refusal: Option<C.Answer>)
      requires Valid() && HasLease(lease) && R.Enabled(View(), R.Asked(lease.id, kind, id))
      modifies this, Objects()
      ensures Valid() && R.Follows(cfg, old(View()), R.Asked(lease.id, kind, id), View())
      ensures refusal == (if old(lease.released) || old(lease.connection.closed) then Some(C.Lost)
                          else if old(lease.expired) then Some(C.QueueExpired) else None)
    {
      hide OpsKnown, PoolKnown, View, P.Linked, I.PoolValid, Objects, P.LeaseCall, P.Resume, P.FinishOpen, P.Ask,
        P.Release, P.Expire, P.ShutDown, P.Evict, P.WithChannels, C.WF, C.GrantRuns, C.Answered, C.StreamArrives,
        C.StreamEnds;
      ValidLinked();
      ChannelsIn();
      R.StepKeeps(cfg, View(), R.Asked(lease.id, kind, id));
      AskFrame(lease, id);
      refusal := Ask(lease, kind, id);
    }

    method GrantCallback(op: Op)
      requires Valid() && HasOp(op) && R.Enabled(View(), R.GrantCallback(op.id))
      modifies this, Objects()
      ensures Valid() && R.Follows(cfg, old(View()), R.GrantCallback(op.id), View())
    {
      hide OpsKnown, PoolKnown, View, P.Linked, I.PoolValid, Objects, P.LeaseCall, P.Resume, P.FinishOpen, P.Ask,
        P.Release, P.Expire, P.ShutDown, P.Evict, P.WithChannels, C.WF, C.GrantRuns, C.Answered, C.StreamArrives,
        C.StreamEnds;
      ValidLinked();
      ChannelsIn();
      R.StepKeeps(cfg, View(), R.GrantCallback(op.id));
      RunGrant(op);
    }

    method Replies(op: Op, ok: bool)
      requires Valid() && HasOp(op) && R.Enabled(View(), R.Replies(op.id, ok))
      modifies this, Objects()
      ensures Valid() && R.Follows(cfg, old(View()), R.Replies(op.id, ok), View())
    {
      hide OpsKnown, PoolKnown, View, P.Linked, I.PoolValid, Objects, P.LeaseCall, P.Resume, P.FinishOpen, P.Ask,
        P.Release, P.Expire, P.ShutDown, P.Evict, P.WithChannels, C.WF, C.GrantRuns, C.Answered, C.StreamArrives,
        C.StreamEnds, R.OutcomeOf, P.Outcome;
      ValidLinked();
      ChannelsIn();
      R.StepKeeps(cfg, View(), R.Replies(op.id, ok));
      var answer := Outcome(op, ok);
      RunAnswer(op, answer);
    }

    method StreamComes(op: Op)
      requires Valid() && HasOp(op) && R.Enabled(View(), R.StreamComes(op.id))
      modifies this, Objects()
      ensures Valid() && R.Follows(cfg, old(View()), R.StreamComes(op.id), View())
    {
      hide OpsKnown, PoolKnown, View, P.Linked, I.PoolValid, Objects, P.LeaseCall, P.Resume, P.FinishOpen, P.Ask,
        P.Release, P.Expire, P.ShutDown, P.Evict, P.WithChannels, C.WF, C.GrantRuns, C.Answered, C.StreamArrives,
        C.StreamEnds;
      ValidLinked();
      ChannelsIn();
      R.StepKeeps(cfg, View(), R.StreamComes(op.id));
      RunStream(op);
    }

    method StreamOver(op: Op)
      requires Valid() && HasOp(op) && R.Enabled(View(), R.StreamOver(op.id))
      modifies this, Objects()
      ensures Valid() && R.Follows(cfg, old(View()), R.StreamOver(op.id), View())
    {
      hide OpsKnown, PoolKnown, View, P.Linked, I.PoolValid, Objects, P.LeaseCall, P.Resume, P.FinishOpen, P.Ask,
        P.Release, P.Expire, P.ShutDown, P.Evict, P.WithChannels, C.WF, C.GrantRuns, C.Answered, C.StreamArrives,
        C.StreamEnds;
      ValidLinked();
      ChannelsIn();
      R.StepKeeps(cfg, View(), R.StreamOver(op.id));
      RunEnd(op);
    }

    method Tick(ms: nat)
      requires Valid() && R.Enabled(View(), R.Tick(ms))
      modifies this, Objects()
      ensures Valid() && R.Follows(cfg, old(View()), R.Tick(ms), View())
    {
      hide OpsKnown, PoolKnown, View, P.Linked, I.PoolValid, P.LeaseCall, P.Resume, P.FinishOpen, P.Ask, P.Release,
        P.Expire, P.ShutDown, P.Evict, P.WithChannels, C.WF, C.GrantRuns, C.Answered, C.StreamArrives, C.StreamEnds;
      ValidLinked();
      R.StepKeeps(cfg, View(), R.Tick(ms));
      Advance(ms);
    }

    method TransportSays(opening: Opening, ready: bool)
      requires Valid() && HasOpening(opening) && R.Enabled(View(), R.TransportSays(opening.id, ready))
      modifies this, Objects()
      ensures Valid() && R.Follows(cfg, old(View()), R.TransportSays(opening.id, ready), View())
    {
      hide OpsKnown, PoolKnown, View, P.Linked, I.PoolValid, P.LeaseCall, P.Resume, P.FinishOpen, P.Ask, P.Release,
        P.Expire, P.ShutDown, P.Evict, P.WithChannels, C.WF, C.GrantRuns, C.Answered, C.StreamArrives, C.StreamEnds;
      ValidLinked();
      R.StepKeeps(cfg, View(), R.TransportSays(opening.id, ready));
      OpeningIn(opening);
      SetReady(opening, ready);
    }

    method CallResumes(k: P.CallId, connection: Connection?, l: C.LeaseId)
      requires Valid()
      requires k in calls && calls[k].status.Awaits? && (connection == null <==> calls[k].status.open !in connOf)
      requires (connection != null ==> HasConn(connection) && connection.id == calls[k].status.open) && R.Enabled(View(), R.CallResumes(k, l))
      modifies this, Objects()
      ensures Valid() && R.Follows(cfg, old(View()), R.CallResumes(k, l), View())
    {
      hide OpsKnown, PoolKnown, View, P.Linked, I.PoolValid, P.LeaseCall, P.Resume, P.FinishOpen, P.Ask, P.Release,
        P.Expire, P.ShutDown, P.Evict, P.WithChannels, C.WF, C.GrantRuns, C.Answered, C.StreamArrives, C.StreamEnds;
      ValidLinked();
      R.StepKeeps(cfg, View(), R.CallResumes(k, l));
      CallFrame(k, l);
      Resume(k, connection, l);
    }

    /** `outcomeOf` for an error, the result otherwise. */
    method Outcome(op: Op, ok: bool) returns (answer: C.Answer)
      requires OpsKnown() && PoolKnown() && P.Linked(View()) && HasOp(op)
      ensures op.id in View().ch.ops && answer == R.OutcomeOf(View(), op.id, ok)
    {
      hide OpsKnown, PoolKnown, View, P.Linked, R.OutcomeOf;
      AnswerFrame(op, ok);
      if ok { return C.Replied; }
      answer := if op.lease.connection.closed || !op.lease.connection.transport.ready then C.Lost else C.Failed;
    }

    method Advance(ms: nat)
      requires OpsKnown() && PoolKnown()
      modifies this`now
      ensures OpsKnown() && PoolKnown() && View() == old(View()).(now := old(View()).now + ms)
    {
      hide OpsKnown, PoolKnown, EntryView, ConnView, OpenView, LeaseView, EntriesView, ChannelsView;
      now := now + ms;
    }

    method SetReady(opening: Opening, ready: bool)
      requires OpsKnown() && PoolKnown() && P.Linked(View()) && HasOpening(opening)
      modifies opening`ready
      ensures OpsKnown() && PoolKnown() && opening.id in old(View()).attempts
      ensures View() == L.SetReady(old(View()), opening.id, ready)
    {
      hide OpsKnown, EntriesKnown, ConnsKnown, OpensKnown, MapKnown, Counted, EntryView, ConnView, OpenView,
        LeaseView, EntriesView, ChannelsView, P.Linked;
      OpenAt(opening);
      opening.ready := ready;
      OpenWritten(opening);
    }

    lemma OpeningIn(opening: Opening)
      requires HasOpening(opening)
      ensures opening in Objects()
    {
    }

    lemma AskFrame(lease: Lease, id: C.OpId)
      requires OpsKnown() && PoolKnown() && HasLease(lease)
      ensures lease in Objects() && lease.connection in Objects() && lease.connection.limiter in Objects()
      ensures id !in opOf <==> id !in View().ch.ops
    {
      LeaseHome(lease);
    }

    lemma AnswerFrame(op: Op, ok: bool)
      requires OpsKnown() && PoolKnown() && P.Linked(View()) && HasOp(op)
      ensures op.id in View().ch.ops
      ensures R.OutcomeOf(View(), op.id, ok)
        == if ok then C.Replied else if op.lease.connection.closed || !op.lease.connection.transport.ready then C.Lost else C.Failed
    {
      hide P.Linked, OpsKnown, PoolKnown;
      OpFrame(op);
      OpInView(op);
      ConnHome(op.lease.connection);
      ConnAt(op.lease.connection);
      OpenAt(op.lease.connection.transport);
    }

    lemma CallFrame(k: P.CallId, l: C.LeaseId)
      ensures View().calls == calls && View().attempts.Keys == openOf.Keys && View().lease.Keys == leaseOf.Keys
    {
    }

    lemma LeaseInObjects(lease: Lease)
      requires OpsKnown() && PoolKnown() && HasLease(lease)
      ensures lease in Objects() && lease.connection in Objects() && lease.connection.transport in Objects()
        && lease.connection.transport.entry in Objects()
    {
      LeaseHome(lease);
      ConnHome(lease.connection);
    }

    lemma ConnObjects(connection: Connection)
      requires OpsKnown() && PoolKnown() && HasConn(connection)
      ensures connection in Objects() && connection.transport in Objects() && connection.transport.entry in Objects()
    {
      ConnHome(connection);
    }

    lemma LeaseNotInView(l: C.LeaseId)
      ensures l in View().lease <==> l in leaseOf
    {
    }
  }

  lemma {:induction false} WithoutAt(s: seq<nat>, i: nat)
    requires i < |s| && forall j :: 0 <= j < |s| && j != i ==> s[j] != s[i]
    ensures C.Without(s, s[i]) == s[..i] + s[i + 1..]
  {
    var rest := s[1..];
    if i == 0 {
      WithoutAbsent(rest, s[0]);
    } else {
      WithoutAt(rest, i - 1);
      assert s[..i] + s[i + 1..] == [s[0]] + (rest[..i - 1] + rest[i..]);
    }
  }

  lemma {:induction false} WithoutAbsent(s: seq<nat>, x: nat)
    requires x !in s
    ensures C.Without(s, x) == s
  {
    if s != [] { WithoutAbsent(s[1..], x); }
  }

  lemma AbandonStep(ch: C.Channels, ids: set<C.OpId>, cause: C.Cause)
    requires C.WF(ch) && ids <= ch.ops.Keys
    ensures ids != {} ==>
      C.AbandonAll(ch, ids, cause)
      == C.AbandonAll(C.Abandon(ch, C.Least(ids), C.Reason(cause, ch.ops[C.Least(ids)])), ids - {C.Least(ids)}, cause)
  {
    hide C.Abandon, C.WF;
  }

  lemma AbandonNone(ch: C.Channels, cause: C.Cause)
    requires C.WF(ch)
    ensures C.AbandonAll(ch, {}, cause) == ch
  {
  }

  lemma ValuesGrow<T>(m: map<nat, T>, k: nat, v: T)
    requires k !in m
    ensures m[k := v].Values == m.Values + {v}
  {
    forall x | x in m.Values ensures x in m[k := v].Values {
      var j :| j in m && m[j] == x;
      assert m[k := v][j] == x;
    }
    assert m[k := v][k] == v;
  }

  lemma ShutDownStep(s: P.State, ids: set<C.ConnId>)
    requires P.Linked(s) && ids <= s.conn.Keys
    ensures ids != {} ==>
      P.ShutDownAll(s, ids) == P.ShutDownAll(P.ShutDown(s, C.Least(ids), P.Destroy), ids - {C.Least(ids)})
  {
    hide P.Linked, P.ShutDown;
  }

  lemma ShutDownNone(s: P.State)
    requires P.Linked(s)
    ensures P.ShutDownAll(s, {}) == s
  {
    hide P.Linked;
  }

  lemma BumpedLinked(s: P.State, e: P.EntryId, r: P.State)
    requires P.Linked(s) && e in s.entry
    requires r == s.(generations := s.generations + 1, entry := s.entry[e :=
      s.entry[e].(generation := s.generations + 1, evictions := s.entry[e].evictions + 1)])
    ensures P.Linked(r)
  {
    hide C.WF;
  }

  lemma BeginIs(ch: C.Channels, o: C.OpId, l: C.LeaseId, c: C.ConnId, kind: C.Kind, limit: nat, r: C.Channels)
    requires C.WF(ch) && o !in ch.ops && l in ch.leaseOps && c in ch.limiters && c in ch.connOps
    requires var was, op := ch.limiters[c], C.NewOp(l, c, kind); var free := was.active < limit;
      && r.ops == ch.ops[o := if free then C.Grant(op) else op.(ticket := C.Waiting)]
      && r.limiters == ch.limiters[c := if free then was.(active := was.active + 1) else was.(waiting := was.waiting + [o])]
      && r.connOps == ch.connOps[c := ch.connOps[c] + {o}] && r.leaseOps == ch.leaseOps[l := ch.leaseOps[l] + {o}]
    ensures r == C.Begin(ch, o, l, c, kind, limit)
  {
    hide C.WF;
  }

  lemma NothingCleared(s: P.State, o: P.OpenId)
    requires P.Linked(s) && o in s.attempts && s.attempts[o].entry in s.entry
    requires !P.IsPending(s.entry[s.attempts[o].entry], o)
    ensures P.Refuse(s, o).entry == s.entry
  {
    hide P.Linked;
  }

  lemma StillLinked(s: P.State, ch: C.Channels)
    requires P.Linked(s) && C.WF(s.ch) && C.WF(ch) && C.SameKeys(s.ch, ch)
    ensures P.Linked(s.(ch := ch))
  {
    hide C.WF, P.EntryLinked;
  }

  lemma LeastIs(s: set<nat>, m: nat)
    requires m in s && forall x :: x in s ==> m <= x
    ensures C.Least(s) == m
  {
    C.HasLeast(s);
  }
}
