/** The operations a lease runs over a connection, and the limiter that admits them.

    Every object of the program is a row of a table here and is known by its number, so two
    names for one object are two copies of one number. A row keeps what the program's record
    keeps, and besides that the history the claims are about: every answer the caller got,
    and how many permits were granted to the operation and given back for it. */
module Channels {
  type OpId = nat
  type ConnId = nat
  type LeaseId = nat

  datatype Kind = Exec | Forward
  datatype OpState = Queued | Requested | Open

  /** Where the wait for a channel stands. `Granted` is the window in which the limiter has
      given the permit away but the operation's own callback has not run yet. */
  datatype Ticket = Waiting | Granted | Spent

  /** The stream a forward produced, whoever holds it. */
  datatype Stream = NoStream | Live | Closed

  datatype Answer = Replied | Handed | Lost | QueueExpired | DeadlinePassed | Failed

  datatype Op = Op(
    lease: LeaseId,
    conn: ConnId,
    kind: Kind,
    state: OpState,
    ticket: Ticket,
    holdsSlot: bool,
    settled: bool,
    inFlight: bool,         // the transport has been asked and has not answered
    attached: bool,         // the stream has been put on the operation and handed out
    stream: Stream,
    answers: seq<Answer>,
    grants: nat,
    releases: nat)

  /** A connection's limiter: permits in use, and who waits for one, longest first. */
  datatype Limiter = Limiter(active: nat, waiting: seq<OpId>)

  datatype Channels = Channels(
    ops: map<OpId, Op>,
    limiters: map<ConnId, Limiter>,
    connOps: map<ConnId, set<OpId>>,
    leaseOps: map<LeaseId, set<OpId>>)

  // ---- Insertion-ordered sets as sequences ----

  ghost predicate Increasing(s: seq<nat>) {
    forall i, j :: 0 <= i < j < |s| ==> s[i] < s[j]
  }

  function Without(s: seq<nat>, x: nat): (r: seq<nat>)
    ensures forall y :: y in r <==> y in s && y != x
    ensures forall i :: 0 <= i < |r| ==> r[i] in s && r[i] != x
    ensures Increasing(s) ==> Increasing(r)
  {
    if s == [] then []
    else
      assert s == [s[0]] + s[1..];
      var rest := Without(s[1..], x);
      assert Increasing(s) ==> Increasing(s[1..]);
      assert Increasing(s) ==> forall i :: 0 <= i < |s[1..]| ==> s[0] < s[1..][i];
      if s[0] == x then rest else [s[0]] + rest
  }

  // ---- Reference integrity ----

  ghost predicate WF(ch: Channels) {
    && ch.connOps.Keys == ch.limiters.Keys
    && (forall o :: o in ch.ops ==> ch.ops[o].conn in ch.limiters && ch.ops[o].lease in ch.leaseOps)
    && (forall c :: c in ch.limiters ==> QueueKnown(ch.ops, ch.limiters[c]))
    && (forall c :: c in ch.connOps ==> ch.connOps[c] <= ch.ops.Keys)
    && (forall l :: l in ch.leaseOps ==> ch.leaseOps[l] <= ch.ops.Keys)
  }

  ghost predicate QueueKnown(ops: map<OpId, Op>, limiter: Limiter) {
    forall i :: 0 <= i < |limiter.waiting| ==> limiter.waiting[i] in ops
  }

  ghost predicate SameKeys(a: Channels, b: Channels) {
    && b.ops.Keys == a.ops.Keys
    && b.limiters.Keys == a.limiters.Keys
    && b.connOps.Keys == a.connOps.Keys
    && b.leaseOps.Keys == a.leaseOps.Keys
  }

  function Grant(op: Op): Op {
    op.(ticket := Granted, grants := op.grants + 1)
  }

  /** An operation gives up its slot. */
  function Vacate(op: Op): Op {
    op.(holdsSlot := false, releases := op.releases + 1)
  }

  ghost predicate SameSets(a: Channels, b: Channels) {
    b.connOps == a.connOps && b.leaseOps == a.leaseOps
  }

  /** What may happen to an operation a step is not about: a permit another one gave back
      admits it. */
  ghost predicate Bystander(a: Op, b: Op) {
    b == a.(ticket := b.ticket, grants := b.grants) && a.grants <= b.grants
  }

  /** The operation itself gives up its slot if it holds one. */
  ghost predicate Left(a: Op, b: Op) {
    Bystander(if a.holdsSlot then Vacate(a) else a, b)
  }

  /** The operation left both sets, and every other one is a bystander. */
  ghost predicate Removed(a: Channels, b: Channels, o: OpId)
    requires WF(a) && o in a.ops && SameKeys(a, b)
  {
    var op := a.ops[o];
    && b.connOps == a.connOps[op.conn := a.connOps[op.conn] - {o}]
    && b.leaseOps == a.leaseOps[op.lease := a.leaseOps[op.lease] - {o}]
    && (forall p :: p in a.ops && p != o ==> Bystander(a.ops[p], b.ops[p]))
  }

  // ---- The operations ----

  /** `release` of the limiter: give one permit back and hand it to the longest waiter. */
  ghost function FreePermit(ch: Channels, c: ConnId): (r: Channels)
    requires WF(ch) && c in ch.limiters
    ensures WF(r) && SameKeys(ch, r) && SameSets(ch, r)
    ensures forall p :: p in ch.ops ==> Bystander(ch.ops[p], r.ops[p])
  {
    var limiter := ch.limiters[c];
    var freed := if limiter.active == 0 then 0 else limiter.active - 1;
    if limiter.waiting == [] then ch.(limiters := ch.limiters[c := Limiter(freed, [])])
    else
      var w := limiter.waiting[0];
      ch.(ops := ch.ops[w := Grant(ch.ops[w])],
          limiters := ch.limiters[c := Limiter(freed + 1, limiter.waiting[1..])])
  }

  /** What aborting the operation's signal does to the limiter: a waiter leaves the queue. */
  ghost function Abort(ch: Channels, o: OpId): (r: Channels)
    requires WF(ch) && o in ch.ops
    ensures WF(r) && SameKeys(ch, r) && SameSets(ch, r)
    ensures r.ops == ch.ops[o := if ch.ops[o].ticket == Waiting then ch.ops[o].(ticket := Spent) else ch.ops[o]]
  {
    var op := ch.ops[o];
    if op.ticket != Waiting then ch
    else
      var limiter := ch.limiters[op.conn];
      ch.(ops := ch.ops[o := op.(ticket := Spent)],
          limiters := ch.limiters[op.conn := limiter.(waiting := Without(limiter.waiting, o))])
  }

  /** Take the operation out of both sets. */
  ghost function Drop(ch: Channels, o: OpId): (r: Channels)
    requires WF(ch) && o in ch.ops
    ensures WF(r) && SameKeys(ch, r)
  {
    var op := ch.ops[o];
    ch.(connOps := ch.connOps[op.conn := ch.connOps[op.conn] - {o}],
        leaseOps := ch.leaseOps[op.lease := ch.leaseOps[op.lease] - {o}])
  }

  ghost function FinishOp(ch: Channels, o: OpId): (r: Channels)
    requires WF(ch) && o in ch.ops
    ensures WF(r) && SameKeys(ch, r) && Removed(ch, r, o)
    ensures Left(ch.ops[o], r.ops[o])
  {
    var dropped := Drop(ch, o);
    var op := ch.ops[o];
    if !op.holdsSlot then dropped
    else FreePermit(dropped.(ops := dropped.ops[o := Vacate(op)]), op.conn)
  }

  function Settle(op: Op, answer: Answer): Op {
    if op.settled then op else op.(settled := true, answers := op.answers + [answer])
  }

  function CloseStream(op: Op): Op {
    if op.attached then op.(stream := Closed) else op
  }

  /** What `abandon` writes on the operation itself, before `finishOp`. */
  function GivenUp(op: Op, why: Answer): Op {
    var closed := CloseStream(Settle(op, why));
    if op.ticket == Waiting then closed.(ticket := Spent) else closed
  }

  /** Rewriting an operation that stays where it is. */
  lemma RewriteWF(ch: Channels, o: OpId, op: Op)
    requires WF(ch) && o in ch.ops && op.conn == ch.ops[o].conn && op.lease == ch.ops[o].lease
    ensures var r := ch.(ops := ch.ops[o := op]); WF(r) && SameKeys(ch, r) && SameSets(ch, r)
  {
  }

  /** The first part of `abandon`: settle, abort, destroy the stream. */
  ghost function GiveUp(ch: Channels, o: OpId, why: Answer): (r: Channels)
    requires WF(ch) && o in ch.ops
    ensures WF(r) && SameKeys(ch, r) && SameSets(ch, r)
    ensures r.ops == ch.ops[o := GivenUp(ch.ops[o], why)]
  {
    hide WF, Abort;
    var op := CloseStream(Settle(ch.ops[o], why));
    RewriteWF(ch, o, op);
    Abort(ch.(ops := ch.ops[o := op]), o)
  }

  ghost function Abandon(ch: Channels, o: OpId, why: Answer): (r: Channels)
    requires WF(ch) && o in ch.ops
    ensures WF(r) && SameKeys(ch, r) && Removed(ch, r, o)
    ensures Left(GivenUp(ch.ops[o], why), r.ops[o])
  {
    hide WF, Left, Bystander, GivenUp, FinishOp, GiveUp;
    FinishOp(GiveUp(ch, o, why), o)
  }

  /** Why a whole set of operations is abandoned. At a lease's deadline a queued operation
      waited too long, and an admitted one was not answered in time. */
  datatype Cause = ConnectionLost | AtDeadline

  function Reason(cause: Cause, op: Op): Answer {
    match cause
    case ConnectionLost => Lost
    case AtDeadline => if op.state == Queued then QueueExpired else DeadlinePassed
  }

  lemma HasLeast(s: set<nat>)
    requires s != {}
    ensures exists m :: IsLeast(s, m)
  {
    var x :| x in s;
    assert s == (s - {x}) + {x};
    if s - {x} == {} {
      assert IsLeast(s, x);
    } else {
      HasLeast(s - {x});
      var m :| IsLeast(s - {x}, m);
      assert IsLeast(s, if x < m then x else m);
    }
  }

  ghost predicate IsLeast(s: set<nat>, m: nat) {
    m in s && forall x :: x in s ==> m <= x
  }

  ghost function Least(s: set<nat>): (m: nat)
    requires s != {}
    ensures m in s
  {
    HasLeast(s);
    var m :| IsLeast(s, m);
    m
  }

  /** The loop `for (const op of [...ops]) abandon(op, ...)`, oldest first. */
  ghost function AbandonAll(ch: Channels, ids: set<OpId>, cause: Cause): (r: Channels)
    requires WF(ch) && ids <= ch.ops.Keys
    ensures WF(r) && SameKeys(ch, r)
    decreases ids
  {
    if ids == {} then ch
    else
      var o := Least(ids);
      AbandonAll(Abandon(ch, o, Reason(cause, ch.ops[o])), ids - {o}, cause)
  }

  /** What closing a connection does to its operations. */
  ghost function AbandonConnection(ch: Channels, c: ConnId): (r: Channels)
    requires WF(ch) && c in ch.limiters
    ensures WF(r) && SameKeys(ch, r)
  {
    AbandonAll(ch, ch.connOps[c], ConnectionLost)
  }

  /** What releasing a lease, or meeting its deadline, does to its operations. */
  ghost function AbandonLease(ch: Channels, l: LeaseId, cause: Cause): (r: Channels)
    requires WF(ch) && l in ch.leaseOps
    ensures WF(r) && SameKeys(ch, r)
  {
    AbandonAll(ch, ch.leaseOps[l], cause)
  }

  /** Some operation of the lease has been admitted, not merely queued. */
  ghost predicate Admitted(ch: Channels, l: LeaseId)
    requires WF(ch) && l in ch.leaseOps
  {
    exists o :: o in ch.leaseOps[l] && ch.ops[o].state != Queued
  }

  function NewOp(l: LeaseId, c: ConnId, kind: Kind): Op {
    Op(l, c, kind, Queued, Spent, false, false, false, false, NoStream, [], 0, 0)
  }

  /** `begin`'s new operation and `whenAdmitted`'s `acquire` for it: a free permit is granted
      at once, otherwise the operation joins the end of the queue. */
  ghost function Begin(ch: Channels, o: OpId, l: LeaseId, c: ConnId, kind: Kind, limit: nat): (r: Channels)
    requires WF(ch) && o !in ch.ops && l in ch.leaseOps && c in ch.limiters
    ensures WF(r) && r.limiters.Keys == ch.limiters.Keys && r.leaseOps.Keys == ch.leaseOps.Keys
    ensures o in r.ops && r.ops == ch.ops[o := r.ops[o]]
    ensures r.connOps == ch.connOps[c := ch.connOps[c] + {o}]
    ensures r.leaseOps == ch.leaseOps[l := ch.leaseOps[l] + {o}]
  {
    var limiter := ch.limiters[c];
    var free := limiter.active < limit;
    var op := NewOp(l, c, kind);
    Channels(
      ch.ops[o := if free then Grant(op) else op.(ticket := Waiting)],
      ch.limiters[c := if free then limiter.(active := limiter.active + 1)
                       else limiter.(waiting := limiter.waiting + [o])],
      ch.connOps[c := ch.connOps[c] + {o}],
      ch.leaseOps[l := ch.leaseOps[l] + {o}])
  }

  /** `whenAdmitted`'s callback: a permit that arrives for a settled operation goes straight
      back, any other lets the transport be asked. */
  ghost function GrantRuns(ch: Channels, o: OpId): (r: Channels)
    requires WF(ch) && o in ch.ops
    ensures WF(r) && SameKeys(ch, r)
  {
    var op := ch.ops[o];
    if op.settled
    then FreePermit(ch.(ops := ch.ops[o := op.(ticket := Spent, releases := op.releases + 1)]), op.conn)
    else ch.(ops := ch.ops[o := op.(ticket := Spent, holdsSlot := true, state := Requested, inFlight := true)])
  }

  /** The transport answers an exec, or refuses a forward. */
  ghost function Answered(ch: Channels, o: OpId, answer: Answer): (r: Channels)
    requires WF(ch) && o in ch.ops
    ensures WF(r) && SameKeys(ch, r)
  {
    var op := ch.ops[o].(inFlight := false);
    if op.settled then ch.(ops := ch.ops[o := op])
    else FinishOp(ch.(ops := ch.ops[o := Settle(op, answer)]), o)
  }

  /** The transport delivers a forward's stream: to the caller, or, once the operation is
      settled, to nobody, and then the stream is closed at once. */
  ghost function StreamArrives(ch: Channels, o: OpId): (r: Channels)
    requires WF(ch) && o in ch.ops
    ensures WF(r) && SameKeys(ch, r)
  {
    var op := ch.ops[o].(inFlight := false);
    if op.settled then ch.(ops := ch.ops[o := op.(stream := Closed)])
    else ch.(ops := ch.ops[o := Settle(op, Handed).(state := Open, attached := true, stream := Live)])
  }

  /** The stream ends: its socket reports a close, or the caller calls `close()`. */
  ghost function StreamEnds(ch: Channels, o: OpId): (r: Channels)
    requires WF(ch) && o in ch.ops
    ensures WF(r) && SameKeys(ch, r)
  {
    FinishOp(ch.(ops := ch.ops[o := CloseStream(ch.ops[o])]), o)
  }

  /** A new connection's limiter and its empty set of operations. */
  ghost function AddConnection(ch: Channels, c: ConnId): (r: Channels)
    requires WF(ch)
    ensures WF(r) && r.ops == ch.ops && r.leaseOps == ch.leaseOps
    ensures r.limiters.Keys == ch.limiters.Keys + {c} && r.connOps.Keys == ch.connOps.Keys + {c}
  {
    ch.(limiters := ch.limiters[c := Limiter(0, [])], connOps := ch.connOps[c := {}])
  }

  ghost function AddLease(ch: Channels, l: LeaseId): (r: Channels)
    requires WF(ch)
    ensures WF(r) && r.ops == ch.ops && r.limiters == ch.limiters && r.connOps == ch.connOps
    ensures r.leaseOps.Keys == ch.leaseOps.Keys + {l}
  {
    ch.(leaseOps := ch.leaseOps[l := {}])
  }

  // ---- The invariant ----

  ghost predicate HasPermit(op: Op) {
    op.holdsSlot || op.ticket == Granted
  }

  /** What one operation's row says by itself. */
  ghost predicate OpCore(op: Op) {
    && |op.answers| == (if op.settled then 1 else 0)
    && op.grants == op.releases + (if HasPermit(op) then 1 else 0)
    && op.grants <= 1
    && (op.ticket != Spent ==> op.state == Queued && !op.holdsSlot)
    && (op.state == Queued ==> !op.holdsSlot && op.stream == NoStream)
    && (op.ticket == Waiting ==> op.grants == 0)
    && (op.state != Queued ==> op.grants == 1)
    && (op.attached <==> op.state == Open)
    && (op.state == Open ==> op.kind == Forward && op.settled && op.stream != NoStream)
    && (op.inFlight ==> op.state == Requested && op.stream == NoStream)
  }

  /** What it says together with whether the connection still knows it. */
  ghost predicate OpMember(op: Op, member: bool) {
    && (member <==> !op.settled || op.holdsSlot)
    && (member && op.state == Queued ==> op.ticket != Spent)
    && (op.ticket == Waiting ==> member)
    && (member && op.state == Requested ==> op.holdsSlot && op.inFlight && !op.settled)
    && (op.stream == Live ==> member && op.attached)
    && (member && op.state == Open ==> op.stream == Live)
  }

  ghost predicate OpOk(ch: Channels, o: OpId)
    requires WF(ch) && o in ch.ops
  {
    var op := ch.ops[o];
    RowOk(op, o in ch.connOps[op.conn], o in ch.leaseOps[op.lease])
  }

  ghost predicate RowOk(op: Op, inConnection: bool, inLease: bool) {
    OpCore(op) && OpMember(op, inConnection) && inConnection == inLease
  }

  ghost function Holders(ops: map<OpId, Op>, c: ConnId): set<OpId> {
    set o | o in ops && ops[o].conn == c && HasPermit(ops[o])
  }

  /** One limiter: its permits in use are the operations that hold or have just been granted
      one, plus `owed` that are about to be given back; nobody waits while a permit is free. */
  ghost predicate Balanced(ops: map<OpId, Op>, c: ConnId, limiter: Limiter, limit: nat, owed: nat) {
    && limiter.active == |Holders(ops, c)| + owed
    && limiter.active <= limit
    && (limiter.waiting != [] ==> limiter.active == limit)
  }

  /** The queue is exactly the operations still waiting, in the order they were asked for. */
  ghost predicate Queue(ops: map<OpId, Op>, c: ConnId, limiter: Limiter) {
    && Increasing(limiter.waiting)
    && (forall i :: 0 <= i < |limiter.waiting| ==>
          && limiter.waiting[i] in ops
          && ops[limiter.waiting[i]].ticket == Waiting
          && ops[limiter.waiting[i]].conn == c)
    && (forall o :: o in ops && ops[o].conn == c && ops[o].ticket == Waiting ==> o in limiter.waiting)
  }

  ghost predicate LimiterOk(ops: map<OpId, Op>, c: ConnId, limiter: Limiter, limit: nat, owed: nat) {
    Balanced(ops, c, limiter, limit, owed) && Queue(ops, c, limiter)
  }

  ghost predicate OpsOk(ch: Channels)
    requires WF(ch)
  {
    forall o :: o in ch.ops ==> OpOk(ch, o)
  }

  ghost predicate LimitersOk(ch: Channels, limit: nat) {
    forall d :: d in ch.limiters ==> LimiterOk(ch.ops, d, ch.limiters[d], limit, 0)
  }

  /** Every limiter is in order, but the one of `c` owes `owed` permits. */
  ghost predicate LimitersOwe(ch: Channels, limit: nat, c: ConnId, owed: nat) {
    && (forall d :: d in ch.limiters && d != c ==> LimiterOk(ch.ops, d, ch.limiters[d], limit, 0))
    && (c in ch.limiters ==> LimiterOk(ch.ops, c, ch.limiters[c], limit, owed))
  }

  /** The two kinds of sets hold only operations of their own connection and lease. */
  ghost predicate Placed(ch: Channels)
    requires WF(ch)
  {
    && (forall c, o :: c in ch.connOps && o in ch.connOps[c] ==> ch.ops[o].conn == c)
    && (forall l, o :: l in ch.leaseOps && o in ch.leaseOps[l] ==> ch.ops[o].lease == l)
  }

  ghost predicate Valid(ch: Channels, limit: nat) {
    WF(ch) && Placed(ch) && OpsOk(ch) && LimitersOk(ch, limit)
  }

  // ---- History ----

  /** What never goes back: the answers an operation gave, that it is settled, that it was
      admitted, that its stream is closed, and that it is out of both sets. */
  ghost predicate OpLater(a: Op, b: Op) {
    && b.lease == a.lease && b.conn == a.conn && b.kind == a.kind
    && a.answers <= b.answers
    && (a.settled ==> b.settled)
    && (a.state != Queued ==> b.state != Queued)
    && a.grants <= b.grants
    && a.releases <= b.releases
    && (a.stream == Closed ==> b.stream == Closed)
    && (a.settled && !a.holdsSlot ==> !b.holdsSlot)
  }

  /** The operation was given no permit from `a` to `b`. */
  ghost predicate Ungranted(a: Op, b: Op) {
    b.ticket != Granted && b.grants == a.grants
  }

  /** Both wait for a channel of one connection, and `p` was asked for first. */
  ghost predicate WaitsBefore(ops: map<OpId, Op>, p: OpId, o: OpId) {
    && p in ops && o in ops && p < o && ops[p].conn == ops[o].conn
    && ops[p].ticket == Waiting && ops[o].ticket == Waiting
  }

  /** Nobody overtakes: while one operation still waits, none that was asked for after it and
      waited with it is given a permit. */
  ghost predicate Fair(a: map<OpId, Op>, b: map<OpId, Op>) {
    forall p, o :: WaitsBefore(a, p, o) && p in b && b[p].ticket == Waiting && o in b ==> Ungranted(a[o], b[o])
  }

  /** A wait that is over stays over, and a permit is given to a waiter only. */
  ghost predicate TicketLater(a: Op, b: Op) {
    && b.conn == a.conn
    && (a.ticket != Waiting ==> b.ticket != Waiting && b.grants == a.grants)
    && (a.ticket == Spent ==> b.ticket == Spent)
  }

  /** The queues were served in order. */
  ghost predicate Orderly(a: map<OpId, Op>, b: map<OpId, Op>) {
    (forall o :: o in a ==> o in b && TicketLater(a[o], b[o])) && Fair(a, b)
  }

  ghost predicate Progress(a: Channels, b: Channels) {
    && (forall o :: o in a.ops ==> o in b.ops && OpLater(a.ops[o], b.ops[o]))
    && Orderly(a.ops, b.ops)
  }
}
