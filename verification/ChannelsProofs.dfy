/** Every step of an operation keeps the permits in balance and the sets in order. */
module ChannelsProofs {
  import opened Channels

  // ---- One limiter ----

  ghost predicate SamePermit(a: Op, b: Op) {
    a.ticket == b.ticket && a.holdsSlot == b.holdsSlot
  }

  /** A connection none of whose operations changed its ticket or its slot stays in order. */
  lemma LimiterSame(a: map<OpId, Op>, b: map<OpId, Op>, c: ConnId, limiter: Limiter, limit: nat, owed: nat)
    requires a.Keys == b.Keys
    requires forall o :: o in a ==> a[o].conn == b[o].conn
    requires forall o :: o in a && a[o].conn == c ==> SamePermit(a[o], b[o])
    requires LimiterOk(a, c, limiter, limit, owed)
    ensures LimiterOk(b, c, limiter, limit, owed)
  {
    assert Holders(a, c) == Holders(b, c);
  }

  lemma HoldersPlus(a: map<OpId, Op>, o: OpId, op: Op)
    requires o in a ==> a[o].conn == op.conn && !HasPermit(a[o])
    requires HasPermit(op)
    ensures |Holders(a[o := op], op.conn)| == |Holders(a, op.conn)| + 1
  {
    assert Holders(a[o := op], op.conn) == Holders(a, op.conn) + {o};
  }

  lemma HoldersMinus(a: map<OpId, Op>, o: OpId, op: Op)
    requires o in a && a[o].conn == op.conn && HasPermit(a[o]) && !HasPermit(op)
    ensures |Holders(a[o := op], op.conn)| == |Holders(a, op.conn)| - 1
  {
    assert Holders(a, op.conn) == Holders(a[o := op], op.conn) + {o};
  }

  /** The longest waiter takes over a permit that was owed. */
  lemma HandOver(ops: map<OpId, Op>, c: ConnId, limiter: Limiter, limit: nat)
    requires LimiterOk(ops, c, limiter, limit, 1) && limiter.waiting != []
    requires limiter.waiting[0] in ops ==> OpCore(ops[limiter.waiting[0]])
    ensures limiter.waiting[0] in ops
    ensures var w := limiter.waiting[0];
            LimiterOk(ops[w := Grant(ops[w])], c, limiter.(waiting := limiter.waiting[1..]), limit, 0)
  {
    var w := limiter.waiting[0];
    assert limiter.waiting == [w] + limiter.waiting[1..];
    HoldersPlus(ops, w, Grant(ops[w]));
  }

  // ---- Release ----

  lemma ReleaseOps(ch: Channels, c: ConnId)
    requires WF(ch) && c in ch.limiters && OpsOk(ch)
    requires forall o :: o in ch.limiters[c].waiting ==> o in ch.ops && ch.ops[o].ticket == Waiting
    ensures OpsOk(FreePermit(ch, c))
  {
    var r := FreePermit(ch, c);
    forall o | o in r.ops ensures OpOk(r, o) {
      assert OpOk(ch, o);
    }
  }

  lemma ReleaseOwn(ch: Channels, c: ConnId, limit: nat)
    requires WF(ch) && c in ch.limiters && LimiterOk(ch.ops, c, ch.limiters[c], limit, 1)
    requires forall o :: o in ch.ops ==> OpCore(ch.ops[o])
    ensures var r := FreePermit(ch, c); LimiterOk(r.ops, c, r.limiters[c], limit, 0)
    ensures forall o :: o in ch.ops && ch.ops[o].conn != c ==> FreePermit(ch, c).ops[o] == ch.ops[o]
  {
    if ch.limiters[c].waiting != [] { HandOver(ch.ops, c, ch.limiters[c], limit); }
  }

  /** A step that touches only the operations and the limiter of `c` keeps every other limiter. */
  lemma LimitersKeep(a: Channels, b: Channels, c: ConnId, limit: nat, before: nat, after: nat)
    requires b.ops.Keys == a.ops.Keys && b.limiters.Keys == a.limiters.Keys
    requires forall d :: d in a.limiters && d != c ==> b.limiters[d] == a.limiters[d]
    requires forall o :: o in a.ops ==> b.ops[o].conn == a.ops[o].conn
    requires forall o :: o in a.ops && a.ops[o].conn != c ==> SamePermit(a.ops[o], b.ops[o])
    requires LimitersOwe(a, limit, c, before)
    requires c in b.limiters ==> LimiterOk(b.ops, c, b.limiters[c], limit, after)
    ensures LimitersOwe(b, limit, c, after)
    ensures after == 0 ==> LimitersOk(b, limit)
  {
    forall d | d in b.limiters && d != c ensures LimiterOk(b.ops, d, b.limiters[d], limit, 0) {
      assert LimiterOk(a.ops, d, a.limiters[d], limit, 0);
      LimiterSame(a.ops, b.ops, d, a.limiters[d], limit, 0);
    }
  }

  /** Giving an owed permit back squares the connection's account. */
  lemma ReleaseSquares(ch: Channels, c: ConnId, limit: nat)
    requires WF(ch) && c in ch.limiters && OpsOk(ch) && LimitersOwe(ch, limit, c, 1)
    ensures OpsOk(FreePermit(ch, c)) && LimitersOk(FreePermit(ch, c), limit)
  {
    assert LimiterOk(ch.ops, c, ch.limiters[c], limit, 1);
    assert forall o :: o in ch.ops ==> OpOk(ch, o);
    ReleaseOps(ch, c);
    ReleaseLimiters(ch, c, limit);
  }

  lemma ReleaseLimiters(ch: Channels, c: ConnId, limit: nat)
    requires WF(ch) && c in ch.limiters && LimitersOwe(ch, limit, c, 1)
    requires forall o :: o in ch.ops ==> OpCore(ch.ops[o])
    ensures LimitersOk(FreePermit(ch, c), limit)
  {
    hide LimiterOk;
    ReleaseOwn(ch, c, limit);
    LimitersKeep(ch, FreePermit(ch, c), c, limit, 1, 0);
  }

  // ---- Finishing an operation ----

  /** An operation on its way out: answered, out of the queue, its stream ended. */
  ghost predicate Ending(op: Op) {
    && OpCore(op)
    && op.settled
    && op.ticket != Waiting
    && op.stream != Live
  }

  ghost predicate OthersOk(ch: Channels, o: OpId)
    requires WF(ch)
  {
    forall p :: p in ch.ops && p != o ==> OpOk(ch, p)
  }

  /** `finishOp` on an operation on its way out leaves everything in order. */
  lemma FinishKeeps(ch: Channels, o: OpId, limit: nat)
    requires WF(ch) && o in ch.ops && Ending(ch.ops[o]) && OthersOk(ch, o)
    requires LimitersOk(ch, limit)
    ensures OpsOk(FinishOp(ch, o)) && LimitersOk(FinishOp(ch, o), limit)
  {
    hide LimiterOk, OpOk;
    var op := ch.ops[o];
    var dropped := Drop(ch, o);
    FinishOps(ch, o);
    if op.holdsSlot {
      var vacated := dropped.(ops := dropped.ops[o := Vacate(op)]);
      VacateLimiters(ch, vacated, o, limit);
      ReleaseSquares(vacated, op.conn, limit);
    } else {
      LimitersAlike(ch, dropped, limit);
    }
  }

  lemma LimitersAlike(a: Channels, b: Channels, limit: nat)
    requires b.ops == a.ops && b.limiters == a.limiters && LimitersOk(a, limit)
    ensures LimitersOk(b, limit)
  {
  }

  /** Out of both sets and out of its slot, the finished operation is in order too. */
  lemma EndedRow(op: Op)
    requires Ending(op)
    ensures RowOk(if op.holdsSlot then Vacate(op) else op, false, false)
  {
  }

  lemma FinishOps(ch: Channels, o: OpId)
    requires WF(ch) && o in ch.ops && Ending(ch.ops[o]) && OthersOk(ch, o)
    ensures var dropped := Drop(ch, o);
            OpsOk(if ch.ops[o].holdsSlot then dropped.(ops := dropped.ops[o := Vacate(ch.ops[o])]) else dropped)
  {
    hide RowOk, Ending;
    var dropped := Drop(ch, o);
    var r := if ch.ops[o].holdsSlot then dropped.(ops := dropped.ops[o := Vacate(ch.ops[o])]) else dropped;
    EndedRow(ch.ops[o]);
    forall p | p in r.ops ensures OpOk(r, p) {
      if p != o { assert OpOk(ch, p); }
    }
  }

  lemma VacateLimiters(a: Channels, b: Channels, o: OpId, limit: nat)
    requires WF(a) && WF(b) && o in a.ops && o in b.ops && b.ops == a.ops[o := b.ops[o]] && b.limiters == a.limiters
    requires b.ops[o].conn == a.ops[o].conn && HasPermit(a.ops[o]) && !HasPermit(b.ops[o])
    requires a.ops[o].ticket != Waiting && b.ops[o].ticket != Waiting
    requires LimitersOk(a, limit)
    ensures LimitersOwe(b, limit, a.ops[o].conn, 1)
  {
    hide LimiterOk;
    var c := a.ops[o].conn;
    VacateOwn(a.ops, o, b.ops[o], a.limiters[c], limit);
    LimitersKeep(a, b, c, limit, 0, 1);
  }

  /** A permit holder that lets go leaves its limiter one permit in debt. */
  lemma VacateOwn(ops: map<OpId, Op>, o: OpId, op: Op, limiter: Limiter, limit: nat)
    requires o in ops && HasPermit(ops[o]) && !HasPermit(op) && op.conn == ops[o].conn
    requires ops[o].ticket != Waiting && op.ticket != Waiting
    requires LimiterOk(ops, op.conn, limiter, limit, 0)
    ensures LimiterOk(ops[o := op], op.conn, limiter, limit, 1)
  {
    HoldersMinus(ops, o, op);
  }

  // ---- Keeping the sets in place ----

  lemma RemovedPlaced(a: Channels, b: Channels, o: OpId)
    requires WF(a) && WF(b) && o in a.ops && SameKeys(a, b) && Removed(a, b, o) && Placed(a)
    requires b.ops[o].conn == a.ops[o].conn && b.ops[o].lease == a.ops[o].lease
    ensures Placed(b)
  {
  }

  // ---- abandon ----

  lemma GiveUpLimiters(ch: Channels, o: OpId, why: Answer, limit: nat)
    requires WF(ch) && o in ch.ops && OpCore(ch.ops[o]) && LimitersOk(ch, limit)
    ensures LimitersOk(GiveUp(ch, o, why), limit)
  {
    hide LimiterOk;
    var op := ch.ops[o];
    GiveUpOwn(ch.ops, o, why, ch.limiters[op.conn], limit);
    LimitersKeep(ch, GiveUp(ch, o, why), op.conn, limit, 0, 0);
  }

  lemma GiveUpOwn(ops: map<OpId, Op>, o: OpId, why: Answer, limiter: Limiter, limit: nat)
    requires o in ops && OpCore(ops[o]) && LimiterOk(ops, ops[o].conn, limiter, limit, 0)
    ensures var left := if ops[o].ticket == Waiting then Without(limiter.waiting, o) else limiter.waiting;
            LimiterOk(ops[o := GivenUp(ops[o], why)], ops[o].conn, limiter.(waiting := left), limit, 0)
  {
    hide GivenUp, OpCore, HasPermit, Queue;
    GivenUpPermit(ops[o], why);
    GivenUpQueue(ops, o, GivenUp(ops[o], why), limiter);
    var b := ops[o := GivenUp(ops[o], why)];
    assert Holders(b, ops[o].conn) == Holders(ops, ops[o].conn);
  }

  lemma GivenUpQueue(ops: map<OpId, Op>, o: OpId, op: Op, limiter: Limiter)
    requires o in ops && op.conn == ops[o].conn && Queue(ops, op.conn, limiter)
    requires op.ticket == if ops[o].ticket == Waiting then Spent else ops[o].ticket
    ensures var left := if ops[o].ticket == Waiting then Without(limiter.waiting, o) else limiter.waiting;
      Queue(ops[o := op], op.conn, limiter.(waiting := left))
  {
    hide Increasing;
  }

  /** Giving up takes a waiter out of the queue and moves no permit. */
  lemma GivenUpPermit(op: Op, why: Answer)
    ensures GivenUp(op, why).conn == op.conn && HasPermit(GivenUp(op, why)) == HasPermit(op)
    ensures GivenUp(op, why).ticket == if op.ticket == Waiting then Spent else op.ticket
  {
  }

  /** Rewriting one operation leaves every other one in order. */
  lemma OthersStay(a: Channels, b: Channels, o: OpId)
    requires WF(a) && WF(b) && o in a.ops && OpsOk(a) && SameSets(a, b)
    requires o in b.ops && b.ops == a.ops[o := b.ops[o]]
    ensures OthersOk(b, o)
  {
    hide RowOk;
    forall p | p in b.ops && p != o ensures OpOk(b, p) {
      assert OpOk(a, p);
    }
  }

  lemma RowEndings(op: Op, member: bool, inLease: bool)
    requires RowOk(op, member, inLease)
    ensures OpCore(op)
    ensures forall why :: Ending(GivenUp(op, why))
    ensures op.ticket == Granted && op.settled ==> RowOk(op.(ticket := Spent, releases := op.releases + 1), member, inLease)
    ensures op.ticket == Granted && !op.settled ==>
      RowOk(op.(ticket := Spent, holdsSlot := true, state := Requested, inFlight := true), member, inLease)
    ensures op.inFlight && op.settled ==> RowOk(op.(inFlight := false), member, inLease)
    ensures op.inFlight && !op.settled ==> forall why :: Ending(Settle(op.(inFlight := false), why))
    ensures op.inFlight && op.settled && op.kind == Forward ==>
      RowOk(op.(inFlight := false, stream := Closed), member, inLease)
    ensures op.inFlight && !op.settled && op.kind == Forward ==>
      RowOk(Settle(op.(inFlight := false), Handed).(state := Open, attached := true, stream := Live), member, inLease)
    ensures op.attached ==> Ending(CloseStream(op))
    ensures op.inFlight ==> op.ticket == Spent
  {
  }

  /** Once one operation is ready to finish and the limiters are in order, finishing it keeps
      everything in order. */
  lemma FinishFrom(ch: Channels, mid: Channels, o: OpId, limit: nat)
    requires o in ch.ops && Valid(ch, limit)
    requires WF(mid) && SameSets(ch, mid) && o in mid.ops && mid.ops == ch.ops[o := mid.ops[o]]
    requires mid.ops[o].conn == ch.ops[o].conn && mid.ops[o].lease == ch.ops[o].lease
    requires Ending(mid.ops[o]) && LimitersOk(mid, limit)
    ensures Valid(FinishOp(mid, o), limit)
  {
    hide LimiterOk, LimitersOk, RowOk, OpCore, QueueKnown;
    OthersStay(ch, mid, o);
    FinishKeeps(mid, o, limit);
    assert Placed(mid);
    RemovedPlaced(mid, FinishOp(mid, o), o);
  }

  lemma AbandonKeeps(ch: Channels, o: OpId, why: Answer, limit: nat)
    requires o in ch.ops && Valid(ch, limit)
    ensures Valid(Abandon(ch, o, why), limit)
  {
    hide LimiterOk, LimitersOk, RowOk, OpCore, QueueKnown;
    assert OpOk(ch, o);
    RowEndings(ch.ops[o], o in ch.connOps[ch.ops[o].conn], o in ch.leaseOps[ch.ops[o].lease]);
    GiveUpLimiters(ch, o, why, limit);
    FinishFrom(ch, GiveUp(ch, o, why), o, limit);
  }

  // ---- The callbacks ----

  /** A permit that reaches an abandoned operation is owed back. */
  lemma LateGrantOwes(ch: Channels, mid: Channels, o: OpId, limit: nat)
    requires o in ch.ops && ch.ops[o].ticket == Granted && ch.ops[o].settled && Valid(ch, limit)
    requires mid == ch.(ops := ch.ops[o := ch.ops[o].(ticket := Spent, releases := ch.ops[o].releases + 1)])
    ensures WF(mid) && Placed(mid) && OpsOk(mid) && LimitersOwe(mid, limit, ch.ops[o].conn, 1)
  {
    hide LimiterOk, LimitersOk, LimitersOwe, RowOk;
    var op := ch.ops[o];
    assert OpOk(ch, o);
    RowEndings(op, o in ch.connOps[op.conn], o in ch.leaseOps[op.lease]);
    OthersStay(ch, mid, o);
    assert OpOk(mid, o);
    VacateLimiters(ch, mid, o, limit);
  }

  lemma PlacedStays(a: Channels, b: Channels)
    requires WF(a) && WF(b) && SameSets(a, b) && SameKeys(a, b) && Placed(a)
    requires forall o :: o in a.ops ==> b.ops[o].conn == a.ops[o].conn && b.ops[o].lease == a.ops[o].lease
    ensures Placed(b)
  {
  }

  lemma LateGrantKeeps(ch: Channels, o: OpId, limit: nat)
    requires o in ch.ops && ch.ops[o].ticket == Granted && ch.ops[o].settled && Valid(ch, limit)
    ensures Valid(GrantRuns(ch, o), limit)
  {
    hide LimitersOk, LimitersOwe, OpsOk, Placed, FreePermit;
    var mid := ch.(ops := ch.ops[o := ch.ops[o].(ticket := Spent, releases := ch.ops[o].releases + 1)]);
    LateGrantOwes(ch, mid, o, limit);
    ReleaseSquares(mid, ch.ops[o].conn, limit);
    ReleasePlaced(mid, ch.ops[o].conn);
  }

  lemma ReleasePlaced(ch: Channels, c: ConnId)
    requires WF(ch) && c in ch.limiters && Placed(ch)
    ensures Placed(FreePermit(ch, c))
  {
    hide FreePermit;
    PlacedStays(ch, FreePermit(ch, c));
  }

  /** A permit that reaches a live operation becomes its slot. */
  lemma AdmitKeeps(ch: Channels, o: OpId, limit: nat)
    requires o in ch.ops && ch.ops[o].ticket == Granted && !ch.ops[o].settled && Valid(ch, limit)
    ensures Valid(GrantRuns(ch, o), limit)
  {
    hide LimiterOk, RowOk, QueueKnown;
    var op := ch.ops[o];
    assert OpOk(ch, o);
    RowEndings(op, o in ch.connOps[op.conn], o in ch.leaseOps[op.lease]);
    var mid := GrantRuns(ch, o);
    OthersStay(ch, mid, o);
    AdmitOwn(ch.ops, o, mid.ops[o], ch.limiters[op.conn], limit);
    LimitersKeep(ch, mid, op.conn, limit, 0, 0);
  }

  lemma GrantRunsKeeps(ch: Channels, o: OpId, limit: nat)
    requires o in ch.ops && ch.ops[o].ticket == Granted && Valid(ch, limit)
    ensures Valid(GrantRuns(ch, o), limit)
  {
    hide Valid, WF;
    if ch.ops[o].settled { LateGrantKeeps(ch, o, limit); } else { AdmitKeeps(ch, o, limit); }
  }

  /** A grant that turns into a slot is the same permit. */
  lemma AdmitOwn(ops: map<OpId, Op>, o: OpId, op: Op, limiter: Limiter, limit: nat)
    requires o in ops && HasPermit(ops[o]) && HasPermit(op) && op.conn == ops[o].conn
    requires ops[o].ticket != Waiting && op.ticket != Waiting
    requires LimiterOk(ops, op.conn, limiter, limit, 0)
    ensures LimiterOk(ops[o := op], op.conn, limiter, limit, 0)
  {
    assert Holders(ops[o := op], op.conn) == Holders(ops, op.conn);
  }

  /** Rewriting an operation without touching its permit. */
  lemma RewriteLimiters(ch: Channels, o: OpId, op: Op, limit: nat)
    requires o in ch.ops && SamePermit(ch.ops[o], op) && op.conn == ch.ops[o].conn
    requires LimitersOk(ch, limit)
    ensures LimitersOk(ch.(ops := ch.ops[o := op]), limit)
  {
    hide LimiterOk;
    var b := ch.(ops := ch.ops[o := op]);
    forall d | d in b.limiters ensures LimiterOk(b.ops, d, b.limiters[d], limit, 0) {
      LimiterSame(ch.ops, b.ops, d, ch.limiters[d], limit, 0);
    }
  }

  /** Rewriting an operation so that it is ready to finish, and finishing it. */
  lemma RewriteAndFinish(ch: Channels, o: OpId, op: Op, limit: nat)
    requires o in ch.ops && Valid(ch, limit) && Ending(op) && SamePermit(ch.ops[o], op)
    requires op.conn == ch.ops[o].conn && op.lease == ch.ops[o].lease
    ensures var mid := ch.(ops := ch.ops[o := op]); WF(mid) && Valid(FinishOp(mid, o), limit)
  {
    hide LimiterOk, LimitersOk, RowOk, OpCore, OpsOk, Placed;
    RewriteLimiters(ch, o, op, limit);
    FinishFrom(ch, ch.(ops := ch.ops[o := op]), o, limit);
  }

  lemma AnsweredKeeps(ch: Channels, o: OpId, answer: Answer, limit: nat)
    requires o in ch.ops && ch.ops[o].inFlight && Valid(ch, limit)
    ensures Valid(Answered(ch, o, answer), limit)
  {
    hide LimiterOk, RowOk, OpCore;
    var op := ch.ops[o].(inFlight := false);
    assert OpOk(ch, o);
    RowEndings(ch.ops[o], o in ch.connOps[op.conn], o in ch.leaseOps[op.lease]);
    if op.settled {
      RewriteLimiters(ch, o, op, limit);
      OthersStay(ch, ch.(ops := ch.ops[o := op]), o);
    } else {
      RewriteAndFinish(ch, o, Settle(op, answer), limit);
    }
  }

  lemma StreamArrivesKeeps(ch: Channels, o: OpId, limit: nat)
    requires o in ch.ops && ch.ops[o].inFlight && ch.ops[o].kind == Forward && Valid(ch, limit)
    ensures Valid(StreamArrives(ch, o), limit)
  {
    hide LimiterOk, RowOk, OpCore;
    var r := StreamArrives(ch, o);
    assert OpOk(ch, o);
    RowEndings(ch.ops[o], o in ch.connOps[ch.ops[o].conn], o in ch.leaseOps[ch.ops[o].lease]);
    OthersStay(ch, r, o);
    RewriteLimiters(ch, o, r.ops[o], limit);
  }

  lemma StreamEndsKeeps(ch: Channels, o: OpId, limit: nat)
    requires o in ch.ops && ch.ops[o].attached && Valid(ch, limit)
    ensures Valid(StreamEnds(ch, o), limit)
  {
    hide LimiterOk, RowOk, OpCore;
    assert OpOk(ch, o);
    RowEndings(ch.ops[o], o in ch.connOps[ch.ops[o].conn], o in ch.leaseOps[ch.ops[o].lease]);
    RewriteAndFinish(ch, o, CloseStream(ch.ops[o]), limit);
  }

  // ---- begin ----

  /** A new operation joins a queue that is as good as empty, or waits behind a full limiter. */
  lemma AcquireOwn(ops: map<OpId, Op>, o: OpId, op: Op, limiter: Limiter, limit: nat)
    requires (forall p :: p in ops ==> p < o) && !HasPermit(op) && op.ticket == Spent
    requires LimiterOk(ops, op.conn, limiter, limit, 0)
    ensures limiter.active < limit ==>
      LimiterOk(ops[o := Grant(op)], op.conn, limiter.(active := limiter.active + 1), limit, 0)
    ensures limiter.active >= limit ==>
      LimiterOk(ops[o := op.(ticket := Waiting)], op.conn, limiter.(waiting := limiter.waiting + [o]), limit, 0)
  {
    if limiter.active < limit {
      HoldersPlus(ops, o, Grant(op));
    } else {
      assert Holders(ops[o := op.(ticket := Waiting)], op.conn) == Holders(ops, op.conn);
    }
  }

  lemma LimiterGains(a: map<OpId, Op>, o: OpId, op: Op, c: ConnId, limiter: Limiter, limit: nat)
    requires o !in a && op.conn != c && LimiterOk(a, c, limiter, limit, 0)
    ensures LimiterOk(a[o := op], c, limiter, limit, 0)
  {
    assert Holders(a[o := op], c) == Holders(a, c);
  }

  lemma BeginLimiters(ch: Channels, o: OpId, l: LeaseId, c: ConnId, kind: Kind, limit: nat)
    requires WF(ch) && (forall p :: p in ch.ops ==> p < o) && l in ch.leaseOps && c in ch.limiters && LimitersOk(ch, limit)
    ensures LimitersOk(Begin(ch, o, l, c, kind, limit), limit)
  {
    hide LimiterOk, WF;
    var r := Begin(ch, o, l, c, kind, limit);
    AcquireOwn(ch.ops, o, NewOp(l, c, kind), ch.limiters[c], limit);
    forall d | d in r.limiters && d != c ensures LimiterOk(r.ops, d, r.limiters[d], limit, 0) {
      LimiterGains(ch.ops, o, r.ops[o], d, ch.limiters[d], limit);
    }
  }

  lemma BeginOps(ch: Channels, o: OpId, l: LeaseId, c: ConnId, kind: Kind, limit: nat)
    requires o !in ch.ops && l in ch.leaseOps && c in ch.limiters && WF(ch) && OpsOk(ch)
    ensures OpsOk(Begin(ch, o, l, c, kind, limit))
  {
    hide OpCore, OpMember, QueueKnown;
    var r := Begin(ch, o, l, c, kind, limit);
    NewRow(l, c, kind);
    forall p | p in r.ops && p != o ensures OpOk(r, p) {
      assert OpOk(ch, p);
    }
  }

  /** The new operation's row is in order whichever way the limiter answered. */
  lemma NewRow(l: LeaseId, c: ConnId, kind: Kind)
    ensures RowOk(NewOp(l, c, kind).(ticket := Waiting), true, true) && RowOk(Grant(NewOp(l, c, kind)), true, true)
  {
  }

  lemma BeginPlaced(ch: Channels, o: OpId, l: LeaseId, c: ConnId, kind: Kind, limit: nat)
    requires o !in ch.ops && l in ch.leaseOps && c in ch.limiters && WF(ch) && Placed(ch)
    ensures Placed(Begin(ch, o, l, c, kind, limit))
  {
    hide QueueKnown;
  }

  lemma BeginKeeps(ch: Channels, o: OpId, l: LeaseId, c: ConnId, kind: Kind, limit: nat)
    requires (forall p :: p in ch.ops ==> p < o) && l in ch.leaseOps && c in ch.limiters && Valid(ch, limit)
    ensures Valid(Begin(ch, o, l, c, kind, limit), limit)
  {
    hide WF, OpsOk, LimitersOk, Placed;
    BeginOps(ch, o, l, c, kind, limit);
    BeginPlaced(ch, o, l, c, kind, limit);
    BeginLimiters(ch, o, l, c, kind, limit);
  }

  // ---- Nobody overtakes ----

  lemma OrderlySelf(ops: map<OpId, Op>)
    ensures Orderly(ops, ops)
  {
  }

  lemma OrderlyTwice(a: map<OpId, Op>, b: map<OpId, Op>, c: map<OpId, Op>)
    requires Orderly(a, b) && Orderly(b, c)
    ensures Orderly(a, c)
  {
    forall p, o | WaitsBefore(a, p, o) && p in c && c[p].ticket == Waiting && o in c ensures Ungranted(a[o], c[o]) {
      assert b[p].ticket == Waiting && Ungranted(a[o], b[o]);
      if b[o].ticket == Waiting { assert WaitsBefore(b, p, o); }
    }
  }

  /** A permit goes to the longest waiter, so it overtakes nobody. */
  lemma FreePermitOrderly(ch: Channels, c: ConnId)
    requires WF(ch) && c in ch.limiters && Queue(ch.ops, c, ch.limiters[c])
    ensures Orderly(ch.ops, FreePermit(ch, c).ops)
  {
  }

  lemma RewriteOrderly(a: map<OpId, Op>, b: map<OpId, Op>, o: OpId)
    requires o in a && o in b && b == a[o := b[o]] && TicketLater(a[o], b[o])
    requires a[o].ticket == Waiting ==> Ungranted(a[o], b[o])
    ensures Orderly(a, b)
  {
  }

  lemma FinishOrderly(ch: Channels, o: OpId)
    requires WF(ch) && o in ch.ops && Queue(ch.ops, ch.ops[o].conn, ch.limiters[ch.ops[o].conn])
    requires ch.ops[o].ticket != Waiting
    ensures Orderly(ch.ops, FinishOp(ch, o).ops)
  {
    hide Orderly, FreePermit, WF;
    var dropped := Drop(ch, o);
    var op := ch.ops[o];
    if op.holdsSlot {
      var vacated := dropped.(ops := dropped.ops[o := Vacate(op)]);
      RewriteWF(dropped, o, Vacate(op));
      SpentQueue(ch.ops, o, Vacate(op), ch.limiters[op.conn]);
      FreePermitOrderly(vacated, op.conn);
      RewriteOrderly(ch.ops, vacated.ops, o);
      OrderlyTwice(ch.ops, vacated.ops, FinishOp(ch, o).ops);
    } else {
      OrderlySelf(ch.ops);
    }
  }

  lemma SpentQueue(ops: map<OpId, Op>, o: OpId, op: Op, limiter: Limiter)
    requires o in ops && op.conn == ops[o].conn && ops[o].ticket != Waiting && op.ticket != Waiting
    requires Queue(ops, op.conn, limiter)
    ensures Queue(ops[o := op], op.conn, limiter)
  {
  }

  lemma QueueOf(ch: Channels, o: OpId, limit: nat)
    requires WF(ch) && o in ch.ops && LimitersOk(ch, limit)
    ensures Queue(ch.ops, ch.ops[o].conn, ch.limiters[ch.ops[o].conn])
  {
    hide Queue, Balanced;
    assert LimiterOk(ch.ops, ch.ops[o].conn, ch.limiters[ch.ops[o].conn], limit, 0);
  }

  lemma AbandonOrderly(ch: Channels, o: OpId, why: Answer, limit: nat)
    requires o in ch.ops && Valid(ch, limit)
    ensures Orderly(ch.ops, Abandon(ch, o, why).ops)
  {
    hide Orderly, OpsOk, Placed, GiveUp, FinishOp, LimitersOk, WF, GivenUp, Queue;
    var mid := GiveUp(ch, o, why);
    CoreOf(ch, o);
    GivenUpTicket(ch.ops[o], why);
    RewriteOrderly(ch.ops, mid.ops, o);
    GiveUpLimiters(ch, o, why, limit);
    QueueOf(mid, o, limit);
    FinishOrderly(mid, o);
    OrderlyTwice(ch.ops, mid.ops, Abandon(ch, o, why).ops);
  }

  lemma GivenUpTicket(op: Op, why: Answer)
    ensures TicketLater(op, GivenUp(op, why)) && (op.ticket == Waiting ==> Ungranted(op, GivenUp(op, why)))
    ensures GivenUp(op, why).ticket != Waiting
  {
  }

  // ---- Abandoning a whole set ----

  ghost predicate AbandonedBy(cause: Cause, a: Op, b: Op) {
    && b.settled && !b.holdsSlot && b.state == a.state && b.conn == a.conn && b.lease == a.lease
    && b.answers == Settle(a, Reason(cause, a)).answers
    && OpLater(a, b)
  }

  /** Exactly the given operations left the sets. */
  ghost predicate SetsLess(a: Channels, b: Channels, ids: set<OpId>)
    requires SameKeys(a, b) && WF(a) && WF(b)
  {
    && (forall c :: c in a.connOps ==> b.connOps[c] == a.connOps[c] - ids)
    && (forall l :: l in a.leaseOps ==> b.leaseOps[l] == a.leaseOps[l] - ids)
  }

  /** Each of them was abandoned, and every other operation is a bystander. */
  ghost predicate OpsLess(a: Channels, b: Channels, ids: set<OpId>, cause: Cause)
    requires SameKeys(a, b)
  {
    forall o :: o in a.ops ==>
      if o in ids then AbandonedBy(cause, a.ops[o], b.ops[o]) else Bystander(a.ops[o], b.ops[o])
  }

  lemma AbandonDoes(ch: Channels, o: OpId, cause: Cause)
    requires WF(ch) && o in ch.ops && Placed(ch)
    ensures var r := Abandon(ch, o, Reason(cause, ch.ops[o])); SetsLess(ch, r, {o}) && OpsLess(ch, r, {o}, cause)
  {
    hide FinishOp, GiveUp, WF, Abandon, Left, GivenUp, AbandonedBy, Bystander;
    AbandonedRow(cause, ch.ops[o], Abandon(ch, o, Reason(cause, ch.ops[o])).ops[o]);
    RemovedSets(ch, Abandon(ch, o, Reason(cause, ch.ops[o])), o);
  }

  lemma AbandonedRow(cause: Cause, a: Op, b: Op)
    requires Left(GivenUp(a, Reason(cause, a)), b)
    ensures AbandonedBy(cause, a, b)
  {
  }

  lemma RemovedSets(a: Channels, b: Channels, o: OpId)
    requires WF(a) && WF(b) && o in a.ops && SameKeys(a, b) && Placed(a) && Removed(a, b, o)
    ensures SetsLess(a, b, {o})
  {
    hide QueueKnown, Bystander;
  }

  lemma SetsLessTwice(a: Channels, b: Channels, c: Channels, o: OpId, ids: set<OpId>)
    requires WF(a) && WF(b) && WF(c) && SameKeys(a, b) && SameKeys(b, c)
    requires SetsLess(a, b, {o}) && SetsLess(b, c, ids - {o}) && o in ids
    ensures SetsLess(a, c, ids)
  {
    assert forall s: set<OpId> :: s - {o} - (ids - {o}) == s - ids;
  }

  lemma OpsLessTwice(a: Channels, b: Channels, c: Channels, o: OpId, ids: set<OpId>, cause: Cause)
    requires SameKeys(a, b) && SameKeys(b, c)
    requires OpsLess(a, b, {o}, cause) && OpsLess(b, c, ids - {o}, cause) && o in ids
    ensures OpsLess(a, c, ids, cause)
  {
  }

  lemma NoneLess(ch: Channels, cause: Cause)
    requires WF(ch)
    ensures SetsLess(ch, ch, {}) && OpsLess(ch, ch, {}, cause)
  {
  }

  /** Abandoning a set of operations answers each of them, takes exactly them out of the sets,
      and leaves every other operation where it was. */
  lemma AbandonAllDoes(ch: Channels, ids: set<OpId>, cause: Cause, limit: nat)
    requires ids <= ch.ops.Keys && Valid(ch, limit)
    ensures var r := AbandonAll(ch, ids, cause);
      Valid(r, limit) && SetsLess(ch, r, ids) && OpsLess(ch, r, ids, cause) && Orderly(ch.ops, r.ops)
    decreases ids
  {
    hide Orderly, SetsLess, OpsLess, Abandon;
    if ids == {} {
      NoneLess(ch, cause);
      OrderlySelf(ch.ops);
    } else {
      hide OpsOk, LimitersOk;
      var o := Least(ids);
      var next := Abandon(ch, o, Reason(cause, ch.ops[o]));
      AbandonKeeps(ch, o, Reason(cause, ch.ops[o]), limit);
      AbandonDoes(ch, o, cause);
      AbandonOrderly(ch, o, Reason(cause, ch.ops[o]), limit);
      AbandonAllDoes(next, ids - {o}, cause, limit);
      SetsLessTwice(ch, next, AbandonAll(next, ids - {o}, cause), o, ids);
      OpsLessTwice(ch, next, AbandonAll(next, ids - {o}, cause), o, ids, cause);
      OrderlyTwice(ch.ops, next.ops, AbandonAll(next, ids - {o}, cause).ops);
    }
  }

  // ---- New connections and leases ----

  lemma AddConnectionKeeps(ch: Channels, c: ConnId, limit: nat)
    requires Valid(ch, limit) && c !in ch.limiters
    ensures Valid(AddConnection(ch, c), limit)
  {
    hide LimiterOk, RowOk, QueueKnown;
    var r := AddConnection(ch, c);
    EmptyLimiter(ch.ops, c, limit);
    forall o | o in r.ops ensures OpOk(r, o) {
      assert OpOk(ch, o);
    }
  }

  lemma EmptyLimiter(ops: map<OpId, Op>, c: ConnId, limit: nat)
    requires forall o :: o in ops ==> ops[o].conn != c
    ensures LimiterOk(ops, c, Limiter(0, []), limit, 0)
  {
    assert Holders(ops, c) == {};
  }

  lemma AddLeaseKeeps(ch: Channels, l: LeaseId, limit: nat)
    requires Valid(ch, limit) && l !in ch.leaseOps
    ensures Valid(AddLease(ch, l), limit)
  {
    hide LimiterOk, OpCore, OpMember;
    var r := AddLease(ch, l);
    forall o | o in r.ops ensures OpOk(r, o) {
      assert OpOk(ch, o);
    }
  }

  // ---- Nothing goes back ----

  /** No set of operations has grown. */
  ghost predicate FewerOps(a: Channels, b: Channels) {
    && b.leaseOps.Keys == a.leaseOps.Keys
    && b.connOps.Keys == a.connOps.Keys
    && (forall l :: l in a.leaseOps ==> b.leaseOps[l] <= a.leaseOps[l])
    && (forall c :: c in a.connOps ==> b.connOps[c] <= a.connOps[c])
  }

  lemma ProgressTwice(a: Channels, b: Channels, c: Channels)
    requires Progress(a, b) && Progress(b, c)
    ensures Progress(a, c)
  {
    hide Orderly;
    OrderlyTwice(a.ops, b.ops, c.ops);
  }

  /** What rewriting one operation and then finishing it does to the others. */
  lemma FinishProgress(a: Channels, mid: Channels, o: OpId, limit: nat)
    requires WF(a) && WF(mid) && o in a.ops && SameSets(a, mid) && SameKeys(a, mid) && mid.limiters == a.limiters
    requires mid.ops == a.ops[o := mid.ops[o]] && OpLater(a.ops[o], mid.ops[o]) && SamePermit(a.ops[o], mid.ops[o])
    requires a.ops[o].ticket == Spent && mid.ops[o].grants == a.ops[o].grants && LimitersOk(a, limit)
    ensures Progress(a, FinishOp(mid, o)) && FewerOps(a, FinishOp(mid, o))
  {
    hide FinishOp, WF, Queue, Balanced, Orderly;
    RewriteLimiters(a, o, mid.ops[o], limit);
    QueueOf(mid, o, limit);
    RewriteOrderly(a.ops, mid.ops, o);
    FinishOrderly(mid, o);
    OrderlyTwice(a.ops, mid.ops, FinishOp(mid, o).ops);
  }

  lemma RewriteProgress(a: Channels, b: Channels, o: OpId)
    requires o in a.ops && SameSets(a, b) && o in b.ops && b.ops == a.ops[o := b.ops[o]] && OpLater(a.ops[o], b.ops[o])
    requires a.ops[o].ticket != Waiting && TicketLater(a.ops[o], b.ops[o])
    ensures Progress(a, b) && FewerOps(a, b)
  {
    hide Orderly;
    RewriteOrderly(a.ops, b.ops, o);
  }

  lemma CoreOf(ch: Channels, o: OpId)
    requires WF(ch) && OpsOk(ch) && o in ch.ops
    ensures OpCore(ch.ops[o])
  {
    hide OpCore;
    assert OpOk(ch, o);
  }

  lemma GrantRunsDoes(ch: Channels, o: OpId, limit: nat)
    requires o in ch.ops && ch.ops[o].ticket == Granted && Valid(ch, limit)
    ensures var r := GrantRuns(ch, o); Valid(r, limit) && Progress(ch, r) && FewerOps(ch, r)
  {
    hide WF, OpsOk, LimitersOk, Placed, FreePermit;
    GrantRunsKeeps(ch, o, limit);
    CoreOf(ch, o);
    if ch.ops[o].settled { LateGrantProgress(ch, o, limit); } else { RewriteProgress(ch, GrantRuns(ch, o), o); }
  }

  lemma LateGrantIs(ch: Channels, o: OpId)
    requires WF(ch) && o in ch.ops && ch.ops[o].settled
    ensures var op := ch.ops[o].(ticket := Spent, releases := ch.ops[o].releases + 1); var mid := ch.(ops := ch.ops[o := op]);
      WF(mid) && op.conn in mid.limiters && GrantRuns(ch, o) == FreePermit(mid, op.conn)
  {
    hide FreePermit, WF;
    OpHasLimiter(ch, o);
    RewriteWF(ch, o, ch.ops[o].(ticket := Spent, releases := ch.ops[o].releases + 1));
  }

  lemma OpHasLimiter(ch: Channels, o: OpId)
    requires WF(ch) && o in ch.ops
    ensures ch.ops[o].conn in ch.limiters
  {
  }

  lemma LateGrantProgress(ch: Channels, o: OpId, limit: nat)
    requires WF(ch) && o in ch.ops && ch.ops[o].settled && !ch.ops[o].holdsSlot && ch.ops[o].ticket == Granted
    requires LimitersOk(ch, limit)
    ensures var r := GrantRuns(ch, o); Progress(ch, r) && FewerOps(ch, r)
  {
    hide FreePermit, Orderly, Queue, Balanced, LimitersOk, WF, GrantRuns;
    var op := ch.ops[o].(ticket := Spent, releases := ch.ops[o].releases + 1);
    LateGrantIs(ch, o);
    var mid := ch.(ops := ch.ops[o := op]);
    RewriteWF(ch, o, op);
    QueueOf(ch, o, limit);
    SpentQueue(ch.ops, o, op, ch.limiters[op.conn]);
    FreePermitOrderly(mid, op.conn);
    RewriteOrderly(ch.ops, mid.ops, o);
    OrderlyTwice(ch.ops, mid.ops, GrantRuns(ch, o).ops);
  }

  lemma AnsweredDoes(ch: Channels, o: OpId, answer: Answer, limit: nat)
    requires o in ch.ops && ch.ops[o].inFlight && Valid(ch, limit)
    ensures var r := Answered(ch, o, answer); Valid(r, limit) && Progress(ch, r) && FewerOps(ch, r)
  {
    hide OpsOk, LimitersOk, Placed, FinishOp, WF, Orderly;
    AnsweredKeeps(ch, o, answer, limit);
    CoreOf(ch, o);
    var op := ch.ops[o].(inFlight := false);
    if op.settled {
      RewriteProgress(ch, Answered(ch, o, answer), o);
    } else {
      RewriteWF(ch, o, Settle(op, answer));
      FinishProgress(ch, ch.(ops := ch.ops[o := Settle(op, answer)]), o, limit);
    }
  }

  lemma StreamArrivesDoes(ch: Channels, o: OpId, limit: nat)
    requires o in ch.ops && ch.ops[o].inFlight && ch.ops[o].kind == Forward && Valid(ch, limit)
    ensures var r := StreamArrives(ch, o); Valid(r, limit) && Progress(ch, r) && FewerOps(ch, r)
  {
    hide WF, OpsOk, LimitersOk, Placed;
    StreamArrivesKeeps(ch, o, limit);
    CoreOf(ch, o);
    RewriteProgress(ch, StreamArrives(ch, o), o);
  }

  lemma StreamEndsDoes(ch: Channels, o: OpId, limit: nat)
    requires o in ch.ops && ch.ops[o].attached && Valid(ch, limit)
    ensures var r := StreamEnds(ch, o); Valid(r, limit) && Progress(ch, r) && FewerOps(ch, r)
  {
    hide OpsOk, LimitersOk, Placed, FinishOp, WF, Orderly;
    StreamEndsKeeps(ch, o, limit);
    CoreOf(ch, o);
    RewriteWF(ch, o, CloseStream(ch.ops[o]));
    FinishProgress(ch, ch.(ops := ch.ops[o := CloseStream(ch.ops[o])]), o, limit);
  }

  lemma AbandonAllProgress(ch: Channels, ids: set<OpId>, cause: Cause, limit: nat)
    requires ids <= ch.ops.Keys && Valid(ch, limit)
    ensures Progress(ch, AbandonAll(ch, ids, cause))
  {
    hide Valid, Orderly, AbandonAll;
    AbandonAllDoes(ch, ids, cause, limit);
  }

  // ---- Abandoning what a connection or a lease knows ----

  lemma KnownSets(ch: Channels)
    requires WF(ch)
    ensures ch.connOps.Keys == ch.limiters.Keys
    ensures forall c :: c in ch.connOps ==> ch.connOps[c] <= ch.ops.Keys
    ensures forall l :: l in ch.leaseOps ==> ch.leaseOps[l] <= ch.ops.Keys
  {
  }

  lemma AbandonConnectionDoes(ch: Channels, c: ConnId, limit: nat)
    requires Valid(ch, limit) && c in ch.limiters
    ensures var r := AbandonConnection(ch, c);
      Valid(r, limit) && FewerOps(ch, r) && Progress(ch, r) && c in r.connOps && r.connOps[c] == {}
  {
    hide WF, OpsOk, LimitersOk, Placed, Progress, OpsLess, AbandonAll;
    KnownSets(ch);
    AbandonAllDoes(ch, ch.connOps[c], ConnectionLost, limit);
    AbandonAllProgress(ch, ch.connOps[c], ConnectionLost, limit);
  }

  lemma AbandonLeaseDoes(ch: Channels, l: LeaseId, cause: Cause, limit: nat)
    requires Valid(ch, limit) && l in ch.leaseOps
    ensures var r := AbandonLease(ch, l, cause);
      Valid(r, limit) && FewerOps(ch, r) && Progress(ch, r) && r.leaseOps[l] == {}
  {
    hide WF, OpsOk, LimitersOk, Placed, Progress, OpsLess, AbandonAll;
    KnownSets(ch);
    AbandonAllDoes(ch, ch.leaseOps[l], cause, limit);
    AbandonAllProgress(ch, ch.leaseOps[l], cause, limit);
  }
}
