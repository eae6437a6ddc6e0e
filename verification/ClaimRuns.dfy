/** Runs of calls on the instance rows, by any number of workers, in any order. */
module ClaimRuns {
  import opened Options
  import opened Claims

  /** The rows, and what the calls so far leave behind: every claim id ever used, the latest
      claimer of each instance's config claim, and the claims that were taken for a lifecycle. */
  datatype State = State(rows: Rows, now: int, used: set<ClaimId>, latest: map<InstanceId, ClaimId>, lifecycle: set<ClaimId>)

  /** One call, when it ran, and whether it took effect. */
  datatype Step = Step(now: int, call: Call, ok: bool)

  const START := State(map[], 0, {}, map[], {})

  predicate TakesConfig(call: Call) {
    call.Insert? || call.ClaimForConfig? || call.ClaimForLifecycle?
  }

  predicate TakesClaim(call: Call) {
    TakesConfig(call) || call.ClaimForAuth?
  }

  /** A call that shows a config claim's id. */
  predicate Fenced(call: Call) {
    call.FinalizeConfigClaim? || call.ReleaseConfigClaim? || call.WriteTokenUnderClaim? || call.DeleteUnderClaim?
  }

  /** Time does not go back, a claim's id was never used before, nor an instance's, and a call
      takes effect only if it is allowed. It may also fail for a reason of the caller's own. */
  ghost predicate Enabled(s: State, step: Step) {
    && s.now <= step.now
    && (TakesClaim(step.call) ==> step.call.claim !in s.used)
    && (step.call.Insert? ==> step.call.id !in s.latest)
    && (step.ok ==> Allowed(s.rows, step.now, step.call))
  }

  ghost function Next(s: State, step: Step): State
    requires Enabled(s, step)
  {
    var call := step.call;
    State(if step.ok then Done(s.rows, step.now, call) else s.rows,
          step.now,
          if TakesClaim(call) then s.used + {call.claim} else s.used,
          if step.ok && TakesConfig(call) then s.latest[call.id := call.claim] else s.latest,
          if step.ok && call.ClaimForLifecycle? then s.lifecycle + {call.claim} else s.lifecycle)
  }

  ghost predicate IsRun(run: seq<State>, steps: seq<Step>) {
    && |run| == |steps| + 1
    && run[0] == START
    && forall i :: 0 <= i < |steps| ==> Follows(run[i], steps[i], run[i + 1])
  }

  ghost predicate Follows(a: State, step: Step, b: State) {
    Enabled(a, step) && b == Next(a, step)
  }

  // ---- The invariant ----

  /** A row's config claim is its latest claimer's or nobody's; a claim taken for a lifecycle
      leaves no live sign-in beside it, now or later. */
  ghost predicate RowOk(id: InstanceId, row: Row, s: State) {
    && id in s.latest && s.latest[id] in s.used
    && (row.configId.Some? <==> row.configAt.Some?)
    && (row.authId.Some? <==> row.authAt.Some?)
    && (row.configAt.Some? ==> row.configAt.value <= s.now)
    && (row.authAt.Some? ==> row.authAt.value <= s.now)
    && (row.configId.Some? ==> row.configId.value == s.latest[id])
    && (row.configId.Some? && row.configId.value in s.lifecycle ==> !AuthClaimIsLive(row, s.now))
  }

  ghost predicate RowsOk(s: State) {
    && (forall id :: id in s.rows ==> RowOk(id, s.rows[id], s))
    && (forall id :: id in s.latest ==> s.latest[id] in s.used)
    && s.lifecycle <= s.used
  }

  lemma RowLater(id: InstanceId, row: Row, a: State, b: State)
    requires RowOk(id, row, a) && a.now <= b.now && a.used <= b.used
    requires id in b.latest && b.latest[id] == a.latest[id]
    requires a.lifecycle <= b.lifecycle <= a.lifecycle + (b.used - a.used)
    ensures RowOk(id, row, b)
  {
  }

  lemma NextKeeps(s: State, step: Step)
    requires RowsOk(s) && Enabled(s, step)
    ensures RowsOk(Next(s, step))
  {
    hide RowOk;
    var r := Next(s, step);
    forall id | id in r.rows ensures RowOk(id, r.rows[id], r) {
      if step.ok && id == step.call.id {
        OwnRow(s, step);
      } else {
        RowKnown(id, s.rows[id], s);
        RowLater(id, s.rows[id], s, r);
      }
    }
  }

  lemma RowKnown(id: InstanceId, row: Row, s: State)
    requires RowOk(id, row, s)
    ensures id in s.latest && s.latest[id] in s.used
  {
  }

  lemma OwnRow(s: State, step: Step)
    requires RowsOk(s) && Enabled(s, step) && step.ok && step.call.id in Next(s, step).rows
    ensures RowOk(step.call.id, Next(s, step).rows[step.call.id], Next(s, step))
  {
    var id := step.call.id;
    assert id in s.rows ==> RowOk(id, s.rows[id], s);
  }

  lemma {:induction false} RunOk(run: seq<State>, steps: seq<Step>, i: nat)
    requires IsRun(run, steps) && i < |run|
    ensures RowsOk(run[i])
    decreases i
  {
    hide RowOk, Enabled, Next;
    if i > 0 {
      RunOk(run, steps, i - 1);
      assert Follows(run[i - 1], steps[i - 1], run[i - 1 + 1]);
      NextKeeps(run[i - 1], steps[i - 1]);
    }
  }

  /** What an earlier state tells of a later one. */
  lemma {:induction false} RunLater(run: seq<State>, steps: seq<Step>, i: nat, j: nat)
    requires IsRun(run, steps) && i <= j < |run|
    ensures run[i].now <= run[j].now && run[i].used <= run[j].used && run[i].latest.Keys <= run[j].latest.Keys
    ensures run[i].lifecycle <= run[j].lifecycle
    decreases j
  {
    if i < j {
      RunLater(run, steps, i, j - 1);
      assert Follows(run[j - 1], steps[j - 1], run[j - 1 + 1]);
    }
  }

  // ---- Exclusion ----

  /** The step takes the claim away from its holder by the holder's own doing, or takes the row. */
  predicate GivesUp(step: Step, id: InstanceId, claim: ClaimId) {
    step.ok && step.call.id == id &&
    ((Fenced(step.call) && step.call.claim == claim && !step.call.WriteTokenUnderClaim?) || step.call.Delete?)
  }

  /** The row is under the claim, whose lease reaches at least to `until`. */
  ghost predicate Holds(s: State, id: InstanceId, claim: ClaimId, until: int) {
    && UnderClaim(s.rows, id, claim)
    && s.rows[id].configAt.Some? && s.rows[id].configAt.value + CONFIG_CLAIM_LEASE_MS >= until
  }

  /** The step starts the claim's lease, or renews it. */
  predicate Refreshes(step: Step, id: InstanceId, claim: ClaimId) {
    && step.ok && step.call.id == id
    && (TakesConfig(step.call) || step.call.WriteTokenUnderClaim?) && step.call.claim == claim
  }

  /** Step `k` comes before the lease that step `i` or a later step gave the claim runs out. */
  ghost predicate InTime(steps: seq<Step>, i: nat, k: nat, id: InstanceId, claim: ClaimId)
    requires k < |steps|
  {
    exists r: nat :: i <= r < k && Refreshes(steps[r], id, claim) && steps[k].now < steps[r].now + CONFIG_CLAIM_LEASE_MS
  }

  lemma HoldsOn(s: State, step: Step, id: InstanceId, claim: ClaimId, live: int, until: int)
    requires RowsOk(s) && Enabled(s, step) && Holds(s, id, claim, live) && step.now < live
    requires !GivesUp(step, id, claim) && Holds(s, id, claim, until)
    ensures Holds(Next(s, step), id, claim, until)
    ensures step.ok && TakesClaim(step.call) ==> step.call.id != id
  {
    assert RowOk(id, s.rows[id], s);
    assert ConfigClaimIsLive(s.rows[id], step.now);
  }

  /** While a config claim is live, from the call that took it or any token write that renewed
      it on, it stays where it is until its holder gives it up, and no other claim on the
      instance, for config, lifecycle or sign-in, succeeds. */
  lemma {:induction false} Exclusion(run: seq<State>, steps: seq<Step>, i: nat, j: nat, id: InstanceId, claim: ClaimId)
    requires IsRun(run, steps) && i < j < |run| && Refreshes(steps[i], id, claim)
    requires forall k :: i < k < j ==> !GivesUp(steps[k], id, claim) && InTime(steps, i, k, id, claim)
    ensures HoldsAll(run[j], steps, i, j, id, claim)
    ensures forall k :: i < k < j && steps[k].ok && TakesClaim(steps[k].call) ==> steps[k].call.id != id
    decreases j
  {
    hide RowsOk, Enabled, GivesUp, Refreshes, InTime, HoldsAll, Next;
    var step := steps[j - 1];
    assert Follows(run[j - 1], step, run[j - 1 + 1]);
    if i < j - 1 {
      Exclusion(run, steps, i, j - 1, id, claim);
      RunOk(run, steps, j - 1);
      HoldsAllOn(run[j - 1], steps, i, j - 1, id, claim);
    } else {
      TakenHolds(run[i], step, id, claim);
      TakenHoldsAll(run[j], steps, i, id, claim);
    }
  }

  /** The row is under the claim at least as long as any of these steps gave it. */
  ghost predicate HoldsAll(s: State, steps: seq<Step>, i: nat, j: nat, id: InstanceId, claim: ClaimId)
    requires j <= |steps|
  {
    forall r :: i <= r < j && Refreshes(steps[r], id, claim) ==> Holds(s, id, claim, steps[r].now + CONFIG_CLAIM_LEASE_MS)
  }

  lemma TakenHoldsAll(s: State, steps: seq<Step>, i: nat, id: InstanceId, claim: ClaimId)
    requires i < |steps| && Holds(s, id, claim, steps[i].now + CONFIG_CLAIM_LEASE_MS)
    ensures HoldsAll(s, steps, i, i + 1, id, claim)
  {
    hide Holds, Refreshes;
  }

  lemma HoldsAllOn(s: State, steps: seq<Step>, i: nat, j: nat, id: InstanceId, claim: ClaimId)
    requires i < j < |steps| && RowsOk(s) && Enabled(s, steps[j]) && HoldsAll(s, steps, i, j, id, claim)
    requires InTime(steps, i, j, id, claim) && !GivesUp(steps[j], id, claim)
    ensures HoldsAll(Next(s, steps[j]), steps, i, j + 1, id, claim)
    ensures steps[j].ok && TakesClaim(steps[j].call) ==> steps[j].call.id != id
  {
    hide RowsOk, Enabled, Holds, GivesUp, Refreshes, Next;
    var step := steps[j];
    var live: nat :| i <= live < j && Refreshes(steps[live], id, claim) && step.now < steps[live].now + CONFIG_CLAIM_LEASE_MS;
    HoldsOn(s, step, id, claim, steps[live].now + CONFIG_CLAIM_LEASE_MS, steps[live].now + CONFIG_CLAIM_LEASE_MS);
    forall r | i <= r < j + 1 && Refreshes(steps[r], id, claim)
      ensures Holds(Next(s, step), id, claim, steps[r].now + CONFIG_CLAIM_LEASE_MS)
    {
      if r == j {
        TakenHolds(s, step, id, claim);
      } else {
        HoldsOn(s, step, id, claim, steps[live].now + CONFIG_CLAIM_LEASE_MS, steps[r].now + CONFIG_CLAIM_LEASE_MS);
      }
    }
  }

  lemma TakenHolds(s: State, step: Step, id: InstanceId, claim: ClaimId)
    requires Enabled(s, step) && Refreshes(step, id, claim)
    ensures Holds(Next(s, step), id, claim, step.now + CONFIG_CLAIM_LEASE_MS)
  {
  }

  // ---- Fencing ----

  /** The instance's latest successful config claimer before step `j`. */
  ghost predicate LatestClaimer(steps: seq<Step>, j: nat, id: InstanceId, claim: ClaimId, i: nat) {
    && i < j <= |steps|
    && steps[i].ok && TakesConfig(steps[i].call) && steps[i].call.id == id && steps[i].call.claim == claim
    && forall k :: i < k < j && steps[k].ok && TakesConfig(steps[k].call) ==> steps[k].call.id != id
  }

  lemma {:induction false} LatestIsLast(run: seq<State>, steps: seq<Step>, j: nat, id: InstanceId)
    requires IsRun(run, steps) && j < |run| && id in run[j].latest
    ensures exists i: nat :: LatestClaimer(steps, j, id, run[j].latest[id], i)
    decreases j
  {
    var step := steps[j - 1];
    assert Follows(run[j - 1], step, run[j - 1 + 1]);
    if step.ok && TakesConfig(step.call) && step.call.id == id {
      assert LatestClaimer(steps, j, id, run[j].latest[id], j - 1);
    } else {
      LatestIsLast(run, steps, j - 1, id);
      var i: nat :| LatestClaimer(steps, j - 1, id, run[j - 1].latest[id], i);
      assert LatestClaimer(steps, j, id, run[j].latest[id], i);
    }
  }

  /** Every finalize, release, token write or delete under claim that succeeds shows the id of
      the instance's latest successful config claimer. */
  lemma FencedByLatest(run: seq<State>, steps: seq<Step>, j: nat)
    requires IsRun(run, steps) && j < |steps| && steps[j].ok && Fenced(steps[j].call)
    ensures exists i: nat :: LatestClaimer(steps, j, steps[j].call.id, steps[j].call.claim, i)
  {
    hide LatestClaimer;
    assert Follows(run[j], steps[j], run[j + 1]);
    RunOk(run, steps, j);
    assert RowOk(steps[j].call.id, run[j].rows[steps[j].call.id], run[j]);
    LatestIsLast(run, steps, j, steps[j].call.id);
  }

  /** Used, and not on the row: the claim is lost. */
  ghost predicate Lost(s: State, id: InstanceId, claim: ClaimId) {
    claim in s.used && !UnderClaim(s.rows, id, claim)
  }

  /** A lost claim stays lost. */
  lemma {:induction false} LostForever(run: seq<State>, steps: seq<Step>, i: nat, j: nat, id: InstanceId, claim: ClaimId)
    requires IsRun(run, steps) && i <= j < |run| && Lost(run[i], id, claim)
    ensures Lost(run[j], id, claim)
    decreases j
  {
    if i < j {
      LostForever(run, steps, i, j - 1, id, claim);
      assert Follows(run[j - 1], steps[j - 1], run[j - 1 + 1]);
    }
  }

  /** A claimer that another claim on its instance overtook, be it for config, a lifecycle or a
      sign-in, can change nothing any more: every call it makes under its claim fails and
      leaves every row as it is. */
  lemma OvertakenChangesNothing(run: seq<State>, steps: seq<Step>, i: nat, j: nat, k: nat)
    requires IsRun(run, steps) && i < j < k < |steps|
    requires steps[i].ok && TakesConfig(steps[i].call) && steps[j].ok && TakesClaim(steps[j].call)
    requires steps[j].call.id == steps[i].call.id
    requires Fenced(steps[k].call) && steps[k].call.id == steps[i].call.id && steps[k].call.claim == steps[i].call.claim
    ensures !steps[k].ok && run[k + 1].rows == run[k].rows
  {
    var id, claim := steps[i].call.id, steps[i].call.claim;
    assert Follows(run[i], steps[i], run[i + 1]);
    assert Follows(run[j], steps[j], run[j + 1]);
    assert Follows(run[k], steps[k], run[k + 1]);
    RunLater(run, steps, i + 1, j);
    assert Lost(run[j + 1], id, claim);
    LostForever(run, steps, j + 1, k, id, claim);
  }

  // ---- Lifecycle against sign-in ----

  /** No row ever holds a live sign-in claim and a config claim taken for a lifecycle. */
  lemma LifecycleExcludesSignIn(run: seq<State>, steps: seq<Step>, i: nat, j: nat, id: InstanceId, later: int)
    requires IsRun(run, steps) && i < j < |run| && id in run[j].rows && run[j].now <= later
    requires steps[i].ok && steps[i].call.ClaimForLifecycle? && steps[i].call.id == id
    requires run[j].rows[id].configId == Some(steps[i].call.claim)
    ensures !AuthClaimIsLive(run[j].rows[id], later)
  {
    assert Follows(run[i], steps[i], run[i + 1]);
    RunLater(run, steps, i + 1, j);
    RunOk(run, steps, j);
    assert RowOk(id, run[j].rows[id], run[j]);
  }

  // ---- The repository ----

  /** The guards of the database's conditional updates, where a comparison with a missing time
      fails; a sign-in is released by its own attempt only. */
  predicate RepositoryAllows(rows: Rows, now: int, call: Call, attempt: ClaimId) {
    match call
    case ClaimForAuth(id, _) => id in rows && AuthFree(rows[id], now) && ConfigFree(rows[id], now)
    case ClaimForConfig(id, _) => id in rows && ConfigFree(rows[id], now)
    case ClaimForLifecycle(id, _) => id in rows && AuthFree(rows[id], now) && ConfigFree(rows[id], now)
    case ReleaseAuthClaim(id) => id in rows && rows[id].authId == Some(attempt)
    case _ => Allowed(rows, now, call)
  }

  predicate ConfigFree(row: Row, now: int) {
    row.configId.None? || (row.configAt.Some? && row.configAt.value < now - CONFIG_CLAIM_LEASE_MS)
  }

  predicate AuthFree(row: Row, now: int) {
    row.authId.None? || (row.authAt.Some? && row.authAt.value < now - AUTH_LEASE_MS)
  }

  /** Whatever the database allows, the in-memory manager allows too, so each of its runs is a
      run above and everything above holds of it. */
  lemma RepositorySteps(s: State, now: int, call: Call, attempt: ClaimId)
    requires s.now <= now && (TakesClaim(call) ==> call.claim !in s.used) && (call.Insert? ==> call.id !in s.latest)
    ensures Enabled(s, Step(now, call, RepositoryAllows(s.rows, now, call, attempt)))
  {
  }

  /** In a reachable state, the two differ on these calls only: a config claim exactly at the
      end of its lease, which only the manager treats as over; a sign-in claimed over a live
      one, or released by another attempt, which only the manager lets happen. */
  lemma RepositoryDiffers(run: seq<State>, steps: seq<Step>, i: nat, now: int, call: Call, attempt: ClaimId)
    requires IsRun(run, steps) && i < |run| && run[i].now <= now
    ensures RepositoryAllows(run[i].rows, now, call, attempt) <==>
      && Allowed(run[i].rows, now, call)
      && (call.ClaimForAuth? || call.ClaimForConfig? || call.ClaimForLifecycle? ==>
            run[i].rows[call.id].configId.None? || run[i].rows[call.id].configAt != Some(now - CONFIG_CLAIM_LEASE_MS))
      && (call.ClaimForAuth? ==> !AuthClaimIsLive(run[i].rows[call.id], now))
      && (call.ReleaseAuthClaim? ==> run[i].rows[call.id].authId == Some(attempt))
  {
    RunOk(run, steps, i);
    assert call.id in run[i].rows ==> RowOk(call.id, run[i].rows[call.id], run[i]);
  }
}
