/** What is in the instance rows after any run of calls, told from the calls alone: which rows
    there are, what each column holds, and which claims are held. */
module ClaimColumns {
  import opened Options
  import opened Claims
  import opened ClaimRuns

  datatype Column = Name | Status | ExitCode | Token | SignIn | Config

  datatype Cell = Word(word: string) | Code(code: Option<int>) | Secret(token: Option<string>) | Claim(id: Option<ClaimId>, at: Option<int>)

  function CellOf(row: Row, column: Column): Cell {
    match column
    case Name => Word(row.name)
    case Status => Word(row.status)
    case ExitCode => Code(row.lastExitCode)
    case Token => Secret(row.token)
    case SignIn => Claim(row.authId, row.authAt)
    case Config => Claim(row.configId, row.configAt)
  }

  /** Which calls write a column, and what. */
  function Written(call: Call, now: int, column: Column): Option<Cell> {
    match column
    case Name =>
      if call.Insert? then Some(Word(call.name))
      else if call.Update? && call.columns.name.Some? then Some(Word(call.columns.name.value))
      else None
    case Status =>
      if call.Insert? then Some(Word(call.status))
      else if call.Update? && call.columns.status.Some? then Some(Word(call.columns.status.value))
      else if call.FinalizeConfigClaim? && call.patch.status.Some? then Some(Word(call.patch.status.value))
      else if call.RecordUnitFailure? then Some(Word("error"))
      else None
    case ExitCode =>
      if call.Insert? then Some(Code(None))
      else if call.Update? && call.columns.lastExitCode.Some? then Some(Code(call.columns.lastExitCode.value))
      else if call.FinalizeConfigClaim? && call.patch.lastExitCode.Some? then Some(Code(call.patch.lastExitCode.value))
      else if call.RecordUnitFailure? then Some(Code(call.lastExitCode))
      else None
    case Token =>
      if call.Insert? then Some(Secret(None))
      else if call.Update? && call.columns.token.Some? then Some(Secret(call.columns.token.value))
      else if call.WriteTokenUnderClaim? then Some(Secret(Some(call.token)))
      else None
    case SignIn =>
      if call.Insert? || call.ReleaseAuthClaim? then Some(Claim(None, None))
      else if call.ClaimForAuth? then Some(Claim(Some(call.claim), Some(now)))
      else None
    case Config =>
      if call.Insert? || call.ClaimForConfig? || call.ClaimForLifecycle? || call.WriteTokenUnderClaim?
      then Some(Claim(Some(call.claim), Some(now)))
      else if call.ClaimForAuth? || call.FinalizeConfigClaim? || call.ReleaseConfigClaim? then Some(Claim(None, None))
      else None
  }

  predicate Removes(call: Call) {
    call.Delete? || call.DeleteUnderClaim?
  }

  /** The step took effect on this instance. */
  predicate Took(step: Step, id: InstanceId) {
    step.ok && step.call.id == id
  }

  predicate Writes(step: Step, id: InstanceId, column: Column) {
    Took(step, id) && Written(step.call, step.now, column).Some?
  }

  // ---- Which rows there are ----

  ghost predicate InsertedAt(steps: seq<Step>, j: nat, id: InstanceId, i: nat) {
    && i < j <= |steps| && Took(steps[i], id) && steps[i].call.Insert?
    && forall k :: i < k < j && Took(steps[k], id) ==> !Removes(steps[k].call)
  }

  /** There is a row exactly if it was inserted and not removed since. */
  lemma {:induction false} RowsExactly(run: seq<State>, steps: seq<Step>, j: nat, id: InstanceId)
    requires IsRun(run, steps) && j < |run|
    ensures id in run[j].rows <==> exists i: nat :: InsertedAt(steps, j, id, i)
    decreases j
  {
    if j > 0 {
      var step := steps[j - 1];
      assert Follows(run[j - 1], step, run[j - 1 + 1]);
      RowsExactly(run, steps, j - 1, id);
      if Took(step, id) && step.call.Insert? {
        assert InsertedAt(steps, j, id, j - 1);
      } else if Took(step, id) && Removes(step.call) {
        forall i: nat ensures !InsertedAt(steps, j, id, i) {}
      } else if id in run[j - 1].rows {
        var i: nat :| InsertedAt(steps, j - 1, id, i);
        assert InsertedAt(steps, j, id, i);
      } else {
        forall i: nat ensures !InsertedAt(steps, j, id, i) {
          if InsertedAt(steps, j, id, i) { assert InsertedAt(steps, j - 1, id, i); }
        }
      }
    }
  }

  /** An update, a delete or the release of a sign-in takes effect exactly if there is a row. */
  lemma PresentExactly(run: seq<State>, steps: seq<Step>, j: nat, now: int, call: Call)
    requires IsRun(run, steps) && j < |run| && (call.Update? || call.Delete? || call.ReleaseAuthClaim?)
    ensures Allowed(run[j].rows, now, call) <==> exists i: nat :: InsertedAt(steps, j, call.id, i)
  {
    hide IsRun, InsertedAt;
    RowsExactly(run, steps, j, call.id);
  }

  // ---- What their columns hold ----

  ghost predicate LastWrite(steps: seq<Step>, j: nat, id: InstanceId, column: Column, i: nat) {
    && i < j <= |steps| && Writes(steps[i], id, column)
    && forall k :: i < k < j ==> !Writes(steps[k], id, column)
  }

  lemma StepWrites(s: State, step: Step, column: Column)
    requires Enabled(s, step)
    ensures forall id :: id in Next(s, step).rows && Writes(step, id, column) ==>
      Some(CellOf(Next(s, step).rows[id], column)) == Written(step.call, step.now, column)
    ensures forall id :: id in Next(s, step).rows && !Writes(step, id, column) ==>
      id in s.rows && CellOf(Next(s, step).rows[id], column) == CellOf(s.rows[id], column)
  {
  }

  /** Every column of every row holds what the last call that writes it wrote there; no other
      call, and no call on another instance, ever touches it. */
  lemma {:induction false} ColumnsExactly(run: seq<State>, steps: seq<Step>, j: nat, id: InstanceId, column: Column)
    requires IsRun(run, steps) && j < |run| && id in run[j].rows
    ensures exists i: nat :: LastWrite(steps, j, id, column, i)
    ensures forall i: nat :: LastWrite(steps, j, id, column, i) ==>
      Some(CellOf(run[j].rows[id], column)) == Written(steps[i].call, steps[i].now, column)
    decreases j
  {
    hide Written, CellOf, Next, Enabled;
    var step := steps[j - 1];
    assert Follows(run[j - 1], step, run[j - 1 + 1]);
    StepWrites(run[j - 1], step, column);
    if Writes(step, id, column) {
      assert LastWrite(steps, j, id, column, j - 1);
    } else {
      ColumnsExactly(run, steps, j - 1, id, column);
      var i: nat :| LastWrite(steps, j - 1, id, column, i);
      assert LastWrite(steps, j, id, column, i);
      forall k: nat | LastWrite(steps, j, id, column, k)
        ensures Some(CellOf(run[j].rows[id], column)) == Written(steps[k].call, steps[k].now, column)
      {
        assert LastWrite(steps, j - 1, id, column, k);
      }
    }
  }

  // ---- Whose claim it is ----

  /** The call ends whatever config claim is on its instance. */
  predicate EndsClaim(call: Call) {
    Removes(call) || call.ClaimForAuth? || call.FinalizeConfigClaim? || call.ReleaseConfigClaim?
  }

  ghost predicate HeldSince(steps: seq<Step>, j: nat, id: InstanceId, claim: ClaimId, i: nat) {
    && i < j <= |steps| && Took(steps[i], id) && TakesConfig(steps[i].call) && steps[i].call.claim == claim
    && forall k :: i < k < j && Took(steps[k], id) ==> !TakesConfig(steps[k].call) && !EndsClaim(steps[k].call)
  }

  ghost predicate Held(steps: seq<Step>, j: nat, id: InstanceId, claim: ClaimId) {
    exists i: nat :: HeldSince(steps, j, id, claim, i)
  }

  /** A claim is on its row exactly if it was taken and since then no other was taken there, no
      sign-in claimed the row, and it was not finalized, released or removed. */
  lemma {:induction false} HeldExactly(run: seq<State>, steps: seq<Step>, j: nat, id: InstanceId, claim: ClaimId)
    requires IsRun(run, steps) && j < |run|
    ensures (id in run[j].rows && run[j].rows[id].configId == Some(claim)) <==> Held(steps, j, id, claim)
    decreases j
  {
    if j > 0 {
      var step := steps[j - 1];
      assert Follows(run[j - 1], step, run[j - 1 + 1]);
      HeldExactly(run, steps, j - 1, id, claim);
      if Took(step, id) && TakesConfig(step.call) {
        HeldFromNow(steps, j, id, claim);
      } else if Took(step, id) && EndsClaim(step.call) {
      } else {
        HeldOn(steps, j, id, claim);
        HeldStep(run[j - 1], step, id, claim);
      }
    }
  }

  lemma HeldFromNow(steps: seq<Step>, j: nat, id: InstanceId, claim: ClaimId)
    requires 0 < j <= |steps| && Took(steps[j - 1], id) && TakesConfig(steps[j - 1].call)
    ensures Held(steps, j, id, claim) <==> steps[j - 1].call.claim == claim
  {
    if steps[j - 1].call.claim == claim { assert HeldSince(steps, j, id, claim, j - 1); }
  }

  lemma HeldOn(steps: seq<Step>, j: nat, id: InstanceId, claim: ClaimId)
    requires 0 < j <= |steps|
    requires Took(steps[j - 1], id) ==> !TakesConfig(steps[j - 1].call) && !EndsClaim(steps[j - 1].call)
    ensures Held(steps, j, id, claim) <==> Held(steps, j - 1, id, claim)
  {
    if Held(steps, j - 1, id, claim) {
      var i: nat :| HeldSince(steps, j - 1, id, claim, i);
      assert HeldSince(steps, j, id, claim, i);
    }
    if Held(steps, j, id, claim) {
      var i: nat :| HeldSince(steps, j, id, claim, i);
      assert HeldSince(steps, j - 1, id, claim, i);
    }
  }

  lemma HeldStep(s: State, step: Step, id: InstanceId, claim: ClaimId)
    requires Enabled(s, step) && (Took(step, id) ==> !TakesConfig(step.call) && !EndsClaim(step.call))
    ensures UnderClaim(Next(s, step).rows, id, claim) <==> UnderClaim(s.rows, id, claim)
  {
  }

  /** A call that shows a claim is allowed exactly to the claim's holder. */
  lemma FencedExactly(run: seq<State>, steps: seq<Step>, j: nat, now: int, call: Call)
    requires IsRun(run, steps) && j < |run| && Fenced(call)
    ensures Allowed(run[j].rows, now, call) <==> Held(steps, j, call.id, call.claim)
  {
    hide IsRun, Held;
    HeldExactly(run, steps, j, call.id, call.claim);
  }

  // ---- After the end of a claim ----

  ghost predicate NoneTakes(steps: seq<Step>, i: nat, j: nat, id: InstanceId)
    requires j <= |steps|
  {
    forall k :: i < k < j && Took(steps[k], id) ==> !TakesConfig(steps[k].call) && !Removes(steps[k].call)
  }

  predicate IsFree(rows: Rows, id: InstanceId) {
    id in rows && rows[id].configId == None && rows[id].configAt == None
  }

  /** After a successful finalize, release or delete under claim the claim is lost for good. After
      a finalize or release there is no config claim on the row, and one can be taken at any time,
      until another is. */
  lemma {:induction false} EndedIsFree(run: seq<State>, steps: seq<Step>, i: nat, j: nat, claim: ClaimId, now: int)
    requires IsRun(run, steps) && i < j < |run| && steps[i].ok && Fenced(steps[i].call) && !steps[i].call.WriteTokenUnderClaim?
    ensures Lost(run[j], steps[i].call.id, steps[i].call.claim)
    ensures !steps[i].call.DeleteUnderClaim? && NoneTakes(steps, i, j, steps[i].call.id) ==>
      IsFree(run[j].rows, steps[i].call.id) && Allowed(run[j].rows, now, ClaimForConfig(steps[i].call.id, claim))
    decreases j
  {
    var id := steps[i].call.id;
    assert Follows(run[j - 1], steps[j - 1], run[j - 1 + 1]);
    if i < j - 1 {
      EndedIsFree(run, steps, i, j - 1, claim, now);
      LostForever(run, steps, j - 1, j, id, steps[i].call.claim);
    } else {
      EndedNow(run, steps, i);
    }
  }

  lemma EndedNow(run: seq<State>, steps: seq<Step>, i: nat)
    requires IsRun(run, steps) && i < |steps| && steps[i].ok && Fenced(steps[i].call) && !steps[i].call.WriteTokenUnderClaim?
    ensures Lost(run[i + 1], steps[i].call.id, steps[i].call.claim)
  {
    assert Follows(run[i], steps[i], run[i + 1]);
    RunOk(run, steps, i);
    assert RowOk(steps[i].call.id, run[i].rows[steps[i].call.id], run[i]);
  }

  /** A config claim nobody ended, renewed or overtook keeps every other one out for exactly three
      minutes from when it was taken or last renewed. */
  lemma LapsesExactly(run: seq<State>, steps: seq<Step>, i: nat, j: nat, id: InstanceId, claim: ClaimId, other: ClaimId, now: int)
    requires IsRun(run, steps) && i < j < |run| && Refreshes(steps[i], id, claim)
    requires forall k :: i < k < j && Took(steps[k], id) ==>
      !TakesConfig(steps[k].call) && !EndsClaim(steps[k].call) && !steps[k].call.WriteTokenUnderClaim?
    ensures Allowed(run[j].rows, now, ClaimForConfig(id, other)) <==> now >= steps[i].now + 180_000
    ensures Allowed(run[j].rows, now, ClaimForAuth(id, other)) <==> now >= steps[i].now + 180_000
    ensures Allowed(run[j].rows, now, ClaimForLifecycle(id, other)) ==> now >= steps[i].now + 180_000
  {
    hide Allowed, Next, Enabled;
    PresentOn(run, steps, i, j, id);
    ColumnsExactly(run, steps, j, id, Config);
    assert LastWrite(steps, j, id, Config, i);
    ClaimAllowed(run[j].rows, now, id, claim, steps[i].now, other);
  }

  lemma ClaimAllowed(rows: Rows, now: int, id: InstanceId, claim: ClaimId, at: int, other: ClaimId)
    requires id in rows && rows[id].configId == Some(claim) && rows[id].configAt == Some(at)
    ensures Allowed(rows, now, ClaimForConfig(id, other)) <==> now >= at + 180_000
    ensures Allowed(rows, now, ClaimForAuth(id, other)) <==> now >= at + 180_000
    ensures Allowed(rows, now, ClaimForLifecycle(id, other)) ==> now >= at + 180_000
  {
  }

  lemma {:induction false} PresentOn(run: seq<State>, steps: seq<Step>, i: nat, j: nat, id: InstanceId)
    requires IsRun(run, steps) && i < j < |run| && Took(steps[i], id) && !Removes(steps[i].call)
    requires forall k :: i < k < j && Took(steps[k], id) ==> !Removes(steps[k].call)
    ensures id in run[j].rows
    decreases j
  {
    assert Follows(run[j - 1], steps[j - 1], run[j - 1 + 1]);
    if i < j - 1 { PresentOn(run, steps, i, j - 1, id); }
  }

  /** A sign-in that nobody released or replaced keeps a lifecycle out for fifteen minutes, and
      then no longer, as long as no config claim is live. */
  lemma SignInLapsesExactly(run: seq<State>, steps: seq<Step>, i: nat, j: nat, id: InstanceId, other: ClaimId, now: int)
    requires IsRun(run, steps) && i < j < |run| && Took(steps[i], id) && steps[i].call.ClaimForAuth?
    requires forall k :: i < k < j && Took(steps[k], id) ==>
      !Removes(steps[k].call) && !steps[k].call.ClaimForAuth? && !steps[k].call.ReleaseAuthClaim? && !TakesConfig(steps[k].call)
    ensures Allowed(run[j].rows, now, ClaimForLifecycle(id, other)) <==> now > steps[i].now + 900_000
  {
    hide Allowed, Next, Enabled;
    PresentOn(run, steps, i, j, id);
    ColumnsExactly(run, steps, j, id, SignIn);
    assert LastWrite(steps, j, id, SignIn, i);
    SignedInFree(run, steps, i, j, id);
    LifecycleAllowed(run[j].rows, now, id, steps[i].call.claim, steps[i].now, other);
  }

  lemma {:induction false} SignedInFree(run: seq<State>, steps: seq<Step>, i: nat, j: nat, id: InstanceId)
    requires IsRun(run, steps) && i < j < |run| && Took(steps[i], id) && steps[i].call.ClaimForAuth?
    requires forall k :: i < k < j && Took(steps[k], id) ==> !Removes(steps[k].call) && !TakesConfig(steps[k].call)
    ensures id in run[j].rows && run[j].rows[id].configId == None
    decreases j
  {
    assert Follows(run[j - 1], steps[j - 1], run[j - 1 + 1]);
    if i < j - 1 { SignedInFree(run, steps, i, j - 1, id); }
  }

  lemma LifecycleAllowed(rows: Rows, now: int, id: InstanceId, claim: ClaimId, at: int, other: ClaimId)
    requires id in rows && rows[id].authId == Some(claim) && rows[id].authAt == Some(at) && rows[id].configId == None
    ensures Allowed(rows, now, ClaimForLifecycle(id, other)) <==> now > at + 900_000
  {
  }

  /** A unit's failure can be recorded exactly on a row that was last written to be running and
      that nobody holds a config claim on. */
  lemma FailureExactly(run: seq<State>, steps: seq<Step>, j: nat, id: InstanceId, now: int, lastExitCode: Option<int>)
    requires IsRun(run, steps) && j < |run|
    ensures Allowed(run[j].rows, now, RecordUnitFailure(id, lastExitCode)) <==>
      && id in run[j].rows
      && (exists i: nat :: LastWrite(steps, j, id, Status, i)
            && Written(steps[i].call, steps[i].now, Status) == Some(Word("running")))
      && (forall claim: ClaimId :: !Held(steps, j, id, claim))
  {
    hide IsRun, Held, LastWrite, Written;
    if id in run[j].rows {
      ColumnsExactly(run, steps, j, id, Status);
      forall claim: ClaimId ensures run[j].rows[id].configId == Some(claim) <==> Held(steps, j, id, claim) {
        HeldExactly(run, steps, j, id, claim);
      }
    }
  }
}
