/** The claims on instance rows: who may work on an instance, for how long, and what a claimer
    whose lease ran out can still do. */
module Claims {
  import opened Options

  type InstanceId = string
  type ClaimId = nat

  const CONFIG_CLAIM_LEASE_MS := 180_000
  const AUTH_LEASE_MS := 15 * 60 * 1000

  datatype Row = Row(
    name: string,
    status: string,
    lastExitCode: Option<int>,
    token: Option<string>,
    authId: Option<ClaimId>,
    authAt: Option<int>,
    configId: Option<ClaimId>,
    configAt: Option<int>)

  datatype Patch = Patch(status: Option<string>, lastExitCode: Option<Option<int>>)

  /** A patch of the columns an update may write: the claims are not among them. */
  datatype Columns = Columns(name: Option<string>, status: Option<string>, lastExitCode: Option<Option<int>>, token: Option<Option<string>>)

  datatype Call =
    | Insert(id: InstanceId, name: string, status: string, claim: ClaimId)
    | Update(id: InstanceId, columns: Columns)
    | Delete(id: InstanceId)
    | ClaimForAuth(id: InstanceId, claim: ClaimId)
    | ReleaseAuthClaim(id: InstanceId)
    | ClaimForConfig(id: InstanceId, claim: ClaimId)
    | ClaimForLifecycle(id: InstanceId, claim: ClaimId)
    | FinalizeConfigClaim(id: InstanceId, claim: ClaimId, patch: Patch)
    | ReleaseConfigClaim(id: InstanceId, claim: ClaimId)
    | WriteTokenUnderClaim(id: InstanceId, claim: ClaimId, token: string)
    | DeleteUnderClaim(id: InstanceId, claim: ClaimId)
    | RecordUnitFailure(id: InstanceId, lastExitCode: Option<int>)

  type Rows = map<InstanceId, Row>

  // ---- Leases ----

  predicate ConfigClaimIsLive(row: Row, now: int) {
    row.configId.Some? && row.configAt.Some? && now - row.configAt.value < CONFIG_CLAIM_LEASE_MS
  }

  predicate IsAuthClaimStale(claimedAt: Option<int>, now: int) {
    claimedAt.None? || now - claimedAt.value > AUTH_LEASE_MS
  }

  predicate AuthClaimIsLive(row: Row, now: int) {
    row.authId.Some? && !IsAuthClaimStale(row.authAt, now)
  }

  predicate UnderClaim(rows: Rows, id: InstanceId, claim: ClaimId) {
    id in rows && rows[id].configId == Some(claim)
  }

  // ---- What a call needs and what it does ----

  predicate Allowed(rows: Rows, now: int, call: Call) {
    match call
    case Insert(_, _, _, _) => true
    case Update(id, _) => id in rows
    case Delete(id) => id in rows
    case ClaimForAuth(id, _) => id in rows && !ConfigClaimIsLive(rows[id], now)
    case ReleaseAuthClaim(id) => id in rows
    case ClaimForConfig(id, _) => id in rows && !ConfigClaimIsLive(rows[id], now)
    case ClaimForLifecycle(id, _) => id in rows && !AuthClaimIsLive(rows[id], now) && !ConfigClaimIsLive(rows[id], now)
    case FinalizeConfigClaim(id, claim, _) => UnderClaim(rows, id, claim)
    case ReleaseConfigClaim(id, claim) => UnderClaim(rows, id, claim)
    case WriteTokenUnderClaim(id, claim, _) => UnderClaim(rows, id, claim)
    case DeleteUnderClaim(id, claim) => UnderClaim(rows, id, claim)
    case RecordUnitFailure(id, _) => id in rows && rows[id].status == "running" && rows[id].configId.None?
  }

  function NewRow(name: string, status: string, claim: ClaimId, now: int): Row {
    Row(name, status, None, None, None, None, Some(claim), Some(now))
  }

  function Unclaimed(row: Row): Row {
    row.(configId := None, configAt := None)
  }

  function Patched(row: Row, patch: Patch): Row {
    row.(status := Or(patch.status, row.status), lastExitCode := Or(patch.lastExitCode, row.lastExitCode))
  }

  function Or<T>(patch: Option<T>, current: T): T {
    if patch.Some? then patch.value else current
  }

  function Updated(row: Row, columns: Columns): (r: Row)
    ensures r.authId == row.authId && r.authAt == row.authAt && r.configId == row.configId && r.configAt == row.configAt
  {
    row.(name := Or(columns.name, row.name), status := Or(columns.status, row.status),
         lastExitCode := Or(columns.lastExitCode, row.lastExitCode), token := Or(columns.token, row.token))
  }

  function Done(rows: Rows, now: int, call: Call): Rows
    requires Allowed(rows, now, call)
  {
    match call
    case Insert(id, name, status, claim) => rows[id := NewRow(name, status, claim, now)]
    case Update(id, columns) => rows[id := Updated(rows[id], columns)]
    case Delete(id) => rows - {id}
    case ClaimForAuth(id, claim) => rows[id := Unclaimed(rows[id]).(authId := Some(claim), authAt := Some(now))]
    case ReleaseAuthClaim(id) => rows[id := rows[id].(authId := None, authAt := None)]
    case ClaimForConfig(id, claim) => rows[id := rows[id].(configId := Some(claim), configAt := Some(now))]
    case ClaimForLifecycle(id, claim) => rows[id := rows[id].(configId := Some(claim), configAt := Some(now))]
    case FinalizeConfigClaim(id, _, patch) => rows[id := Unclaimed(Patched(rows[id], patch))]
    case ReleaseConfigClaim(id, _) => rows[id := Unclaimed(rows[id])]
    case WriteTokenUnderClaim(id, _, token) => rows[id := rows[id].(token := Some(token), configAt := Some(now))]
    case DeleteUnderClaim(id, _) => rows - {id}
    case RecordUnitFailure(id, lastExitCode) => rows[id := rows[id].(status := "error", lastExitCode := lastExitCode)]
  }

  // ---- The manager ----

  datatype ConfigRow = ConfigRow(instance: InstanceId, version: nat, document: string)

  function VersionsOf(configs: seq<ConfigRow>, id: InstanceId): seq<ConfigRow> {
    if configs == [] then []
    else
      var front, last := configs[..|configs| - 1], configs[|configs| - 1];
      VersionsOf(front, id) + if last.instance == id then [last] else []
  }

  /** The call took effect exactly if it was allowed, and changed nothing otherwise. */
  ghost predicate Answers(before: Rows, now: int, call: Call, ok: bool, after: Rows) {
    ok == Allowed(before, now, call) && after == if ok then Done(before, now, call) else before
  }

  class MemoryManager {
    var rows: Rows
    var configs: seq<ConfigRow>

    constructor ()
      ensures rows == map[] && configs == []
    {
      rows := map[];
      configs := [];
    }

    method TakeConfigClaim(id: InstanceId, claim: ClaimId, now: int) returns (taken: Option<Row>)
      modifies this`rows
      ensures Answers(old(rows), now, ClaimForConfig(id, claim), taken.Some?, rows)
      ensures taken.Some? ==> taken.value == rows[id]
    {
      if id !in rows { return None; }
      var current := rows[id];
      if ConfigClaimIsLive(current, now) { return None; }
      var next := current.(configId := Some(claim), configAt := Some(now));
      rows := rows[id := next];
      taken := Some(next);
    }

    method RowUnderClaim(id: InstanceId, claim: ClaimId) returns (row: Option<Row>)
      ensures row.Some? <==> UnderClaim(rows, id, claim)
      ensures row.Some? ==> row.value == rows[id]
    {
      if id in rows && rows[id].configId == Some(claim) { return Some(rows[id]); }
      row := None;
    }

    method Insert(id: InstanceId, name: string, status: string, claim: ClaimId, now: int) returns (row: Row)
      modifies this`rows
      ensures Answers(old(rows), now, Call.Insert(id, name, status, claim), true, rows) && row == rows[id]
    {
      row := Row(name, status, None, None, None, None, Some(claim), Some(now));
      rows := rows[id := row];
    }

    method Update(id: InstanceId, columns: Columns, now: int) returns (next: Option<Row>)
      modifies this`rows
      ensures Answers(old(rows), now, Call.Update(id, columns), next.Some?, rows)
      ensures next.Some? ==> next.value == rows[id]
    {
      if id !in rows { return None; }
      var row := rows[id];
      if columns.name.Some? { row := row.(name := columns.name.value); }
      if columns.status.Some? { row := row.(status := columns.status.value); }
      if columns.lastExitCode.Some? { row := row.(lastExitCode := columns.lastExitCode.value); }
      if columns.token.Some? { row := row.(token := columns.token.value); }
      rows := rows[id := row];
      next := Some(row);
    }

    method Delete(id: InstanceId, now: int) returns (ok: bool)
      modifies this`rows
      ensures Answers(old(rows), now, Call.Delete(id), ok, rows)
    {
      ok := id in rows;
      rows := rows - {id};
    }

    method ClaimForAuth(id: InstanceId, attempt: ClaimId, now: int) returns (taken: Option<Row>)
      modifies this`rows
      ensures Answers(old(rows), now, Call.ClaimForAuth(id, attempt), taken.Some?, rows)
      ensures taken.Some? ==> taken.value == rows[id]
    {
      if id !in rows { return None; }
      var current := rows[id];
      if ConfigClaimIsLive(current, now) { return None; }
      var next := current.(authId := Some(attempt), authAt := Some(now), configId := None, configAt := None);
      rows := rows[id := next];
      taken := Some(next);
    }

    method ReleaseAuthClaim(id: InstanceId, now: int) returns (ok: bool)
      modifies this`rows
      ensures Answers(old(rows), now, Call.ReleaseAuthClaim(id), ok, rows)
    {
      if id !in rows { return false; }
      rows := rows[id := rows[id].(authId := None, authAt := None)];
      ok := true;
    }

    method ClaimForLifecycle(id: InstanceId, claim: ClaimId, now: int) returns (taken: Option<Row>)
      modifies this`rows
      ensures Answers(old(rows), now, Call.ClaimForLifecycle(id, claim), taken.Some?, rows)
      ensures taken.Some? ==> taken.value == rows[id]
    {
      if id !in rows { return None; }
      var current := rows[id];
      if current.authId.Some? && !IsAuthClaimStale(current.authAt, now) { return None; }
      taken := TakeConfigClaim(id, claim, now);
    }

    method FinalizeConfigClaim(id: InstanceId, claim: ClaimId, patch: Patch, now: int) returns (next: Option<Row>)
      modifies this`rows
      ensures Answers(old(rows), now, Call.FinalizeConfigClaim(id, claim, patch), next.Some?, rows)
      ensures next.Some? ==> next.value == rows[id]
    {
      var current := RowUnderClaim(id, claim);
      if current.None? { return None; }
      var row := current.value;
      if patch.status.Some? { row := row.(status := patch.status.value); }
      if patch.lastExitCode.Some? { row := row.(lastExitCode := patch.lastExitCode.value); }
      row := row.(configId := None, configAt := None);
      rows := rows[id := row];
      next := Some(row);
    }

    method RecordUnitFailure(id: InstanceId, lastExitCode: Option<int>, now: int) returns (ok: bool)
      modifies this`rows
      ensures Answers(old(rows), now, Call.RecordUnitFailure(id, lastExitCode), ok, rows)
    {
      if id !in rows || rows[id].status != "running" { return false; }
      if rows[id].configId.Some? { return false; }
      rows := rows[id := rows[id].(status := "error", lastExitCode := lastExitCode)];
      ok := true;
    }

    method ReleaseConfigClaim(id: InstanceId, claim: ClaimId, now: int) returns (ok: bool)
      modifies this`rows
      ensures Answers(old(rows), now, Call.ReleaseConfigClaim(id, claim), ok, rows)
    {
      var current := RowUnderClaim(id, claim);
      if current.None? { return false; }
      rows := rows[id := current.value.(configId := None, configAt := None)];
      ok := true;
    }

    method WriteTokenUnderClaim(id: InstanceId, claim: ClaimId, token: string, now: int) returns (ok: bool)
      modifies this`rows
      ensures Answers(old(rows), now, Call.WriteTokenUnderClaim(id, claim, token), ok, rows)
    {
      var current := RowUnderClaim(id, claim);
      if current.None? { return false; }
      rows := rows[id := current.value.(token := Some(token), configAt := Some(now))];
      ok := true;
    }

    method DeleteUnderClaim(id: InstanceId, claim: ClaimId, now: int) returns (ok: bool)
      modifies this`rows
      ensures Answers(old(rows), now, Call.DeleteUnderClaim(id, claim), ok, rows)
    {
      var current := RowUnderClaim(id, claim);
      ok := current.Some?;
      if ok { rows := rows - {id}; }
    }

    /** The new version is one more than the versions there are; the log only grows. */
    method InsertConfigVersion(id: InstanceId, document: string) returns (row: ConfigRow)
      modifies this`configs
      ensures row == ConfigRow(id, CountOf(old(configs), id) + 1, document) && configs == old(configs) + [row]
      ensures Numbered(old(configs)) ==> Numbered(configs)
    {
      VersionsCounted(configs, id);
      if Numbered(configs) { NumberedGrows(configs, id, document); }
      row := ConfigRow(id, |VersionsOf(configs, id)| + 1, document);
      configs := configs + [row];
    }

    /** The instance's row that was inserted last; in a numbered log also the one with the
        highest number, which is how many versions the instance has. */
    method LatestConfig(id: InstanceId) returns (latest: Option<ConfigRow>)
      ensures latest.None? <==> forall i :: 0 <= i < |configs| ==> configs[i].instance != id
      ensures latest.Some? ==> exists i :: 0 <= i < |configs| && IsLastOf(configs, id, i) && configs[i] == latest.value
      ensures latest.Some? && Numbered(configs) ==>
        && latest.value.version == CountOf(configs, id)
        && forall i :: 0 <= i < |configs| && configs[i].instance == id ==> configs[i].version <= latest.value.version
    {
      var mine := VersionsOf(configs, id);
      latest := if mine == [] then None else Some(mine[|mine| - 1]);
      LastVersionIs(configs, id);
      VersionsCounted(configs, id);
      if Numbered(configs) { LatestIsHighest(configs, id); }
    }
  }

  /** The last row of the log that is this instance's. */
  ghost predicate IsLastOf(configs: seq<ConfigRow>, id: InstanceId, i: int)
    requires 0 <= i < |configs|
  {
    configs[i].instance == id && forall j :: i < j < |configs| ==> configs[j].instance != id
  }

  /** How many rows of the log are this instance's. */
  function CountOf(configs: seq<ConfigRow>, id: InstanceId): nat {
    if configs == [] then 0 else (if configs[0].instance == id then 1 else 0) + CountOf(configs[1..], id)
  }

  lemma {:induction false} CountMore(configs: seq<ConfigRow>, row: ConfigRow, id: InstanceId)
    ensures CountOf(configs + [row], id) == CountOf(configs, id) + if row.instance == id then 1 else 0
  {
    if configs == [] {
      assert [row][1..] == [];
    } else {
      CountMore(configs[1..], row, id);
      assert (configs + [row])[1..] == configs[1..] + [row];
    }
  }

  lemma {:induction false} VersionsCounted(configs: seq<ConfigRow>, id: InstanceId)
    ensures |VersionsOf(configs, id)| == CountOf(configs, id)
  {
    if configs != [] {
      var n := |configs| - 1;
      VersionsCounted(configs[..n], id);
      CountMore(configs[..n], configs[n], id);
      assert configs[..n] + [configs[n]] == configs;
    }
  }

  lemma {:induction false} LastVersionIs(configs: seq<ConfigRow>, id: InstanceId)
    ensures LastVersion(configs, id).None? <==> forall i :: 0 <= i < |configs| ==> configs[i].instance != id
    ensures LastVersion(configs, id).Some? ==>
      exists i :: 0 <= i < |configs| && IsLastOf(configs, id, i) && configs[i] == LastVersion(configs, id).value
  {
    if configs != [] {
      var n := |configs| - 1;
      if configs[n].instance == id {
        assert IsLastOf(configs, id, n);
      } else {
        LastVersionIs(configs[..n], id);
        assert VersionsOf(configs, id) == VersionsOf(configs[..n], id);
        if LastVersion(configs, id).Some? {
          var i :| 0 <= i < n && IsLastOf(configs[..n], id, i) && configs[i] == LastVersion(configs, id).value;
          assert IsLastOf(configs, id, i);
        }
      }
    }
  }

  // ---- The version log ----

  function LastVersion(configs: seq<ConfigRow>, id: InstanceId): Option<ConfigRow> {
    var mine := VersionsOf(configs, id);
    if mine == [] then None else Some(mine[|mine| - 1])
  }

  /** A log built by `InsertConfigVersion` alone. */
  ghost predicate Numbered(configs: seq<ConfigRow>) {
    forall i :: 0 <= i < |configs| ==> configs[i].version == |VersionsOf(configs[..i], configs[i].instance)| + 1
  }

  /** Each instance's versions are 1, 2, ... in the order they were inserted. */
  lemma {:induction false} VersionsCount(configs: seq<ConfigRow>, id: InstanceId)
    requires Numbered(configs)
    ensures forall k :: 0 <= k < |VersionsOf(configs, id)| ==>
      VersionsOf(configs, id)[k].version == k + 1 && VersionsOf(configs, id)[k].instance == id
  {
    if configs != [] {
      var n := |configs| - 1;
      assert configs[n].version == |VersionsOf(configs[..n], configs[n].instance)| + 1;
      NumberedFront(configs);
      VersionsCount(configs[..n], id);
      var before := VersionsOf(configs[..n], id);
      var mine := VersionsOf(configs, id);
      assert mine == before + if configs[n].instance == id then [configs[n]] else [];
      forall k | 0 <= k < |mine| ensures mine[k].version == k + 1 && mine[k].instance == id {
        if k < |before| {
          assert mine[k] == before[k];
        } else {
          assert configs[n].instance == id && mine[k] == configs[n];
        }
      }
    }
  }

  lemma NumberedFront(configs: seq<ConfigRow>)
    requires Numbered(configs) && configs != []
    ensures Numbered(configs[..|configs| - 1])
  {
    hide VersionsOf;
    var front := configs[..|configs| - 1];
    forall i | 0 <= i < |front| ensures front[i].version == |VersionsOf(front[..i], front[i].instance)| + 1 {
      assert front[..i] == configs[..i];
    }
  }

  lemma {:induction false} VersionKnown(configs: seq<ConfigRow>, i: nat)
    requires i < |configs|
    ensures configs[i] in VersionsOf(configs, configs[i].instance)
  {
    if i < |configs| - 1 { VersionKnown(configs[..|configs| - 1], i); }
  }

  /** The latest version is the one with the highest number: choosing by position and choosing
      by number come to the same, and so does the number the next one gets. */
  lemma LatestIsHighest(configs: seq<ConfigRow>, id: InstanceId)
    requires Numbered(configs)
    ensures LastVersion(configs, id).None? <==> forall i :: 0 <= i < |configs| ==> configs[i].instance != id
    ensures LastVersion(configs, id).Some? ==>
      && LastVersion(configs, id).value in configs
      && LastVersion(configs, id).value.version == |VersionsOf(configs, id)|
      && forall i :: 0 <= i < |configs| && configs[i].instance == id ==> configs[i].version <= LastVersion(configs, id).value.version
    ensures (if LastVersion(configs, id).Some? then LastVersion(configs, id).value.version else 0) + 1 == |VersionsOf(configs, id)| + 1
  {
    hide VersionsOf;
    VersionsCount(configs, id);
    forall i | 0 <= i < |configs| && configs[i].instance == id ensures configs[i] in VersionsOf(configs, id) {
      VersionKnown(configs, i);
    }
    VersionsIn(configs, id);
  }

  lemma {:induction false} VersionsIn(configs: seq<ConfigRow>, id: InstanceId)
    ensures forall k :: 0 <= k < |VersionsOf(configs, id)| ==> VersionsOf(configs, id)[k] in configs
    ensures forall k :: 0 <= k < |VersionsOf(configs, id)| ==> VersionsOf(configs, id)[k].instance == id
  {
    if configs != [] { VersionsIn(configs[..|configs| - 1], id); }
  }

  lemma NumberedGrows(configs: seq<ConfigRow>, id: InstanceId, document: string)
    requires Numbered(configs)
    ensures Numbered(configs + [ConfigRow(id, |VersionsOf(configs, id)| + 1, document)])
  {
    hide VersionsOf;
    var more := configs + [ConfigRow(id, |VersionsOf(configs, id)| + 1, document)];
    forall i | 0 <= i < |more| ensures more[i].version == |VersionsOf(more[..i], more[i].instance)| + 1 {
      if i < |configs| { assert more[..i] == configs[..i]; } else { assert more[..i] == configs; }
    }
  }
}
