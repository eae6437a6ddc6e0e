/** A run in which a connection reaches its hard age under a lease whose deadline is to come. */
module ReadPoolCut {
  import opened Options
  import opened Channels
  import opened ReadPool
  import opened ReadPoolInvariant
  import opened ReadPoolOpenProofs
  import opened ReadPoolRuns
  import opened ReadPoolLeases
  import opened ReadPoolOrphan

  /** The first call resumes half a second before the hard age of the connection it waited for. */
  const LATE := S3.(now := 119_500)
  const TAKEN := LATE.(
    conn := map[1 := CONNECTION.(leases := {5})],
    lease := map[5 := Lease(1, false, false, Some(120_500), 119_500, 1000, false)],
    calls := map[0 := FIRST_CALL.(status := Given(5))],
    leaseCount := 1,
    ch := Channels(map[], ONE_CHANNEL.limiters, ONE_CHANNEL.connOps, map[5 := {}]))
  const AGED := TAKEN.(now := 120_000)

  const CUTTING: seq<State> := [START, S1, S2, S3, LATE, TAKEN, AGED]
  const CUT_BY: seq<Event> := ORPHANED_BY[..3] + [Tick(119_500), CallResumes(0, 5), Tick(500)]

  /** The hard age can close the connection of a lease that is running and not yet due. */
  lemma HardAgeCanCut()
    ensures IsRun(CFG, CUTTING, CUT_BY)
    ensures Running(AGED, 5) && AGED.lease[5].conn == 1 && !Enabled(AGED, DeadlineFires(5))
    ensures Enabled(AGED, HardAgeFires(1)) && !AGED.conn[1].closed
  {
    hide Follows;
    FirstCall();
    FirstReady();
    FirstInstalled();
    TimePasses();
    FirstTakes();
    HardAgeComes();
  }

  lemma TimePasses()
    ensures Follows(CFG, S3, Tick(119_500), LATE)
  {
    hide Linked;
    LinkedFirst();
  }

  lemma FirstTakes()
    ensures Follows(CFG, LATE, CallResumes(0, 5), TAKEN)
  {
    hide Linked, LeaseRound, LeaseCall, FinishOpen, Ask, Release, Expire, ShutDown, Evict, Operate, WithChannels, SetReady;
    TimePasses();
    var r := Checkout(LATE, 1, 1000, 5, false);
    assert {} + {5} == {5};
    assert r.conn == TAKEN.conn && r.lease == TAKEN.lease && r.ch == TAKEN.ch;
  }

  lemma HardAgeComes()
    ensures Follows(CFG, TAKEN, Tick(500), AGED)
  {
    hide Linked;
    FirstTakes();
  }
}
