/** Runs in which a connection, and an open, outlive the eviction of their key. */
module ReadPoolOrphan {
  import opened Options
  import opened Channels
  import opened ReadPool
  import opened ReadPoolInvariant
  import opened ReadPoolProofs
  import opened ReadPoolOpenProofs
  import opened ReadPoolRuns
  import opened ReadPoolTheorems

  const CFG := Config(10_000, 120_000, 10)
  const HOST := Identity("10.0.0.1", 22, "root", "key", "fingerprint")
  const KEY: Key := "host"

  const OPENED := Entry(KEY, 1, None, Some(Pending(1, HOST, 1)), {}, 1, 0)
  const ATTEMPT := Attempt(KEY, 1, HOST, 1, 0, Opening, false, [])
  const CONNECTION := Connection(KEY, 1, HOST, 0, {}, false, false, None, Some(120_000))
  const CLOSED := CONNECTION.(closed := true, hardTimer := None)
  const FIRST_CALL := Call(KEY, HOST, 1000, Awaits(1))
  const SECOND_CALL := Call(KEY, HOST, 1000, Awaits(2))
  const NO_CHANNELS := Channels(map[], map[], map[], map[])
  const ONE_CHANNEL := Channels(map[], map[1 := Limiter(0, [])], map[1 := {}], map[])
  const TWO_CHANNELS := Channels(map[], map[1 := Limiter(0, []), 2 := Limiter(0, [])], map[1 := {}, 2 := {}], map[])

  /** A first call opens a connection and finds it installed. */
  const S1 := State(0, map[KEY := 1], map[1 := OPENED], map[1 := ATTEMPT], map[], map[], map[0 := FIRST_CALL], 1, 1, 0, NO_CHANNELS)
  const S2 := S1.(attempts := map[1 := ATTEMPT.(ready := true)])
  const S3 := State(0, map[KEY := 1], map[1 := OPENED.(installed := Some(1), pending := None, connections := {1})],
                    map[1 := ATTEMPT.(ready := true, phase := Landed)], map[1 := CONNECTION], map[],
                    map[0 := FIRST_CALL], 1, 1, 0, ONE_CHANNEL)
  /** Its transport is lost. */
  const LOST := ATTEMPT.(phase := Landed)
  const S4 := S3.(attempts := map[1 := LOST])
  /** A second call shuts it down, which takes the entry out of the map, and opens on that entry. */
  const REOPENED := Entry(KEY, 1, None, Some(Pending(2, HOST, 1)), {}, 2, 0)
  const GONE := LOST.(disposals := [Destroy])
  const S5 := State(0, map[], map[1 := REOPENED], map[1 := GONE, 2 := ATTEMPT], map[1 := CLOSED], map[],
                    map[0 := FIRST_CALL, 1 := SECOND_CALL], 1, 2, 0, ONE_CHANNEL)
  const S6 := S5.(attempts := map[1 := GONE, 2 := ATTEMPT.(ready := true)])
  /** The new connection is installed in an entry no key leads to. */
  const S7 := State(0, map[], map[1 := REOPENED.(installed := Some(2), pending := None, connections := {2})],
                    map[1 := GONE, 2 := ATTEMPT.(ready := true, phase := Landed)], map[1 := CLOSED, 2 := CONNECTION], map[],
                    map[0 := FIRST_CALL, 1 := SECOND_CALL], 1, 2, 0, TWO_CHANNELS)

  const ORPHANING: seq<State> := [START, S1, S2, S3, S4, S5, S6, S7, S7]
  const ORPHANED_BY: seq<Event> := [
    LeaseCalled(0, KEY, HOST, 1000, 0), TransportSays(1, true), OpenAnswers(1, true), TransportSays(1, false),
    LeaseCalled(1, KEY, HOST, 1000, 0), TransportSays(2, true), OpenAnswers(2, true), Evicted(KEY)]

  /** After `evict`, a connection for the evicted key is still open: this is a whole run from
      the start. */
  lemma OrphanSurvivesEvict()
    ensures IsRun(CFG, ORPHANING, ORPHANED_BY)
    ensures ORPHANED_BY[7] == Evicted(KEY) && !NoneOpen(ORPHANING[8], KEY)
  {
    hide Follows;
    FirstCall();
    FirstReady();
    FirstInstalled();
    FirstLost();
    SecondCall();
    SecondReady();
    SecondInstalled();
    EvictMisses();
    assert S7.conn[2].key == KEY;
  }

  /** The same, with the evict one event earlier: it leaves no connection for the key open, but
      the open it missed is installed after it. */
  const OUTLASTING: seq<State> := [START, S1, S2, S3, S4, S5, S6, S6, S7]
  const OUTLASTED_BY: seq<Event> := ORPHANED_BY[..6] + [Evicted(KEY), OpenAnswers(2, true)]

  lemma OpenSurvivesEvict()
    ensures IsRun(CFG, OUTLASTING, OUTLASTED_BY)
    ensures OUTLASTED_BY[6] == Evicted(KEY) && AllMapped(OUTLASTING[6], KEY) && NoneOpen(OUTLASTING[7], KEY)
    ensures 2 in OUTLASTING[6].attempts && 2 in OUTLASTING[8].conn && !NoneOpen(OUTLASTING[8], KEY)
  {
    hide Follows;
    FirstCall();
    FirstReady();
    FirstInstalled();
    FirstLost();
    SecondCall();
    SecondReady();
    SecondInstalled();
    EvictMissesOpen();
    assert S7.conn[2].key == KEY;
  }

  lemma FirstCall()
    ensures Follows(CFG, START, ORPHANED_BY[0], S1)
  {
    hide Resume, FinishOpen, Ask, Release, Expire, ShutDown, Evict, Operate, WithChannels, SetReady, Checkout;
    assert Joinable(EntryFor(START, KEY), 1, HOST) == false;
  }

  lemma FirstReady()
    ensures Follows(CFG, S1, ORPHANED_BY[1], S2)
  {
    hide LeaseCall, Resume, FinishOpen, Ask, Release, Expire, ShutDown, Evict, Operate, WithChannels;
  }

  lemma FirstInstalledIn()
    ensures Linked(S2) && PutIn(CFG, S2, 1) == S3
  {
    hide Linked, WF;
    FirstReady();
    var r := PutIn(CFG, S2, 1);
    assert r.conn == S3.conn && r.attempts == S3.attempts;
    assert {} + {1} == {1};
    assert r.entry[1] == S3.entry[1] && r.entry == S3.entry;
    assert r.ch.limiters == ONE_CHANNEL.limiters && r.ch.connOps == ONE_CHANNEL.connOps;
  }

  lemma FirstInstalled()
    ensures Follows(CFG, S2, ORPHANED_BY[2], S3)
  {
    hide Linked, PutIn, LeaseCall, Resume, Ask, Release, Expire, ShutDown, Evict, Operate, WithChannels, SetReady,
      AfterLastLease, GiveUpOpen;
    FirstInstalledIn();
  }

  lemma LinkedFirst()
    ensures Linked(S3)
  {
    hide Linked, Step, Enabled;
    FirstInstalled();
  }

  lemma FirstLost()
    ensures Follows(CFG, S3, ORPHANED_BY[3], S4)
  {
    hide Linked, LeaseCall, Resume, FinishOpen, Ask, Release, Expire, ShutDown, Evict, Operate, WithChannels;
    LinkedFirst();
  }

  /** Between the two halves of the second call: the first connection is shut down and its
      entry is in no map. */
  const SHUT := S4.(entries := map[], entry := map[1 := OPENED.(pending := None)], attempts := map[1 := GONE],
                    conn := map[1 := CLOSED])

  lemma FirstShutDown()
    ensures Linked(S4) && ShutDown(S4, 1, Destroy) == SHUT
  {
    hide Linked, WF;
    FirstLost();
    LinkedKeys(S4);
    assert AbandonConnection(S4.ch, 1) == S4.ch;
    assert LOST.disposals + [Destroy] == [Destroy];
    var marked := MarkClosed(S4, 1, Destroy);
    assert {1} - {1} == {};
    assert marked.entry[1] == SHUT.entry[1] && marked.entry == SHUT.entry;
    assert marked.conn == SHUT.conn && marked.attempts == SHUT.attempts;
    assert S4.entries - {KEY} == map[];
  }

  lemma NoChannels()
    ensures WF(ONE_CHANNEL)
  {
  }

  lemma SecondAwait()
    ensures Linked(SHUT) && 1 in SHUT.entry && Await(SHUT, 1, KEY, 1, HOST, 1000) == S5
  {
    hide WF;
    NoChannels();
    var r := StartOpen(SHUT, KEY, 1, HOST);
    assert r.entry == S5.entry && r.attempts == S5.attempts;
  }

  lemma SecondCall()
    ensures Follows(CFG, S4, ORPHANED_BY[4], S5)
  {
    hide Linked, Resume, FinishOpen, Ask, Release, Expire, Evict, Operate, SetReady, Checkout, ShutDown, Await;
    FirstShutDown();
    SecondAwait();
  }

  lemma SecondReady()
    ensures Follows(CFG, S5, ORPHANED_BY[5], S6)
  {
    hide LeaseCall, Resume, FinishOpen, Ask, Release, Expire, ShutDown, Evict, Operate, WithChannels;
  }

  lemma SecondInstalledIn()
    ensures Linked(S6) && PutIn(CFG, S6, 2) == S7
  {
    hide Linked, WF;
    SecondReady();
    var r := PutIn(CFG, S6, 2);
    assert r.conn == S7.conn && r.attempts == S7.attempts;
    assert {} + {2} == {2};
    assert r.entry[1] == S7.entry[1] && r.entry == S7.entry;
    assert r.ch.limiters == TWO_CHANNELS.limiters && r.ch.connOps == TWO_CHANNELS.connOps;
  }

  lemma SecondInstalled()
    ensures Follows(CFG, S6, ORPHANED_BY[6], S7)
  {
    hide Linked, PutIn, LeaseCall, Resume, Ask, Release, Expire, ShutDown, Evict, Operate, WithChannels, SetReady,
      AfterLastLease, GiveUpOpen;
    SecondInstalledIn();
  }

  lemma EvictMisses()
    ensures Follows(CFG, S7, ORPHANED_BY[7], S7)
  {
    hide LeaseCall, Resume, FinishOpen, Ask, Release, Expire, ShutDown, Operate, WithChannels, SetReady,
      ShutDownAll, Prune, Linked;
    SecondInstalled();
  }

  lemma EvictMissesOpen()
    ensures Follows(CFG, S6, Evicted(KEY), S6)
  {
    hide LeaseCall, Resume, FinishOpen, Ask, Release, Expire, ShutDown, Operate, WithChannels, SetReady,
      ShutDownAll, Prune, Linked;
    SecondReady();
    SecondInstalledIn();
  }
}
