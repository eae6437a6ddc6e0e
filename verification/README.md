# Verification of open-mcc's connection pool, host setup and shared-state protocols

This project models parts of open-mcc in Dafny and proves what they promise.

- **The pool of SSH read connections** (`packages/transport/src/read-connections.ts` with `ssh/limiter.ts`).
  `PoolObjects` holds the pool as the program has it: entries, opens with their transports, connections, channel
  limiters, leases and operations are objects that refer to one another and are changed in place. Every
  synchronous stretch of the code is a method, and each method is proved equal, on the whole heap, to one function
  of `Channels` or `ReadPool` on the tables the heap stands for. Those functions make a state machine
  (`ReadPoolRuns`): every promise callback, timer, call by a reader, clock tick and change of what a transport says
  of itself is one event, and a run is any order of events from the empty pool. `ReadPoolInvariant` is what holds
  between any two events; `ReadPoolTheorems`, `ReadPoolHandOuts`, `ReadPoolLeases`, `ReadPoolOpens` and
  `ReadPoolEvictions` are what the pool promises over every run; `ReadPoolOrphan` and `ReadPoolCut` are runs in which a promise fails. The tables keep some history beside the program's own fields: all answers of an
  operation, the permits granted to it and given back, what was called on each transport, and the evicts each
  entry has met. A connection, its open and its transport share one number.
- **Host setup** (`packages/contracts/src/host-setup.ts`, `host-account.ts`): `AuthorizedKeys` is the awk scan of
  `authorized_keys` and the append step, `SubordinateRanges` the choice of a range of subordinate ids,
  `ShellQuoting` the quoting of shell words against a reader of POSIX words.
- **Claims on instance rows** (`scripts/sandbox/memory-manager.ts` against `instance.repository.ts`): `Claims` is the
  in-memory manager, `ClaimRuns` any interleaving of its calls, and `ClaimColumns` what the rows hold after one, told
  from the calls alone.
- **Formatted text** (`apps/web/src/lib/minecraft-text.ts`): `MinecraftText` is the parser against a grammar,
  `MinecraftTextProofs` what its spans are, and the console lines, and `MinecraftTextStyles` what each code does and
  which texts are codes.
- **Bot settings** (`apps/web/src/lib/bot-config.ts`): `BotConfig` is the walk along the dependencies of a setting.
- **Accepting an invitation** (`apps/server/src/routers/member.router.ts`): `Invitations`, `InvitationRuns`.
- **The first owner** (`apps/server/src/bootstrap-owner.ts`): `Bootstrap`, `BootstrapRuns`.

`dafny verify dfyconfig.toml` checks everything.

Some promises do not hold in full, and the exact condition is proved instead.

- `evict(key)` closes every connection of the entry the map holds for the key, and stops every open begun on that
  entry. That is not always every connection and every open for the key. No connection for the key is open after it
  exactly if the mapped entry had all of them (`EvictClearsKeyExactly`), and no open begun before it for the key is
  installed after it exactly if each that still could be was on the mapped entry (`EvictStopsOpensExactly`;
  `EvictForGoodExactly` is both). A turn of `lease` that shuts its installed connection down opens on an entry that
  has just left the map exactly if that connection was the entry's only one and no open was pending
  (`OrphanedExactly`). `OrphanSurvivesEvict` is a whole run in which a connection installed there survives an evict,
  `OpenSurvivesEvict` one in which the open does.
- A lease can be cut short by the hard age exactly if it was taken later after its connection became ready than the
  hard age less its own deadline (`CutShortExactly`, `NeverCutShort`); a lease on a reused connection never is, nor one
  on a fresh connection whose caller resumes as it is installed (`DeadlineFitsHardAge`). `HardAgeCanCut` is a run in
  which one is.
- A key is authorised once however often the setup runs exactly if some record carries it or its own record does
  (`IdempotentExactly`); any other key is appended again by every run (`AppendedEveryRun`). A key that starts with a
  key type is carried by its own record exactly if its blob, as awk reads it from the command line, is not empty and
  equals its second field (`OwnRecordExactly`), as it does unless it holds a backslash or begins as a number that is
  not equal to itself does (`OwnRecord`). A key with an option in front is not (`OptionFirstIsLost`).
- `cat /etc/subuid /etc/subgid` glues the last line of the first file to the first line of the second if the first
  lacks its final newline. The new range is safe whatever the second file holds exactly if the first file is empty,
  ends in a newline, or ends in a line without a colon (`SafeExactly`).
- `removeUser` failing leaves a user without an organization, and nothing else does (`OwnersHaveOrganizations`;
  `RemovalCanFail` is a run); that there is at most one first owner does not depend on it (`OneFirstOwner`).
- A call that accepts an invitation leaves the user it signed up exactly if its transaction commits or breaks, or its
  compensation does not work (`WhoseUserStays`): of the failures only a missing invitation is undone.
  `UserLeftBehind` is a run that leaves a user without a membership.
- The in-memory manager lets a sign-in claim replace a live one and lets anybody release it; the database's updates
  do not. They also differ on a claim exactly at the end of its lease (`RepositoryDiffers`). Whatever the database
  allows the manager allows, so the claims proved over runs hold of both (`RepositorySteps`).

## Model

| member | source | states |
|---|---|---|
| PoolObjects.ReadConnections.constructor | packages/transport/src/read-connections.ts:118-122 | a new pool has no object and stands for the state every run starts in |
| PoolObjects.ReadConnections.Acquire | packages/transport/src/ssh/limiter.ts:18-41 | a free permit is granted at once, otherwise the operation goes to the end of the queue |
| PoolObjects.ReadConnections.ReleasePermit | packages/transport/src/ssh/limiter.ts:42-46 | one permit is given back and goes to the longest waiter, and nothing else changes |
| PoolObjects.ReadConnections.LeaveQueue | packages/transport/src/ssh/limiter.ts:29-33 | an aborted waiter leaves the queue and the others keep their order |
| PoolObjects.ReadConnections.FinishOp | packages/transport/src/read-connections.ts:143-150 | the operation leaves both sets and gives back its slot if it holds one |
| PoolObjects.ReadConnections.Abandon | packages/transport/src/read-connections.ts:152-163 | the operation is answered if it was not, leaves queue and sets, and its stream is closed |
| PoolObjects.ReadConnections.ShutDown | packages/transport/src/read-connections.ts:165-178 | the whole heap after a shutdown: records, operations, transport and map |
| PoolObjects.ReadConnections.Prune | packages/transport/src/read-connections.ts:138-141 | the map loses the entry exactly if it holds that entry and nothing uses it |
| PoolObjects.ReadConnections.Retire | packages/transport/src/read-connections.ts:180-183 | the connection is retired and installed no more |
| PoolObjects.ReadConnections.AfterLastLease | packages/transport/src/read-connections.ts:185-197 | an unleased connection is destroyed, ended or given its idle time |
| PoolObjects.ReadConnections.Expire | packages/transport/src/read-connections.ts:199-209 | a deadline abandons the lease's operations and retires the connection exactly if one was admitted |
| PoolObjects.ReadConnections.Install | packages/transport/src/read-connections.ts:211-243 | the new connection is installed and what it replaces is closed or left to its leases |
| PoolObjects.ReadConnections.StartOpen | packages/transport/src/read-connections.ts:245-278 | a new open becomes the entry's pending one |
| PoolObjects.ReadConnections.GiveUpOpen | packages/transport/src/read-connections.ts:255-260 | a refused open's transport is destroyed, and the entry is cleared only of this open |
| PoolObjects.ReadConnections.FinishOpen | packages/transport/src/read-connections.ts:261-275 | an answer is installed only if it is current, successful and ready |
| PoolObjects.ReadConnections.Begin | packages/transport/src/read-connections.ts:280-303 | a new operation joins both sets and waits for or gets a channel |
| PoolObjects.ReadConnections.GrantRuns | packages/transport/src/read-connections.ts:305-319 | a grant becomes the operation's slot, or goes straight back if it was abandoned |
| PoolObjects.ReadConnections.Outcome | packages/transport/src/read-connections.ts:321-322 | an error counts as a lost connection if the connection is closed or not ready |
| PoolObjects.ReadConnections.Answered | packages/transport/src/read-connections.ts:332-344 | an answer settles the operation once and frees its slot |
| PoolObjects.ReadConnections.StreamArrives | packages/transport/src/read-connections.ts:355-371 | a stream is handed out, or closed if the operation was already settled |
| PoolObjects.ReadConnections.StreamEnds | packages/transport/src/read-connections.ts:363-370 | the end of a stream frees the slot |
| PoolObjects.ReadConnections.Release | packages/transport/src/read-connections.ts:382-391 | the whole heap after a lease is given back; a second release changes nothing |
| PoolObjects.ReadConnections.Checkout | packages/transport/src/read-connections.ts:395-409 | a lease with its deadline is added and the idle time ends |
| PoolObjects.ReadConnections.UsableIs | packages/transport/src/read-connections.ts:411-415 | the objects and the tables agree on which connection will do |
| PoolObjects.ReadConnections.EntryFor | packages/transport/src/read-connections.ts:124-136 | the map's entry for the key, made with a new generation if there is none |
| PoolObjects.ReadConnections.LeaseRound | packages/transport/src/read-connections.ts:427-443 | one turn of the loop: reuse, shut down, join or open |
| PoolObjects.ReadConnections.LeaseCalled | packages/transport/src/read-connections.ts:418-443 | the call throws exactly if its deadline does not fit; else its first turn is one step of a run |
| PoolObjects.ReadConnections.CallResumes | packages/transport/src/read-connections.ts:443-444 | a call that waited goes on as one step of a run |
| PoolObjects.ReadConnections.Asked | packages/transport/src/read-connections.ts:280-288 | what is refused at once, and a new operation otherwise, is one step of a run |
| PoolObjects.ReadConnections.GrantCallback | packages/transport/src/read-connections.ts:305-319 | the callback of a grant is one step of a run and keeps the invariant |
| PoolObjects.ReadConnections.Replies | packages/transport/src/read-connections.ts:332-344 | an answer from the transport is one step of a run and keeps the invariant |
| PoolObjects.ReadConnections.StreamComes | packages/transport/src/read-connections.ts:354-371 | a stream from the transport is one step of a run and keeps the invariant |
| PoolObjects.ReadConnections.StreamOver | packages/transport/src/read-connections.ts:363-370 | a stream's end is one step of a run and keeps the invariant |
| PoolObjects.ReadConnections.LeaseReleased | packages/transport/src/read-connections.ts:382-391 | a release is one step of a run and keeps the invariant |
| PoolObjects.ReadConnections.DeadlineFires | packages/transport/src/read-connections.ts:199-209 | a deadline is one step of a run and keeps the invariant |
| PoolObjects.ReadConnections.IdleFires | packages/transport/src/read-connections.ts:195-196 | the idle timer is one step of a run and keeps the invariant |
| PoolObjects.ReadConnections.HardAgeFires | packages/transport/src/read-connections.ts:231-233 | the hard-age timer is one step of a run and keeps the invariant |
| PoolObjects.ReadConnections.OpenAnswers | packages/transport/src/read-connections.ts:261-275 | an open's answer is one step of a run and keeps the invariant |
| PoolObjects.ReadConnections.Evicted | packages/transport/src/read-connections.ts:448-455 | an evict is one step of a run and keeps the invariant |
| ChannelsProofs.AbandonAllDoes | packages/transport/src/read-connections.ts:152-163 | abandoning a set answers each with its reason, takes exactly those out of the sets, and moves no other |
| ChannelsProofs.GrantRunsKeeps | packages/transport/src/read-connections.ts:305-319 | a late grant or a live one leaves every limiter balanced |
| ReadPoolRuns.StepKeeps | packages/transport/src/read-connections.ts:118-459 | every event keeps the whole invariant |
| ReadPoolRuns.RunValid | packages/transport/src/read-connections.ts:118-459 | the invariant holds in every state of every run |
| ReadPoolHistory.StepLater | packages/transport/src/read-connections.ts:118-459 | nothing goes back in a step, only a call that asked gets a lease, and only an admitted deadline retires |
| ReadPoolHistory.RunLater | packages/transport/src/read-connections.ts:118-459 | closed, retired, released, expired, settled and disposed stay so in every later state |
| ReadPoolHistory.SuitsExactly | packages/transport/src/read-connections.ts:411-415 | which connections will do: open, not retired, ready, and of the identity asked for in every field |
| ReadPoolTheorems.SlotsConserved | packages/transport/src/read-connections.ts:143-150 | permits in use are the slots held and the grants not yet run, never above the limit, and no one waits in vain |
| ReadPoolTheorems.PermitReturnedOnce | packages/transport/src/read-connections.ts:305-319 | an operation gets at most one permit and gives it back at most once, exactly once when it is gone |
| ReadPoolTheorems.FirstComeFirstServed | packages/transport/src/ssh/limiter.ts:42-46 | while an operation waits for a channel, none asked for after it that waited with it is given one |
| ReadPoolTheorems.AskedExactly | packages/transport/src/read-connections.ts:280-303 | for which leases a reader gets an operation, of what kind, and whether it waits |
| ReadPoolTheorems.GrantAdmits | packages/transport/src/read-connections.ts:305-319 | a grant becomes the slot of a live operation, whose request goes out, and is given back by a settled one |
| ReadPoolTheorems.AnsweredOnce | packages/transport/src/read-connections.ts:324-380 | a caller is answered at most once, and the answer never changes |
| ReadPoolTheorems.AnswersAtDeadline | packages/transport/src/read-connections.ts:199-209 | at the deadline a queued operation hears it waited too long, an admitted one that the host was too slow |
| ReadPoolTheorems.AnswersOnClose | packages/transport/src/read-connections.ts:173-174 | closing a connection answers everything on it with a lost connection |
| ReadPoolTheorems.AnswersOnRelease | packages/transport/src/read-connections.ts:387-388 | giving a lease back answers everything on it with a lost connection |
| ReadPoolTheorems.AnswersReply | packages/transport/src/read-connections.ts:321-345 | an answer from the transport is the result, the error, or a lost connection |
| ReadPoolTheorems.StreamHanded | packages/transport/src/read-connections.ts:355-371 | a stream for a live operation is its caller's |
| ReadPoolTheorems.LiveStreamsAreHeld | packages/transport/src/read-connections.ts:354-371 | an open stream was handed to its caller and its operation still holds the slot |
| ReadPoolTheorems.LateStreamCloses | packages/transport/src/read-connections.ts:356-359 | a stream for an abandoned operation is closed and handed to no one |
| ReadPoolTheorems.OverStaysEmpty | packages/transport/src/read-connections.ts:280-288 | a lease that is over, or whose connection is closed, has no operation in any later state |
| ReadPoolTheorems.OverIsAnswered | packages/transport/src/read-connections.ts:152-163 | once a lease is over, every operation ever asked for on it has exactly one answer |
| ReadPoolTheorems.NoLeakedConnection | packages/transport/src/read-connections.ts:185-197 | an open unleased connection is the installed one, and only there the idle timer runs |
| ReadPoolTheorems.LastRelease | packages/transport/src/read-connections.ts:185-197 | the last release destroys a retired connection, ends a superseded one, and idles the installed one |
| ReadPoolTheorems.TimersDispose | packages/transport/src/read-connections.ts:185-233 | the idle timer ends its connection, the hard age destroys it |
| ReadPoolTheorems.TransportsConserved | packages/transport/src/read-connections.ts:165-178 | a transport is opening, owned by one open connection, or disposed of exactly once |
| ReadPoolTheorems.LatestIsGreatest | packages/transport/src/read-connections.ts:251-252 | the entry's latest open is the last one ever begun on it |
| ReadPoolTheorems.InstalledExactly | packages/transport/src/read-connections.ts:261-275 | an answer is installed exactly if it is good, its open is the latest and no evict came between; else it is refused |
| ReadPoolTheorems.EvictClosesEntry | packages/transport/src/read-connections.ts:448-455 | an evict destroys every open connection of the mapped entry and spoils every open begun on it |
| ReadPoolTheorems.EvictedOpenNeverLands | packages/transport/src/read-connections.ts:268-272 | an open an evict has hit is never installed |
| ReadPoolTheorems.EvictClearsKeyExactly | packages/transport/src/read-connections.ts:448-455 | an evict leaves no connection for the key exactly if each was in the mapped entry |
| ReadPoolOpens.SingleFlight | packages/transport/src/read-connections.ts:427-444 | any turn of the loop, the first or a resumed one, that gives out no lease opens nothing exactly if an open it can share is under way, and then waits for that one |
| ReadPoolOpens.Superseded | packages/transport/src/read-connections.ts:234-242 | what becomes of the replaced connection, by identity and leases |
| ReadPoolOpens.OrphanedExactly | packages/transport/src/read-connections.ts:427-444 | when a turn of the loop, the first or a resumed one, opens on an entry the map no longer holds |
| ReadPoolEvictions.EvictStopsOpensExactly | packages/transport/src/read-connections.ts:261-275 | no open begun before an evict for its key can be installed after it, in any continuation, exactly if each latest, unevicted open for the key was on the mapped entry |
| ReadPoolEvictions.EvictForGoodExactly | packages/transport/src/read-connections.ts:448-455 | an evict clears its key of connections and of opens to come exactly if the mapped entry had them all |
| ReadPoolEvictions.DeadNeverLands | packages/transport/src/read-connections.ts:261-275 | an open that is over, superseded or hit by an evict is installed in no later state |
| ReadPoolOrphan.OrphanSurvivesEvict | packages/transport/src/read-connections.ts:430-455 | a run in which a connection outlives the eviction of its key |
| ReadPoolOrphan.OpenSurvivesEvict | packages/transport/src/read-connections.ts:430-455 | a run in which an evict leaves no connection open, and an open begun before it is installed after it |
| ReadPoolHandOuts.TurnExactly | packages/transport/src/read-connections.ts:427-443 | a turn reuses the installed connection exactly if it suits and is young enough; one that suits but is too old stays, any other is destroyed |
| ReadPoolHandOuts.ThrowsExactly | packages/transport/src/read-connections.ts:418-426 | the call throws and changes nothing exactly if its deadline is not between 0 and the hard age |
| ReadPoolHandOuts.ResumesExactly | packages/transport/src/read-connections.ts:443-445 | a call that waited is rejected exactly if the open was not installed, and given that connection if it suits |
| ReadPoolLeases.HandOutSafety | packages/transport/src/read-connections.ts:427-445 | a lease comes only to a call that asked, on an open, unretired, ready connection of its key and identity |
| ReadPoolLeases.NeverLeasedAgain | packages/transport/src/read-connections.ts:411-415 | a closed or retired connection is never handed out again |
| ReadPoolLeases.RetiredExactly | packages/transport/src/read-connections.ts:199-209 | a connection is retired exactly if a deadline once fired while an operation of that lease held a channel |
| ReadPoolLeases.NewConnection | packages/transport/src/read-connections.ts:211-243 | a connection comes into being only as its own open is installed |
| ReadPoolLeases.LeasesCounted | packages/transport/src/read-connections.ts:457 | the count of active leases is the sum of the sizes of all lease sets |
| ReadPoolLeases.DeadlineFitsHardAge | packages/transport/src/read-connections.ts:424-443 | how a running lease's timer stands to the hard age, and that reuse and an immediate resumption are soon enough |
| ReadPoolLeases.NeverCutShort | packages/transport/src/read-connections.ts:231-233 | when the hard age fires, every lease taken soon enough has already reached its own deadline |
| ReadPoolLeases.CutShortExactly | packages/transport/src/read-connections.ts:231-233 | a lease still to reach its deadline can be cut short by the hard age exactly if it was taken too late |
| ReadPoolCut.HardAgeCanCut | packages/transport/src/read-connections.ts:231-233 | a run that comes to the hard age of a connection under a lease whose deadline is to come |
| AuthorizedKeys.FieldsKeepAll | packages/contracts/src/host-setup.ts:237 | splitting at runs of blanks loses nothing but the blanks, and only the outer fields can be empty |
| AuthorizedKeys.FindType | packages/contracts/src/host-setup.ts:238-241 | the first field that names a key type |
| AuthorizedKeys.ReadOptions | packages/contracts/src/host-setup.ts:245-270 | a record is clean exactly if its options are unquoted, valueless, harmless, and allow forwarding if restricted |
| AuthorizedKeys.SkippedExactly | packages/contracts/src/host-setup.ts:233-234 | which records are comments or empty |
| AuthorizedKeys.PlainRecord | packages/contracts/src/host-setup.ts:231-251 | a record without options carries exactly the keys equal to its blob, and is clean |
| AuthorizedKeys.IndentedRecord | packages/contracts/src/host-setup.ts:231-267 | so is one with blanks in front |
| AuthorizedKeys.OptionsRecord | packages/contracts/src/host-setup.ts:231-267 | with options in front it is clean exactly if each is one of ten by name, without quote or value, and a restriction allows forwarding |
| AuthorizedKeys.MaterialExactly | packages/contracts/src/host-setup.ts:228 | the key is looked for by its second word |
| AuthorizedKeys.Scan | packages/contracts/src/host-setup.ts:230-275 | the answer is about the first record that carries the key, with its line if it is not clean |
| AuthorizedKeys.FoundIsOne | packages/contracts/src/host-setup.ts:230-275 | the scan's answer is determined by the records and the key |
| AuthorizedKeys.AppendRecords | packages/contracts/src/host-setup.ts:284-289 | appending adds exactly the key's record, with or without a final newline before |
| AuthorizedKeys.KeyFile.Authorise | packages/contracts/src/host-setup.ts:228-290 | the file is changed only if no record carries the key, and then by exactly one record |
| AuthorizedKeys.FirstRecordDecides | packages/contracts/src/host-setup.ts:235-243 | the outcome depends on the first record that carries the key alone |
| AuthorizedKeys.OwnRecordExactly | packages/contracts/src/host-setup.ts:228-243 | when a key that starts with a key type is carried by its own record, and that it is clean then |
| AuthorizedKeys.OwnRecord | packages/contracts/src/host-setup.ts:228 | a key that starts with a key type and has a blob awk leaves as it is is carried, cleanly, by its own record |
| AuthorizedKeys.IdempotentExactly | packages/contracts/src/host-setup.ts:228-290 | when a second run leaves the file as the first did, and what it reports |
| AuthorizedKeys.Idempotent | packages/contracts/src/host-setup.ts:228-290 | a second run with such a key changes nothing |
| AuthorizedKeys.SettledAfterOne | packages/contracts/src/host-setup.ts:228-290 | any number of runs with such a key leave the file of the first, which has gained at most the key's record |
| AuthorizedKeys.AppendedEveryRun | packages/contracts/src/host-setup.ts:228-290 | a key its own record does not carry is appended by every run |
| AuthorizedKeys.OptionFirstIsLost | packages/contracts/src/host-setup.ts:228-243 | a key with an option in front is not carried by its own record |
| SubordinateRanges.ChooseStart | packages/contracts/src/host-setup.ts:212 | the start is the end of the highest range granted, and at least 100000 |
| SubordinateRanges.ChosenIsOne | packages/contracts/src/host-setup.ts:212 | the records determine the start |
| SubordinateRanges.GrantsExactly | packages/contracts/src/host-setup.ts:212 | the records that grant a range are a name and two numbers between colons, and the range is those two numbers |
| SubordinateRanges.StartsBehind | packages/contracts/src/host-setup.ts:212-213 | the start is not below 100000 nor below the end of any range written in either file, and is one of these |
| SubordinateRanges.SeparateIsSafe | packages/contracts/src/host-setup.ts:212-213 | the new range meets no range of either file |
| SubordinateRanges.NotSeparateIsUnsafe | packages/contracts/src/host-setup.ts:212 | a second file for every other first file that makes the ranges meet |
| SubordinateRanges.SafeExactly | packages/contracts/src/host-setup.ts:212-213 | for which first files the new range is always safe |
| ShellQuoting.SingleQuoteReads | packages/contracts/src/host-setup.ts:1 | a shell reads any quoted string back as that one word |
| ShellQuoting.AccountWordReads | packages/contracts/src/host-account.ts:1-4 | so does it any account name, bare or quoted |
| ShellQuoting.BareExactly | packages/contracts/src/host-account.ts:1-4 | which accounts are shown without quotes |
| ShellQuoting.AccountWordInjective | packages/contracts/src/host-account.ts:3-4 | two accounts never share a form |
| ShellQuoting.SpacedReads | packages/contracts/src/host-account.ts:3-4 | a line of such words is read back as exactly those words |
| ShellQuoting.LingerCommandReads | packages/contracts/src/host-account.ts:6-7 | the command shown passes exactly the account to `enable-linger` |
| Claims.MemoryManager.TakeConfigClaim | scripts/sandbox/memory-manager.ts:116-123 | a config claim succeeds exactly if no live one is there |
| Claims.MemoryManager.RowUnderClaim | scripts/sandbox/memory-manager.ts:125-128 | the row, exactly if it is under this claim |
| Claims.MemoryManager.Insert | scripts/sandbox/memory-manager.ts:131-156 | a new row is under its creator's claim |
| Claims.MemoryManager.Update | scripts/sandbox/memory-manager.ts:159-165 | the patched columns change and no claim does |
| Claims.MemoryManager.Delete | scripts/sandbox/memory-manager.ts:166 | the row goes, if it was there |
| Claims.MemoryManager.ClaimForAuth | scripts/sandbox/memory-manager.ts:167-180 | a sign-in claim succeeds exactly if no config claim is live, and ends a stale one |
| Claims.MemoryManager.ReleaseAuthClaim | scripts/sandbox/memory-manager.ts:181-186 | the sign-in claim goes, whoever holds it |
| Claims.MemoryManager.ClaimForLifecycle | scripts/sandbox/memory-manager.ts:188-193 | a lifecycle claim succeeds exactly if neither claim is live |
| Claims.MemoryManager.FinalizeConfigClaim | scripts/sandbox/memory-manager.ts:194-206 | the patch and the end of the claim, for its holder only |
| Claims.MemoryManager.RecordUnitFailure | scripts/sandbox/memory-manager.ts:207-213 | a failure is recorded only on an unclaimed running row |
| Claims.MemoryManager.ReleaseConfigClaim | scripts/sandbox/memory-manager.ts:214-219 | the claim ends, for its holder only |
| Claims.MemoryManager.WriteTokenUnderClaim | scripts/sandbox/memory-manager.ts:220-230 | the token is written and the lease renewed, for the holder only |
| Claims.MemoryManager.DeleteUnderClaim | scripts/sandbox/memory-manager.ts:231-232 | the row goes, for the holder only |
| Claims.MemoryManager.InsertConfigVersion | scripts/sandbox/memory-manager.ts:233-246 | the log grows by the next version of the instance and stays numbered |
| Claims.MemoryManager.LatestConfig | scripts/sandbox/memory-manager.ts:247-248 | the instance's last record in the log, the one with the highest version, which is how many there are; none exactly if the log has none of the instance |
| Claims.VersionsCount | scripts/sandbox/memory-manager.ts:233-246 | an instance's versions are 1, 2, ... in order |
| Claims.LatestIsHighest | packages/core/src/instance/instance.repository.ts:286-325 | the last version is the highest, so numbering by count and by maximum agree |
| ClaimRuns.Exclusion | scripts/sandbox/memory-manager.ts:111-128 | while a config claim is live, from being taken or renewed by a token write on, no other claim on its instance succeeds |
| ClaimRuns.FencedByLatest | scripts/sandbox/memory-manager.ts:194-232 | every fenced call that succeeds shows the latest claimer's id |
| ClaimRuns.LatestIsLast | scripts/sandbox/memory-manager.ts:116-123 | the id kept as the latest is that of the last successful config claim |
| ClaimRuns.LostForever | scripts/sandbox/memory-manager.ts:125-128 | a claim that left its row never returns |
| ClaimRuns.OvertakenChangesNothing | scripts/sandbox/memory-manager.ts:194-232 | an overtaken claimer's calls fail and change nothing |
| ClaimRuns.LifecycleExcludesSignIn | scripts/sandbox/memory-manager.ts:167-193 | a lifecycle claim and a live sign-in are never on one row |
| ClaimRuns.RepositorySteps | packages/core/src/instance/instance.repository.ts:118-284 | the database's calls are steps of these runs |
| ClaimRuns.RepositoryDiffers | packages/core/src/instance/instance.repository.ts:118-202 | exactly where the database and the in-memory manager differ |
| ClaimColumns.RowsExactly | scripts/sandbox/memory-manager.ts:131-232 | there is a row exactly if one was inserted and not removed since |
| ClaimColumns.PresentExactly | scripts/sandbox/memory-manager.ts:159-186 | an update, a delete and a sign-in's release take effect exactly then |
| ClaimColumns.ColumnsExactly | scripts/sandbox/memory-manager.ts:116-232 | every column of every row holds what the last call that writes it wrote |
| ClaimColumns.HeldExactly | scripts/sandbox/memory-manager.ts:116-232 | a claim is on its row exactly if it was taken, and neither ended nor followed by another since |
| ClaimColumns.FencedExactly | scripts/sandbox/memory-manager.ts:194-232 | a call under a claim is allowed exactly to its holder |
| ClaimColumns.EndedIsFree | scripts/sandbox/memory-manager.ts:194-232 | after a finalize, release or delete the claim is lost for good, and the row free for the next |
| ClaimColumns.LapsesExactly | scripts/sandbox/memory-manager.ts:111-123 | a claim keeps others out for exactly three minutes from when it was taken or last renewed |
| ClaimColumns.SignInLapsesExactly | scripts/sandbox/memory-manager.ts:167-193 | a sign-in keeps a lifecycle out for exactly fifteen minutes |
| ClaimColumns.FailureExactly | scripts/sandbox/memory-manager.ts:207-213 | a failure is recorded exactly on a row last written to be running that nobody claims |
| MinecraftText.ReadHexColor | apps/web/src/lib/minecraft-text.ts:86-97 | a colour is read exactly if all six digits are there |
| MinecraftText.Parse | apps/web/src/lib/minecraft-text.ts:99-138 | the loop yields the spans of the grammar's tokens |
| MinecraftText.TokensTile | apps/web/src/lib/minecraft-text.ts:113-135 | the tokens in a row are the source |
| MinecraftTextProofs.SpansExact | apps/web/src/lib/minecraft-text.ts:105-112 | a span is a non-empty piece of the source at its start, under the fold of the codes before it |
| MinecraftTextProofs.LastColorDecides | apps/web/src/lib/minecraft-text.ts:63-82 | the codes from the last colour or reset on decide a style, whatever came before |
| MinecraftTextProofs.FormatsOnlyAdd | apps/web/src/lib/minecraft-text.ts:63-82 | every other code keeps the colour and switches nothing off |
| MinecraftTextProofs.StartsIncrease | apps/web/src/lib/minecraft-text.ts:105-112 | starts strictly increase, with a code between any two spans |
| MinecraftTextProofs.SpansTile | apps/web/src/lib/minecraft-text.ts:99-138 | spans and codes together are the whole source |
| MinecraftTextProofs.StripFormatting | apps/web/src/lib/minecraft-text.ts:140-143 | the texts of the spans, in order |
| MinecraftTextProofs.StripIdempotent | apps/web/src/lib/minecraft-text.ts:140-143 | stripping changes nothing exactly if there is no code, and twice is once |
| MinecraftTextProofs.ConsoleLines | apps/web/src/lib/minecraft-text.ts:149-157 | the lines in a row are the output with its final newline, each keyed by where it begins |
| MinecraftTextProofs.KeysIncrease | apps/web/src/lib/minecraft-text.ts:149-157 | no two lines share a key |
| MinecraftTextStyles.SpansStyled | apps/web/src/lib/minecraft-text.ts:44-138 | each span's colour is that of the last colour code before it, and each switch is on exactly if its own letter came after that |
| MinecraftTextStyles.ReadsBackExactly | apps/web/src/lib/minecraft-text.ts:86-135 | which sequences of text, codes and colours are read back from their text |
| BotConfig.UnmetDependency | apps/web/src/lib/bot-config.ts:157-180 | nothing is unmet exactly if all on the whole chain is met; else the first unmet is reported |
| BotConfig.EffectiveIsOn | apps/web/src/lib/bot-config.ts:140-141 | a stored value counts before the default |
| BotConfig.MissingInOrder | apps/web/src/lib/bot-config.ts:170 | what is missing is told in the order of the settings |
| BotConfig.WalkedOut | apps/web/src/lib/bot-config.ts:166 | a walk as long as the table and one more has seen the whole chain |
| Invitations.Server.ReadInvitation | apps/server/src/routers/member.router.ts:91-107 | an invitation is read exactly if it is pending, unexpired and names a role |
| Invitations.Server.SignUp | apps/server/src/routers/member.router.ts:109-111 | the user is there, under the invitation's email |
| Invitations.Server.Transact | apps/server/src/routers/member.router.ts:115-160 | all of member, invitation and audit, exactly if inviter and invitation are still there, or nothing |
| Invitations.Server.DeleteUser | apps/server/src/routers/member.router.ts:161-167 | this user goes and no other |
| InvitationRuns.AcceptedOnce | apps/server/src/routers/member.router.ts:115-160 | accepted exactly when one member row and one audit row came from the invitation |
| InvitationRuns.ReadsExactly | apps/server/src/routers/member.router.ts:91-107 | a call goes on exactly if its invitation is pending, not expired, and for one of three roles |
| InvitationRuns.CommitsExactly | apps/server/src/routers/member.router.ts:115-160 | a healthy transaction commits exactly if the invitation is still pending and the inviter a member |
| InvitationRuns.AcceptedWasOpen | apps/server/src/routers/member.router.ts:91-160 | every acceptance had both, in this order |
| InvitationRuns.JoinedIsMember | apps/server/src/routers/member.router.ts:128-136 | whoever joined is a member with that role until removed |
| InvitationRuns.JoinedFits | apps/server/src/routers/member.router.ts:128-159 | member and audit row agree with each other, the invitation and the user's email |
| InvitationRuns.OneCallAccepts | apps/server/src/routers/member.router.ts:138-147 | no two calls accept one invitation |
| InvitationRuns.OwnUserOnly | apps/server/src/routers/member.router.ts:161-167 | the compensation removes the call's own user, who is no member by any invitation |
| InvitationRuns.WhoseUserStays | apps/server/src/routers/member.router.ts:161-167 | the signed-up user stays exactly if the transaction committed or broke, or the compensation did not work |
| InvitationRuns.UserLeftBehind | apps/server/src/routers/member.router.ts:161-167 | a run whose transaction breaks and whose user stays without a membership |
| Bootstrap.Server.RefuseIfAnyUserExists | apps/server/src/bootstrap-owner.ts:43-49 | refused exactly if there is a user |
| Bootstrap.Server.UnderLock | apps/server/src/bootstrap-owner.ts:64-89 | what each end of the locked part leaves behind |
| Bootstrap.Server.Proceed | apps/server/src/bootstrap-owner.ts:59-89 | the rest of a call that waited for the lock, by its end |
| Bootstrap.Server.BootstrapOwner | apps/server/src/bootstrap-owner.ts:56-89 | a whole call's result, users and organizations, or that it waits, exactly if there is no user and another call holds the lock |
| BootstrapRuns.OneFirstOwner | apps/server/src/bootstrap-owner.ts:56-89 | at most one user at a time and one success, whose user and organization stay |
| BootstrapRuns.RefusedExactly | apps/server/src/bootstrap-owner.ts:43-66 | a call is refused exactly if one of its checks found a user |
| BootstrapRuns.SucceededExactly | apps/server/src/bootstrap-owner.ts:68-88 | a call succeeds exactly with the user it signed up and the organization it made it |
| BootstrapRuns.OwnersHaveOrganizations | apps/server/src/bootstrap-owner.ts:71-86 | with the lock free, every user has an organization exactly if no removal has failed |
| BootstrapRuns.RemovalCanFail | apps/server/src/bootstrap-owner.ts:71-86 | a run that leaves a user without an organization |
| BootstrapRuns.Alone | apps/server/src/bootstrap-owner.ts:23-41 | one call at a time is between taking and giving back the lock |

## Left out

- Transports, sockets, timers and promises themselves: their answers are events that come in any order; a timer may fire late but not early, and a transport may change what it says of itself at any time.
- PoolObjects.ReadConnections.Abandon: closes the stream before the operation leaves its sets and not after; the stretch is synchronous, so nobody sees the difference. Expire likewise retires once after its loop, and Release takes the lease out of the connection's set before its operations are abandoned.
- PoolObjects.ReadConnections.Acquire: does not model a signal that is aborted before the wait begins, because each operation brings a fresh one.
- The reader's own text: which command an exec runs, which port a forward asks for, and the results, of which only their kind is kept.
- Deadlines that are not whole numbers.
- `useradd`, `usermod`, apt, Podman, systemd and everything else the setup script runs; how sshd reads key options.
- AuthorizedKeys.KeyFile.Authorise: takes a key of one line. What a value on awk's command line becomes and which fields equal it are parameters (`Awk`); the lemmas about ordinary keys assume of them what `Standard` says.
- SubordinateRanges.ChooseStart: computes with whole numbers of any size where awk has doubles; which of the two files already holds a range for the account is not modelled.
- ShellQuoting.SingleQuoteReads: the reader knows the escape character and single quotes; a line with any other quoting or operator is read as neither right nor wrong.
- The calendar of an instance (`schedules`), tasks and the other tables of the in-memory manager, and the columns no claim depends on.
- ClaimRuns.RepositorySteps: takes one clock for the database and the application, which the program keeps apart.
- MinecraftText.Parse: keeps a named colour as its code and not its value.
- The schemas of bot settings, drafts and their validation, and the labels' wording.
- InvitationRuns.AcceptedOnce: takes a transaction as atomic and makes no use of emails being unique; other writers may cancel invitations and add or remove members at any time, but none accepts an invitation otherwise.
- BootstrapRuns.OneFirstOwner: takes the advisory lock as held until it is given back and users as created by these calls alone.
- React components, routers that only check a capability, error tables, environment parsing, theme, paging and time-of-day helpers: they would add only easy members.
