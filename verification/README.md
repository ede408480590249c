# Verification model of the local control plane

The repository is the local half of a system that lets several agent sessions share one browser: it
hands out browser pages, turns and file edits, and must stay right over whole runs, crashes and
concurrent processes. This project models its state machines and proves what they are for.

| files | component |
|---|---|
| `FileLock`, `FileLockRelease`, `FileLockReaping` | the cross-process lock, as interleaved file-system steps of any number of threads and processes |
| `SurfaceOwnership`, `SurfaceInvariants`, `SurfaceRuns`, `SurfaceOutcomes` | the machine-wide index of pages, bindings, Projects and generations: its operations, its invariant, its runs, and when each operation succeeds |
| `SurfaceChecks`, `SurfaceIndex` | the assertion loops, and the operations as methods on working copies of index and project mirror |
| `SessionRoutes` | the checkout's session files, which follow the index through crashes |
| `TurnCapability`, `TurnCapabilityRuns`, `TurnFences`, `TurnCapabilityOutcomes` | the turn capability broker, its runs, its completion fences, and what each operation achieves |
| `TurnCapabilityBroker` | the broker class |
| `WaitPolicy`, `WaitPolicyAcceptance` | the automaton over page observations, its stability barrier, and which events it takes |
| `ControlRequests`, `ControlRequestRuns`, `ControlRecords`, `ControlRequestOutcomes`, `ControlRequestStore` | control requests kept in several files, runs with crashes, the life of one request, what each call achieves for good, and the store class |
| `ControlPageCheck` | which events of a page the gateway hands on to the request store |
| `LegacyEvidence`, `LegacyCleanup`, `LegacyCleanupLive` | the crash-safe removal of the migrated mailbox, and what it asks of the migrated and the open requests |
| `WorkspaceRegistry`, `WorkspaceRegistryRuns`, `WorkspaceRegistryOutcomes`, `WorkspaceRegistryObject` | registered checkouts and their pending clean-ups |
| `MachineGateway`, `MachineGatewayRuns`, `MachineGatewayTheorems`, `MachineGatewayLocks`, `MachineGatewayOutcomes`, `MachineGatewayObject` | the composition of broker, registry and index |
| `TomlLexer`, `TomlStrings`, `SandboxAllow`, `SandboxOutcomes`, `SandboxEdit`, `SandboxFilter`, `SandboxSplice`, `SandboxArray` | the comment-preserving edit of a TOML array |
| `Wrappers`, `Lists` | shared types and list lemmas |

Where the source updates objects, the model has classes and methods, each proved equal to a function
or relation of its state; the theorems on runs, and those that say when each operation succeeds and what it
then leaves, are about those. `dafny verify dfyconfig.toml` checks
the whole project.

Six findings are stated as theorems:

- The lock is exclusive exactly if a contender that backs out compares and unlinks its file in one
  step. The source does it in two (`src/config/paths.ts:273-283`).
- A lease that is claimed for a new page, never committed and left to expire blocks claims, commits,
  renewals and reaping of every project on the machine until its session is retired or its project
  unregistered (`src/session/surface-ownership.ts:721-731`, `1355-1371`). A commit can also trip the
  closing assertion when another live lease holds the chat it observes.
- The gateway keeps a session closed after its completing turn has expired or been revoked, until the
  very fence is aborted; completing it again does not open it (`src/gateway/machine-gateway.ts:857-875`).
- The removal of the migrated mailbox can be refused for good: a migrated request whose response was
  under way, and whose page or authority is lost afterwards, never passes the evidence test again,
  and pruning keeps it while the removal is pending (`src/control/requests.ts:1989-2049`, `1548-1567`).
  The removal itself goes by the path alone behind one look at the identity, and takes files added
  after the manifest was checked (`2294-2314`).
- A multi-line string that ends in one or two of its own quotes is cut short by the array scanner,
  which ends it at the first three (`src/config/sandbox-allow.ts:410-428`).
- A string with a DELETE character is written by `escapeTomlString` as TOML does not allow it
  (`src/config/sandbox-allow.ts:225-229`).

## Model

| member | source | states |
|---|---|---|
| FileLock.ExclusiveIffAtomicBackOut | src/config/paths.ts:220-354 | For any number of threads, processes, crashes and left-over files: at most one thread is ever inside its action, with the lock path naming its own file all the while, exactly if a contender that backs out compares and unlinks in one step |
| FileLock.CleanRunsAreExclusive | src/config/paths.ts:220-354 | Whatever the back-out: every run in which each back-out that was paused between comparison and unlink still unlinks its own file, or does so while nobody is inside or leaving, is exclusive at its end; the holder may release, and reapers may stat and unlink, in two steps each, and the marker and the second scan close both races |
| FileLock.PausedBackOutBreaksIff | src/config/paths.ts:273-283 | ... and behind such a run a paused back-out breaks the lock exactly if a thread is inside |
| FileLock.AtomicBackOutIsSafe | src/config/paths.ts:220-354 | The safe direction: with comparison and unlink in one step every run from every left-over state is exclusive |
| FileLock.SplitBackOutIsUnsafe | src/config/paths.ts:273-283 | The unsafe direction: a complete run of four contenders in which a paused back-out unlinks the lock of a thread that is inside, and a second one enters |
| FileLock.LoneContenderEnters | src/config/paths.ts:220-271 | From every reachable state, of either back-out, in which the lock and all markers are stale and of dead processes, a live contender alone is inside after exactly 2 steps per marker plus 15 or 6, and is never stuck before |
| FileLockRelease.NoForgottenLock | src/config/paths.ts:273-354 | At every point of every run, of either back-out: a lock file of a living process that was not left over from before the run is still held by a thread of that process; so what a finished action leaves never blocks a later one |
| FileLockRelease.NoForgottenMarker | src/config/paths.ts:248-271 | The same of reaper markers: one of a living process has its reaper still at work |
| FileLockRelease.HolderGetsOut | src/config/paths.ts:349-353 | Behind every clean run a thread inside that goes on alone is never stuck and after exactly three steps has gone out with the path free and the markers as they were |
| FileLockRelease.HandedOver | src/config/paths.ts:313-354 | ... and the next contender alone is inside after exactly six steps |
| FileLockReaping.OnlyAbandonedAreReaped | src/config/paths.ts:220-271 | At every point of every run: a thread about to remove an abandoned lock or marker does so for a file of a process that has died, older than the bound |
| FileLockReaping.LivingLockIsWaitedFor | src/config/paths.ts:313-354 | A contender alone that meets the lock of a living process is waiting after exactly seven steps, where its deadline counts, with the lock untouched and its own marker gone |
| SurfaceRuns.ApplyKeepsInv | src/session/surface-ownership.ts:1493-2140 | Every operation on a consistent index leaves a consistent one; and it fails a closing consistency check exactly when a guard on the index before says so (a stranded lease, a chat held by a live lease, a lease awaiting its commit) |
| SurfaceRuns.RefusalSavesNothing | src/session/surface-ownership.ts:1417-1427 | A refused operation leaves the saved index as it was, except that a missing lease saves the reaped and synced index exactly if reaping dropped a lease |
| SurfaceRuns.RunInv | src/session/surface-ownership.ts:875-1086 | Every index reachable from the empty one passes the reader and the assertions |
| SurfaceRuns.OwnershipOverRuns | src/session/surface-ownership.ts:657-775 | In every reachable index a page and a chat belong to one session machine-wide, each session has at most one lease and one binding, there are at most 100 leases, and all generations are below the next one |
| SurfaceInvariants.GrantedInv | src/session/surface-ownership.ts:1493-1628 | A claim that passed its explicit checks keeps every clause, although it compared chats only inside its own project |
| SurfaceInvariants.CommittedInv | src/session/surface-ownership.ts:1635-1778 | A commit that passed its explicit checks keeps every clause if no other live lease was claimed with the chat |
| SurfaceInvariants.CommittedClash | src/session/surface-ownership.ts:1635-1778 | ... and breaks one if there is such a lease |
| SurfaceInvariants.ReapConsistentIff | src/session/surface-ownership.ts:1355-1371 | Dropping expired leases keeps the index consistent exactly if none of them was newer than a binding of its session |
| SurfaceInvariants.RenewedInv | src/session/surface-ownership.ts:1781-1814 | Renewing a lease keeps every clause |
| SurfaceInvariants.RecoveredInv | src/session/surface-ownership.ts:1830-1870 | Recovering the latest binding as a lease keeps every clause |
| SurfaceInvariants.RetiredInv | src/session/surface-ownership.ts:2052-2099 | Retiring a session keeps every clause |
| SurfaceInvariants.UnregisteredInv | src/session/surface-ownership.ts:2109-2140 | Unregistering a project keeps every clause |
| SurfaceRuns.FreshGeneration | src/session/surface-ownership.ts:1594-1604 | A claim that is no repetition gets a generation above that of every record of every session at any earlier point of the run |
| SurfaceRuns.ApplyAdvances | src/session/surface-ownership.ts:1362-1371 | No operation, release, retirement and removal included, lowers the next generation or that of a session |
| SurfaceRuns.NoOlderGeneration | src/session/surface-ownership.ts:1830-1869 | Once a session has held a generation, no later lease of it, claimed or recovered, carries an older one |
| SurfaceRuns.AnswerIsHeld | src/session/surface-ownership.ts:1493-1870 | A lease handed out by a claim, a renewal or a recovery is in the saved index |
| SurfaceRuns.StrandedBlocksEveryProject | src/session/surface-ownership.ts:1355-1371 | One stranded lease makes every claim, commit, renewal and reaping of every project fail and change nothing |
| SurfaceRuns.StrandedUntilCleared | src/session/surface-ownership.ts:2052-2140 | ... and so for every continuation, until its session is retired or its project unregistered |
| SurfaceRuns.LeasesCanBeStranded | src/session/surface-ownership.ts:721-731 | A concrete run that gets there: a committed page, a claim of another one that is never committed |
| SurfaceRuns.CommitCanClash | src/session/surface-ownership.ts:1635-1778 | A concrete run in which a commit trips the closing assertion although nothing is stranded |
| SurfaceOutcomes.ClaimAnswers | src/session/surface-ownership.ts:1493-1628 | A claim succeeds exactly if nothing is stranded, its route clashes with no standing lease, binding or known Project, and it repeats the standing lease of its session (route and owner) or else names that lease (key, tab, generation, owner), or without one the binding of another route it leaves, while fewer than 100 leases stand. A repetition is answered with that lease; any other claim replaces it by one of the next generation for the full time, and all else stays |
| SurfaceOutcomes.RenewAnswers | src/session/surface-ownership.ts:1781-1814 | A renewal succeeds exactly for a standing lease named in full, unless something is stranded, and the saved lease then ends at the time of the call plus the ttl |
| SurfaceOutcomes.RecoverAnswers | src/session/surface-ownership.ts:1830-1870 | A recovery succeeds exactly if the saved route is the latest of its session and a standing lease of the session, if any, has this route, generation and owner, which is then answered with no change; else, with room and nothing stranded, the old generation is leased again for the full time |
| SurfaceOutcomes.CommitAnswers | src/session/surface-ownership.ts:1635-1778 | A commit succeeds exactly for a standing lease named in full with a chat that agrees with it and that no other session has in a standing lease or binding; the lease then has the chat, the session just this binding, with the time of its first binding, and the project its Project URL |
| SurfaceOutcomes.ReleaseAnswers | src/session/surface-ownership.ts:1873-1911 | A release drops exactly the standing lease named in full, unless that awaits a commit over an older binding; one of a lease that has run out says so and clears what has run out |
| SurfaceOutcomes.ReapAnswers | src/session/surface-ownership.ts:1914-1926 | Listing gives exactly the standing leases of the project, and keeps exactly the standing ones of all |
| SurfaceOutcomes.ReadAnswers | src/session/surface-ownership.ts:1948-1962 | Reading always finds the binding of the session exactly if it has one, and changes no record |
| SurfaceOutcomes.RetireAnswers | src/session/surface-ownership.ts:2052-2099 | Retiring always succeeds and takes exactly the records and the generation of its session |
| SurfaceOutcomes.UnregisterAnswers | src/session/surface-ownership.ts:2109-2140 | Unregistering always succeeds and takes exactly the records, generations and Project URL of its project, which is then absent |
| SurfaceChecks.AssertMachineOwnershipConsistency | src/session/surface-ownership.ts:1028-1086 | The loops over entries and inverted tables accept an index exactly if it is consistent |
| SurfaceChecks.AssertOwnershipRelations | src/session/surface-ownership.ts:657-775 | The loops with page, chat, lease, binding and generation tables accept exactly the consistent relations |
| SurfaceIndexes.SurfaceIndex.Claim | src/session/surface-ownership.ts:1493-1628 | The method that claims on working copies of index and mirror saves and answers what the index alone determines: no content of the project mirror changes the outcome, and the mirror follows the index |
| SurfaceIndexes.SurfaceIndex.Commit | src/session/surface-ownership.ts:1635-1778 | The method that commits on working copies of index and mirror saves and answers what the index alone determines: no content of the project mirror changes the outcome, and the mirror follows the index |
| SurfaceIndexes.SurfaceIndex.Renew | src/session/surface-ownership.ts:1781-1814 | The method that renews on working copies of index and mirror saves and answers what the index alone determines: no content of the project mirror changes the outcome, and the mirror follows the index |
| SurfaceIndexes.SurfaceIndex.Recover | src/session/surface-ownership.ts:1830-1870 | The method that recovers on working copies of index and mirror saves and answers what the index alone determines: no content of the project mirror changes the outcome, and the mirror follows the index |
| SurfaceIndexes.SurfaceIndex.Release | src/session/surface-ownership.ts:1873-1911 | The method that releases on working copies of index and mirror saves and answers what the index alone determines: no content of the project mirror changes the outcome, and the mirror follows the index |
| SurfaceIndexes.SurfaceIndex.List | src/session/surface-ownership.ts:1914-1926 | The method that lists and reaps on working copies of index and mirror saves and answers what the index alone determines: no content of the project mirror changes the outcome, and the mirror follows the index |
| SurfaceIndexes.SurfaceIndex.CurrentBinding | src/session/surface-ownership.ts:1948-1962 | The method that reads the binding on working copies of index and mirror saves and answers what the index alone determines: no content of the project mirror changes the outcome, and the mirror follows the index |
| SurfaceIndexes.SurfaceIndex.Retire | src/session/surface-ownership.ts:2052-2099 | The method that retires on working copies of index and mirror saves and answers what the index alone determines: no content of the project mirror changes the outcome, and the mirror follows the index |
| SurfaceIndexes.SurfaceIndex.Unregister | src/session/surface-ownership.ts:2109-2140 | Unregistering a project changes the index as specified and touches no mirror |
| SurfaceIndexes.SurfaceIndex.Sync | src/session/surface-ownership.ts:1274-1314 | Whatever the mirror held, it is replaced by what the index says of the project |
| SurfaceIndexes.SurfaceIndex.Publish | src/session/surface-ownership.ts:1332-1353 | The entries of the project are replaced by the working copy, all others stay |
| SessionRoutes.CrashLeavesSound | src/session/state.ts:750-877 | A crash between any two writes of a commit, a retirement or a reconcile leaves a consistent index and readable files |
| SessionRoutes.ReconcileAfterCrash | src/session/surface-ownership.ts:1965-1996 | After such a crash the next reconcile makes the route (chat, Project, generation, tab) equal the binding, or clears it, exactly if the generation is at most 10000; a second one changes nothing, and the work of the session is kept. While a lease of the machine is stranded the reconcile fails and writes nothing |
| SessionRoutes.RouteSettles | src/session/state.ts:972-1031 | Replaying the index into any readable files makes them agree with it and keeps tasks, iterations, states and checkpoints |
| SessionRoutes.BeyondTheLimit | src/session/state.ts:414-426 | Beyond 10000 the route is refused and stays in disagreement |
| SessionRoutes.CommitFinishes | src/session/surface-ownership.ts:1635-1778 | A commit that runs to its end leaves the index it has saved and, within the limit, the route equal to the new binding, with the work and the connector kept or the given connector noted; a refused one leaves the files alone |
| SessionRoutes.RetireFinishes | src/session/surface-ownership.ts:2052-2099 | A retirement that runs to its end leaves no record and no thread file of the session, and every other file alone |
| TurnCapability.ApplySound | src/gateway/turn-capability.ts:309-735 | Every operation keeps the invariant of the broker, never reuses a secret, moves turns only forward, and only issuing adds a turn |
| TurnCapabilityRuns.FencesMatchCompletingTurns | src/gateway/turn-capability.ts:507-541 | In every reachable broker the fence table and the completing turns are in one-to-one correspondence, and no used fence is in it |
| TurnCapabilityRuns.FenceConsumedOnce | src/gateway/turn-capability.ts:564-613 | Over any run a fence completes or aborts a turn at most once, even when the replay set has evicted it |
| TurnCapabilityRuns.CompletesIffDrained | src/gateway/turn-capability.ts:564-592 | A fence completes its turn exactly if it is in the table, the turn has not run out and every lease has been released or is over |
| TurnCapabilityRuns.EndedTurnsStayEnded | src/gateway/turn-capability.ts:869-878 | Terminal states are absorbing, an ended turn gains no lease, and a completed one has none |
| TurnCapabilityRuns.OneTurnPerSession | src/gateway/turn-capability.ts:317-334 | When turns are issued only by replacing their session, at most one turn of a session is live, at most one holds leases, and none holds any beside a live one |
| TurnCapabilityRuns.CapabilityLifetime | src/gateway/turn-capability.ts:372-404 | Every lease expires no later than its capability, and a capability no later than its ttl after its latest issue or keepalive |
| TurnCapabilityRuns.PruningFreesExpiredTurns | src/gateway/turn-capability.ts:879-886 | After a prune no expired turn holds a lease |
| TurnCapabilityRuns.EvictionOldestFirst | src/gateway/turn-capability.ts:887-902 | Eviction removes only ended turns without leases, longest ended first, and exactly down to the limit |
| TurnCapabilityBrokers.TurnCapabilityBroker.Issue | src/gateway/turn-capability.ts:309-315 | The method on the mutable tables has exactly the effect and answer of the specification the run theorems are about |
| TurnCapabilityBrokers.TurnCapabilityBroker.IssueReplacingSession | src/gateway/turn-capability.ts:317-334 | The method on the mutable tables has exactly the effect and answer of the specification the run theorems are about |
| TurnCapabilityBrokers.TurnCapabilityBroker.KeepAliveRequest | src/gateway/turn-capability.ts:372-404 | The method on the mutable tables has exactly the effect and answer of the specification the run theorems are about |
| TurnCapabilityBrokers.TurnCapabilityBroker.Claim | src/gateway/turn-capability.ts:429-472 | The method on the mutable tables has exactly the effect and answer of the specification the run theorems are about |
| TurnCapabilityBrokers.TurnCapabilityBroker.Renew | src/gateway/turn-capability.ts:474-496 | The method on the mutable tables has exactly the effect and answer of the specification the run theorems are about |
| TurnCapabilityBrokers.TurnCapabilityBroker.Release | src/gateway/turn-capability.ts:498-505 | The method on the mutable tables has exactly the effect and answer of the specification the run theorems are about |
| TurnCapabilityBrokers.TurnCapabilityBroker.BeginCompletion | src/gateway/turn-capability.ts:507-541 | The method on the mutable tables has exactly the effect and answer of the specification the run theorems are about |
| TurnCapabilityBrokers.TurnCapabilityBroker.Complete | src/gateway/turn-capability.ts:564-592 | The method on the mutable tables has exactly the effect and answer of the specification the run theorems are about |
| TurnCapabilityBrokers.TurnCapabilityBroker.AbortCompletion | src/gateway/turn-capability.ts:594-613 | The method on the mutable tables has exactly the effect and answer of the specification the run theorems are about |
| TurnCapabilityBrokers.TurnCapabilityBroker.Cancel | src/gateway/turn-capability.ts:615-622 | The method on the mutable tables has exactly the effect and answer of the specification the run theorems are about |
| TurnCapabilityBrokers.TurnCapabilityBroker.Revoke | src/gateway/turn-capability.ts:624-632 | The method on the mutable tables has exactly the effect and answer of the specification the run theorems are about |
| TurnCapabilityBrokers.TurnCapabilityBroker.RevokeAll | src/gateway/turn-capability.ts:634-735 | The method on the mutable tables has exactly the effect and answer of the specification the run theorems are about |
| TurnCapabilityBrokers.TurnCapabilityBroker.Status | src/gateway/turn-capability.ts:737-756 | The method on the mutable tables has exactly the effect and answer of the specification the run theorems are about |
| TurnCapabilityBrokers.TurnCapabilityBroker.PruneExpired | src/gateway/turn-capability.ts:879-886 | The method on the mutable tables has exactly the effect and answer of the specification the run theorems are about |
| TurnCapabilityBrokers.TurnCapabilityBroker.TrimTombstones | src/gateway/turn-capability.ts:887-902 | The method on the mutable tables has exactly the effect and answer of the specification the run theorems are about |
| TurnCapabilityBrokers.TurnCapabilityBroker.TerminateMatching | src/gateway/turn-capability.ts:869-878 | The method on the mutable tables has exactly the effect and answer of the specification the run theorems are about |
| TurnCapabilityBrokers.TurnCapabilityBroker.ClearExpiredLeases | src/gateway/turn-capability.ts:854-863 | The method on the mutable tables has exactly the effect and answer of the specification the run theorems are about |
| TurnCapabilityBrokers.TurnCapabilityBroker.ResolveLiveToken | src/gateway/turn-capability.ts:803-816 | The method on the mutable tables has exactly the effect and answer of the specification the run theorems are about |
| TurnFences.FencesOnlyBegin | src/gateway/turn-capability.ts:507-541 | Only beginning a completion hands out a fence |
| TurnFences.ConsumedFences | src/gateway/turn-capability.ts:564-613 | Completing and aborting only take fences away, and an abort, even a refused one, leaves its fence gone |
| TurnCapabilityOutcomes.RenewAnswers | src/gateway/turn-capability.ts:474-496 | A renewal succeeds exactly for a lease that is held, of a working turn of that binding that has been claimed, with an allowed ttl; answer and table then both have the smaller of effect time plus ttl and the end of the turn |
| TurnCapabilityOutcomes.RenewalHolds | src/gateway/turn-capability.ts:474-496 | Over every run the end a renewal answers is the end the lease has: it is in the table with just that end until then, unless it is released or renewed again or its turn is cancelled or revoked |
| TurnCapabilityOutcomes.ClaimAnswers | src/gateway/turn-capability.ts:429-472 | A claim succeeds exactly for a working turn of that binding that is not completing, with its scopes, an allowed ttl and time left; it adds one new lease to that end and leaves every other working turn alone |
| TurnCapabilityOutcomes.ClaimHolds | src/gateway/turn-capability.ts:429-472 | ... which is held over every run until that end in the same sense |
| TurnCapabilityOutcomes.LeaseLasts | src/gateway/turn-capability.ts:309-735 | No operation takes a held lease away or moves its end but one that names it or ends its turn; neither a new turn for its session nor a completion can |
| TurnCapabilityOutcomes.ReleaseAnswers | src/gateway/turn-capability.ts:498-505 | A release says whether the lease was still held and ends just this one |
| TurnCapabilityOutcomes.EndAnswers | src/gateway/turn-capability.ts:615-632 | Cancelling and revoking succeed exactly for a working turn, which is ended at once, and leave every other alone |
| TurnCapabilityOutcomes.RevokeAllAnswers | src/gateway/turn-capability.ts:634-735 | A revocation by binding, request, session or registration leaves none of the addressed turns working, and exactly the others as they were |
| TurnCapabilityOutcomes.IssueAnswers | src/gateway/turn-capability.ts:309-315 | A turn that replaces none is issued exactly for an allowed lifetime, and leaves the others alone |
| TurnCapabilityOutcomes.ReplaceAnswers | src/gateway/turn-capability.ts:317-370 | With an allowed lifetime and a binding that is not outdated, a turn is issued over its session exactly if no turn of it, ended or not, has a lease left; it replaces them all, and notes the epoch |
| TurnCapabilityOutcomes.KeepAliveAnswers | src/gateway/turn-capability.ts:372-404 | A keepalive of the one working turn it addresses is granted exactly for a timely sight, a binding that is not outdated and a turn that is not completing, which then has its full lifetime from the sight on |
| TurnCapabilityOutcomes.BeginAnswers | src/gateway/turn-capability.ts:507-541 | A completion begins exactly for a working turn of that binding that has been claimed and is not completing |
| TurnCapabilityOutcomes.CompleteAnswers | src/gateway/turn-capability.ts:564-592 | A fence completes its turn exactly if it is still working and none of its leases is held any more |
| TurnCapabilityOutcomes.AbortAnswers | src/gateway/turn-capability.ts:594-613 | A fence aborts exactly while its turn is working, which goes on with the leases it had |
| WaitPolicy.ProgressSummarises | src/control/wait-policy.ts:366-466 | The kept progress is the latest event, the last definitive one, and since when the trailing candidates with its payload have stood, for every accepted history |
| WaitPolicy.FinalAcceptedIff | src/control/wait-policy.ts:426-446 | A new final event is accepted exactly if it names the page of the latest event, follows a send attempt, a send and events of its own response only, is a newer sight, and its exact payload has stood for 1500 ms |
| WaitPolicyAcceptance.AcceptedIff | src/control/wait-policy.ts:366-466 | For every kind of event, over every accepted history: one with a new number is taken exactly if it is unknown, or about the page of the latest event and due: an attempt first, a send behind it, a failed start behind either, a first sight of a response behind the send, progress and candidates behind the send and unfinished events of that very response, a final as above, a loss at any time |
| WaitPolicyAcceptance.OldNumbersRefused | src/control/wait-policy.ts:366-388 | A number that is not new is taken exactly with the latest event itself |
| WaitPolicyAcceptance.NewEventTells | src/control/wait-policy.ts:447-466 | A new event is never told as a replay, and as terminal exactly if it is one of four kinds |
| WaitPolicy.FinalRestsOnStableCandidates | src/control/wait-policy.ts:366-466 | An accepted final repeats the payload of every definitive event since a candidate accepted 1500 ms earlier, and response id and URL never changed |
| WaitPolicy.ReplayIsIdempotent | src/control/wait-policy.ts:366-388 | A repeated latest event changes nothing, and any other event under its number is refused |
| WaitPolicy.OnePage | src/control/wait-policy.ts:389-412 | If unknown events name the page of the first event, every event does |
| WaitPolicy.UnknownCanMoveThePage | src/control/wait-policy.ts:389-400 | Otherwise one unknown event moves the exchange to another page: a concrete accepted history |
| WaitPolicy.AdviceIsAccepted | src/control/wait-policy.ts:468-507 | The event the policy asks for, seen after the delay it advises, is accepted by the automaton |
| ControlRequestRuns.PlanOk | src/control/requests.ts:777-1612 | The writes of every operation, in their order, each keep the files in order |
| ControlRequestRuns.RunSound | src/control/requests.ts:777-1612 | So do all runs of open, observe, cancel, renew, retire and prune, each cut after any of its writes |
| ControlRequestRuns.OneUnfinishedPerSession | src/control/requests.ts:777-849 | A session has at most one unfinished request, one whose opener died half-way included, and its active pointer names it |
| ControlRequestRuns.MarkerNeverChanges | src/control/requests.ts:368-402 | A written terminal marker never changes; it goes only with its whole request and is never written again |
| ControlRequestRuns.VisibleResultWasStable | src/control/requests.ts:868-914 | A result is shown only beside the stored final it came from, and that final was stable for 1500 ms |
| ControlRequestRuns.RedeliveryCompletes | src/control/requests.ts:1222-1267 | After a crash at any point between marker, observation and pointer, delivering the same terminal event again reaches the uninterrupted outcome up to acceptance times |
| ControlRequestRuns.CheckedStoresStayReadable | src/control/requests.ts:584-656 | If events for pending requests name the page of the request, as the gateway checks of those alone, no reachable store has an unreadable record; replays onto ended requests need no check |
| ControlRequestOutcomes.CancelAnswers | src/control/requests.ts:1128-1170 | A cancel succeeds exactly if the store shows the caller a pending or cancelled request; every other answer is said as well |
| ControlRequestOutcomes.CancelHolds | src/control/requests.ts:1128-1170 | After one that succeeded and was not cut, at every later time of every run with crashes, the request is shown as cancelled until it is pruned, no pointer names it and no opening answers with it |
| ControlRequestOutcomes.CancelFrees | src/control/requests.ts:1128-1170 | ... and the next opening of the session, whatever its correlation, gets a new request |
| ControlRequestOutcomes.RetireHolds | src/control/requests.ts:1504-1546 | After a retirement that succeeded and was not cut every request the session had is over for good, at every later time of every run |
| ControlRequestOutcomes.RetireFrees | src/control/requests.ts:1504-1546 | ... and the next opening gets a new request |
| ControlRequestOutcomes.RenewAnswers | src/control/requests.ts:1472-1495 | A renewal is refused only as the look is, or for a pending request and an expiry out of bounds |
| ControlRequestOutcomes.RenewalHolds | src/control/requests.ts:1472-1495 | After one that succeeded and was not cut the request lasts at least until the expiry it named, unless it is ended |
| ControlRequestOutcomes.OpenAnswers | src/control/requests.ts:777-849 | An opening gets a new request exactly if the session has no unfinished one, the very one it has exactly for the same correlation, and is refused otherwise |
| ControlRequestOutcomes.OpenedNow | src/control/requests.ts:777-849 | The request answered is then on file, pending, under the pointer of its session |
| ControlRequestOutcomes.ObserveAnswers | src/control/requests.ts:1304-1453 | An event for a pending request is taken exactly if it names the request, delivers only what its phase allows, is the next event or the latest again, and, when it shows new progress, comes with a new expiry within the hour |
| ControlRequestOutcomes.ObservedNow | src/control/requests.ts:1304-1453 | A new one is then the latest on record, progress moves the expiry forward, and exactly a terminal one writes the marker and clears the pointer |
| ControlRequestOutcomes.TerminalEventHolds | src/control/requests.ts:1304-1453 | ... for good, in the sense of a cancel |
| ControlRequestOutcomes.EndedEventFrees | src/control/requests.ts:1222-1267 | An event answered with success for an ended request leaves no pointer to it, its marker as it was |
| ControlRequestOutcomes.PrunedNow | src/control/requests.ts:1548-1612 | A pruning takes exactly an unprotected request that ended more than seven days ago, with all its files |
| ControlPageChecks.GatewayRunsAreChecked | src/gateway/machine-gateway.ts:660-853 | Every event the gateway hands on meets that, whatever happens to the store between its look at the request and the locked call |
| ControlPageChecks.GatewayStoresStayReadable | src/gateway/machine-gateway.ts:660-853 | ... so no record of any store is unreadable in any run in which all events come through the gateway |
| ControlPageChecks.LateFinalEnds | src/gateway/machine-gateway.ts:695-711 | A final event that fits its saved page but comes without a live turn ends its pending request: the event written in its place is always accepted and leaves its failure in the marker |
| ControlPageChecks.TimelyEventPasses | src/gateway/machine-gateway.ts:712-853 | A timely event on the page the request was opened with goes through while its turn is live, the session holds the page and the URL is the committed chat or, for BOOT, of the Project; a lost page needs neither |
| ControlPageChecks.CommittedPagePasses | src/gateway/machine-gateway.ts:712-853 | So it does on a page that is not leased but is the committed one |
| ControlPageChecks.ForeignEventRejected | src/gateway/machine-gateway.ts:712-853 | On another page, out of time, or on a page the session neither holds nor has committed, it is rejected |
| ControlPageChecks.LateFinalPasses | src/gateway/machine-gateway.ts:660-711 | A timely final without a live turn passes as the event that ends the request exactly if it goes on from the last definitive event: page, URL, response, number and time |
| ControlRecords.UncheckedEventBreaksRequest | src/control/requests.ts:584-656 | Without the check, one event of another page that a pending request takes makes the request unreadable in every later store, over every continuing run with crashes, until it is pruned away |
| ControlRecords.SettledStays | src/control/requests.ts:1222-1267 | No call, replays included, changes the observation of an ended request whose marker is complete, or makes it pending again, short of pruning it |
| ControlRequestStores.RequestStore.Open | src/control/requests.ts:777-849 | The method writes its files one by one exactly as planned, so that the theorems on cut-off plans hold of it |
| ControlRequestStores.RequestStore.Observe | src/control/requests.ts:1304-1453 | The method writes its files one by one exactly as planned, so that the theorems on cut-off plans hold of it |
| ControlRequestStores.RequestStore.ReplayTerminal | src/control/requests.ts:1222-1267 | The method writes its files one by one exactly as planned, so that the theorems on cut-off plans hold of it |
| ControlRequestStores.RequestStore.Cancel | src/control/requests.ts:1128-1170 | The method writes its files one by one exactly as planned, so that the theorems on cut-off plans hold of it |
| ControlRequestStores.RequestStore.Renew | src/control/requests.ts:1472-1495 | The method writes its files one by one exactly as planned, so that the theorems on cut-off plans hold of it |
| ControlRequestStores.RequestStore.Retire | src/control/requests.ts:1504-1546 | The method writes its files one by one exactly as planned, so that the theorems on cut-off plans hold of it; the first request of the session that cannot be read ends it, behind the marks made by then |
| ControlRequestStores.RequestStore.PruneOne | src/control/requests.ts:1548-1612 | The method writes its files one by one exactly as planned, so that the theorems on cut-off plans hold of it; a terminal marker that cannot be read is refused |
| ControlRequestStores.RequestStore.Prune | src/control/requests.ts:1548-1612 | The method writes its files one by one exactly as planned, so that the theorems on cut-off plans hold of it; a terminal marker that cannot be read ends the pass |
| LegacyCleanup.RemovesOnlyWhatWasVerified | src/control/requests.ts:2252-2320 | If nothing is swapped between the one look before a removal and its end, then whatever happens to the directories at any other time and wherever calls die, a removal only ever touches a directory of the identity and contents verified when its deletion was authorised |
| LegacyCleanup.RemovalsAccountedIff | src/control/requests.ts:2252-2320 | In any run, with directories changed at any time: everything removed was of verified directories exactly if each removal behind the look finds the recorded directory at its path, and was verified file by file exactly if each besides takes only files of the migrated source |
| LegacyCleanup.SwappedDirectoryIsRemoved | src/control/requests.ts:2305-2314 | A concrete run in which a directory swapped in behind that look is removed although it was never verified |
| LegacyCleanup.AddedFileIsRemoved | src/control/requests.ts:2294-2314 | A concrete run without any swap in which a file put into the retired directory behind its verification is removed with it |
| LegacyCleanup.RemovalSafeIffUnswapped | src/control/requests.ts:2305-2314 | All runs remove only verified directories exactly if swaps behind the look are excluded |
| LegacyCleanup.PruningKeepsWhatCleanupChecks | src/control/requests.ts:1548-1612 | Over every run, pruning never removes a request a clean-up must still validate, and no call changes such a request, its marker, or shortens its expiry |
| LegacyCleanup.RerunCompletes | src/control/requests.ts:1989-2371 | With nothing live and the directories undisturbed, a rerun from any crash point, after any use of the migrated requests through the gateway, passes its checks, completes and clears the retirement record exactly if no migrated observation has been overtaken: the page or authority of a request with a named response was not lost since, and its latest event is not an unknown one |
| LegacyCleanup.StuckForGood | src/control/requests.ts:1548-1567 | Once a migrated request has ended overtaken, every later clean-up call is refused, whatever is used or pruned; directories and record stay as they are |
| LegacyCleanup.LostPageBlocksCleanup | src/control/requests.ts:2028-2049 | A concrete run that gets there: a migrated request with a response under way loses its page; nothing is live and nothing outside has changed |
| LegacyCleanupLive.NothingOpenDuringCleanup | src/control/requests.ts:2322-2371 | At every point of every run with crashes: while a clean-up call is under way no request of the store is open, and up to the renaming none of the mailbox by its own files |
| LegacyCleanupLive.StartsIff | src/control/requests.ts:2322-2371 | A call starts exactly if the mailbox is as it was migrated, or gone once its removal was recorded, every copy is valid, every end can be read and nothing is open |
| LegacyEvidence.RetainedIff | src/control/requests.ts:1989-2000 | Of the progress the automaton can make of a migrated observation, exactly the overtaken one fails the evidence test of the clean-up |
| MachineGatewayRuns.PageCheckIff | src/gateway/machine-gateway.ts:96-114 | The page check passes exactly if the session holds a live page of that very generation, committed unless the phase is BOOT, and no lease on the machine is stranded |
| MachineGatewayTheorems.ClaimNeedsItsPage | src/gateway/machine-gateway.ts:506-522 | A tool claim succeeds only on such a page, also when other processes work on the index during the call; the lease is then held by the turn, for scopes it was given |
| MachineGatewayTheorems.RenewNeedsItsPage | src/gateway/machine-gateway.ts:545-556 | The same of renewing a lease |
| MachineGatewayTheorems.OlderGenerationsNeverClaim | src/gateway/machine-gateway.ts:506-556 | Over whole runs: once a session has held a newer page, whichever process claimed it, no turn of an older generation ever claims or renews again |
| MachineGatewayRuns.FailedClaimLeavesNoLease | src/gateway/machine-gateway.ts:988-1002 | A claim that fails at any point leaves no lease behind, and ends the turn if the broker had already granted one |
| MachineGatewayTheorems.NewPageEndsOldTurns | src/gateway/machine-gateway.ts:299-339 | When a session gets a page it never had, no turn of it in the checkout stays live |
| MachineGatewayRuns.RunSound | src/gateway/machine-gateway.ts:241-262 | Broker and index stay sound over every run of gateway calls mixed with other processes |
| MachineGatewayTheorems.RunLocked | src/gateway/machine-gateway.ts:558-568 | The closed sessions are exactly those of the fences handed out, one each, and every completing turn has one |
| MachineGatewayTheorems.CompletingTurnLocksItsPage | src/gateway/machine-gateway.ts:937-947 | While a turn commits its result, the gateway neither claims, commits, renews, releases nor retires the page of its session and begins no second completion for it |
| MachineGatewayTheorems.OnlyTheAbortReopens | src/gateway/machine-gateway.ts:857-875 | The lock can outlive the turn: when a turn ends otherwise than by its fence, every call but the abort of that fence leaves the session closed, and completing with that fence is refused |
| MachineGatewayLocks.ClosedIffCompleting | src/gateway/machine-gateway.ts:558-568 | In every reachable gateway the closed sessions are exactly those of the completing turns if and only if the broker still has every fence the gateway remembers |
| MachineGatewayLocks.ClosedUntilAborted | src/gateway/machine-gateway.ts:857-875 | Over every run without the abort of a fence that is gone from the broker, its session stays closed |
| MachineGatewayLocks.RevocationLeavesTheLock | src/gateway/machine-gateway.ts:857-875 | A concrete run that gets there: page claimed, turn issued, claimed and begun, then revoked; no turn completes, the session is closed, and completing is refused |
| MachineGatewayOutcomes.ClaimAnswers | src/gateway/machine-gateway.ts:506-522 | A tool call gets its lease exactly if its turn works and covers the scopes, both checks find the page current, the checkout is registered and the lease is not over by then; the broker then holds just that lease |
| MachineGatewayOutcomes.RenewAnswers | src/gateway/machine-gateway.ts:545-556 | A renewal goes through exactly if the lease is held for the turn it was issued under and the one that asks, of the same binding, and both checks find the page current; the broker then holds it until the time answered |
| MachineGatewayOutcomes.StalePageEnds | src/gateway/machine-gateway.ts:924-986 | A check fails exactly if the page is not current; the turn is then over, and the answer is the same whether it was working or revoked before |
| MachineGatewayOutcomes.SurfaceClaimAnswers | src/gateway/machine-gateway.ts:299-339 | A page is claimed exactly if its session is not committing a result, the checkout is registered, nothing is stranded and the index grants it, or, with an unresolved request, it is repeated or taken back; a page of another generation ends exactly the turns of the session |
| MachineGatewayOutcomes.SurfaceChangeAnswers | src/gateway/machine-gateway.ts:341-421 | A page is renewed, committed, released or retired exactly if its session is not committing a result and the index agrees, and exactly the addressed turns end |
| MachineGatewayOutcomes.BeginAnswers | src/gateway/machine-gateway.ts:558-568 | A completion begins exactly for a working, claimed turn whose session is not committing yet; the session is then closed under its fence |
| MachineGatewayObjects.MachineGateway.RequireCurrentTurnSurface | src/gateway/machine-gateway.ts:96-114 | The method drives the broker and index objects and leaves both, and its own tables, exactly as specified |
| MachineGatewayObjects.MachineGateway.ValidateSurface | src/gateway/machine-gateway.ts:924-931 | The method drives the broker and index objects and leaves both, and its own tables, exactly as specified |
| MachineGatewayObjects.MachineGateway.ClaimTurn | src/gateway/machine-gateway.ts:506-522 | The method drives the broker and index objects and leaves both, and its own tables, exactly as specified |
| MachineGatewayObjects.MachineGateway.ReleaseFailedClaim | src/gateway/machine-gateway.ts:988-1002 | The method drives the broker and index objects and leaves both, and its own tables, exactly as specified |
| MachineGatewayObjects.MachineGateway.RenewTurn | src/gateway/machine-gateway.ts:545-556 | The method drives the broker and index objects and leaves both, and its own tables, exactly as specified |
| MachineGatewayObjects.MachineGateway.BeginCompletion | src/gateway/machine-gateway.ts:558-568 | The method drives the broker and index objects and leaves both, and its own tables, exactly as specified |
| MachineGatewayObjects.MachineGateway.CompleteTurn | src/gateway/machine-gateway.ts:857-864 | The method drives the broker and index objects and leaves both, and its own tables, exactly as specified |
| MachineGatewayObjects.MachineGateway.AbortTurnCompletion | src/gateway/machine-gateway.ts:866-875 | The method drives the broker and index objects and leaves both, and its own tables, exactly as specified |
| MachineGatewayObjects.MachineGateway.SurfaceClaim | src/gateway/machine-gateway.ts:299-339 | The method drives the broker and index objects and leaves both, and its own tables, exactly as specified |
| MachineGatewayObjects.MachineGateway.SurfaceChange | src/gateway/machine-gateway.ts:341-421 | The method drives the broker and index objects and leaves both, and its own tables, exactly as specified |
| WorkspaceRegistryRuns.CleanUpsAreRemembered | src/gateway/workspace-registry.ts:612-740 | At every point of every run with crashes: a project that lost its last checkout is pending in the file until its clean-up has returned or it has a checkout again, and no clean-up starts for a project that has one |
| WorkspaceRegistryRuns.RestartSettles | src/gateway/workspace-registry.ts:362-371 | A restart gets through exactly if no due clean-up throws and the file can be written; it then has cleaned up every pending project without checkout and no other |
| WorkspaceRegistryRuns.RegistrationIsFaithful | src/gateway/workspace-registry.ts:390-440 | A registration handed out is of the very checkout asked for and in force; a collision is only reported before anything was changed |
| WorkspaceRegistryRuns.CleanUpsMayRepeat | src/gateway/workspace-registry.ts:726-740 | Clean-ups run at least once, not exactly once: a concrete run repeats one |
| WorkspaceRegistryOutcomes.RegisterAnswers | src/gateway/workspace-registry.ts:390-440 | A checkout is registered exactly if its workspace is free for it, no other has it, the file can be written and every project left without a checkout is cleaned up; memberships, registrations and pending clean-ups are then exactly said, and a refusal changes nothing |
| WorkspaceRegistryOutcomes.RemovalAnswers | src/gateway/workspace-registry.ts:612-740 | Nothing happens unless a registered checkout is named or one is gone; else exactly those are out, their capabilities revoked, and it succeeds exactly if every deserted project is cleaned up and that is written |
| WorkspaceRegistryOutcomes.UnregisterAnswers | src/gateway/workspace-registry.ts:479-488 | Unregistering takes out exactly a registration named in full; any other changes nothing |
| WorkspaceRegistryOutcomes.LookupAnswers | src/gateway/workspace-registry.ts:447-515 | A lookup gives exactly a registration named in full whose checkout is there; one that is gone is taken out |
| WorkspaceRegistryOutcomes.HasProjectAnswers | src/gateway/workspace-registry.ts:378-384 | A project is found exactly if a checkout of it is still there |
| WorkspaceRegistryObjects.WorkspaceRegistry.constructor | src/gateway/workspace-registry.ts:362-371 | Loads the file and drains the pending clean-ups as specified |
| WorkspaceRegistryObjects.WorkspaceRegistry.ReconcileMemberships | src/gateway/workspace-registry.ts:612-712 | The method has, in order, exactly the writes, revocations and clean-ups of the specified operation |
| WorkspaceRegistryObjects.WorkspaceRegistry.DrainPendingProjectRemovals | src/gateway/workspace-registry.ts:726-740 | The method has, in order, exactly the writes, revocations and clean-ups of the specified operation |
| WorkspaceRegistryObjects.WorkspaceRegistry.CommitMemberships | src/gateway/workspace-registry.ts:714-724 | The method has, in order, exactly the writes, revocations and clean-ups of the specified operation |
| WorkspaceRegistryObjects.WorkspaceRegistry.Register | src/gateway/workspace-registry.ts:390-440 | The method has, in order, exactly the writes, revocations and clean-ups of the specified operation |
| WorkspaceRegistryObjects.WorkspaceRegistry.Unregister | src/gateway/workspace-registry.ts:479-488 | The method has, in order, exactly the writes, revocations and clean-ups of the specified operation |
| WorkspaceRegistryObjects.WorkspaceRegistry.Lookup | src/gateway/workspace-registry.ts:447-515 | The method has, in order, exactly the writes, revocations and clean-ups of the specified operation |
| WorkspaceRegistryObjects.WorkspaceRegistry.HasProject | src/gateway/workspace-registry.ts:378-384 | The method has, in order, exactly the writes, revocations and clean-ups of the specified operation |
| WorkspaceRegistryObjects.WorkspaceRegistry.PlanReconciliation | src/gateway/workspace-registry.ts:612-687 | The loops over entries and memberships find exactly the workspaces that go, the projects they belonged to and the memberships that stay |
| SandboxAllow.FilteredArrayReadsBack | src/config/sandbox-allow.ts:436-476 | Re-lexing the filtered array gives exactly the kept strings in order with one comma between neighbours and at most one behind, and every comment and all other text as it was |
| SandboxAllow.EscapeRoundTrip | src/config/sandbox-allow.ts:225-229 | An escaped string is read back by the "String" rules of TOML v1.0.0 as itself exactly if it holds no DELETE character |
| SandboxOutcomes.FilterAnswers | src/config/sandbox-allow.ts:436-457 | The edit goes through exactly if the text reads as an array of as many elements as expected and between two kept elements there is always a comma |
| SandboxOutcomes.LastCommaStays | src/config/sandbox-allow.ts:451-455 | A comma stays behind the last element exactly if in the text some comma of the array follows the last kept one without touching it |
| SandboxArray.FilterArrayPreservingComments | src/config/sandbox-allow.ts:436-476 | The loops over positions, commas and sorted edits compute exactly the edit on lexemes, refusals included |
| SandboxSplice.TidySplices | src/config/sandbox-allow.ts:466-476 | Splicing the sorted edits into the text gives the tidied lexemes, refused exactly if two kept neighbours have no comma between them |
| SandboxArray.RetainedCommas | src/config/sandbox-allow.ts:442-457 | The loops find a comma for every pair of kept neighbours, or refuse, and keep exactly the commas wanted |
| SandboxArray.EditsSorted | src/config/sandbox-allow.ts:459-471 | Sorting the edits of all elements and then of all commas gives them lexeme by lexeme |
| SandboxEdit.ScanArrayLexical | src/config/sandbox-allow.ts:478-503 | The cursor loop finds exactly the elements and commas of the array among the lexemes, or refuses an unclosed one |
| SandboxEdit.ScanStringEnd | src/config/sandbox-allow.ts:410-428 | The cursor loop ends exactly where the string lexeme does |
| SandboxEdit.IsEscaped | src/config/sandbox-allow.ts:430-434 | True exactly behind an odd run of backslashes |
| TomlLexer.LexWritesBack | src/config/sandbox-allow.ts:478-503 | The lexemes of a text written one after another are the text |
| TomlLexer.SeparatedLex | src/config/sandbox-allow.ts:478-503 | Separated lexemes written one after another are lexed back as themselves |
| TomlStrings.LexersAgreeIff | src/config/sandbox-allow.ts:410-428 | Of a text that the source or the "String" rules of TOML v1.0.0 accept, both find the same lexemes exactly if no multi-line string is followed by one more of its own quotes, which the source takes for the start of another string |
| TomlStrings.QuotedIsRefused | src/config/sandbox-allow.ts:410-428 | A valid multi-line string that the source refuses |

## Left out

Assumptions and simplifications:

- FileLock.AtomicBackOutIsSafe: takes `createOwnedLock` as one step and the compare-and-unlink of a contender that backs out as one step; that second assumption is also shown to be necessary, and FileLock.CleanRunsAreExclusive says which runs of the two steps are exclusive without it.
- FileLock.LoneContenderEnters: takes `createOwnedLock` as one step as well, and counts steps instead of loop turns.
- File lock: marker names are fresh, process ids are not reused, a directory is listed in one step, and no file-system error occurs but a missing or existing file. Timeouts are a contender giving up at any time. The async variant is the same protocol.
- File lock, route files and mailbox clean-up are step machines on values, not classes: what they promise is about interleavings and crashes between steps.
- Ownership index: a page is its tab, the browser and surface names being constants; Project URLs and chats are canonical values; the one reported code for invalid states is told apart into bad requests, exhaustion and failed assertions. The rebuild from older index formats and the evidence about Project selection are not modelled.
- Route files: timestamps and text limits are not modelled.
- Broker: secrets are numbered in the order they are drawn, hashing is injective, the clock does not go back within or between calls, and one sweep reads the clock once for all turns. Input formats, the boot epoch and statistics are not modelled.
- Page observations: late evidence and the historical shapes of events are not modelled.
- Control requests: the clock does not go back between calls, and an operation reads it once; loops over requests visit them in the order of their numbers; late evidence on file, waiting loops and historical file and event shapes are not modelled. The same holds of the mailbox clean-up.
- ControlRequestRuns.RedeliveryCompletes: when the crash came before the first write, the event must be delivered again before the request expires, as the source then answers with the expiry.
- Mailbox clean-up: a manifest is the set of files, and the looks of one step see one moment; the migrated store is in order when it is put in place, each observation's last definitive event not newer than its latest; a pruning pass looks at the record anew for each request; what is checked of late evidence, of the kept source snapshots and of active pointers is not modelled.
- Registry: what a checkout looks like now is an input of each call, and so is whether writes succeed and clean-ups throw; a membership file is configured and readable; ids, canonical paths and Git probing are not modelled.
- Gateway: the page check is configured, as the server does. Registration lookups are an input of claims; that a lookup of a changed checkout also revokes its turns is shown in the registry only. The control-request preconditions of issuing a turn and of committing a page are left to the caller, and unregistering a workspace through the gateway is left to the registry.
- MachineGatewayTheorems.NewPageEndsOldTurns: is about the checkout that claimed the page; turns of another checkout with the same session stay live but can no longer claim.
- TOML array: characters are Unicode scalars, eight-digit escapes are not read, and a scan always runs to the end of its text. Built-in sorting is a stable sort by position. The edit is stated with the strings of the source's scanner; TomlStrings.LexersAgreeIff says where they are those of the specification.

Parts of the repository that are not modelled:

- The command line, the HTTP and MCP servers, the admin client and input schemas: plumbing.
- Installers, autostart, skills and setup rollback: external effects and path checks.
- Page health, Project selection, turn preflight and transport tokens: single-pass decisions.
- Execution records are not modelled.
- Finding the array and its table in a whole TOML file, and URL grammar: the lexer level and canonical Project ids are what the properties need.
