# First Tree: recovery and text protocols of the local client

A model, in Dafny, of the parts of the First Tree command line client and shared library whose
correctness rests on more than one function: the lock protocol that keeps one daemon per home, the
journaled switch between local clients, the single-flight token refresh, the capability refresher,
two start-up reconcilers of the file system, and three text algorithms with index arithmetic.
`dafny verify dfyconfig.toml` verifies all of it.

| files | part | form |
|---|---|---|
| Ownership*.dfy | daemon ownership lock: acquire, recover, release, repair | a transition system over the lock directory; every execution is a `Trace` |
| SwitchPlan, ClientSwitch, SwitchReturn | journaled client switch | values for the plan, a class for the disk a login works on |
| TokenRefresh | single-flight access token refresh | a class; each method is one segment of the event loop |
| CapabilityRefresh | capability refresher | a class; each method is one segment of the event loop |
| AgentDirs, FrameworkBlock, FrameworkText, WorkspaceState, WorkspaceMigration, WorkspaceKeeps, WorkspaceResume | start-up reconcilers | classes over the directories, functions for what a whole run does |
| Search, DocText, DocAnchor, DocBuild, DocContext | quote anchors of document comments | functions, and the loops proved against them |
| ShellCommand, ShellTokens, ShellWrappers | command tokenizer and shell word printers | functions, and the loop proved against them |
| Mentions, MentionPatterns | message segmentation | functions, and the loops proved against them |

## The ownership lock

One `Run` is one call of acquire or repair; a process may make any number of them. Every link, rename,
removal and whole-record read is one step, and the process query that follows a read is a step of its
own, so that anything may happen in between. A process may die between any two steps. A query may be
inconclusive at will (`doubt`), a call may throw at will (`fail`), a listing is a snapshot whose entries
are read one by one in any order, and bounded retries may end early. An assertion of the form "this
record is still mine" is one step, since the process queried is the one that asks.

Nothing is assumed of the recovery guard: an inspector may carry a live guard aside. Exclusion is proved
from the fence and the entrants alone. `OwnershipFacts` holds what each step keeps, `OwnershipProtocol`
the steps, `OwnershipSafety` the invariant over pairs of calls, `OwnershipTheorems` the guarantees over
executions. `OwnershipAlone`, `OwnershipAcquiring` and `OwnershipRepairing` follow a call that runs while
nobody else moves, through an environment that causes no trouble and lists directories in any order, by an
invariant and a measure that falls with every step; `OwnershipRecords` tells whose records can be there; and
`OwnershipScenarios` puts them together: exactly when such a call succeeds. `OwnershipReleasing` does the same for
the release of a lease, alone and among others, `OwnershipUnwinding` for a recovery that throws, and
`OwnershipFailing` says what any failed call leaves behind. `mine`, `fenced` and `drained` in a call's
variables follow the source's flags as history: `mine` and `fenced` turn false when the run moves its own
record away.

A record that cannot be removed when its lease is released is linked back, and may come back while a recovery
is at work. `released`, a history variable, remembers which calls are over; a quarantined owner is dead or one
of these (`QuarantinedDeparted`), and `OwnershipLeftover` gives an execution in which a living one gets there.

## Where the code does less than it may seem to

- Ownership repair: a takeover leaves the record it set aside in quarantine, and nothing ever removes it. When
  the next owner crashes too and the recovery after it is killed between its rename and its publication, main
  is empty, two different records are in quarantine, and repair cannot tell which one to put back. It gives
  up, and every acquirer is turned away by the fence (`AmbiguityArises`, `StuckForGood`); files have to be
  removed by hand. `LoneRepair` gives the exact condition.
- Client switch: a process killed after it wrote the switch lock and before the first journal, or between
  the two removals of `clearSwitchLock`, leaves a lock without a journal. Every later login that has a switch
  to make then fails without a change, whoever logs in (`LockedOut` in the contract of `Login`, and
  `LockOut`), and start-up stays blocked until the lock is removed by hand. A login of the same user switches
  nothing (`SignIn`). In every other state a login for the same target either completes a feasible switch or,
  when no move had been planned yet, clears the lock and asks for another login (`KilledLogins`).
- Client switch: a process killed after the journal was marked complete and before it was removed leaves the
  startup block in force although the switch is made (`Linger`); the next login that takes the switching path
  clears it.
- Document anchors: the map back to the source is not strictly increasing. A collapsed space maps to the
  character after it (`BackMapNotStrict`); `BackMap` gives the exact places where it rises.
- Shell words: an empty word is printed as two quotes and tokenized to nothing (`RoundTripExactly`).
- Workspace migration: a file with two integration blocks loses one per run (`TwoBlocks`), so a migration that
  is killed and taken up again may strip more than an undisturbed one. It always ends in the same state if and
  only if no framework file of a source root has more than one block (`ResumesExactly`).
- Workspace migration: a tree that has a `source.json` of its own, and is not among its declared sources, keeps
  that file, and the finished workspace is taken for a legacy one for good (`RecognisedAfter`,
  `Unrecognised`, `LegacyForGood`).
- Capability refresher: the fallback to the entries the refresh started from, when the current snapshot lacks
  a preserved provider, never matters: the invariant keeps those providers in the snapshot.
- Agent directories: the drop in mismatches equals the reported number of renames in every run, with or
  without failures.

## Model

| member | source | states |
|---|---|---|
| OwnershipTheorems.MutualExclusion | apps/cli/src/core/daemon-runtime-ownership.ts:1299-1536 | in every state of every execution (any interleaving of any number of calls, any deaths), two living processes that hold a returned, unreleased lease are the same call, and main holds exactly its record |
| OwnershipTheorems.OnlyOwnerWithdraws | apps/cli/src/core/daemon-runtime-ownership.ts:1299-1536 | the record of a living owner that has not released its lease leaves main only by a step of that owner: the rename of a record judged stale never carries off a lease that is held |
| OwnershipTheorems.QuarantinedDeparted | apps/cli/src/core/daemon-runtime-ownership.ts:1444-1450 | a record in quarantine is of a dead owner, or of one whose lease is released and whose record was put back because it could not be removed |
| OwnershipLeftover.LivingRecordCarriedOff | apps/cli/src/core/daemon-runtime-ownership.ts:850-854 | an execution in which the released record of a living process comes back to main because its removal failed, and a recovery that has judged another record stale carries it off: OnlyOwnerWithdraws ends with the release |
| OwnershipTheorems.DrainedHolderIsAlone | apps/cli/src/core/daemon-runtime-ownership.ts:1358-1461 | the fence/entrant handshake: after a completed drain and while its fence stands, no other living call is past the fence check, and a step of another call leaves main alone, withdraws its own record or puts that record back |
| OwnershipTheorems.MainEffect | apps/cli/src/core/daemon-runtime-ownership.ts:835-855 | what a step of a call that is neither past the fence check nor repairing may do to main: nothing, withdraw its own record, or put it back |
| OwnershipTheorems.ElectionExcludes | apps/cli/src/core/daemon-runtime-ownership.ts:1110-1228 | two living repairs are never both past the wait loop |
| OwnershipTheorems.FirstTicketFirst | apps/cli/src/core/daemon-runtime-ownership.ts:1017-1021 | bakery order: a repair whose ticket was published before another one's slot appeared is ordered before it for as long as both live and compete |
| OwnershipTheorems.NoRecordLost | apps/cli/src/core/daemon-runtime-ownership.ts:735-750 | whatever recoveries and repairs run and wherever they are killed, a record is on main or in quarantine before exactly if it is afterwards, unless its own call moved |
| OwnershipTheorems.DisplacementKeeps | apps/cli/src/core/daemon-runtime-ownership.ts:1688-1711 | the steps that set a stale main aside for a live candidate lose no record, in any state |
| OwnershipTheorems.DeadFenceRefuses | apps/cli/src/core/daemon-runtime-ownership.ts:957-971 | the fence of a dead holder stands until a repair takes it away, and until then no call that was not past its fence check when the fence was there is ever past it or holds a lease |
| OwnershipTheorems.DeadFenceStays | apps/cli/src/core/daemon-runtime-ownership.ts:957-971 | the fence of a dead holder goes exactly when a repair takes it away |
| OwnershipTheorems.DeadFenceGone | apps/cli/src/core/daemon-runtime-ownership.ts:857-876 | once it is gone, it comes back exactly when the repair that took it away cannot remove it and links it back |
| OwnershipTheorems.RepairOutcome | apps/cli/src/core/daemon-runtime-ownership.ts:1546-1769 | the step with which a repair removes the fence removes exactly the stale fence it inspected and nothing else; a living owner that has not released is then on main, and main is empty only if no record is held anywhere or the reconciled owner has withdrawn its own |
| OwnershipTheorems.RefusedStep | apps/cli/src/core/daemon-runtime-ownership.ts:1358-1364 | under a standing fence a call that is refused stays refused |
| OwnershipTheorems.StaysPut | apps/cli/src/core/daemon-runtime-ownership.ts:1319-1536 | steps of other calls leave a call where it stands |
| OwnershipSafety.Reachable | apps/cli/src/core/daemon-runtime-ownership.ts:1319-1769 | the invariant behind the theorems holds in every state of every execution |
| OwnershipSafety.DoInv | apps/cli/src/core/daemon-runtime-ownership.ts:1319-1769 | one step of any call, with any throw, any inconclusive query and any scan order, keeps the invariant |
| OwnershipSafety.DieInv | apps/cli/src/core/daemon-runtime-ownership.ts:416-452 | the death of any process at any point keeps the invariant |
| OwnershipSafety.OneRepairer | apps/cli/src/core/daemon-runtime-ownership.ts:1164-1228 | two elections that are won would each have to be behind the other |
| OwnershipSafety.DrainerApart | apps/cli/src/core/daemon-runtime-ownership.ts:973-1007 | a drain accounts for every call past its fence check before it passes |
| OwnershipSafety.ScanBehind | apps/cli/src/core/daemon-runtime-ownership.ts:1124-1162 | whoever scans for its number after another ticket is published draws a later one |
| OwnershipSafety.OtherSound | apps/cli/src/core/daemon-runtime-ownership.ts:835-855 | what a living call knows about the directory survives any step of another |
| OwnershipSafety.StepHeld | apps/cli/src/core/daemon-runtime-ownership.ts:735-761 | a step changes what main and quarantine hold together for its own record only |
| OwnershipProtocol.StepOf | apps/cli/src/core/daemon-runtime-ownership.ts:1319-1769 | each single step keeps the facts of its own call, has only the allowed effect on files others rely on, and takes only the allowed course |
| OwnershipProtocol.EnterStep | apps/cli/src/core/daemon-runtime-ownership.ts:1357-1408 | the same for entrant, fence checks, first publication, raced-recovery check and publication of the recovery guard |
| OwnershipProtocol.GuardStep | apps/cli/src/core/daemon-runtime-ownership.ts:1244-1297 | the same for quarantineStaleRecoveryGuard, which may carry a live guard aside for a moment |
| OwnershipProtocol.RecoveryStep | apps/cli/src/core/daemon-runtime-ownership.ts:1416-1511 | the same for the recovery section under guard and fence |
| OwnershipProtocol.DrainStep | apps/cli/src/core/daemon-runtime-ownership.ts:973-1015 | the same for the drain: a listing, then one read and one query per entry, stale entrants removed |
| OwnershipProtocol.CatchStep | apps/cli/src/core/daemon-runtime-ownership.ts:1512-1532 | the same for the catch and finally blocks: restoring the quarantined record without overwriting, giving up fence and guard |
| OwnershipProtocol.RemoveStep | apps/cli/src/core/daemon-runtime-ownership.ts:835-855 | the same for removeOwnedJson on main and on the fence: a record that is somebody else's, or cannot be removed, is linked back, and nothing else is (OwnershipReleasing.RemovesMain, ReleaseOutcome) |
| OwnershipProtocol.ExitStep | apps/cli/src/core/daemon-runtime-ownership.ts:1533-1535 | the same for withdrawing the entrant and releasing a lease |
| OwnershipProtocol.ElectStep | apps/cli/src/core/daemon-runtime-ownership.ts:1124-1202 | the same for the two scans over the repair slots |
| OwnershipProtocol.TicketStep | apps/cli/src/core/daemon-runtime-ownership.ts:1161-1162 | the same for publishing the ticket |
| OwnershipProtocol.CanonStep | apps/cli/src/core/daemon-runtime-ownership.ts:1048-1098 | the same for the canonical repair guard |
| OwnershipProtocol.OpenStep | apps/cli/src/core/daemon-runtime-ownership.ts:1563-1585 | the same for the opening checks of a repair |
| OwnershipProtocol.RepairStep | apps/cli/src/core/daemon-runtime-ownership.ts:1590-1753 | the same for evidence, decision, restore, reconciliation and removal of the exact stale fence, which is linked back when it cannot be removed |
| OwnershipProtocol.ReleaseStep | apps/cli/src/core/daemon-runtime-ownership.ts:1115-1121 | the same for the release of guard, ticket and slot |
| OwnershipAlone.HelpfulChoice | apps/cli/src/core/daemon-runtime-ownership.ts:1319-1769 | whatever the state, an environment that causes no trouble has a choice to make |
| OwnershipAcquiring.AcquireOn | apps/cli/src/core/daemon-runtime-ownership.ts:1357-1535 | every step of an acquirer that is alone keeps it on its course and brings it nearer to its end, whatever dead calls have left behind and in whatever order it lists the entrants |
| OwnershipAcquiring.AcquireEnds | apps/cli/src/core/daemon-runtime-ownership.ts:1357-1535 | it comes to rest |
| OwnershipAcquiring.TakeoverPasses | apps/cli/src/core/daemon-runtime-ownership.ts:1438-1458 | a takeover passes through a state in which main is empty under its own guard and fence |
| OwnershipScenarios.LoneAcquirer | apps/cli/src/core/daemon-runtime-ownership.ts:1357-1535 | an acquirer that is alone gets the lease if there is no fence and neither main nor recovery guard is of a living process, with a stale main set aside and every dead entrant removed; otherwise it is turned away and main, fence, quarantine and entrants are as before, and the recovery guard too unless it was stale and met; the files of repairs stay as they are in either case |
| OwnershipScenarios.AcquireAfterCrash | apps/cli/src/core/daemon-runtime-ownership.ts:1319-1536 | in any state of any execution in which every call that has begun is dead, the next acquirer gets the lease if and only if no fence stands |
| OwnershipRepairing.RepairOn | apps/cli/src/core/daemon-runtime-ownership.ts:1560-1758 | every step of a repair that is alone keeps it on its course and brings it nearer to its end, whatever killed recoveries and killed repairs have left behind |
| OwnershipRepairing.RepairEnds | apps/cli/src/core/daemon-runtime-ownership.ts:1560-1758 | it comes to rest |
| OwnershipRepairing.Decides | apps/cli/src/core/daemon-runtime-ownership.ts:1599-1676 | what the evidence leads to, when all quarantined owners are dead |
| OwnershipScenarios.LoneRepair | apps/cli/src/core/daemon-runtime-ownership.ts:1546-1769 | a repair that is alone clears a dead holder's fence if main is there or all quarantined records agree, and no recovery guard but the holder's stands; main then holds what it held, or the record from quarantine; otherwise it gives up, and a main that is in doubt is left alone; either way its guard, ticket and slot are gone |
| OwnershipScenarios.RepairAfterCrash | apps/cli/src/core/daemon-runtime-ownership.ts:1546-1769 | the same in any state of any execution in which every call that has begun is dead: a repair killed at any step can be run again |
| OwnershipScenarios.AcquireAfterRepair | apps/cli/src/core/daemon-runtime-ownership.ts:1319-1536 | after a repair that cleared the fence, the next acquirer that is alone gets the lease |
| OwnershipScenarios.AmbiguousStays | apps/cli/src/core/daemon-runtime-ownership.ts:1653-1676 | a small state that every repair gives up on: main is empty and two different records are in quarantine |
| OwnershipScenarios.AmbiguityArises | apps/cli/src/core/daemon-runtime-ownership.ts:1441-1458 | an execution reaches such a state: two daemons crash one after the other, and the recovery after the second is killed between its rename and its publication |
| OwnershipScenarios.StuckForGood | apps/cli/src/core/daemon-runtime-ownership.ts:1653-1676 | in such a state every repair gives up and every acquirer is turned away |
| OwnershipReleasing.LoneRelease | apps/cli/src/core/daemon-runtime-ownership.ts:1311-1315 | a holder that releases its lease while nobody else moves takes its record off main and changes nothing else |
| OwnershipReleasing.HolderReleases | apps/cli/src/core/daemon-runtime-ownership.ts:1311-1315 | the same for any holder in any state of any execution: main holds its record before and nothing afterwards |
| OwnershipReleasing.ReleaseOutcome | apps/cli/src/core/daemon-runtime-ownership.ts:835-855 | in any execution, the step that ends a release leaves the record on main if and only if the removal itself throws while the record is there, and touches nothing else |
| OwnershipReleasing.ReleasedForGood | apps/cli/src/core/daemon-runtime-ownership.ts:835-855 | a release none of whose steps throws leaves the record neither on main nor in quarantine, for good, whatever the other calls do |
| OwnershipReleasing.ReleaseAdmits | apps/cli/src/core/daemon-runtime-ownership.ts:1299-1317 | before the release the next call, alone, is turned away; after it that call gets the lease although the process that released is alive |
| OwnershipReleasing.HandOver | apps/cli/src/core/daemon-runtime-ownership.ts:1299-1536 | an execution goes on from any state in which the begun calls are dead and no fence stands: one call gets the lease and releases it, the next one gets it, and both processes live |
| OwnershipReleasing.RemovesMain | apps/cli/src/core/daemon-runtime-ownership.ts:835-855 | removeOwnedJson on main takes the call's own record, when nothing goes wrong |
| OwnershipReleasing.RemovesNothing | apps/cli/src/core/daemon-runtime-ownership.ts:835-836 | and leaves anybody else's record, or none, alone |
| OwnershipReleasing.RemovesFence | apps/cli/src/core/daemon-runtime-ownership.ts:878-887 | the same for the fence |
| OwnershipFailing.FailedWithdrawn | apps/cli/src/core/daemon-runtime-ownership.ts:1357-1536 | in any execution, a call that fails, for whatever reason, leaves its record neither on main nor in quarantine, unless a removal of its own throws |
| OwnershipFailing.FirstTry | apps/cli/src/core/daemon-runtime-ownership.ts:1366-1385 | in any execution, a call takes the lease at its first try if and only if, with its record on main, it finds no recovery guard and then no fence; otherwise it withdraws the record |
| OwnershipUnwinding.Unwinds | apps/cli/src/core/daemon-runtime-ownership.ts:1512-1535 | a recovery that has thrown, and that nothing disturbs any more, takes its own record off main, puts back the record it set aside if main is free, gives up guard and entrant, and keeps the fence exactly while main is in doubt |
| OwnershipUnwinding.FailedRecoveryUnwinds | apps/cli/src/core/daemon-runtime-ownership.ts:1512-1535 | the same from any state of any execution in which a recovery has thrown |
| OwnershipUnwinding.ThrownRecovery | apps/cli/src/core/daemon-runtime-ownership.ts:1416-1535 | wherever a lone recovery throws, main and quarantine end as they were before the call; its fence stays only if it threw with the fence up and main not yet dealt with |
| OwnershipUnwinding.StepThrows | apps/cli/src/core/daemon-runtime-ownership.ts:1416-1511 | a step of the recovery section that throws changes nothing but the fence |
| OwnershipUnwinding.OtherGuardReturned | apps/cli/src/core/daemon-runtime-ownership.ts:1244-1297 | an inspector that has carried off another guard than the one it judged puts it back and gives up |
| OwnershipRecords.AllBegun | apps/cli/src/core/daemon-runtime-ownership.ts:784-833 | in every state of every execution each name and each record in the directory is of a call that has begun |
| OwnershipRecords.AllDeserted | apps/cli/src/core/daemon-runtime-ownership.ts:784-833 | so nothing is of anybody alive once every call that has begun is dead |
| SwitchPlan.PlanFeasible | apps/cli/src/core/client-switch.ts:1020-1110 | an undisturbed switch can classify all its moves exactly if nothing is both active and parked for the old client and the two client.yaml files can be found; if so, the files afterwards are the park shift followed by the restore shift |
| SwitchPlan.Placement | apps/cli/src/core/client-switch.ts:1020-1154 | a feasible switch takes every object to its destination, no two to the same, and leaves nothing else |
| SwitchPlan.FinalAt | apps/cli/src/core/client-switch.ts:1020-1154 | what each path holds after a feasible switch |
| SwitchPlan.SwitchBack | apps/cli/src/core/client-switch.ts:1020-1154 | switching from one client to another and back restores every file to where it was, and the way back is feasible |
| SwitchPlan.Conserved | apps/cli/src/core/client-switch.ts:1129-1154 | after any prefix of any plan every object exists in exactly one place, unchanged: no move overwrites |
| SwitchPlan.RestoreUntouched | apps/cli/src/core/client-switch.ts:1020-1110 | parking leaves the parked files of every other client alone |
| SwitchPlan.ShiftStep | apps/cli/src/core/client-switch.ts:1129-1154 | a move of a group can be classified exactly if its kind is not on both sides (and client.yaml is on one), and then moves that kind only |
| SwitchPlan.GroupShift | apps/cli/src/core/client-switch.ts:1129-1154 | the same for the first moves of a whole group, both directions |
| ClientSwitch.Computer.Login | apps/cli/src/core/client-switch.ts:389-508 | from any disk that killed logins may have left, a login either leaves a state the next login can take up or completes the switch; if nothing interferes it completes exactly if the switch is feasible, asks for a retry if no move was planned, and fails with the disk unchanged on a lock without a journal or a journal for somebody else |
| ClientSwitch.Computer.CompletePendingSwitch | apps/cli/src/core/client-switch.ts:529-595 | the same for taking up a pending journal |
| ClientSwitch.Computer.StartSwitch | apps/cli/src/core/client-switch.ts:441-492 | the same for a fresh switch; without root movement in the journal nothing has changed |
| ClientSwitch.Computer.ExecutePlan | apps/cli/src/core/client-switch.ts:460-492 | both groups of moves and what follows them, from any point at which an earlier login was stopped |
| ClientSwitch.Computer.ExecuteSwitchMoves | apps/cli/src/core/client-switch.ts:1129-1154 | wherever the loop is stopped, the files and recorded moves are those of an undisturbed run at that point; it gives up only on a move such a run cannot classify either |
| ClientSwitch.Computer.ExecuteMove | apps/cli/src/core/client-switch.ts:1130-1161 | that loop on one pending entry: classify by what exists, rename, record |
| ClientSwitch.Progress | apps/cli/src/core/client-switch.ts:529-558 | a login that takes a switch up carries out either the plan of the switch or recorded moves that do nothing; its plan can be classified if the switch is feasible |
| ClientSwitch.Computer.ExecuteGroups | apps/cli/src/core/client-switch.ts:460-463 | both groups of moves, park first |
| ClientSwitch.Computer.Finish | apps/cli/src/core/client-switch.ts:464-492 | credentials, client.yaml, index, completion and clearing of the lock, in this order, each of them repeatable; killed before the journal is removed, it leaves the switch made and start-up blocked |
| ClientSwitch.Computer.FinishSwitch | apps/cli/src/core/client-switch.ts:464-490 | the same up to the journal marked complete |
| ClientSwitch.Computer.FinishIndex | apps/cli/src/core/client-switch.ts:477-490 | index, then the journal marked complete; the index written is the one RemembersOwners describes |
| ClientSwitch.Computer.FinishCredentials | apps/cli/src/core/client-switch.ts:464-470 | the target's credentials replace the old ones, or a later login can still do it |
| ClientSwitch.Computer.FinishIdentity | apps/cli/src/core/client-switch.ts:472-475 | client.yaml names the target's server and the remembered client, or else the generated one; or a later login can still do it |
| ClientSwitch.Computer.ClearSwitchLock | apps/cli/src/core/client-switch.ts:1269-1272 | the journal goes first, then the lock |
| ClientSwitch.Computer.WriteJournal | apps/cli/src/core/client-switch.ts:1282-1306 | the journal is replaced as a whole or not at all |
| ClientSwitch.Computer.ExecuteEntry | apps/cli/src/core/client-switch.ts:1129-1154 | one turn of that loop, entries of the other group and finished ones included |
| ClientSwitch.Computer.SignIn | apps/cli/src/commands/login.ts:152-189 | the login command takes an interrupted switch up, makes a switch to another user, and otherwise changes nothing; from every state that earlier logins can have left, it leaves such a state or a finished switch, with the remembered client active or else the generated one and start-up not blocked |
| ClientSwitch.SameSwitch | apps/cli/src/commands/login.ts:161-167 | until a move is planned a login has the same switch to make, and once the switch is made it has none |
| ClientSwitch.KilledLogins | apps/cli/src/core/client-switch.ts:389-595 | any number of logins, each stopped anywhere, and then undisturbed ones, end with the switch made if and only if its moves can be classified, unless a stop has left the lock without a journal |
| ClientSwitch.CompletedPlacement | apps/cli/src/core/client-switch.ts:1020-1154 | a finished switch has every object at its destination and nothing else, client.yaml apart |
| ClientSwitch.SameOutcome | apps/cli/src/core/client-switch.ts:389-595 | two completions of the same switch, however often either was killed, leave the same files, credentials and index, except for a client id that had to be generated |
| ClientSwitch.RemembersOwners | apps/cli/src/core/client-switch.ts:1211-1239 | after every finished switch the index remembers the new account with the active client and the old account with the parked one, names the owner of either, and remembers every other account and client as before |
| SwitchReturn.Visit | apps/cli/src/commands/login.ts:152-189 | one undisturbed login as another user: the switch is made, the client that account was remembered with is active, every client keeps its files and every account its client, from an index that need not know who is active |
| SwitchReturn.Visits | apps/cli/src/core/client-switch.ts:389-508 | any number of such logins of changing users: every client keeps its files, every account its client, and when the first user is back every file but client.yaml is where it was |
| SwitchReturn.KeepsHomes | apps/cli/src/core/client-switch.ts:451-456 | a finished switch leaves every account the client it had, the old one included |
| SwitchReturn.KeepsShelves | apps/cli/src/core/client-switch.ts:1020-1154 | and every client its files, active or parked |
| SwitchReturn.StaysTidy | apps/cli/src/core/client-switch.ts:389-508 | and leaves a disk on which every next switch can be made |
| SwitchReturn.TidyFeasible | apps/cli/src/core/client-switch.ts:1020-1110 | on such a disk every switch is feasible |
| SwitchReturn.ShelvesPlaced | apps/cli/src/core/client-switch.ts:1020-1154 | with the same client active again and everybody's files kept, every file is where it was |
| ClientSwitch.BlockedWhileMoving | apps/cli/src/core/client-switch.ts:275-280 | the startup block is in force, and the journal shows root movement, in every state in which anything was moved and the switch is not complete |
| ClientSwitch.NoRestoreBeforePark | apps/cli/src/core/client-switch.ts:460-464 | while the persisted journal has a park entry pending, the parked files of every other client are untouched |
| ClientSwitch.NothingLost | apps/cli/src/core/client-switch.ts:1129-1154 | wherever the moves are cut off, every object the switch found exists in exactly one place, unchanged |
| ClientSwitch.IndexedTwice | apps/cli/src/core/client-switch.ts:1211-1239 | writing the index again after a kill changes nothing |
| ClientSwitch.Stuck | apps/cli/src/core/client-switch.ts:1163-1168 | a move that cannot be classified on resumption cannot be classified by an undisturbed run |
| ClientSwitch.Renamed | apps/cli/src/core/client-switch.ts:1149-1151 | a rename that is still to be made takes the files to the next point of an undisturbed run |
| ClientSwitch.Recorded | apps/cli/src/core/client-switch.ts:1134-1161 | a move found already made, or without anything to move, is recorded as an undisturbed run records it |
| ClientSwitch.LockOut | apps/cli/src/core/client-switch.ts:423-442 | a login killed between taking the lock and writing the first journal, and a later login of anybody with a switch to make, which fails without a change |
| ClientSwitch.Linger | apps/cli/src/core/client-switch.ts:489-492 | a login killed when its journal is marked complete: the switch is made and start-up stays blocked |
| TokenRefresh.Refresher.EnsureFresh | apps/cli/src/core/bootstrap.ts:263-296 | a request is started exactly when the token is stale, its authority is not latched and no unfinished flight carries the stored snapshot; otherwise the answer is exactly an abort, missing credentials, the fresh token or the latched failure, in this order |
| TokenRefresh.Refresher.StartRefresh | apps/cli/src/core/bootstrap.ts:298-316 | the new flight takes the slot; any other unfinished flight is of an earlier epoch of the credentials |
| TokenRefresh.Refresher.JoinOrStart | apps/cli/src/core/bootstrap.ts:287-296 | joins the flight with the stored snapshot, or starts one |
| TokenRefresh.Refresher.PickFlight | apps/cli/src/core/bootstrap.ts:287-295 | the flight picked is the one in the slot and carries the stored credentials |
| TokenRefresh.Refresher.Join | apps/cli/src/core/bootstrap.ts:379-384 | one more waiter, and the count is right again |
| TokenRefresh.Refresher.Responded | apps/cli/src/core/bootstrap.ts:318-354 | each outcome if and only if: Aborted when the flight was aborted or timed out, and otherwise by the response a 429 with the server's delay or 30 seconds, a 401 terminal and latched while the stored credentials are the flight's own and superseded when they are not, an HTTP error for any other failing status, a transport error for a failed fetch |
| TokenRefresh.Refresher.BodyRead | apps/cli/src/core/bootstrap.ts:356-377 | a token is persisted and returned if and only if the flight is not aborted and the stored credentials still equal its snapshot; Aborted, Superseded and Transport each exactly when they are due |
| TokenRefresh.Refresher.Settle | apps/cli/src/core/bootstrap.ts:309-314 | an old flight settling never clears a newer one from the slot |
| TokenRefresh.Refresher.Leave | apps/cli/src/core/bootstrap.ts:385-393 | a flight is aborted, and leaves the slot, exactly when its last waiter departs on its own abort |
| TokenRefresh.Refresher.Abort | apps/cli/src/core/bootstrap.ts:396-422 | an abort answers the caller it belongs to and no other |
| TokenRefresh.Refresher.Wake | apps/cli/src/core/bootstrap.ts:381-384 | a waiting caller resumes with the outcome of its own flight |
| TokenRefresh.Refresher.Replace | apps/cli/src/core/bootstrap.ts:231-240 | after a login, a logout or a switch of homes no flight belongs to the current credentials |
| TokenRefresh.HearsResponse | apps/cli/src/core/bootstrap.ts:298-393 | followed through settling, waking and leaving, a waiting caller hears exactly the outcome due to the response |
| TokenRefresh.HearsBody | apps/cli/src/core/bootstrap.ts:356-393 | and exactly the outcome due to the body, with the credentials stored then |
| TokenRefresh.Deliver | apps/cli/src/core/bootstrap.ts:309-393 | a flight's outcome reaches a waiting caller unchanged, and the slot is free |
| TokenRefresh.StageSet | apps/cli/src/core/bootstrap.ts:298-316 | progress of a flight keeps the slot, the waiter counts and what callers heard |
| TokenRefresh.SettledSet | apps/cli/src/core/bootstrap.ts:309-314 | so does settling |
| TokenRefresh.JoinedSet | apps/cli/src/core/bootstrap.ts:379-384 | so does a new waiter |
| TokenRefresh.LeftSet | apps/cli/src/core/bootstrap.ts:385-393 | so does a departing one: an aborted flight has no waiters, an unfinished one has some |
| TokenRefresh.Launched | apps/cli/src/core/bootstrap.ts:298-316 | the slot is free for the only unsettled, unaborted flight of the epoch |
| CapabilityRefresh.Refresher.RunRefresh | apps/cli/src/core/capability-refresh.ts:290-302 | at most one refresh is in flight, and one that starts takes a pending reconnect with it |
| CapabilityRefresh.Refresher.ProbeDone | apps/cli/src/core/capability-refresh.ts:304-373 | a probe that returns is merged and goes on to its upload; one that failed backs off, polls again unless there is nothing to poll for, and drains a reconnect; one that is late for pause or stop neither uploads nor re-arms |
| CapabilityRefresh.Refresher.MergeProbe | apps/cli/src/core/capability-refresh.ts:317-338 | the merge keeps what was written since the probe started and what is in interactive login, and takes the probe's entry for every other provider |
| CapabilityRefresh.Refresher.RunUploaded | apps/cli/src/core/capability-refresh.ts:261-288 | only an upload that settled well counts as accepted |
| CapabilityRefresh.Refresher.RunDone | apps/cli/src/core/capability-refresh.ts:350-373 | afterwards nothing is armed if and only if the refresher may not work or there is nothing to poll for, only an unchanged and synced poll backs off, and a pending reconnect starts the next refresh |
| CapabilityRefresh.Refresher.EndRun | apps/cli/src/core/capability-refresh.ts:363-373 | the finally block: re-arm, leave, drain a reconnect |
| CapabilityRefresh.Refresher.OnRegistered | apps/cli/src/core/capability-refresh.ts:170-199 | a reconnect starts a refresh or is recorded for after the one in flight; a recorded one is left behind if and only if the registration is none, no refresh is in flight and there is a snapshot to upload |
| CapabilityRefresh.Misreported | apps/cli/src/core/capability-refresh.ts:194-199 | a history in which a later registration reported as no reconnect would leave a reconnect behind |
| CapabilityRefresh.Refresher.Start | apps/cli/src/core/capability-refresh.ts:141-158 | the first registration leaves a refresh or an upload under way |
| CapabilityRefresh.Refresher.SetProviderEntry | apps/cli/src/core/capability-refresh.ts:218-232 | the entry is in the snapshot, is remembered against probes in progress, and is uploaded unless the server was told the same |
| CapabilityRefresh.Refresher.Record | apps/cli/src/core/capability-refresh.ts:219-221 | the latest entry of the provider is remembered, against probes in progress too |
| CapabilityRefresh.Refresher.BeginInteractive | apps/cli/src/core/capability-refresh.ts:240-242 | the provider is one whose entry a merge keeps |
| CapabilityRefresh.Refresher.EndInteractive | apps/cli/src/core/capability-refresh.ts:245-247 | and no longer is |
| CapabilityRefresh.Refresher.ScheduleNext | apps/cli/src/core/capability-refresh.ts:383-410 | nothing is armed afterwards if and only if the refresher is stopped or paused, or the snapshot is there, every probed provider in it is ok and the last upload said what it says |
| CapabilityRefresh.Refresher.Send | apps/cli/src/core/capability-refresh.ts:261-267 | nothing is sent that the server was last told |
| CapabilityRefresh.Refresher.JobDone | apps/cli/src/core/capability-refresh.ts:218-232 | start() and setProviderEntry() re-arm when they end, under the same condition |
| CapabilityRefresh.Refresher.JobUploaded | apps/cli/src/core/capability-refresh.ts:261-267 | the upload of a job settles |
| CapabilityRefresh.Refresher.TimerFired | apps/cli/src/core/capability-refresh.ts:396-399 | a poll starts a refresh of the snapshot as it is, unless one is in flight |
| CapabilityRefresh.Refresher.Pause | apps/cli/src/core/capability-refresh.ts:187-191 | nothing stays armed |
| CapabilityRefresh.Refresher.Stop | apps/cli/src/core/capability-refresh.ts:176-179 | nothing stays armed |
| CapabilityRefresh.PollsUntilConverged | apps/cli/src/core/capability-refresh.ts:339-410 | after the first registration a refresher that may work has a refresh, an upload or a poll outstanding, or every provider is ok and an accepted upload said what the snapshot says |
| CapabilityRefresh.PollsExactly | apps/cli/src/core/capability-refresh.ts:383-410 | with nothing else outstanding a poll is armed exactly as long as a provider is missing or not ok, or the last upload said something else |
| CapabilityRefresh.HealthyStart | apps/cli/src/core/capability-refresh.ts:141-199 | a first registration with a healthy snapshot whose upload succeeds ends with nothing armed, no refresh and no upload outstanding |
| CapabilityRefresh.HealthyProbe | apps/cli/src/core/capability-refresh.ts:141-410 | so does one without a snapshot whose probe finds every provider ok |
| CapabilityRefresh.PollRound | apps/cli/src/core/capability-refresh.ts:290-410 | after a poll from any state, nothing is armed if and only if every provider is ok and the server knows |
| CapabilityRefresh.HealthyPoll | apps/cli/src/core/capability-refresh.ts:290-410 | a poll that finds every provider ok and whose upload succeeds is the last one |
| CapabilityRefresh.SameMeaning | apps/cli/src/core/capability-refresh.ts:261-267 | two snapshots count as the same upload exactly if their providers agree in all but the volatile parts |
| CapabilityRefresh.NoLostReconnect | apps/cli/src/core/capability-refresh.ts:165-199 | a pending reconnect has a refresh in flight that will drain it |
| CapabilityRefresh.MergedKeeps | apps/cli/src/core/capability-refresh.ts:320-338 | the merge for every probe result, set of interactive providers and history of writes |
| CapabilityRefresh.WriteKept | apps/cli/src/core/capability-refresh.ts:218-221 | a write during a probe is kept by it |
| DocText.NormalizeWithMap | packages/shared/src/doc-anchor.ts:36-57 | the loop computes the normalized text and the map back |
| DocText.ScanNormalizes | packages/shared/src/doc-anchor.ts:36-61 | its text is what normalize() computes by two replacements |
| DocText.BackMap | packages/shared/src/doc-anchor.ts:36-57 | the map is total, into the source, on the right characters, and rises strictly at every character but not from a collapsed space to the character after it |
| DocText.BackMapNotStrict | packages/shared/src/doc-anchor.ts:48-51 | a concrete source on which the map is not strictly increasing |
| DocText.SliceBack | packages/shared/src/doc-anchor.ts:130-134 | a slice of the view that begins and ends with a character is the normal form of the raw text it maps back to |
| DocText.NormalizeIdempotent | packages/shared/src/doc-anchor.ts:59-61 | normalizing twice changes nothing |
| DocAnchor.FindAllOccurrences | packages/shared/src/doc-anchor.ts:73-82 | the loop lists the occurrences |
| DocAnchor.OccurrencesComplete | packages/shared/src/doc-anchor.ts:73-82 | a place is listed if and only if the needle occurs there, overlapping ones included |
| DocAnchor.OccurrencesInOrder | packages/shared/src/doc-anchor.ts:73-82 | in order and without repetition |
| DocAnchor.PrefixOverlapLongest | packages/shared/src/doc-anchor.ts:93-98 | the count is the length of the longest common prefix |
| DocAnchor.SuffixOverlapLongest | packages/shared/src/doc-anchor.ts:85-90 | the count is the length of the longest common suffix |
| DocAnchor.PickOccurrence | packages/shared/src/doc-anchor.ts:102-127 | the loop picks the occurrence Pick describes |
| DocAnchor.PickIsBest | packages/shared/src/doc-anchor.ts:102-127 | the occurrence picked is one of those given and none fits the context better |
| DocAnchor.BestIsBest | packages/shared/src/doc-anchor.ts:114-125 | among equally good occurrences the first is picked |
| DocAnchor.BuildDocAnchor | packages/shared/src/doc-anchor.ts:155-185 | the anchor or null, with every length limit |
| DocAnchor.LocateInNormalized | packages/shared/src/doc-anchor.ts:187-196 | the range or null |
| DocAnchor.LocateDocAnchors | packages/shared/src/doc-anchor.ts:213-216 | many anchors against one view are located as each on its own |
| DocAnchor.RangeValid | packages/shared/src/doc-anchor.ts:130-134 | a quote found in the view maps back to raw text with that normal form |
| DocAnchor.RoundTrip | packages/shared/src/doc-anchor.ts:155-196 | an anchor that can be built is located again in its source at text that normalizes to the selection: the identical range when the quote occurs once, else one the stored context fits at least as well |
| DocBuild.BuildExactly | packages/shared/src/doc-anchor.ts:155-177 | an anchor can be built if and only if the selection is not blank, is at most 2000 characters long, occurs in the view, and is at most 2000 raw characters long where the context picks it |
| DocBuild.ContextStored | packages/shared/src/doc-anchor.ts:178-185 | the stored context is the raw text of the 48 characters before the range and the 48 behind it, or as many as there are; none where there is none |
| DocBuild.ScoreCounts | packages/shared/src/doc-anchor.ts:114-121 | the score counts the characters the context shares with the text around an occurrence, as far as 200 each way |
| DocContext.LocatedInContext | packages/shared/src/doc-anchor.ts:155-196 | an anchor is located only where the surrounding text agrees with the stored context in all but the spaces trimmed at the ends of the source (at most two characters); where none was trimmed, only where all of the stored context is found |
| DocContext.StoredFits | packages/shared/src/doc-anchor.ts:178-185 | at the place it was taken from the stored context scores its length less the spaces trimmed at the ends of the source |
| ShellCommand.TokenizeSimpleShell | packages/shared/src/shell-command-io.ts:202-276 | the index loop computes Tokenize |
| ShellCommand.TokenizePrinted | packages/shared/src/shell-command-io.ts:202-276 | any words, each printed by any of the three printers and joined by spaces, tokenize to exactly the non-empty ones, in order, none dynamic |
| ShellCommand.RoundTripExactly | packages/shared/src/shell-command-io.ts:202-276 | the round trip gives the words back if and only if there are some and none is empty |
| ShellCommand.LexPrinted | apps/cli/src/core/posix-shell.ts:3-5 | one printed word is read back literally, whatever it contains |
| ShellCommand.LexQuoteMark | packages/shared/src/connect-bootstrap.ts:10-12 | both spellings of a quote mark inside quotes are read as one quote mark |
| ShellCommand.LexSafe | packages/shared/src/connect-bootstrap.ts:14-16 | what shellArg leaves unquoted is read back literally |
| ShellCommand.WrapTokens | packages/shared/src/shell-command-io.ts:553-575 | a wrapper tokenizes to its shell, its flag and its command as one token |
| ShellCommand.StripWrap | packages/shared/src/shell-command-io.ts:528-551 | stripping a wrapper for display gives its command back |
| ShellCommand.WrapClassified | packages/shared/src/shell-command-io.ts:553-593 | a wrapper is looked through below the bound and refused as a mutation at it |
| ShellCommand.WrappersUnchanged | packages/shared/src/shell-command-io.ts:553-593 | up to two wrappers around a command that is not one leave its classification unchanged, whatever the classifiers of the single tools say; three or more are a mutation whatever is inside |
| ShellTokens.TokenizeExactly | packages/shared/src/shell-command-io.ts:202-276 | every command is given its meaning: refused as too complex if and only if an operator or the beginning of a comment is unquoted or a quote or escape does not end, refused as empty if it has no word, and otherwise its words |
| ShellTokens.TokensExactly | packages/shared/src/shell-command-io.ts:202-276 | a token is what is taken of the text between two unquoted white spaces, and is dynamic if and only if that text has a dollar sign or backtick that is neither escaped nor in single quotes |
| ShellWrappers.ShellsExactly | packages/shared/src/shell-command-io.ts:553-584 | a shell never reaches the classifiers of the tools: a static command in it is looked through up to twice, everything else is a mutation |
| ShellWrappers.StripsExactly | packages/shared/src/shell-command-io.ts:528-551 | only a wrapper is stripped for display |
| ShellWrappers.BasenameLast | packages/shared/src/shell-command-io.ts:278-282 | a command is known by the last part of its path in lower case, wherever it lies and whatever slashes follow |
| Mentions.CodeRanges | packages/shared/src/mentions.ts:111-132 | the merged ranges cover exactly what the raw ranges cover, and are apart and in order |
| MentionPatterns.FencesScan | packages/shared/src/mentions.ts:111-115 | the fenced regions are matches in order, and no match begins outside of them |
| MentionPatterns.InlinesScan | packages/shared/src/mentions.ts:111-115 | so is the inline code |
| MentionPatterns.RawExactly | packages/shared/src/mentions.ts:111-115 | a raw range is listed if and only if one of the three patterns matches it behind the earlier matches of that pattern |
| MentionPatterns.MentionExactly | packages/shared/src/mentions.ts:37 | there is a mention at a place, and where it ends, exactly as the pattern says: its look-behind, 1 to 64 characters, its look-ahead |
| Mentions.MergeRanges | packages/shared/src/mentions.ts:118-131 | the folding loop, for any ranges sorted by start |
| Mentions.SortOrdered | packages/shared/src/mentions.ts:116-117 | sorting orders the ranges and keeps them |
| Mentions.IsInCodeRange | packages/shared/src/mentions.ts:134-142 | the early exit agrees with membership in the union |
| Mentions.MatchesComplete | packages/shared/src/mentions.ts:37 | scanning on behind a match never skips another match |
| Mentions.SegmentMentions | packages/shared/src/mentions.ts:167-200 | the segments tile the message, none is empty, no two texts are neighbours, and the mentions are exactly the resolved matches outside code, in place |
| Mentions.SegmentMatches | packages/shared/src/mentions.ts:177-199 | the loop over the matches |
| Mentions.SegmentMatch | packages/shared/src/mentions.ts:179-195 | one turn of that loop |
| Mentions.ChipIffMention | packages/shared/src/mentions.ts:167-200 | there is a mention at a place if and only if the pattern matches there, no code pattern covers the place, and a participant has that name (the last one wins) |
| AgentDirs.AgentHome.Migrate | apps/cli/src/core/migrate-agent-dirs.ts:154-301 | for every pattern of failures no entry is lost, doubled or overwritten, one that moved is under the name the server gives it, and the number of mismatches drops by exactly what is reported as renamed; without failures the run is Pass, and a renamed agent's workspace directory and session file are under its new name wherever that was free |
| AgentDirs.AgentHome.MigrateOne | apps/cli/src/core/migrate-agent-dirs.ts:192-301 | one turn of the loop |
| AgentDirs.AgentHome.Rename | apps/cli/src/core/migrate-agent-dirs.ts:243-300 | the renames of one agent; without failures its workspace directory and session file follow onto free names |
| AgentDirs.AgentHome.Follow | apps/cli/src/core/migrate-agent-dirs.ts:256-297 | workspace and session renames that follow never overwrite, and without failures are made exactly onto free names |
| AgentDirs.FollowAlong | apps/cli/src/core/migrate-agent-dirs.ts:256-297 | a rename with what follows it keeps that every agent's files are where its name is, wherever that name was free |
| AgentDirs.RenameSettles | apps/cli/src/core/migrate-agent-dirs.ts:235-254 | a rename onto a free name settles exactly one mismatch |
| AgentDirs.RenameReconciles | apps/cli/src/core/migrate-agent-dirs.ts:235-254 | and keeps every entry |
| AgentDirs.PassDecreases | apps/cli/src/core/migrate-agent-dirs.ts:192-301 | a run that changes anything has fewer mismatches left |
| AgentDirs.FixedPoint | apps/cli/src/core/migrate-agent-dirs.ts:192-301 | a run changes nothing if and only if every mismatch is blocked by an existing target |
| AgentDirs.Converges | apps/cli/src/core/migrate-agent-dirs.ts:192-301 | against fixed server names start-ups settle within as many runs as there are mismatches, and stay settled |
| FrameworkBlock.StripOnce | apps/cli/src/core/migrate-workspace.ts:514-547 | stripping a file twice is stripping it once if and only if it has no block or none is left when its first block is cut out |
| FrameworkBlock.TwoBlocks | apps/cli/src/core/migrate-workspace.ts:514-547 | a file with two blocks, which loses one with each run |
| FrameworkBlock.BlockAlike | apps/cli/src/core/migrate-workspace.ts:531-539 | shortening runs of line breaks neither makes nor destroys a block |
| FrameworkText.StripsBlock | apps/cli/src/core/migrate-workspace.ts:514-547 | stripping leaves the text before the first block and the text behind it less one line feed, with runs of line feeds shortened and a line feed at the end; every other character is kept, in order |
| FrameworkText.StripsNothing | apps/cli/src/core/migrate-workspace.ts:532-534 | a file without a block is left as it is |
| FrameworkText.Pieces | apps/cli/src/core/migrate-workspace.ts:55-56 | a text has a block if and only if it can be taken apart around a first BEGIN and the first END behind it, which it can in one way only |
| FrameworkText.SqueezeRun | apps/cli/src/core/migrate-workspace.ts:538 | a run of line feeds becomes at most two, and what stands around it is treated on its own |
| FrameworkText.NoThreeFeeds | apps/cli/src/core/migrate-workspace.ts:538 | no three line feeds in a row are left |
| FrameworkText.SqueezeInk | apps/cli/src/core/migrate-workspace.ts:538 | and every other character is kept, in order |
| FrameworkText.UnixEnding | apps/cli/src/core/migrate-workspace.ts:531 | a carriage return and line feed become a line feed |
| FrameworkText.UnixPlain | apps/cli/src/core/migrate-workspace.ts:531 | and a text without them is unchanged |
| WorkspaceState.StrippedTwice | apps/cli/src/core/migrate-workspace.ts:514-547 | the same for a file that may be missing |
| WorkspaceState.CleanAbsorbs | apps/cli/src/core/migrate-workspace.ts:582-616 | cleaning a source that was cleaned in part gives what cleaning it once gives |
| WorkspaceState.CleanTwice | apps/cli/src/core/migrate-workspace.ts:582-616 | cleaning a clean source changes nothing if and only if its framework files had at most one block each |
| WorkspaceMigration.Detect | apps/cli/src/core/migrate-workspace.ts:265-390 | exactly when each classification of a workspace is given, and the tree, the source roots and the missing names of a legacy one |
| WorkspaceMigration.FindRoots | apps/cli/src/core/migrate-workspace.ts:323-381 | the source roots are those of the bindings, of source.json files and of the manifest |
| WorkspaceMigration.Disk.TryRemove | apps/cli/src/core/migrate-workspace.ts:549-558 | a removal, unless the process is killed first |
| WorkspaceMigration.Disk.CleanSource | apps/cli/src/core/migrate-workspace.ts:582-616 | killed anywhere, it leaves a source cleaned in part; otherwise clean |
| WorkspaceMigration.Disk.CleanTree | apps/cli/src/core/migrate-workspace.ts:618-644 | the same for the tree, whose bindings go one by one |
| WorkspaceMigration.Disk.CleanSources | apps/cli/src/core/migrate-workspace.ts:751-754 | the loop over the source roots |
| WorkspaceMigration.Disk.MigrateSources | apps/cli/src/core/migrate-workspace.ts:740-754 | manifest, then the source roots |
| WorkspaceMigration.Disk.MigrateTree | apps/cli/src/core/migrate-workspace.ts:756-766 | tree, then the marker |
| WorkspaceMigration.Disk.Migrate | apps/cli/src/core/migrate-workspace.ts:688-769 | the exact final state when it is not killed, and what it can leave when it is |
| WorkspaceMigration.Disk.Run | apps/cli/src/core/migrate-workspace.ts:265-769 | detection and migration together |
| WorkspaceKeeps.MigrationKeeps | apps/cli/src/core/migrate-workspace.ts:582-766 | a finished migration entry by entry: only roots and tree are touched, their legacy state is gone, the state directory stays if anything else is in it, framework files keep their text, and the manifest names the tree and exactly the roots that are neither the tree nor hidden |
| WorkspaceKeeps.CleanKeeps | apps/cli/src/core/migrate-workspace.ts:582-644 | the same for one child directory |
| WorkspaceResume.SameDetection | apps/cli/src/core/migrate-workspace.ts:265-390 | wherever a migration was killed, while the marker stands detection finds the same tree and the same source names |
| WorkspaceResume.DetectedAgain | apps/cli/src/core/migrate-workspace.ts:289-293 | and it takes the workspace branch |
| WorkspaceResume.Starts | apps/cli/src/core/migrate-workspace.ts:688-769 | a workspace to be migrated is such a state |
| WorkspaceResume.Resumes | apps/cli/src/core/migrate-workspace.ts:740-766 | from such a state a run ends where an undisturbed one ends and, killed, leaves another such state |
| WorkspaceResume.ResumesExactly | apps/cli/src/core/migrate-workspace.ts:740-766 | all such states resume to the undisturbed end if and only if no framework file of a source root has more than one block |
| WorkspaceResume.BetweenEnds | apps/cli/src/core/migrate-workspace.ts:751-757 | the kill that shows it: after the last source is clean and before the tree is touched |
| WorkspaceResume.KilledOnce | apps/cli/src/core/migrate-workspace.ts:265-769 | a run killed there and the run after it: the undisturbed end is reached if and only if no file has more than one block |
| WorkspaceResume.KilledOften | apps/cli/src/core/migrate-workspace.ts:265-769 | any number of runs killed after any numbers of writes, and a last one that is not, reach the undisturbed end |
| WorkspaceResume.RecognisedAfter | apps/cli/src/core/migrate-workspace.ts:289-293 | a finished migration is recognised as one if and only if the tree has no source.json of its own, or its bindings declare the tree as a source |
| WorkspaceResume.Unrecognised | apps/cli/src/core/migrate-workspace.ts:289-293 | a workspace whose finished migration is not recognised |
| WorkspaceResume.LegacyForGood | apps/cli/src/core/migrate-workspace.ts:295-366 | every later run takes such a workspace for a legacy one again and leaves it as it is |

## Left out

- OwnershipProtocol.TicketStep: temporary publication files and their cleanup are omitted; publishing is the exclusive link alone.
- Lock directory: record contents are complete and well-formed; parsing, fsync, fingerprints other than equality of records, and path canonicalisation are not modelled.
- Process inspection: the queries of the operating system are replaced by the dead set and an inconclusive answer at will; reuse of a process number is a new process.
- Bounded waits of the lock protocol: a wait may last for any number of rounds, so no deadline is modelled.
- Status and doctor reports built from the recovery evidence.
- ClientSwitch.Computer.Login: confirmation prompt, assertClientSwitchCanStart, receipts cleanup and the exact error texts are left out; stopping the service, the drain scan over provider processes and the same-device check are steps that may throw.
- ClientSwitch.Computer.SignIn: what a login of the same user stores (tokens, server, owner) is left out, as is the refusal of credentials without an owner.
- SwitchReturn.Visits: generated client ids are assumed to be new to the disk, as random identifiers are; logins of the same user in a row are left out.
- ClientSwitch.Computer.Effect: a file is written as a whole or not at all, since the source writes journal and index through a temporary file; client.yaml and credentials.json are treated alike.
- Purging the switch journal and lock on logout: a deliberate reset outside the switch.
- TokenRefresh.Refresher.EnsureFresh: whether a token is stale is an input; the lead time arithmetic on token expiry is not modelled, nor is the parsing of the retry-after header.
- TokenRefresh.Refresher.Responded: the ten second limit of a request is an input.
- CapabilityRefresh.Refresher.ScheduleNext: the delay of an armed poll is represented by its attempt number; the backoff arithmetic is left out.
- CapabilityRefresh.Refresher.Send: the sorted JSON text that is compared is represented by the map it prints.
- DocAnchor.LocateInNormalized: strings are sequences of characters and indices count them; the source counts UTF-16 units.
- ShellCommand.WrappersUnchanged: the classifiers of single tools (sed, grep, find and others) are a parameter; the statement holds for all of them. Lower case is that of ASCII letters.
- Mentions.SegmentMentions: lower-casing is a parameter. extractMentions and stripCode are left out; the source does not promise that stripCode agrees with the code ranges.
- AgentDirs.AgentHome.Migrate: the HTTP lookup of names is a function of the agent; a failing lookup ends the run. Reading and writing agent.yaml and the renaming inside a workspace are steps that may throw.
- WorkspaceMigration.Detect: source names are names of child directories. Names with path separators and the promotable single repository are left out, as are malformed manifests and bindings.
- WorkspaceMigration.Disk.Migrate: dry runs, the report of removed files and its warnings are left out; the recursive removal of a skill directory is one step.
