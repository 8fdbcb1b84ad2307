/**
 The daemon ownership lock as a transition system over the `state` directory.

 One `Run` is one call of acquire or repair; it stands for the instance id the call
 draws and for every record it publishes.  A process may make any number of calls, and a
 record is alive exactly while its process is.  Every link, rename, remove and
 whole-record read is one step; an inspection is a read followed, as a step of its own, by the
 process query.  The query may answer "untrusted" at will (`doubt`) and any call may
 throw (`fail`), which also covers the source's bounded waits running out.
 A process may die between any two steps.
 */
module OwnershipState {
  import opened Options

  datatype Run = Run(proc: nat, id: nat)

  /** Entries of the two scanned directories of records: the published name, or a
      `.cleanup.` alias, which still carries the scanned prefix. */
  datatype FileName = Own(run: Run) | Alias(run: Run, n: nat)

  datatype Verdict = Live | Stale | Untrusted

  /** Which of the two calls of quarantineStaleRecoveryGuard is running. */
  datatype Guarding = First | Second

  /** What follows a pair of "still mine" assertions inside the recovery section. */
  datatype Stage = ToDrain | ToInspect | ToMove(x: Run) | AfterMove(x: Run) | ToRepublish | ToConfirm

  /** The stale fence a repair reconciles: its instance id and the record fingerprinted. */
  datatype Target = Target(inst: Run, content: Run)

  datatype Who = Holder | Repairer(t: Target)

  datatype ScanPhase = Choose(max: nat) | Wait(blocked: bool)

  datatype MainSeen = MainAbsent | MainLive(owner: Run) | MainStale(owner: Run)

  /** One quarantine file as the repair evidence saw it. */
  datatype Candidate = Gone(n: Run) | Seen(n: Run, x: Run, live: bool)

  datatype RepairStage =
    | ToSurvey
    | ToRestore(n: Run, undo: bool)
    | ToDisplace(x: Run, n: Run)
    | ToLegacy(kept: Option<Run>)
    | ToUnfence(kept: Option<Run>)

  datatype AfterMain = Raced | Failing | Releasing
  datatype AfterFence = Finishing | CatchFence | FinallyFence

  /** acquireDaemonRuntimeOwnership up to the recovery section. */
  datatype EnterPc =
    | Idle
    | Fence1
    | Fence2(k: Guarding)
    | LinkMain
    | RacedRecovery
    | RacedFence(seen: bool)
    | ReadMain
    | JudgeMain(x: Run)
    | LinkRecovery

  /** quarantineStaleRecoveryGuard. */
  datatype GuardPc =
    | GuardRead(a: nat)
    | GuardJudge(a: nat, x: Run)
    | GuardReread(a: nat, x: Run)
    | GuardRejudge(a: nat, x: Run, y: Run)
    | GuardMove(a: nat, x: Run)
    | GuardCheck(x: Run, aside: Run)

  /** The `try` of the recovery section. */
  datatype RecoveryPc =
    | AssertGuard
    | LinkFence
    | HoldGuard(st: Stage)
    | HoldFence(st: Stage)
    | Inspect
    | JudgeInspect(x: Run)
    | MoveMain(x: Run)
    | CheckMoved(x: Run)
    | Republish
    | Confirm
    | ConfirmAgain
    | ConfirmGuard

  /** drainOwnershipEntrants, run by the fence holder and by repair. */
  datatype DrainPc =
    | DrainSnapshot
    | DrainScan(todo: set<FileName>, blocked: bool)
    | DrainJudge(todo: set<FileName>, blocked: bool, name: FileName, x: Run)
    | DrainDrop(todo: set<FileName>, blocked: bool, name: FileName)
    | DrainErase(todo: set<FileName>, blocked: bool, was: FileName, name: FileName)

  /** `catch` and `finally`. */
  datatype CatchPc =
    | RestoreEarly
    | EarlyUnlink
    | CatchOwner
    | RestoreLink
    | RestoreUnlink
    | RestoreVerify
    | CatchUnfence
    | FinallyGuard
    | FinallyGuardMove
    | FinallyGuardCheck(aside: Run)
    | FinallyUnfence

  /** The outer `finally`, and the outcomes. */
  datatype ExitPc =
    | FinallyEntrant
    | EraseEntrant(n: nat)
    | Leased
    | Released
    | Failed

  /** removeOwnedJson on main and on the fence. */
  datatype RemovePc =
    | RmMain(ret: AfterMain)
    | RmMainMove(ret: AfterMain)
    | RmMainCheck(ret: AfterMain, aside: Run)
    | RmFence(back: AfterFence)
    | RmFenceMove(back: AfterFence)
    | RmFenceCheck(back: AfterFence, aside: Run)

  /** acquireOwnershipRepairLease: slot, ticket, wait. */
  datatype ElectPc =
    | ElectSnapshot
    | ElectScan(names: set<FileName>)
    | ElectJudge(names: set<FileName>, name: FileName, x: Run)
    | ElectTicket(names: set<FileName>, x: Run)
    | DropTicket(names: set<FileName>, name: FileName, x: Run)
    | DropSlot(names: set<FileName>, name: FileName)
    | EraseSlot(names: set<FileName>, was: FileName, name: FileName)

  /** acquireCanonicalOwnershipRepairGuard. */
  datatype CanonPc =
    | CanonRead(a: nat)
    | CanonJudge(a: nat, x: Run)
    | CanonCheck(a: nat, x: Run)
    | CanonMove(a: nat, x: Run)
    | CanonMoved(a: nat, x: Run, aside: Run)
    | CanonLink(a: nat)
    | CanonAssert

  /** repairDaemonRuntimeOwnership up to the drain. */
  datatype OpenPc =
    | OpenOwned
    | ReadFence
    | JudgeFence(x: Run)
    | PrintFence(x: Run)

  /** repairDaemonRuntimeOwnership after the drain.  `kept` is the reconciled main record, None
      for the "empty" state. */
  datatype RepairPc =
    | RepairOwned(rs: RepairStage)
    | RepairExact(rs: RepairStage)
    | SurveyMain
    | SurveyJudge(x: Run)
    | SurveySnapshot(m: MainSeen)
    | SurveyScan(m: MainSeen, left: set<Run>, cands: set<Candidate>)
    | SurveyFound(m: MainSeen, left: set<Run>, cands: set<Candidate>, n: Run, x: Run)
    | Decide(m: MainSeen, cands: set<Candidate>)
    | Displace(x: Run, n: Run)
    | DisplaceCheck(x: Run, n: Run)
    | UndoDisplace
    | UndoUnlink
    | Reinstate(n: Run, undo: bool)
    | ReinstateUnlink(n: Run)
    | Reconcile(empty: bool)
    | Legacy(kept: Option<Run>)
    | LegacyJudge(kept: Option<Run>, x: Run)
    | LegacyMove(kept: Option<Run>)
    | LegacyCheck(kept: Option<Run>, aside: Run)
    | Unfence(kept: Option<Run>)
    | UnfenceMove(kept: Option<Run>)
    | UnfenceCheck(kept: Option<Run>, aside: Run)

  datatype ReleasePc =
    | ReleaseGuard
    | ReleaseGuardMove
    | ReleaseGuardCheck(aside: Run)
    | ReleaseTicket
    | ReleaseSlot
    | ReleaseErase(n: nat)
    | RepairDone

  datatype Pc =
    | Enter(e: EnterPc)
    | Guard(k: Guarding, g: GuardPc)
    | Recovery(v: RecoveryPc)
    | Drain(w: Who, d: DrainPc)
    | Catch(h: CatchPc)
    | Remove(m: RemovePc)
    | Exit(x: ExitPc)
    | Elect(ph: ScanPhase, l: ElectPc)
    | PublishTicket(number: nat)
    | Canon(o: CanonPc)
    | Open(q: OpenPc)
    | Repair(t: Target, p: RepairPc)
    | Release(repaired: bool, z: ReleasePc)

  /** One run's local variables.  `mine`/`fenced` say that this run's owner record (its
      fence) is published; they are the source's `ownerCreated` and `fenceOwned`. */
  datatype Vars = Vars(
    mine: bool,
    fenced: bool,
    drained: bool,
    safe: bool,
    lease: bool,
    moved: Option<Run>,
    ticket: nat,
    guarded: bool)

  datatype Local = Local(pc: Pc, v: Vars)

  const FRESH := Local(Enter(Idle), Vars(false, false, false, false, false, None, 0, false))

  /** The records kept under many names, which processes are dead and, as history that no step reads, which
      calls are over with their lease released.  A quarantine name ends in the mover's own recovery or repair
      id, so it is indexed by the mover. */
  datatype Files = Files(
    entrants: map<FileName, Run>,
    quarantine: map<Run, Run>,
    slots: map<FileName, Run>,
    tickets: map<Run, nat>,
    dead: set<nat>,
    released: set<Run>)

  /** The lock directory. */
  datatype Home = Home(
    main: Option<Run>,
    recovery: Option<Run>,
    fence: Option<Run>,
    repairGuard: Option<Run>,
    f: Files)

  datatype State = State(h: Home, loc: map<Run, Local>)

  /** What one step leaves behind: the directory and the run's own variables. */
  datatype Out = Out(h: Home, l: Local)

  /** What the environment decides in one step: whether the call throws, whether the
      process query is inconclusive, which scan entry comes next, which fresh alias
      suffix is drawn, which quarantine path is looked at, and what an idle run does. */
  datatype Choice = Choice(fail: bool, doubt: bool, name: FileName, n: nat, repair: bool, pick: Run)

  datatype Event = Do(r: Run, c: Choice) | Die(proc: nat)

  predicate Alive(h: Home, r: Run) {
    r.proc !in h.f.dead
  }

  /** Nobody relies on the record of x any more: its process is dead or has released the lease. */
  predicate Departed(f: Files, x: Run) {
    x.proc in f.dead || x in f.released
  }

  function L(s: State, r: Run): Local {
    if r in s.loc then s.loc[r] else FRESH
  }

  /** readRecoveryGuardInspection / readOwnerInspection once the record has been read. */
  function Inspection(h: Home, x: Run, doubt: bool): Verdict {
    if doubt then Untrusted else if Alive(h, x) then Live else Stale
  }

  function Go(h: Home, l: Local, pc: Pc): Out {
    Out(h, Local(pc, l.v))
  }

  /** linkSync onto a canonical path: never overwrites. */
  function Linked(file: Option<Run>, r: Run): Option<Run> {
    if file == None then Some(r) else file
  }

  /** Giving back what was renamed aside: a record of somebody else unless the link fails, an own one
      only when its removal fails. */
  function GivenBack(file: Option<Run>, r: Run, aside: Run, fail: bool): Option<Run> {
    if (aside == r) == fail then Linked(file, aside) else file
  }

  /** repairOrderIsEarlier: by ticket, then by instance id. */
  predicate Earlier(t1: nat, r1: Run, t2: nat, r2: Run) {
    t1 < t2 || (t1 == t2 && (r1.id < r2.id || (r1.id == r2.id && r1.proc < r2.proc)))
  }

  function Max(a: nat, b: nat): nat { if a < b then b else a }
}
