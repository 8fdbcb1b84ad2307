/** An acquirer that runs while nobody else moves, whatever dead calls have left behind. */
module OwnershipAcquiring {
  import opened Options
  import opened OwnershipState
  import opened OwnershipFacts
  import opened OwnershipProtocol
  import opened OwnershipAlone

  predicate NotAlive(h: Home, file: Option<Run>) {
    file.Some? ==> !Alive(h, file.value)
  }

  /** When a lone acquirer is admitted. */
  predicate Admissible(h: Home) {
    h.fence == None && NotAlive(h, h.main) && NotAlive(h, h.recovery)
  }

  // ---------------------------------------------------------------- where it stands

  /** The files an acquirer never touches. */
  predicate OthersFiles(h0: Home, h: Home) {
    && h.f.dead == h0.f.dead && h.f.released == h0.f.released
    && h.f.slots == h0.f.slots && h.f.tickets == h0.f.tickets && h.repairGuard == h0.repairGuard
  }

  predicate Entered(h0: Home, h: Home, r: Run) {
    h.f.entrants == h0.f.entrants[Own(r) := r]
  }

  predicate MainKept(h0: Home, h: Home) {
    h.main == h0.main && h.f.quarantine == h0.f.quarantine && h.fence == h0.fence
  }

  predicate EnterLone(h0: Home, h: Home, r: Run, l: Local, e: EnterPc) {
    match e
    case Idle => h == h0 && l == FRESH
    case _ =>
      && Entered(h0, h, r)
      && (match e
          case RacedRecovery => Raced(h0, h, r, l)
          case RacedFence(seen) => Raced(h0, h, r, l) && !seen
          case _ =>
            && l.v == FRESH.v && MainKept(h0, h)
            && (match e
                case Fence1 => h.recovery == h0.recovery
                case Fence2(k) => Cleared(h0, h) && (k.Second? ==> Taken(h0))
                case LinkMain => Cleared(h0, h)
                case ReadMain => Cleared(h0, h) && h0.main.Some?
                case JudgeMain(x) => Cleared(h0, h) && h0.main == Some(x)
                case LinkRecovery => Cleared(h0, h) && Taken(h0)
                case _ => true))
  }

  /** The recovery guard, if there was one, was stale and is gone, and there is no fence. */
  predicate Cleared(h0: Home, h: Home) {
    h0.fence == None && h.recovery == None && NotAlive(h0, h0.recovery)
  }

  predicate Taken(h0: Home) {
    h0.main.Some? && NotAlive(h0, h0.main)
  }

  predicate Raced(h0: Home, h: Home, r: Run, l: Local) {
    && l.v == FRESH.v.(mine := true) && Cleared(h0, h) && h0.main == None
    && h == h0.(main := Some(r), recovery := None, f := h0.f.(entrants := h0.f.entrants[Own(r) := r]))
  }

  predicate GuardLone(h0: Home, h: Home, r: Run, l: Local, k: Guarding, g: GuardPc) {
    && Entered(h0, h, r) && l.v == FRESH.v && MainKept(h0, h) && h0.fence == None
    && (if k.Second? then g == GuardRead(0) && Cleared(h0, h) && Taken(h0)
        else match g
          case GuardRead(a) => a == 0 && h.recovery == h0.recovery
          case GuardJudge(a, x) => a == 0 && h.recovery == h0.recovery == Some(x)
          case GuardReread(a, x) => a == 0 && h.recovery == h0.recovery == Some(x) && !Alive(h0, x)
          case GuardRejudge(a, x, y) => a == 0 && h.recovery == h0.recovery == Some(x) && !Alive(h0, x) && x == y
          case GuardMove(a, x) => a == 0 && h.recovery == h0.recovery == Some(x) && !Alive(h0, x)
          case GuardCheck(x, y) => x == y && Cleared(h0, h))
  }

  const FENCED := FRESH.v.(fenced := true)
  const DRAINED := FRESH.v.(fenced := true, drained := true)

  /** Under its own guard and fence. */
  predicate Holding(h0: Home, h: Home, r: Run) {
    Admissible(h0) && h0.main.Some? && h.recovery == Some(r) && h.fence == Some(r)
  }

  predicate StageLone(h0: Home, h: Home, r: Run, v: Vars, st: Stage) {
    && Holding(h0, h, r)
    && (match st
        case ToDrain => v == FENCED && h.main == h0.main && h.f.quarantine == h0.f.quarantine && Entered(h0, h, r)
        case ToInspect => InspectLone(h0, h, r, v)
        case ToMove(x) => InspectLone(h0, h, r, v) && h0.main == Some(x)
        case AfterMove(x) => h0.main == Some(x) && MovedLone(h0, h, r) && v == Moved(h0) && h.main == None
        case ToRepublish => MovedLone(h0, h, r) && v == Moved(h0) && h.main == None
        case ToConfirm => MovedLone(h0, h, r) && v == Moved(h0).(mine := true) && h.main == Some(r))
  }

  predicate InspectLone(h0: Home, h: Home, r: Run, v: Vars) {
    v == DRAINED && h.main == h0.main && h.f.quarantine == h0.f.quarantine && h.f.entrants == map[Own(r) := r]
  }

  function Moved(h0: Home): Vars { DRAINED.(moved := h0.main) }

  /** The record of the stale main has been set aside. */
  predicate MovedLone(h0: Home, h: Home, r: Run) {
    && h0.main.Some? && h.f.quarantine == h0.f.quarantine[r := h0.main.value] && h.f.entrants == map[Own(r) := r]
  }

  predicate RecoveryLone(h0: Home, h: Home, r: Run, l: Local, v: RecoveryPc) {
    match v
    case HoldGuard(st) => StageLone(h0, h, r, l.v, st)
    case HoldFence(st) => StageLone(h0, h, r, l.v, st)
    case AssertGuard => GuardedLone(h0, h, r, l.v)
    case LinkFence => GuardedLone(h0, h, r, l.v)
    case Inspect => StageLone(h0, h, r, l.v, ToInspect)
    case JudgeInspect(x) => StageLone(h0, h, r, l.v, ToMove(x))
    case MoveMain(x) => StageLone(h0, h, r, l.v, ToMove(x))
    case CheckMoved(x) => StageLone(h0, h, r, l.v, AfterMove(x))
    case Republish => StageLone(h0, h, r, l.v, ToRepublish)
    case Confirm => StageLone(h0, h, r, l.v, ToConfirm)
    case ConfirmAgain => ConfirmLone(h0, h, r, l.v)
    case ConfirmGuard => ConfirmLone(h0, h, r, l.v)
  }

  predicate GuardedLone(h0: Home, h: Home, r: Run, v: Vars) {
    && v == FRESH.v && Taken(h0) && Admissible(h0) && MainKept(h0, h) && Entered(h0, h, r) && h.recovery == Some(r)
  }

  predicate TakenOver(h0: Home, h: Home, r: Run) {
    && Admissible(h0) && h0.main.Some? && h.main == Some(r) && h.fence == None
    && h.f.quarantine == h0.f.quarantine[r := h0.main.value] && h.f.entrants == map[Own(r) := r]
  }

  predicate ConfirmLone(h0: Home, h: Home, r: Run, v: Vars) {
    TakenOver(h0, h, r) && h.recovery == Some(r) && v.mine && !v.lease && !v.fenced && v.moved == h0.main
  }

  predicate DrainLone(h0: Home, h: Home, r: Run, l: Local, w: Who, d: DrainPc) {
    && w.Holder? && Holding(h0, h, r) && l.v == FENCED && h.main == h0.main && h.f.quarantine == h0.f.quarantine
    && DrainingLone(h, Some(Own(r)), d)
  }

  predicate CatchLone(h0: Home, h: Home, r: Run, l: Local, x: CatchPc) {
    && TakenOver(h0, h, r) && l.v.mine && l.v.lease && !l.v.fenced
    && (match x
        case FinallyGuard => h.recovery == Some(r)
        case FinallyGuardMove => h.recovery == Some(r)
        case FinallyGuardCheck(y) => y == r && h.recovery == None
        case FinallyUnfence => h.recovery == None
        case _ => false)
  }

  predicate RemoveLone(h0: Home, h: Home, r: Run, l: Local, m: RemovePc) {
    && !l.v.lease && l.v.mine && h.recovery == Some(r) && l.v.moved == h0.main && l.v.safe
    && (match m
        case RmFence(back) =>
          back.Finishing? && h.fence == Some(r) && l.v.fenced && TakenOver(h0, h.(fence := None), r)
        case RmFenceMove(back) =>
          back.Finishing? && h.fence == Some(r) && l.v.fenced && TakenOver(h0, h.(fence := None), r)
        case RmFenceCheck(back, y) => back.Finishing? && y == r && !l.v.fenced && TakenOver(h0, h, r)
        case _ => false)
  }

  /** The entrants a call leaves: a recovery drains them. */
  function Leftover(h0: Home, lease: bool): map<FileName, Run> {
    if lease && h0.main.Some? then map[] else h0.f.entrants
  }

  /** The recovery guard a call that is turned away leaves: a stale one goes, unless a fence was met first. */
  function LeftGuard(h0: Home): Option<Run> {
    if h0.fence == None && NotAlive(h0, h0.recovery) then None else h0.recovery
  }

  /** What an acquirer that is alone leaves: the lease exactly when it is admissible, with its record on
      main, nothing left of fence and guard, and a stale main set aside. */
  predicate Result(h0: Home, h: Home, r: Run, l: Local) {
    && (l.v.lease <==> Admissible(h0))
    && (if l.v.lease then
          && h.main == Some(r) && h.fence == None && h.recovery == None
          && h.f.quarantine == (if h0.main.Some? then h0.f.quarantine[r := h0.main.value] else h0.f.quarantine)
        else MainKept(h0, h) && h.recovery == LeftGuard(h0))
  }

  predicate ExitLone(h0: Home, h: Home, r: Run, l: Local, x: ExitPc) {
    && Result(h0, h, r, l)
    && (match x
        case FinallyEntrant => h.f.entrants == Leftover(h0, l.v.lease)[Own(r) := r]
        case EraseEntrant(n) => h.f.entrants == Leftover(h0, l.v.lease)[Alias(r, n) := r]
        case Leased => l.v.lease && h.f.entrants == Leftover(h0, l.v.lease)
        case Failed => !l.v.lease && h.f.entrants == Leftover(h0, l.v.lease)
        case Released => false)
  }

  // ---------------------------------------------------------------- one step

  ghost predicate AcquireLone(h0: Home, h: Home, r: Run, l: Local) {
    && Deserted(h0, r) && OthersFiles(h0, h)
    && (match l.pc
        case Enter(e) => EnterLone(h0, h, r, l, e)
        case Guard(k, g) => GuardLone(h0, h, r, l, k, g)
        case Recovery(v) => RecoveryLone(h0, h, r, l, v)
        case Drain(w, d) => DrainLone(h0, h, r, l, w, d)
        case Catch(x) => CatchLone(h0, h, r, l, x)
        case Remove(m) => RemoveLone(h0, h, r, l, m)
        case Exit(x) => ExitLone(h0, h, r, l, x)
        case _ => false)
  }

  /** The call stands where it should, and the environment helps. */
  ghost predicate Going(h0: Home, h: Home, r: Run, l: Local, c: Choice) {
    AcquireLone(h0, h, r, l) && Helpful(Out(h, l), c) && !c.repair
  }

  /** A takeover has just set the stale main aside. */
  const MIDWAY: nat := Rank(Recovery(CheckMoved(Run(0, 0))))

  /** The step leads on, and a takeover does not leap over the moment main is set aside. */
  ghost predicate Gone(h0: Home, r: Run, l: Local, u: Out) {
    || !Deserted(h0, r)
    || (AcquireLone(h0, u.h, r, u.l) && Nearer(u.l.pc, l.pc)
        && (Admissible(h0) && h0.main.Some? && Rank(l.pc) > MIDWAY ==> Rank(u.l.pc) >= MIDWAY))
  }

  /** A step from where the call should be leads on. */
  ghost predicate Leads(h0: Home, h: Home, r: Run, l: Local, c: Choice, u: Out) {
    !Going(h0, h, r, l, c) || Gone(h0, r, l, u)
  }

  lemma ArriveOn(h0: Home, h: Home, r: Run, l: Local, c: Choice, u: Out)
    requires l.pc.Enter? && l.pc.e.Idle? && u == EntrantStep(h, r, l, c, l.pc.e)
    ensures Leads(h0, h, r, l, c, u)
  {
    hide Kept;
  }

  lemma CheckFenceOn(h0: Home, h: Home, r: Run, l: Local, c: Choice, u: Out)
    requires l.pc.Enter? && (l.pc.e.Fence1? || l.pc.e.Fence2?) && u == CheckFenceStep(h, r, l, c, l.pc.e)
    ensures Leads(h0, h, r, l, c, u)
  {
    hide Kept;
  }

  lemma FirstTryOn(h0: Home, h: Home, r: Run, l: Local, c: Choice, u: Out)
    requires l.pc.Enter? && l.pc.e.LinkMain? && u == FirstTryStep(h, r, l, c, l.pc.e)
    ensures Leads(h0, h, r, l, c, u)
  {
    hide Kept;
  }

  lemma RacedOn(h0: Home, h: Home, r: Run, l: Local, c: Choice, u: Out)
    requires l.pc.Enter? && (l.pc.e.RacedRecovery? || l.pc.e.RacedFence?) && u == RacedStep(h, r, l, c, l.pc.e)
    ensures Leads(h0, h, r, l, c, u)
  {
    hide Kept;
  }

  lemma TakenOn(h0: Home, h: Home, r: Run, l: Local, c: Choice, u: Out)
    requires l.pc.Enter? && (l.pc.e.ReadMain? || l.pc.e.JudgeMain?) && u == TakenStep(h, r, l, c, l.pc.e)
    ensures Leads(h0, h, r, l, c, u)
  {
    hide Kept;
  }

  lemma LinkRecoveryOn(h0: Home, h: Home, r: Run, l: Local, c: Choice, u: Out)
    requires l.pc.Enter? && l.pc.e.LinkRecovery? && u == LinkRecoveryStep(h, r, l, c, l.pc.e)
    ensures Leads(h0, h, r, l, c, u)
  {
    hide Kept;
  }

  lemma LinkFenceOn(h0: Home, h: Home, r: Run, l: Local, c: Choice, u: Out)
    requires l.pc.Recovery? && (l.pc.v.AssertGuard? || l.pc.v.LinkFence?) && u == LinkFenceStep(h, r, l, c, l.pc.v)
    ensures Leads(h0, h, r, l, c, u)
  {
    hide Kept;
  }

  lemma HoldGuardOn(h0: Home, h: Home, r: Run, l: Local, c: Choice, u: Out)
    requires l.pc.Recovery? && l.pc.v.HoldGuard? && u == HoldGuardStep(h, r, l, c, l.pc.v)
    ensures Leads(h0, h, r, l, c, u)
  {
    HoldsBoth(h0, h, r, l.v, l.pc.v.st);
    hide Kept, StageLone, Deserted;
  }

  lemma HoldFenceOn(h0: Home, h: Home, r: Run, l: Local, c: Choice, u: Out)
    requires l.pc.Recovery? && l.pc.v.HoldFence? && u == HoldFenceStep(h, r, l, c, l.pc.v)
    ensures Leads(h0, h, r, l, c, u)
  {
    HoldPasses(h0, h, r, l, c, u);
    HoldNearer(l.pc.v.st);
    HoldLeads(h0, h, r, l.v, l.pc.v.st);
    hide HoldFenceStep, Kept, Helpful, AcquireLone, Nearer, Rank;
  }

  /** What holds before a stage holds where the assertions lead. */
  ghost predicate Passes(h0: Home, h: Home, r: Run, v: Vars, st: Stage) {
    !AcquireLone(h0, h, r, Local(Recovery(HoldFence(st)), v)) || AcquireLone(h0, h, r, Local(AfterHold(st), v))
  }

  lemma HoldLeads(h0: Home, h: Home, r: Run, v: Vars, st: Stage)
    ensures Passes(h0, h, r, v, st)
  {
    DrainFrom(h0, h, r, v);
    RepublishFrom(h0, h, r, v, if st.AfterMove? then st.x else r);
    hide StageLone, DrainLone;
  }

  lemma RepublishFrom(h0: Home, h: Home, r: Run, v: Vars, x: Run)
    ensures StageLone(h0, h, r, v, AfterMove(x)) ==> StageLone(h0, h, r, v, ToRepublish)
  {
  }

  lemma HoldNearer(st: Stage)
    ensures Nearer(AfterHold(st), Recovery(HoldFence(st)))
    ensures Rank(Recovery(HoldFence(st))) > MIDWAY ==> Rank(AfterHold(st)) >= MIDWAY
  {
  }

  lemma HoldPasses(h0: Home, h: Home, r: Run, l: Local, c: Choice, u: Out)
    requires l.pc.Recovery? && l.pc.v.HoldFence? && u == HoldFenceStep(h, r, l, c, l.pc.v)
    ensures Going(h0, h, r, l, c) ==> u == Go(h, l, AfterHold(l.pc.v.st))
  {
    HoldsBoth(h0, h, r, l.v, l.pc.v.st);
    hide Kept, StageLone, Deserted, AfterHold;
  }

  lemma HoldsBoth(h0: Home, h: Home, r: Run, v: Vars, st: Stage)
    ensures StageLone(h0, h, r, v, st) ==> h.recovery == Some(r) && h.fence == Some(r)
  {
  }

  lemma DrainFrom(h0: Home, h: Home, r: Run, v: Vars)
    ensures Deserted(h0, r) && OthersFiles(h0, h) && StageLone(h0, h, r, v, ToDrain) ==>
              forall pc :: DrainLone(h0, h, r, Local(pc, v), Holder, DrainSnapshot)
  {
  }

  lemma InspectOn(h0: Home, h: Home, r: Run, l: Local, c: Choice, u: Out)
    requires l.pc.Recovery? && (l.pc.v.Inspect? || l.pc.v.JudgeInspect?)
    requires u == InspectStep(h, r, l, c, l.pc.v)
    ensures Leads(h0, h, r, l, c, u)
  {
    hide Kept;
  }

  lemma MoveMainOn(h0: Home, h: Home, r: Run, l: Local, c: Choice, u: Out)
    requires l.pc.Recovery? && l.pc.v.MoveMain? && u == MoveAsideStep(h, r, l, c, l.pc.v)
    ensures Leads(h0, h, r, l, c, u)
  {
    hide Kept;
  }

  lemma CheckMovedOn(h0: Home, h: Home, r: Run, l: Local, c: Choice, u: Out)
    requires l.pc.Recovery? && l.pc.v.CheckMoved? && u == MovedStep(h, r, l, c, l.pc.v)
    ensures Leads(h0, h, r, l, c, u)
  {
    hide Kept;
  }

  lemma RepublishOn(h0: Home, h: Home, r: Run, l: Local, c: Choice, u: Out)
    requires l.pc.Recovery? && l.pc.v.Republish? && u == RepublishStep(h, r, l, c, l.pc.v)
    ensures Leads(h0, h, r, l, c, u)
  {
    hide Kept;
  }

  lemma PublishedOn(h0: Home, h: Home, r: Run, l: Local, c: Choice, u: Out)
    requires l.pc.Recovery? && l.pc.v.Confirm? && u == RepublishStep(h, r, l, c, l.pc.v)
    ensures Leads(h0, h, r, l, c, u)
  {
    hide Kept;
  }

  lemma ConfirmAgainOn(h0: Home, h: Home, r: Run, l: Local, c: Choice, u: Out)
    requires l.pc.Recovery? && l.pc.v.ConfirmAgain? && u == ConfirmStep(h, r, l, c, l.pc.v)
    ensures Leads(h0, h, r, l, c, u)
  {
    hide Kept, Deserted;
  }

  lemma ConfirmGuardOn(h0: Home, h: Home, r: Run, l: Local, c: Choice, u: Out)
    requires l.pc.Recovery? && l.pc.v.ConfirmGuard? && u == ConfirmStep(h, r, l, c, l.pc.v)
    ensures Leads(h0, h, r, l, c, u)
  {
    hide Kept, Deserted;
  }

  lemma DrainListOn(h0: Home, h: Home, r: Run, l: Local, c: Choice, u: Out)
    requires l.pc.Drain? && l.pc.d.DrainSnapshot? && u == DrainListStep(h, r, l, c, l.pc.w, l.pc.d)
    ensures Leads(h0, h, r, l, c, u)
  {
    hide Kept;
  }

  lemma DrainReadOn(h0: Home, h: Home, r: Run, l: Local, c: Choice, u: Out)
    requires l.pc.Drain? && l.pc.d.DrainScan? && u == DrainReadStep(h, r, l, c, l.pc.w, l.pc.d)
    ensures Leads(h0, h, r, l, c, u)
  {
    if Going(h0, h, r, l, c) {
      if l.pc.d.todo == {} {
        Drained(h, Some(Own(r)), l.pc.d.blocked);
      } else {
        DrainRead(h, Some(Own(r)), l.pc.d.todo, l.pc.d.blocked, c.name);
      }
    }
    hide StepOf, DrainStep, Kept, DrainingLone, Deserted;
  }

  lemma DrainJudgeOn(h0: Home, h: Home, r: Run, l: Local, c: Choice, u: Out)
    requires l.pc.Drain? && l.pc.d.DrainJudge? && u == DrainJudgeStep(h, r, l, c, l.pc.w, l.pc.d)
    ensures Leads(h0, h, r, l, c, u)
  {
    hide Kept;
  }

  lemma DrainDropOn(h0: Home, h: Home, r: Run, l: Local, c: Choice, u: Out)
    requires l.pc.Drain? && l.pc.d.DrainDrop? && u == DrainDropStep(h, r, l, c, l.pc.w, l.pc.d)
    ensures Leads(h0, h, r, l, c, u)
  {
    if Going(h0, h, r, l, c) {
      Dropped(h, Some(Own(r)), l.pc.d.todo, l.pc.d.blocked, l.pc.d.name, c.n);
    }
    hide StepOf, DrainStep, Kept, DrainingLone, Deserted;
  }

  lemma DrainEraseOn(h0: Home, h: Home, r: Run, l: Local, c: Choice, u: Out)
    requires l.pc.Drain? && l.pc.d.DrainErase? && u == DrainEraseStep(h, r, l, c, l.pc.w, l.pc.d)
    ensures Leads(h0, h, r, l, c, u)
  {
    hide Kept;
  }

  lemma WithdrawOn(h0: Home, h: Home, r: Run, l: Local, c: Choice, u: Out)
    requires l.pc.Exit? && l.pc.x.FinallyEntrant? && u == WithdrawStep(h, r, l, c, l.pc.x)
    ensures Leads(h0, h, r, l, c, u)
  {
    var left := Leftover(h0, l.v.lease);
    assert Deserted(h0, r) ==>
             Own(r) !in left && (left[Own(r) := r] - {Own(r)})[Alias(r, c.n) := r] == left[Alias(r, c.n) := r];
    hide Kept, Deserted, Leftover;
  }

  lemma EraseOn(h0: Home, h: Home, r: Run, l: Local, c: Choice, u: Out)
    requires l.pc.Exit? && l.pc.x.EraseEntrant? && u == EraseStep(h, r, l, c, l.pc.x)
    ensures Leads(h0, h, r, l, c, u)
  {
    hide Kept;
  }

  lemma GuardReadOn(h0: Home, h: Home, r: Run, l: Local, c: Choice, u: Out)
    requires l.pc.Guard? && (l.pc.g.GuardRead? || l.pc.g.GuardJudge?)
    requires u == GuardReadStep(h, r, l, c, l.pc.k, l.pc.g)
    ensures Leads(h0, h, r, l, c, u)
  {
    hide Kept;
  }

  lemma GuardRereadOn(h0: Home, h: Home, r: Run, l: Local, c: Choice, u: Out)
    requires l.pc.Guard? && (l.pc.g.GuardReread? || l.pc.g.GuardRejudge?)
    requires u == GuardRereadStep(h, r, l, c, l.pc.k, l.pc.g)
    ensures Leads(h0, h, r, l, c, u)
  {
    hide Kept;
  }

  lemma GuardMoveOn(h0: Home, h: Home, r: Run, l: Local, c: Choice, u: Out)
    requires l.pc.Guard? && (l.pc.g.GuardMove? || l.pc.g.GuardCheck?)
    requires u == GuardMoveStep(h, r, l, c, l.pc.k, l.pc.g)
    ensures Leads(h0, h, r, l, c, u)
  {
    hide Kept;
  }

  lemma GuardAwayOn(h0: Home, h: Home, r: Run, l: Local, c: Choice, u: Out)
    requires l.pc.Catch? && (l.pc.h.FinallyGuard? || l.pc.h.FinallyGuardMove?)
    requires u == GuardAwayStep(h, r, l, c, l.pc.h)
    ensures Leads(h0, h, r, l, c, u)
  {
    hide Kept;
  }

  lemma GuardGoneOn(h0: Home, h: Home, r: Run, l: Local, c: Choice, u: Out)
    requires l.pc.Catch? && l.pc.h.FinallyGuardCheck? && u == GuardGoneStep(h, r, l, c, l.pc.h)
    ensures Leads(h0, h, r, l, c, u)
  {
    hide Kept;
  }

  lemma UnwindOn(h0: Home, h: Home, r: Run, l: Local, c: Choice, u: Out)
    requires l.pc.Catch? && l.pc.h.FinallyUnfence? && u == UnwindStep(h, r, l, c, l.pc.h)
    ensures Leads(h0, h, r, l, c, u)
  {
    hide Kept;
  }

  lemma RemoveFenceOn(h0: Home, h: Home, r: Run, l: Local, c: Choice, u: Out)
    requires l.pc.Remove? && (l.pc.m.RmFence? || l.pc.m.RmFenceMove?) && u == RemoveFenceStep(h, r, l, c, l.pc.m)
    ensures Leads(h0, h, r, l, c, u)
  {
    hide Kept;
  }

  lemma FenceRemovedOn(h0: Home, h: Home, r: Run, l: Local, c: Choice, u: Out)
    requires l.pc.Remove? && l.pc.m.RmFenceCheck? && u == FenceRemovedStep(h, r, l, c, l.pc.m)
    ensures Leads(h0, h, r, l, c, u)
  {
    hide Kept;
  }

  lemma EnterOn(h0: Home, h: Home, r: Run, l: Local, c: Choice, u: Out)
    requires l.pc.Enter? && u == EnterStep(h, r, l, c, l.pc.e)
    ensures Leads(h0, h, r, l, c, u)
  {
    hide Kept, Helpful, Gone;
    if !Going(h0, h, r, l, c) { return; }
    match l.pc.e
    case Idle => ArriveOn(h0, h, r, l, c, u);
    case Fence1 | Fence2(_) => CheckFenceOn(h0, h, r, l, c, u);
    case LinkMain => FirstTryOn(h0, h, r, l, c, u);
    case RacedRecovery | RacedFence(_) => RacedOn(h0, h, r, l, c, u);
    case ReadMain | JudgeMain(_) => TakenOn(h0, h, r, l, c, u);
    case LinkRecovery => LinkRecoveryOn(h0, h, r, l, c, u);
  }

  lemma GuardOn(h0: Home, h: Home, r: Run, l: Local, c: Choice, u: Out)
    requires l.pc.Guard? && u == GuardStep(h, r, l, c, l.pc.k, l.pc.g)
    ensures Leads(h0, h, r, l, c, u)
  {
    hide Kept, Helpful, Gone;
    if !Going(h0, h, r, l, c) { return; }
    match l.pc.g
    case GuardRead(_) | GuardJudge(_, _) => GuardReadOn(h0, h, r, l, c, u);
    case GuardReread(_, _) | GuardRejudge(_, _, _) => GuardRereadOn(h0, h, r, l, c, u);
    case GuardMove(_, _) | GuardCheck(_, _) => GuardMoveOn(h0, h, r, l, c, u);
  }

  lemma RecoveryOn(h0: Home, h: Home, r: Run, l: Local, c: Choice, u: Out)
    requires l.pc.Recovery? && u == RecoveryStep(h, r, l, c, l.pc.v)
    ensures Leads(h0, h, r, l, c, u)
  {
    hide Kept, Helpful, Gone;
    if !Going(h0, h, r, l, c) { return; }
    match l.pc.v
    case AssertGuard | LinkFence => LinkFenceOn(h0, h, r, l, c, u);
    case HoldGuard(_) => HoldGuardOn(h0, h, r, l, c, u);
    case HoldFence(_) => HoldFenceOn(h0, h, r, l, c, u);
    case Inspect | JudgeInspect(_) => InspectOn(h0, h, r, l, c, u);
    case MoveMain(_) => MoveMainOn(h0, h, r, l, c, u);
    case CheckMoved(_) => CheckMovedOn(h0, h, r, l, c, u);
    case Republish => RepublishOn(h0, h, r, l, c, u);
    case Confirm => PublishedOn(h0, h, r, l, c, u);
    case ConfirmAgain => ConfirmAgainOn(h0, h, r, l, c, u);
    case ConfirmGuard => ConfirmGuardOn(h0, h, r, l, c, u);
  }

  lemma DrainOn(h0: Home, h: Home, r: Run, l: Local, c: Choice, u: Out)
    requires l.pc.Drain? && u == DrainStep(h, r, l, c, l.pc.w, l.pc.d)
    ensures Leads(h0, h, r, l, c, u)
  {
    hide Kept, Helpful, Gone;
    if !Going(h0, h, r, l, c) { return; }
    match l.pc.d
    case DrainSnapshot => DrainListOn(h0, h, r, l, c, u);
    case DrainScan(_, _) => DrainReadOn(h0, h, r, l, c, u);
    case DrainJudge(_, _, _, _) => DrainJudgeOn(h0, h, r, l, c, u);
    case DrainDrop(_, _, _) => DrainDropOn(h0, h, r, l, c, u);
    case DrainErase(_, _, _, _) => DrainEraseOn(h0, h, r, l, c, u);
  }

  lemma CatchOn(h0: Home, h: Home, r: Run, l: Local, c: Choice, u: Out)
    requires l.pc.Catch? && u == CatchStep(h, r, l, c, l.pc.h)
    ensures Leads(h0, h, r, l, c, u)
  {
    hide Kept, Helpful, Gone;
    if !Going(h0, h, r, l, c) { return; }
    match l.pc.h
    case FinallyGuard | FinallyGuardMove => GuardAwayOn(h0, h, r, l, c, u);
    case FinallyGuardCheck(_) => GuardGoneOn(h0, h, r, l, c, u);
    case FinallyUnfence => UnwindOn(h0, h, r, l, c, u);
    case _ =>
  }

  lemma RemoveOn(h0: Home, h: Home, r: Run, l: Local, c: Choice, u: Out)
    requires l.pc.Remove? && u == RemoveStep(h, r, l, c, l.pc.m)
    ensures Leads(h0, h, r, l, c, u)
  {
    hide Kept, Helpful, Gone;
    if !Going(h0, h, r, l, c) { return; }
    match l.pc.m
    case RmFence(_) | RmFenceMove(_) => RemoveFenceOn(h0, h, r, l, c, u);
    case RmFenceCheck(_, _) => FenceRemovedOn(h0, h, r, l, c, u);
    case _ =>
  }

  lemma ExitOn(h0: Home, h: Home, r: Run, l: Local, c: Choice, u: Out)
    requires l.pc.Exit? && u == ExitStep(h, r, l, c, l.pc.x) && Rank(l.pc) > 0
    ensures Leads(h0, h, r, l, c, u)
  {
    hide Kept, Helpful, Gone;
    if !Going(h0, h, r, l, c) { return; }
    match l.pc.x
    case FinallyEntrant => WithdrawOn(h0, h, r, l, c, u);
    case EraseEntrant(_) => EraseOn(h0, h, r, l, c, u);
    case _ =>
  }

  lemma AcquireOn(h0: Home, h: Home, r: Run, l: Local, c: Choice, u: Out)
    requires Rank(l.pc) > 0 && u == StepOf(h, r, l, c)
    ensures Leads(h0, h, r, l, c, u)
  {
    hide Kept, Helpful, Gone;
    if !Going(h0, h, r, l, c) { return; }
    match l.pc
    case Enter(_) => EnterOn(h0, h, r, l, c, u);
    case Guard(_, _) => GuardOn(h0, h, r, l, c, u);
    case Recovery(_) => RecoveryOn(h0, h, r, l, c, u);
    case Drain(_, _) => DrainOn(h0, h, r, l, c, u);
    case Catch(_) => CatchOn(h0, h, r, l, c, u);
    case Remove(_) => RemoveOn(h0, h, r, l, c, u);
    case Exit(_) => ExitOn(h0, h, r, l, c, u);
    case _ =>
  }

  /** The call has come to rest as Result says. */
  ghost predicate Rests(h0: Home, r: Run, u: Out) {
    u.l.pc.Exit? && Rank(u.l.pc) == 0 && AcquireLone(h0, u.h, r, u.l)
  }

  lemma {:induction false} AcquireEnds(h0: Home, h: Home, r: Run, l: Local, env: Env)
    requires Deserted(h0, r) && Helps(env, false)
    ensures AcquireLone(h0, h, r, l) ==> exists k :: Rests(h0, r, Alone(h, r, l, env, k))
    decreases Rank(l.pc), Left(l.pc), Sub(l.pc)
  {
    hide AcquireLone, StepOf, Helpful, Alone, Deserted;
    if !AcquireLone(h0, h, r, l) { return; }
    if Rank(l.pc) == 0 {
      AtRest(h0, h, r, l);
      AloneStep(h, r, l, env, 0);
      assert Rests(h0, r, Alone(h, r, l, env, 0));
    } else {
      var o := StepOf(h, r, l, env(Out(h, l)));
      AcquireOn(h0, h, r, l, env(Out(h, l)), o);
      AcquireEnds(h0, o.h, r, o.l, env);
      var k: nat :| Rests(h0, r, Alone(o.h, r, o.l, env, k));
      AloneStep(h, r, l, env, k);
      assert Rests(h0, r, Alone(h, r, l, env, k + 1));
    }
  }

  ghost predicate Midway(h0: Home, r: Run, u: Out) {
    Rank(u.l.pc) == MIDWAY && AcquireLone(h0, u.h, r, u.l)
  }

  /** A takeover passes through a state in which main is empty and fence and guard are its own. */
  lemma {:induction false} TakeoverPasses(h0: Home, h: Home, r: Run, l: Local, env: Env)
    requires Deserted(h0, r) && Helps(env, false)
    requires Admissible(h0) && h0.main.Some? && Rank(l.pc) >= MIDWAY
    ensures AcquireLone(h0, h, r, l) ==> exists k :: Midway(h0, r, Alone(h, r, l, env, k))
    decreases Rank(l.pc), Left(l.pc), Sub(l.pc)
  {
    hide AcquireLone, StepOf, Helpful, Alone, Deserted, Admissible, Rank, Left, Sub;
    if !AcquireLone(h0, h, r, l) { return; }
    if Rank(l.pc) == MIDWAY {
      AloneStep(h, r, l, env, 0);
      assert Midway(h0, r, Alone(h, r, l, env, 0));
    } else {
      var o := StepOf(h, r, l, env(Out(h, l)));
      AcquireOn(h0, h, r, l, env(Out(h, l)), o);
      TakeoverPasses(h0, o.h, r, o.l, env);
      var k: nat :| Midway(h0, r, Alone(o.h, r, o.l, env, k));
      AloneStep(h, r, l, env, k);
      assert Midway(h0, r, Alone(h, r, l, env, k + 1));
    }
  }

  lemma MidwayHome(h0: Home, r: Run, u: Out)
    ensures Midway(h0, r, u) ==>
              && h0.main.Some? && u.h.main == None && u.h.fence == Some(r)
              && u.h.f.quarantine == h0.f.quarantine[r := h0.main.value]
  {
    if Midway(h0, r, u) {
      assert u.l.pc.Recovery? && u.l.pc.v.CheckMoved?;
    }
  }

  lemma AtRest(h0: Home, h: Home, r: Run, l: Local)
    ensures AcquireLone(h0, h, r, l) && Rank(l.pc) == 0 ==> l.pc.Exit?
  {
  }
}
