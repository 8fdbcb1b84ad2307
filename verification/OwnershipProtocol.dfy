/** The steps of acquireDaemonRuntimeOwnership, a lease's release, and repairDaemonRuntimeOwnership. */
module OwnershipProtocol {
  import opened Options
  import opened OwnershipState
  import opened OwnershipFacts

  // ---------------------------------------------------------------- acquire

  /** A throw inside the recovery section's `try`. */
  function Throw(h: Home, l: Local): Out { Go(h, l, Catch(CatchOwner)) }

  /** A throw outside it: only the entrant is cleaned up. */
  function Abort(h: Home, l: Local): Out { Go(h, l, Exit(FinallyEntrant)) }

  /** Publishing the entrant */
  function EntrantStep(h: Home, r: Run, l: Local, c: Choice, e: EnterPc): (u: Out)
    requires l.pc == Enter(e)
    requires e.Idle?
    ensures Kept(h, r, l, u)
  {
    hide Abandoned;
    if Own(r) in h.f.entrants || c.fail then Go(h, l, Exit(Failed))
    else Go(h.(f := h.f.(entrants := h.f.entrants[Own(r) := r])), l, Enter(Fence1))
  }

  /** or, for repair, the slot. */
  function SlotStep(h: Home, r: Run, l: Local, c: Choice, e: EnterPc): (u: Out)
    requires l.pc == Enter(e)
    requires e.Idle?
    ensures Kept(h, r, l, u)
  {
    hide Abandoned;
    if Own(r) in h.f.slots || c.fail then Go(h, l, Exit(Failed))
    else Go(h.(f := h.f.(slots := h.f.slots[Own(r) := r])), l, Elect(Choose(0), ElectSnapshot))
  }

  /** assertNoRecoveryMutationFence, before and after the guard. */
  function CheckFenceStep(h: Home, r: Run, l: Local, c: Choice, e: EnterPc): (u: Out)
    requires l.pc == Enter(e)
    requires e.Fence1? || e.Fence2?
    ensures Kept(h, r, l, u)
  {
    hide Ground;
    match e
    case Fence1 =>
      if c.fail || h.fence.Some? then Abort(h, l) else Go(h, l, Guard(First, GuardRead(0)))
    case Fence2(k) =>
      if c.fail || h.fence.Some? then Abort(h, l)
      else Go(h, l, Enter(if k.First? then LinkMain else LinkRecovery))
  }

  /** The first publication, */
  function FirstTryStep(h: Home, r: Run, l: Local, c: Choice, e: EnterPc): (u: Out)
    requires l.pc == Enter(e)
    requires e.LinkMain?
    ensures Kept(h, r, l, u)
  {
    hide Ground;
    match e
    case LinkMain =>
      if c.fail then Abort(h, l)
      else if h.main.Some? then Go(h, l, Enter(ReadMain))
      else Out(h.(main := Some(r)), Local(Enter(RacedRecovery), l.v.(mine := true)))
  }

  /** with its check for a raced recovery: what cannot be read counts as there. */
  function RacedStep(h: Home, r: Run, l: Local, c: Choice, e: EnterPc): (u: Out)
    requires l.pc == Enter(e)
    requires e.RacedRecovery? || e.RacedFence?
    ensures Kept(h, r, l, u)
  {
    hide Ground;
    match e
    case RacedRecovery => Go(h, l, Enter(RacedFence(h.recovery.Some? || c.fail)))
    case RacedFence(seen) =>
      if seen || h.fence.Some? || c.fail then Go(h, l, Remove(RmMain(Raced)))
      else Out(h, Local(Exit(FinallyEntrant), l.v.(lease := true)))
  }

  /** Main was taken: unless it is stale the run gives up. */
  function TakenStep(h: Home, r: Run, l: Local, c: Choice, e: EnterPc): (u: Out)
    requires l.pc == Enter(e)
    requires e.ReadMain? || e.JudgeMain?
    ensures Kept(h, r, l, u)
  {
    hide Ground;
    match e
    case ReadMain =>
      if c.fail then Abort(h, l)
      else (match h.main
            case None => Go(h, l, Guard(Second, GuardRead(0)))
            case Some(x) => Go(h, l, Enter(JudgeMain(x))))
    case JudgeMain(x) =>
      if Inspection(h, x, c.doubt).Stale? then Go(h, l, Guard(Second, GuardRead(0))) else Abort(h, l)
  }

  /** Publishing the recovery guard. */
  function LinkRecoveryStep(h: Home, r: Run, l: Local, c: Choice, e: EnterPc): (u: Out)
    requires l.pc == Enter(e)
    requires e.LinkRecovery?
    ensures Kept(h, r, l, u)
  {
    hide Ground;
    match e
    case LinkRecovery =>
      if c.fail || h.recovery.Some? then Abort(h, l)
      else Go(h.(recovery := Some(r)), l, Recovery(AssertGuard))
  }

  function EnterStep(h: Home, r: Run, l: Local, c: Choice, e: EnterPc): (u: Out)
    requires l.pc == Enter(e)
    ensures Kept(h, r, l, u)
  {
    match e
    case Idle => if c.repair then SlotStep(h, r, l, c, e) else EntrantStep(h, r, l, c, e)
    case Fence1 | Fence2(_) => CheckFenceStep(h, r, l, c, e)
    case LinkMain => FirstTryStep(h, r, l, c, e)
    case RacedRecovery | RacedFence(_) => RacedStep(h, r, l, c, e)
    case ReadMain | JudgeMain(_) => TakenStep(h, r, l, c, e)
    case LinkRecovery => LinkRecoveryStep(h, r, l, c, e)
  }

  /** The recovery guard is read, */
  function GuardReadStep(h: Home, r: Run, l: Local, c: Choice, k: Guarding, g: GuardPc): (u: Out)
    requires l.pc == Guard(k, g)
    requires g.GuardRead? || g.GuardJudge?
    ensures Kept(h, r, l, u)
  {
    hide Ground;
    match g
    case GuardRead(a) =>
      if a >= 2 || c.fail then Abort(h, l)
      else (match h.recovery
            case None => Go(h, l, Enter(Fence2(k)))
            case Some(x) => Go(h, l, Guard(k, GuardJudge(a, x))))
    case GuardJudge(a, x) =>
      if Inspection(h, x, c.doubt).Stale? then Go(h, l, Guard(k, GuardReread(a, x))) else Abort(h, l)
  }

  /** and, when stale, read again, */
  function GuardRereadStep(h: Home, r: Run, l: Local, c: Choice, k: Guarding, g: GuardPc): (u: Out)
    requires l.pc == Guard(k, g)
    requires g.GuardReread? || g.GuardRejudge?
    ensures Kept(h, r, l, u)
  {
    hide Ground;
    match g
    case GuardReread(a, x) =>
      if c.fail then Abort(h, l)
      else (match h.recovery
            case None => Go(h, l, Guard(k, GuardRead(a + 1)))
            case Some(y) => Go(h, l, Guard(k, GuardRejudge(a, x, y))))
    case GuardRejudge(a, x, y) =>
      if !Inspection(h, y, c.doubt).Stale? then Abort(h, l)
      else Go(h, l, Guard(k, if y != x then GuardRead(a + 1) else GuardMove(a, x)))
  }

  /** then moved aside, whatever it is by now: a live guard may be carried off for a moment. */
  function GuardMoveStep(h: Home, r: Run, l: Local, c: Choice, k: Guarding, g: GuardPc): (u: Out)
    requires l.pc == Guard(k, g)
    requires g.GuardMove? || g.GuardCheck?
    ensures Kept(h, r, l, u)
  {
    hide Ground;
    match g
    case GuardMove(a, x) =>
      if c.fail then Abort(h, l)
      else (match h.recovery
            case None => Go(h, l, Guard(k, GuardRead(a + 1)))
            case Some(y) => Go(h.(recovery := None), l, Guard(k, GuardCheck(x, y))))
    case GuardCheck(x, y) =>
      if x == y && !c.doubt then Go(h, l, Enter(Fence2(k)))
      else Abort(if c.fail then h else h.(recovery := Linked(h.recovery, y)), l)
  }

  function GuardStep(h: Home, r: Run, l: Local, c: Choice, k: Guarding, g: GuardPc): (u: Out)
    requires l.pc == Guard(k, g)
    ensures Kept(h, r, l, u)
  {
    match g
    case GuardRead(_) | GuardJudge(_, _) => GuardReadStep(h, r, l, c, k, g)
    case GuardReread(_, _) | GuardRejudge(_, _, _) => GuardRereadStep(h, r, l, c, k, g)
    case GuardMove(_, _) | GuardCheck(_, _) => GuardMoveStep(h, r, l, c, k, g)
  }

  /** What the assertions before a stage lead to. */
  function AfterHold(st: Stage): Pc {
    match st
    case ToDrain => Drain(Holder, DrainSnapshot)
    case ToInspect => Recovery(Inspect)
    case ToMove(x) => Recovery(MoveMain(x))
    case AfterMove(x) => Recovery(HoldGuard(ToRepublish))
    case ToRepublish => Recovery(Republish)
    case ToConfirm => Recovery(Confirm)
  }

  /** A failed assertion; just after the rename the source restores before rethrowing. */
  function HoldFailed(h: Home, l: Local, st: Stage): Out {
    Go(h, l, Catch(if st.AfterMove? then RestoreEarly else CatchOwner))
  }

  /** Publishing the fence. */
  function LinkFenceStep(h: Home, r: Run, l: Local, c: Choice, v: RecoveryPc): (u: Out)
    requires l.pc == Recovery(v)
    requires v.AssertGuard? || v.LinkFence?
    ensures Kept(h, r, l, u)
  {
    hide Ground;
    match v
    case AssertGuard =>
      if c.fail || c.doubt || h.recovery != Some(r) then Throw(h, l) else Go(h, l, Recovery(LinkFence))
    case LinkFence =>
      if c.fail || h.fence.Some? then Throw(h, l)
      else Out(h.(fence := Some(r)), Local(Recovery(HoldGuard(ToDrain)), l.v.(fenced := true, drained := false)))
  }

  /** Asserting that the guard is still ours, */
  function HoldGuardStep(h: Home, r: Run, l: Local, c: Choice, v: RecoveryPc): (u: Out)
    requires l.pc == Recovery(v)
    requires v.HoldGuard?
    ensures Kept(h, r, l, u)
  {
    hide Ground;
    match v
    case HoldGuard(st) =>
      if c.fail || c.doubt || h.recovery != Some(r) then HoldFailed(h, l, st)
      else Go(h, l, Recovery(HoldFence(st)))
  }

  /** and then the fence. */
  function HoldFenceStep(h: Home, r: Run, l: Local, c: Choice, v: RecoveryPc): (u: Out)
    requires l.pc == Recovery(v)
    requires v.HoldFence?
    ensures Kept(h, r, l, u)
  {
    hide Ground;
    match v
    case HoldFence(st) =>
      if c.fail || c.doubt || h.fence != Some(r) then HoldFailed(h, l, st) else Go(h, l, AfterHold(st))
  }

  /** Inspecting main under the fence. */
  function InspectStep(h: Home, r: Run, l: Local, c: Choice, v: RecoveryPc): (u: Out)
    requires l.pc == Recovery(v)
    requires v.Inspect? || v.JudgeInspect?
    ensures Kept(h, r, l, u)
  {
    hide Ground;
    match v
    case Inspect =>
      if c.fail then Out(h, Local(Catch(CatchOwner), l.v.(safe := true)))
      else (match h.main
            case None => Out(h, Local(Recovery(HoldGuard(ToRepublish)), l.v.(safe := true)))
            case Some(x) => Go(h, l, Recovery(JudgeInspect(x))))
    case JudgeInspect(x) =>
      if Inspection(h, x, c.doubt).Stale? then Go(h, l, Recovery(HoldGuard(ToMove(x))))
      else Out(h, Local(Catch(CatchOwner), l.v.(safe := true)))
  }

  /** Moving a stale record aside, */
  function MoveAsideStep(h: Home, r: Run, l: Local, c: Choice, v: RecoveryPc): (u: Out)
    requires l.pc == Recovery(v)
    requires v.MoveMain?
    ensures Kept(h, r, l, u)
  {
    hide Named;
    match v
    case MoveMain(x) =>
      if c.fail || r in h.f.quarantine then Throw(h, l)
      else (match h.main
            case None => Out(h, Local(Catch(CatchOwner), l.v.(safe := true)))
            case Some(y) =>
              Out(h.(main := None, f := h.f.(quarantine := h.f.quarantine[r := y])),
                  Local(Recovery(CheckMoved(x)), l.v.(moved := Some(x)))))
  }

  /** and whether that was the record judged. */
  function MovedStep(h: Home, r: Run, l: Local, c: Choice, v: RecoveryPc): (u: Out)
    requires l.pc == Recovery(v)
    requires v.CheckMoved?
    ensures Kept(h, r, l, u)
  {
    hide Named;
    match v
    case CheckMoved(x) =>
      if !c.fail && r in h.f.quarantine && h.f.quarantine[r] == x
      then Go(h, l, Recovery(HoldGuard(AfterMove(x)))) else Go(h, l, Catch(RestoreEarly))
  }

  /** The one retry of the publication. */
  function RepublishStep(h: Home, r: Run, l: Local, c: Choice, v: RecoveryPc): (u: Out)
    requires l.pc == Recovery(v)
    requires v.Republish? || v.Confirm?
    ensures Kept(h, r, l, u)
  {
    hide Ground;
    match v
    case Republish =>
      if c.fail || h.main.Some? then Throw(h, l)
      else Out(h.(main := Some(r)), Local(Recovery(HoldGuard(ToConfirm)), l.v.(mine := true)))
    case Confirm =>
      if c.fail || c.doubt || h.main != Some(r) then Throw(h, l)
      else Out(h, Local(Remove(RmFence(Finishing)), l.v.(safe := true)))
  }

  /** The last checks once the fence is gone. */
  function ConfirmStep(h: Home, r: Run, l: Local, c: Choice, v: RecoveryPc): (u: Out)
    requires l.pc == Recovery(v)
    requires v.ConfirmAgain? || v.ConfirmGuard?
    ensures Kept(h, r, l, u)
  {
    hide Ground;
    match v
    case ConfirmAgain =>
      if c.fail || c.doubt || h.main != Some(r) then Throw(h, l) else Go(h, l, Recovery(ConfirmGuard))
    case ConfirmGuard =>
      if c.fail || c.doubt || h.recovery != Some(r) then Throw(h, l)
      else Out(h, Local(Catch(FinallyGuard), l.v.(lease := true)))
  }

  function RecoveryStep(h: Home, r: Run, l: Local, c: Choice, v: RecoveryPc): (u: Out)
    requires l.pc == Recovery(v)
    ensures Kept(h, r, l, u)
  {
    match v
    case AssertGuard | LinkFence => LinkFenceStep(h, r, l, c, v)
    case HoldGuard(_) => HoldGuardStep(h, r, l, c, v)
    case HoldFence(_) => HoldFenceStep(h, r, l, c, v)
    case Inspect | JudgeInspect(_) => InspectStep(h, r, l, c, v)
    case MoveMain(_) => MoveAsideStep(h, r, l, c, v)
    case CheckMoved(_) => MovedStep(h, r, l, c, v)
    case Republish | Confirm => RepublishStep(h, r, l, c, v)
    case ConfirmAgain | ConfirmGuard => ConfirmStep(h, r, l, c, v)
  }

  function DrainFailed(h: Home, l: Local, w: Who): Out {
    if w.Holder? then Throw(h, l) else Go(h, l, Release(false, ReleaseGuard))
  }

  function DrainPassed(h: Home, l: Local, w: Who): Out {
    Out(h, Local(match w case Holder => Recovery(HoldGuard(ToInspect))
                                    case Repairer(t) => Repair(t, RepairOwned(ToSurvey)), l.v.(drained := true)))
  }

  /** One pass over the entrants: the listing, */
  function DrainListStep(h: Home, r: Run, l: Local, c: Choice, w: Who, d: DrainPc): (u: Out)
    requires l.pc == Drain(w, d)
    requires d.DrainSnapshot?
    ensures Kept(h, r, l, u)
  {
    hide Abandoned;
    if c.fail then DrainFailed(h, l, w) else Go(h, l, Drain(w, DrainScan(h.f.entrants.Keys, false)))
  }

  /** and one read per entry. */
  function DrainReadStep(h: Home, r: Run, l: Local, c: Choice, w: Who, d: DrainPc): (u: Out)
    requires l.pc == Drain(w, d)
    requires d.DrainScan?
    ensures Kept(h, r, l, u)
  {
    hide Abandoned, CatchAt, EnterAt;
    match d
    case DrainScan(todo, blocked) =>
      if todo == {} then
        if blocked then Go(h, l, Drain(w, DrainSnapshot)) else DrainPassed(h, l, w)
      else if c.name !in todo then Out(h, l)
      else if (w.Holder? && c.name == Own(r)) || c.name !in h.f.entrants then
        Go(h, l, Drain(w, DrainScan(todo - {c.name}, blocked)))
      else Go(h, l, Drain(w, DrainJudge(todo - {c.name}, blocked, c.name, h.f.entrants[c.name])))
  }

  /** Anyone alive blocks the pass. */
  function DrainJudgeStep(h: Home, r: Run, l: Local, c: Choice, w: Who, d: DrainPc): (u: Out)
    requires l.pc == Drain(w, d)
    requires d.DrainJudge?
    ensures Kept(h, r, l, u)
  {
    hide Ground;
    match d
    case DrainJudge(todo, blocked, name, x) =>
      (match Inspection(h, x, c.doubt)
       case Stale => Go(h, l, Drain(w, DrainDrop(todo, blocked, name)))
       case Untrusted => DrainFailed(h, l, w)
       case Live => Go(h, l, Drain(w, DrainScan(todo, true))))
  }

  /** Erasing the cleanup alias of a dead entrant. */
  function DrainEraseStep(h: Home, r: Run, l: Local, c: Choice, w: Who, d: DrainPc): (u: Out)
    requires l.pc == Drain(w, d)
    requires d.DrainErase?
    ensures Kept(h, r, l, u)
  {
    hide Abandoned, RecoveryAt, RepairAt, CatchAt;
    match d
    case DrainErase(todo, blocked, was, name) =>
      // a removal that fails links the record back
      Go(h.(f := h.f.(entrants := if c.fail then h.f.entrants[was := name.run] else h.f.entrants - {name})), l,
         Drain(w, DrainScan(todo, blocked)))
  }

  /** removeOwnedJson on a dead entrant. */
  function DrainDropStep(h: Home, r: Run, l: Local, c: Choice, w: Who, d: DrainPc): (u: Out)
    requires l.pc == Drain(w, d)
    requires d.DrainDrop?
    ensures Kept(h, r, l, u)
  {
    hide Abandoned, RecoveryAt, RepairAt, CatchAt;
    match d
    case DrainDrop(todo, blocked, name) =>
      // removeOwnedJson: the cleanup alias keeps the scanned prefix until it is erased
      if c.fail || name !in h.f.entrants || Alias(h.f.entrants[name], c.n) in h.f.entrants then
        Go(h, l, Drain(w, DrainScan(todo, blocked)))
      else
        var x := h.f.entrants[name];
        Go(h.(f := h.f.(entrants := (h.f.entrants - {name})[Alias(x, c.n) := x])), l,
           Drain(w, DrainErase(todo, blocked, name, Alias(x, c.n))))
  }

  function DrainStep(h: Home, r: Run, l: Local, c: Choice, w: Who, d: DrainPc): (u: Out)
    requires l.pc == Drain(w, d)
    ensures Kept(h, r, l, u)
  {
    match d
    case DrainSnapshot => DrainListStep(h, r, l, c, w, d)
    case DrainScan(_, _) => DrainReadStep(h, r, l, c, w, d)
    case DrainJudge(_, _, _, _) => DrainJudgeStep(h, r, l, c, w, d)
    case DrainErase(_, _, _, _) => DrainEraseStep(h, r, l, c, w, d)
    case DrainDrop(_, _, _) => DrainDropStep(h, r, l, c, w, d)
  }

  /** The early restore after a failed move, */
  function GiveBackStep(h: Home, r: Run, l: Local, c: Choice, x: CatchPc): (u: Out)
    requires l.pc == Catch(x)
    requires x.RestoreEarly?
    ensures Kept(h, r, l, u)
  {
    hide Named;
    match x
    case RestoreEarly =>
      // restoreQuarantinedFileWithRetries before the rethrow; main may be taken
      if h.main == None && r in h.f.quarantine && !c.fail then
        Go(h.(main := Some(h.f.quarantine[r])), l, Catch(EarlyUnlink))
      else Out(h, Local(Catch(CatchOwner), l.v.(safe := false)))
  }

  /** its end, and the entry of the catch block. */
  function GivenBackStep(h: Home, r: Run, l: Local, c: Choice, x: CatchPc): (u: Out)
    requires l.pc == Catch(x)
    requires x.EarlyUnlink? || x.CatchOwner?
    ensures Kept(h, r, l, u)
  {
    hide Named;
    match x
    case EarlyUnlink =>
      Out(if c.fail then h else h.(f := h.f.(quarantine := h.f.quarantine - {r})),
          Local(Catch(CatchOwner), l.v.(safe := true)))
    case CatchOwner => Go(h, l, if l.v.mine then Remove(RmMain(Failing)) else Catch(RestoreLink))
  }

  /** Restoring the quarantined record onto main without overwriting, */
  function RestoreStep(h: Home, r: Run, l: Local, c: Choice, x: CatchPc): (u: Out)
    requires l.pc == Catch(x)
    requires x.RestoreLink?
    ensures Kept(h, r, l, u)
  {
    hide Named;
    match x
    case RestoreLink =>
      if l.v.moved == None || r !in h.f.quarantine then Go(h, l, Catch(CatchUnfence))
      else if h.main == None && !c.fail then
        Go(h.(main := Some(h.f.quarantine[r])), l, Catch(RestoreUnlink))
      else Out(h, Local(Catch(CatchUnfence), l.v.(safe := false)))
  }

  /** dropping the alias, and whether main holds what was set aside. */
  function RestoredStep(h: Home, r: Run, l: Local, c: Choice, x: CatchPc): (u: Out)
    requires l.pc == Catch(x)
    requires x.RestoreUnlink? || x.RestoreVerify?
    ensures Kept(h, r, l, u)
  {
    hide Named;
    match x
    case RestoreUnlink =>
      Go(if c.fail then h else h.(f := h.f.(quarantine := h.f.quarantine - {r})), l,
         Catch(RestoreVerify))
    case RestoreVerify =>
      Out(h, Local(Catch(CatchUnfence), l.v.(safe := l.v.moved.Some? && h.main == l.v.moved)))
  }

  /** Removing our recovery guard, */
  function GuardAwayStep(h: Home, r: Run, l: Local, c: Choice, x: CatchPc): (u: Out)
    requires l.pc == Catch(x)
    requires x.FinallyGuard? || x.FinallyGuardMove?
    ensures Kept(h, r, l, u)
  {
    hide Ground;
    match x
    case FinallyGuard =>
      // an inspector may have carried the guard aside: wait for it a bounded while
      Go(h, l, Catch(if h.recovery == Some(r) then FinallyGuardMove
                     else if h.recovery == None && c.doubt then FinallyGuard else FinallyUnfence))
    case FinallyGuardMove =>
      if c.fail then Go(h, l, Catch(FinallyUnfence))
      else (match h.recovery
            case None => Go(h, l, Catch(FinallyUnfence))
            case Some(y) => Go(h.(recovery := None), l, Catch(FinallyGuardCheck(y))))
  }

  /** and only ours: anybody else's is given back. */
  function GuardGoneStep(h: Home, r: Run, l: Local, c: Choice, x: CatchPc): (u: Out)
    requires l.pc == Catch(x)
    requires x.FinallyGuardCheck?
    ensures Kept(h, r, l, u)
  {
    hide Ground;
    match x
    case FinallyGuardCheck(y) =>
      Go(h.(recovery := GivenBack(h.recovery, r, y, c.fail)), l, Catch(if y == r then FinallyUnfence else FinallyGuard))
  }

  /** Giving up the fence, when that is safe. */
  function UnwindStep(h: Home, r: Run, l: Local, c: Choice, x: CatchPc): (u: Out)
    requires l.pc == Catch(x)
    requires x.CatchUnfence? || x.FinallyUnfence?
    ensures Kept(h, r, l, u)
  {
    hide Ground;
    match x
    case CatchUnfence =>
      Go(h, l, if l.v.fenced && l.v.safe then Remove(RmFence(CatchFence)) else Catch(FinallyGuard))
    case FinallyUnfence =>
      Go(h, l, if l.v.fenced && l.v.safe then Remove(RmFence(FinallyFence)) else Exit(FinallyEntrant))
  }

  function CatchStep(h: Home, r: Run, l: Local, c: Choice, x: CatchPc): (u: Out)
    requires l.pc == Catch(x)
    ensures Kept(h, r, l, u)
  {
    match x
    case RestoreEarly => GiveBackStep(h, r, l, c, x)
    case EarlyUnlink | CatchOwner => GivenBackStep(h, r, l, c, x)
    case RestoreLink => RestoreStep(h, r, l, c, x)
    case RestoreUnlink | RestoreVerify => RestoredStep(h, r, l, c, x)
    case FinallyGuard | FinallyGuardMove => GuardAwayStep(h, r, l, c, x)
    case FinallyGuardCheck(_) => GuardGoneStep(h, r, l, c, x)
    case CatchUnfence | FinallyUnfence => UnwindStep(h, r, l, c, x)
  }

  /** How a call ends. */
  function Outcome(l: Local): Pc { Exit(if l.v.lease then Leased else Failed) }

  /** The outer `finally` sets the entrant aside */
  function WithdrawStep(h: Home, r: Run, l: Local, c: Choice, x: ExitPc): (u: Out)
    requires l.pc == Exit(x)
    requires x.FinallyEntrant?
    ensures Kept(h, r, l, u)
  {
    hide Abandoned;
    match x
    case FinallyEntrant =>
      if c.fail || Own(r) !in h.f.entrants || Alias(r, c.n) in h.f.entrants then Go(h, l, Outcome(l))
      else Go(h.(f := h.f.(entrants := (h.f.entrants - {Own(r)})[Alias(r, c.n) := r])), l, Exit(EraseEntrant(c.n)))
  }

  /** and erases it. */
  function EraseStep(h: Home, r: Run, l: Local, c: Choice, x: ExitPc): (u: Out)
    requires l.pc == Exit(x)
    requires x.EraseEntrant?
    ensures Kept(h, r, l, u)
  {
    hide Abandoned;
    match x
    case EraseEntrant(n) =>
      Go(h.(f := h.f.(entrants := if c.fail then h.f.entrants[Own(r) := r] else h.f.entrants - {Alias(r, n)})), l,
        Outcome(l))
  }

  function ExitStep(h: Home, r: Run, l: Local, c: Choice, x: ExitPc): (u: Out)
    requires l.pc == Exit(x)
    ensures Kept(h, r, l, u)
  {
    match x
    case FinallyEntrant => WithdrawStep(h, r, l, c, x)
    case EraseEntrant(_) => EraseStep(h, r, l, c, x)
    case Leased => Go(h, l, Remove(RmMain(Releasing)))
    case Released => Out(h, l)
    case Failed => Out(h, l)
  }

  function AfterRmMain(ret: AfterMain): Pc {
    match ret
    case Raced => Exit(FinallyEntrant)
    case Failing => Catch(RestoreLink)
    case Releasing => Exit(Released)
  }

  /** A release is over, whether or not the record could be removed. */
  function Concluded(h: Home, r: Run, ret: AfterMain): Home {
    if ret.Releasing? then h.(f := h.f.(released := h.f.released + {r})) else h
  }

  function AfterRmFence(back: AfterFence, gone: bool): Pc {
    match back
    case Finishing => if gone then Recovery(ConfirmAgain) else Catch(CatchOwner)
    case CatchFence => Catch(FinallyGuard)
    case FinallyFence => Exit(FinallyEntrant)
  }

  /** Read the id */
  function RemoveMainStep(h: Home, r: Run, l: Local, c: Choice, m: RemovePc): (u: Out)
    requires l.pc == Remove(m)
    requires m.RmMain?
    ensures Kept(h, r, l, u)
  {
    hide Named;
    match m
    case RmMain(ret) =>
      if h.main == Some(r) && !c.fail then Go(h, l, Remove(RmMainMove(ret)))
      else Go(Concluded(h, r, ret), l, AfterRmMain(ret))
  }

  /** and rename aside. */
  function MainAsideStep(h: Home, r: Run, l: Local, c: Choice, m: RemovePc): (u: Out)
    requires l.pc == Remove(m)
    requires m.RmMainMove?
    ensures Kept(h, r, l, u)
  {
    hide Named;
    match m
    case RmMainMove(ret) =>
      if c.fail then Go(Concluded(h, r, ret), l, AfterRmMain(ret))
      else (match h.main
            case None => Go(Concluded(h, r, ret), l, AfterRmMain(ret))
            case Some(y) =>
              Out(h.(main := None), Local(Remove(RmMainCheck(ret, y)), l.v.(mine := l.v.mine && y != r))))
  }

  /** What was renamed is given back when it was not ours, or when removing it fails. */
  function MainRemovedStep(h: Home, r: Run, l: Local, c: Choice, m: RemovePc): (u: Out)
    requires l.pc == Remove(m)
    requires m.RmMainCheck?
    ensures Kept(h, r, l, u)
  {
    hide Named;
    match m
    case RmMainCheck(ret, y) =>
      Out(Concluded(h.(main := GivenBack(h.main, r, y, c.fail)), r, ret),
          Local(AfterRmMain(ret), l.v.(mine := l.v.mine || (y == r && c.fail && h.main == None))))
  }

  /** The same on the fence: read and rename. */
  function RemoveFenceStep(h: Home, r: Run, l: Local, c: Choice, m: RemovePc): (u: Out)
    requires l.pc == Remove(m)
    requires m.RmFence? || m.RmFenceMove?
    ensures Kept(h, r, l, u)
  {
    hide Ground;
    match m
    case RmFence(back) =>
      Go(h, l, if h.fence == Some(r) && !c.fail then Remove(RmFenceMove(back)) else AfterRmFence(back, false))
    case RmFenceMove(back) =>
      if c.fail then Go(h, l, AfterRmFence(back, false))
      else (match h.fence
            case None => Go(h, l, AfterRmFence(back, false))
            case Some(y) =>
              Out(h.(fence := None), Local(Remove(RmFenceCheck(back, y)), l.v.(fenced := l.v.fenced && y != r))))
  }

  /** ... and check. */
  function FenceRemovedStep(h: Home, r: Run, l: Local, c: Choice, m: RemovePc): (u: Out)
    requires l.pc == Remove(m)
    requires m.RmFenceCheck?
    ensures Kept(h, r, l, u)
  {
    hide Ground;
    match m
    case RmFenceCheck(back, y) =>
      Out(h.(fence := GivenBack(h.fence, r, y, c.fail)),
          Local(AfterRmFence(back, y == r && !c.fail),
                if y == r && c.fail then l.v.(fenced := h.fence == None, drained := false) else l.v))
  }

  function RemoveStep(h: Home, r: Run, l: Local, c: Choice, m: RemovePc): (u: Out)
    requires l.pc == Remove(m)
    ensures Kept(h, r, l, u)
  {
    match m
    case RmMain(_) => RemoveMainStep(h, r, l, c, m)
    case RmMainMove(_) => MainAsideStep(h, r, l, c, m)
    case RmMainCheck(_, _) => MainRemovedStep(h, r, l, c, m)
    case RmFence(_) | RmFenceMove(_) => RemoveFenceStep(h, r, l, c, m)
    case RmFenceCheck(_, _) => FenceRemovedStep(h, r, l, c, m)
  }

  // ---------------------------------------------------------------- repair

  /** A repair that throws, or ends with nothing to do. */
  function Stop(h: Home, l: Local): Out { Go(h, l, Release(false, ReleaseGuard)) }

  /** One pass over the repair slots: the listing, */
  function ElectListStep(h: Home, r: Run, l: Local, c: Choice, ph: ScanPhase, e: ElectPc): (u: Out)
    requires l.pc == Elect(ph, e)
    requires e.ElectSnapshot?
    ensures Kept(h, r, l, u)
  {
    hide Abandoned;
    match e
    case ElectSnapshot =>
      if c.fail then Stop(h, l)
      else Go(h, l, Elect(if ph.Wait? then Wait(false) else ph, ElectScan(h.f.slots.Keys)))
  }

  /** and one read per slot. */
  function ElectReadStep(h: Home, r: Run, l: Local, c: Choice, ph: ScanPhase, e: ElectPc): (u: Out)
    requires l.pc == Elect(ph, e)
    requires e.ElectScan?
    ensures Kept(h, r, l, u)
  {
    hide Abandoned;
    match e
    case ElectScan(names) =>
      if names == {} then
        (match ph
         case Choose(m) => Go(h, l, PublishTicket(m + 1))
         case Wait(blocked) => Go(h, l, if blocked then Elect(ph, ElectSnapshot) else Canon(CanonRead(0))))
      else if c.name !in names then Out(h, l)
      else if c.name !in h.f.slots then Go(h, l, Elect(ph, ElectScan(names - {c.name})))
      else Go(h, l, Elect(ph, ElectJudge(names - {c.name}, c.name, h.f.slots[c.name])))
  }

  /** Choosing a number, or waiting for whoever is earlier. */
  function ElectJudgeStep(h: Home, r: Run, l: Local, c: Choice, ph: ScanPhase, e: ElectPc): (u: Out)
    requires l.pc == Elect(ph, e)
    requires e.ElectJudge? || e.ElectTicket?
    ensures Kept(h, r, l, u)
  {
    hide Abandoned, Named, RecoveryAt, RepairAt, CatchAt;
    match e
    case ElectJudge(names, name, x) =>
      (match Inspection(h, x, c.doubt)
       case Stale => Go(h, l, Elect(ph, DropTicket(names, name, x)))
       case Untrusted => Stop(h, l)
       case Live => Go(h, l, Elect(ph, if ph.Wait? && x == r then ElectScan(names) else ElectTicket(names, x))))
    case ElectTicket(names, x) =>
      if c.fail then Stop(h, l)
      else Go(h, l, Elect(match ph
                          case Choose(m) => Choose(if x in h.f.tickets then Max(m, h.f.tickets[x]) else m)
                          case Wait(blocked) =>
                            Wait(blocked || x !in h.f.tickets || Earlier(h.f.tickets[x], x, l.v.ticket, r)),
                          ElectScan(names)))
  }

  /** Removing the ticket of a dead repairer. */
  function DropTicketStep(h: Home, r: Run, l: Local, c: Choice, ph: ScanPhase, e: ElectPc): (u: Out)
    requires l.pc == Elect(ph, e)
    requires e.DropTicket?
    ensures Kept(h, r, l, u)
  {
    hide Abandoned, Named;
    match e
    case DropTicket(names, name, x) =>
      Go(if c.fail then h else h.(f := h.f.(tickets := h.f.tickets - {x})), l, Elect(ph, DropSlot(names, name)))
  }

  /** Setting its slot aside, */
  function DropSlotStep(h: Home, r: Run, l: Local, c: Choice, ph: ScanPhase, e: ElectPc): (u: Out)
    requires l.pc == Elect(ph, e)
    requires e.DropSlot?
    ensures Kept(h, r, l, u)
  {
    hide Abandoned, RecoveryAt, RepairAt, CatchAt;
    match e
    case DropSlot(names, name) =>
      if c.fail || name !in h.f.slots || Alias(h.f.slots[name], c.n) in h.f.slots then
        Go(h, l, Elect(ph, ElectScan(names)))
      else
        var x := h.f.slots[name];
        Go(h.(f := h.f.(slots := (h.f.slots - {name})[Alias(x, c.n) := x])), l,
          Elect(ph, EraseSlot(names, name, Alias(x, c.n))))
  }

  /** and erasing it. */
  function EraseSlotStep(h: Home, r: Run, l: Local, c: Choice, ph: ScanPhase, e: ElectPc): (u: Out)
    requires l.pc == Elect(ph, e)
    requires e.EraseSlot?
    ensures Kept(h, r, l, u)
  {
    hide Abandoned;
    match e
    case EraseSlot(names, was, name) =>
      Go(h.(f := h.f.(slots := if c.fail then h.f.slots[was := name.run] else h.f.slots - {name})), l,
         Elect(ph, ElectScan(names)))
  }

  function ElectStep(h: Home, r: Run, l: Local, c: Choice, ph: ScanPhase, e: ElectPc): (u: Out)
    requires l.pc == Elect(ph, e)
    ensures Kept(h, r, l, u)
  {
    match e
    case ElectSnapshot => ElectListStep(h, r, l, c, ph, e)
    case ElectScan(_) => ElectReadStep(h, r, l, c, ph, e)
    case ElectJudge(_, _, _) | ElectTicket(_, _) => ElectJudgeStep(h, r, l, c, ph, e)
    case DropTicket(_, _, _) => DropTicketStep(h, r, l, c, ph, e)
    case DropSlot(_, _) => DropSlotStep(h, r, l, c, ph, e)
    case EraseSlot(_, _, _) => EraseSlotStep(h, r, l, c, ph, e)
  }

  function TicketStep(h: Home, r: Run, l: Local, c: Choice, t: nat): (u: Out)
    requires l.pc == PublishTicket(t)
    ensures Kept(h, r, l, u)
  {
    hide Abandoned, Named;
    if c.fail || r in h.f.tickets then Stop(h, l)
    else Out(h.(f := h.f.(tickets := h.f.tickets[r := t])), Local(Elect(Wait(false), ElectSnapshot), l.v.(ticket := t)))
  }

  /** release(): the canonical guard is read, renamed aside and given back unless it was ours, */
  function ReleaseGuardStep(h: Home, r: Run, l: Local, c: Choice, b: bool, z: ReleasePc): (u: Out)
    requires l.pc == Release(b, z)
    requires z.ReleaseGuard? || z.ReleaseGuardMove? || z.ReleaseGuardCheck?
    ensures Kept(h, r, l, u)
  {
    hide Ground;
    match z
    case ReleaseGuard =>
      Go(h, l, Release(b, if l.v.guarded && h.repairGuard == Some(r) && !c.fail then ReleaseGuardMove
        else ReleaseTicket))
    case ReleaseGuardMove =>
      if c.fail then Go(h, l, Release(b, ReleaseTicket))
      else (match h.repairGuard
            case None => Go(h, l, Release(b, ReleaseTicket))
            case Some(y) => Go(h.(repairGuard := None), l, Release(b, ReleaseGuardCheck(y))))
    case ReleaseGuardCheck(y) =>
      Go(h.(repairGuard := GivenBack(h.repairGuard, r, y, c.fail)), l, Release(b, ReleaseTicket))
  }

  /** then the ticket, whose name nobody else publishes under, */
  function ReleaseTicketStep(h: Home, r: Run, l: Local, c: Choice, b: bool, z: ReleasePc): (u: Out)
    requires l.pc == Release(b, z)
    requires z.ReleaseTicket?
    ensures Kept(h, r, l, u)
  {
    hide Abandoned, Named;
    match z
    case ReleaseTicket =>
      Go(if c.fail then h else h.(f := h.f.(tickets := h.f.tickets - {r})), l, Release(b, ReleaseSlot))
  }

  /** and last the slot: first set aside, */
  function ReleaseSlotStep(h: Home, r: Run, l: Local, c: Choice, b: bool, z: ReleasePc): (u: Out)
    requires l.pc == Release(b, z)
    requires z.ReleaseSlot?
    ensures Kept(h, r, l, u)
  {
    hide Abandoned;
    match z
    case ReleaseSlot =>
      if c.fail || Own(r) !in h.f.slots || Alias(r, c.n) in h.f.slots then Go(h, l, Release(b, RepairDone))
      else Go(h.(f := h.f.(slots := (h.f.slots - {Own(r)})[Alias(r, c.n) := r])), l, Release(b, ReleaseErase(c.n)))
  }

  /** then erased. */
  function ReleaseEraseStep(h: Home, r: Run, l: Local, c: Choice, b: bool, z: ReleasePc): (u: Out)
    requires l.pc == Release(b, z)
    requires z.ReleaseErase?
    ensures Kept(h, r, l, u)
  {
    hide Abandoned;
    match z
    case ReleaseErase(n) =>
      Go(h.(f := h.f.(slots := if c.fail then h.f.slots[Own(r) := r] else h.f.slots - {Alias(r, n)})), l,
         Release(b, RepairDone))
  }

  function ReleaseStep(h: Home, r: Run, l: Local, c: Choice, b: bool, z: ReleasePc): (u: Out)
    requires l.pc == Release(b, z)
    ensures Kept(h, r, l, u)
  {
    match z
    case ReleaseGuard | ReleaseGuardMove | ReleaseGuardCheck(_) => ReleaseGuardStep(h, r, l, c, b, z)
    case ReleaseTicket => ReleaseTicketStep(h, r, l, c, b, z)
    case ReleaseSlot => ReleaseSlotStep(h, r, l, c, b, z)
    case ReleaseErase(_) => ReleaseEraseStep(h, r, l, c, b, z)
    case RepairDone => Out(h, l)
  }

  /** Whoever holds the canonical guard alive stops the repair. */
  function CanonReadStep(h: Home, r: Run, l: Local, c: Choice, o: CanonPc): (u: Out)
    requires l.pc == Canon(o)
    requires o.CanonRead? || o.CanonJudge? || o.CanonCheck?
    ensures Kept(h, r, l, u)
  {
    hide Ground;
    match o
    case CanonRead(a) =>
      if a >= 2 || c.fail then Stop(h, l)
      else (match h.repairGuard
            case None => Go(h, l, Canon(CanonLink(a)))
            case Some(x) => Go(h, l, Canon(CanonJudge(a, x))))
    case CanonJudge(a, x) =>
      if Inspection(h, x, c.doubt).Stale? then Go(h, l, Canon(CanonCheck(a, x))) else Stop(h, l)
    case CanonCheck(a, x) =>
      if h.repairGuard == Some(x) && !c.fail then Go(h, l, Canon(CanonMove(a, x))) else Stop(h, l)
  }

  /** A stale canonical guard is removed, exactly. */
  function CanonMoveStep(h: Home, r: Run, l: Local, c: Choice, o: CanonPc): (u: Out)
    requires l.pc == Canon(o)
    requires o.CanonMove? || o.CanonMoved?
    ensures Kept(h, r, l, u)
  {
    hide Ground;
    match o
    case CanonMove(a, x) =>
      if c.fail then Stop(h, l)
      else (match h.repairGuard
            case None => Stop(h, l)
            case Some(y) => Go(h.(repairGuard := None), l, Canon(CanonMoved(a, x, y))))
    case CanonMoved(a, x, y) =>
      if x == y && !c.fail then Go(h, l, Canon(CanonRead(a + 1)))
      else Stop(h.(repairGuard := GivenBack(h.repairGuard, x, y, c.fail)), l)
  }

  /** Publishing the canonical guard. */
  function CanonLinkStep(h: Home, r: Run, l: Local, c: Choice, o: CanonPc): (u: Out)
    requires l.pc == Canon(o)
    requires o.CanonLink? || o.CanonAssert?
    ensures Kept(h, r, l, u)
  {
    hide Ground;
    match o
    case CanonLink(a) =>
      if c.fail then Stop(h, l)
      else if h.repairGuard.Some? then Go(h, l, Canon(CanonRead(a + 1)))
      else Go(h.(repairGuard := Some(r)), l, Canon(CanonAssert))
    case CanonAssert =>
      if c.fail || c.doubt || h.repairGuard != Some(r) then Stop(h, l)
      else Out(h, Local(Open(OpenOwned), l.v.(guarded := true)))
  }

  function CanonStep(h: Home, r: Run, l: Local, c: Choice, o: CanonPc): (u: Out)
    requires l.pc == Canon(o)
    ensures Kept(h, r, l, u)
  {
    match o
    case CanonRead(_) | CanonJudge(_, _) | CanonCheck(_, _) => CanonReadStep(h, r, l, c, o)
    case CanonMove(_, _) | CanonMoved(_, _, _) => CanonMoveStep(h, r, l, c, o)
    case CanonLink(_) | CanonAssert => CanonLinkStep(h, r, l, c, o)
  }

  /** Still elected, is there a fence? */
  function OpenReadStep(h: Home, r: Run, l: Local, c: Choice, q: OpenPc): (u: Out)
    requires l.pc == Open(q)
    requires q.OpenOwned? || q.ReadFence?
    ensures Kept(h, r, l, u)
  {
    hide Ground;
    match q
    case OpenOwned =>
      if c.fail || c.doubt || h.repairGuard != Some(r) then Stop(h, l) else Go(h, l, Open(ReadFence))
    case ReadFence =>
      if c.fail || h.fence == None then Stop(h, l) else Go(h, l, Open(JudgeFence(h.fence.value)))
  }

  /** It must be stale, and its content is noted. */
  function OpenJudgeStep(h: Home, r: Run, l: Local, c: Choice, q: OpenPc): (u: Out)
    requires l.pc == Open(q)
    requires q.JudgeFence? || q.PrintFence?
    ensures Kept(h, r, l, u)
  {
    hide Ground;
    match q
    case JudgeFence(x) =>
      if !c.fail && Inspection(h, x, c.doubt).Stale? then Go(h, l, Open(PrintFence(x))) else Stop(h, l)
    case PrintFence(x) =>
      if c.fail || h.fence == None then Stop(h, l)
      else Go(h, l, Drain(Repairer(Target(x, h.fence.value)), DrainSnapshot))
  }

  function OpenStep(h: Home, r: Run, l: Local, c: Choice, q: OpenPc): (u: Out)
    requires l.pc == Open(q)
    ensures Kept(h, r, l, u)
  {
    match q
    case OpenOwned | ReadFence => OpenReadStep(h, r, l, c, q)
    case JudgeFence(_) | PrintFence(_) => OpenJudgeStep(h, r, l, c, q)
  }

  function AfterExact(rs: RepairStage): RepairPc {
    match rs
    case ToSurvey => SurveyMain
    case ToRestore(n, undo) => Reinstate(n, undo)
    case ToDisplace(x, n) => Displace(x, n)
    case ToLegacy(kept) => Legacy(kept)
    case ToUnfence(kept) => Unfence(kept)
  }

  predicate HasLive(cands: set<Candidate>) {
    exists k :: k in cands && k.Seen? && k.live
  }

  /** All live (all stale) candidates carry the one record x. */
  predicate Unique(cands: set<Candidate>, x: Run, live: bool) {
    forall k :: k in cands && k.Seen? && k.live == live ==> k.x == x
  }

  /** Path n carries the one record all live (all stale) candidates agree on. */
  predicate Chosen(cands: set<Candidate>, n: Run, live: bool) {
    exists k :: k in cands && k.Seen? && k.n == n && k.live == live && Unique(cands, k.x, live)
  }

  /** The repair decision; `n` is the quarantine path the unique candidate is restored
      from.  A canonical live main excludes itself from the live candidates. */
  function Decision(m: MainSeen, cands: set<Candidate>, n: Run): Option<RepairPc> {
    match m
    case MainLive(x) => if Unique(cands, x, true) then Some(Reconcile(false)) else None
    case MainStale(x) =>
      if !HasLive(cands) then Some(Reconcile(false))
      else if Chosen(cands, n, true) then Some(RepairOwned(ToDisplace(x, n)))
      else None
    case MainAbsent =>
      if cands == {} then Some(Reconcile(true))
      else if Chosen(cands, n, true) || (!HasLive(cands) && Chosen(cands, n, false)) then
        Some(RepairOwned(ToRestore(n, false)))
      else None
  }

  /** repair.assertOwned */
  function OwnedStep(h: Home, r: Run, l: Local, c: Choice, t: Target, p: RepairPc): (u: Out)
    requires l.pc == Repair(t, p)
    requires p.RepairOwned?
    ensures Kept(h, r, l, u)
  {
    hide Ground;
    match p
    case RepairOwned(rs) =>
      if c.fail || c.doubt || h.repairGuard != Some(r) then Stop(h, l) else Go(h, l, Repair(t, RepairExact(rs)))
  }

  /** and assertExactStaleRecoveryRecord: still stale, still that instance, still that content. */
  function ExactStep(h: Home, r: Run, l: Local, c: Choice, t: Target, p: RepairPc): (u: Out)
    requires l.pc == Repair(t, p)
    requires p.RepairExact?
    ensures Kept(h, r, l, u)
  {
    hide Ground;
    match p
    case RepairExact(rs) =>
      if !c.fail && h.fence == Some(t.inst) && Inspection(h, t.inst, c.doubt).Stale? && t.content == t.inst
      then Go(h, l, Repair(t, AfterExact(rs))) else Stop(h, l)
  }

  /** Reading main, */
  function SurveyMainStep(h: Home, r: Run, l: Local, c: Choice, t: Target, p: RepairPc): (u: Out)
    requires l.pc == Repair(t, p)
    requires p.SurveyMain?
    ensures Kept(h, r, l, u)
  {
    hide Ground;
    match p
    case SurveyMain =>
      if c.fail then Stop(h, l)
      else (match h.main
            case None => Go(h, l, Repair(t, SurveySnapshot(MainAbsent)))
            case Some(x) => Go(h, l, Repair(t, SurveyJudge(x))))
  }

  /** and listing the quarantine. */
  function SurveyListStep(h: Home, r: Run, l: Local, c: Choice, t: Target, p: RepairPc): (u: Out)
    requires l.pc == Repair(t, p)
    requires p.SurveySnapshot?
    ensures Kept(h, r, l, u)
  {
    hide Named;
    match p
    case SurveySnapshot(m) =>
      if c.fail then Stop(h, l) else Go(h, l, Repair(t, SurveyScan(m, h.f.quarantine.Keys, {})))
  }

  /** Judging what main holds. */
  function SurveyJudgeStep(h: Home, r: Run, l: Local, c: Choice, t: Target, p: RepairPc): (u: Out)
    requires l.pc == Repair(t, p)
    requires p.SurveyJudge?
    ensures Kept(h, r, l, u)
  {
    hide Ground;
    match p
    case SurveyJudge(x) =>
      (match Inspection(h, x, c.doubt)
       case Live => Go(h, l, Repair(t, SurveySnapshot(MainLive(x))))
       case Stale => Go(h, l, Repair(t, SurveySnapshot(MainStale(x))))
       case Untrusted => Stop(h, l))
  }

  /** Reading every quarantine file, */
  function SurveyStep(h: Home, r: Run, l: Local, c: Choice, t: Target, p: RepairPc): (u: Out)
    requires l.pc == Repair(t, p)
    requires p.SurveyScan?
    ensures Kept(h, r, l, u)
  {
    hide Named, RecoveryAt, CatchAt;
    match p
    case SurveyScan(m, left, cands) =>
      if left == {} then Go(h, l, Repair(t, Decide(m, cands)))
      else if c.pick !in left then Out(h, l)
      else if c.pick !in h.f.quarantine then
        Go(h, l, Repair(t, SurveyScan(m, left - {c.pick}, cands + {Gone(c.pick)})))
      else Go(h, l, Repair(t, SurveyFound(m, left - {c.pick}, cands, c.pick, h.f.quarantine[c.pick])))
  }

  /** and judging the owner found there. */
  function SurveyFoundStep(h: Home, r: Run, l: Local, c: Choice, t: Target, p: RepairPc): (u: Out)
    requires l.pc == Repair(t, p)
    requires p.SurveyFound?
    ensures Kept(h, r, l, u)
  {
    hide Ground;
    match p
    case SurveyFound(m, left, cands, n, x) =>
      var v := Inspection(h, x, c.doubt);
      if v.Untrusted? then Stop(h, l) else Go(h, l, Repair(t, SurveyScan(m, left, cands + {Seen(n, x, v.Live?)})))
  }

  /** Deciding what main must become. */
  function DecideStep(h: Home, r: Run, l: Local, c: Choice, t: Target, p: RepairPc): (u: Out)
    requires l.pc == Repair(t, p)
    requires p.Decide?
    ensures Kept(h, r, l, u)
  {
    hide Ground;
    match p
    case Decide(m, cands) =>
      (match Decision(m, cands, c.pick) case None => Stop(h, l) case Some(q) => Go(h, l, Repair(t, q)))
  }

  /** Setting a stale main aside for the live candidate, */
  function DisplaceStep(h: Home, r: Run, l: Local, c: Choice, t: Target, p: RepairPc): (u: Out)
    requires l.pc == Repair(t, p)
    requires p.Displace?
    ensures Kept(h, r, l, u)
  {
    hide Named, RecoveryAt, CatchAt;
    match p
    case Displace(x, n) =>
      if c.fail || r in h.f.quarantine then Stop(h, l)
      else (match h.main
            case None => Stop(h, l)
            case Some(y) =>
              Go(h.(main := None, f := h.f.(quarantine := h.f.quarantine[r := y])), l, Repair(t, DisplaceCheck(x, n))))
  }

  /** whether that was the record judged, */
  function DisplacedStep(h: Home, r: Run, l: Local, c: Choice, t: Target, p: RepairPc): (u: Out)
    requires l.pc == Repair(t, p)
    requires p.DisplaceCheck?
    ensures Kept(h, r, l, u)
  {
    hide Ground;
    match p
    case DisplaceCheck(x, n) =>
      Go(h, l, Repair(t, if r in h.f.quarantine && h.f.quarantine[r] == x
                         then RepairOwned(ToRestore(n, true)) else UndoDisplace))
  }

  /** putting it back, */
  function UndoDisplaceStep(h: Home, r: Run, l: Local, c: Choice, t: Target, p: RepairPc): (u: Out)
    requires l.pc == Repair(t, p)
    requires p.UndoDisplace?
    ensures Kept(h, r, l, u)
  {
    hide Named, RecoveryAt, CatchAt;
    match p
    case UndoDisplace =>
      if h.main == None && r in h.f.quarantine && !c.fail then
        Go(h.(main := Some(h.f.quarantine[r])), l, Repair(t, UndoUnlink))
      else Stop(h, l)
  }

  /** and dropping its alias. */
  function UndoUnlinkStep(h: Home, r: Run, l: Local, c: Choice, t: Target, p: RepairPc): (u: Out)
    requires l.pc == Repair(t, p)
    requires p.UndoUnlink?
    ensures Kept(h, r, l, u)
  {
    hide Named, RecoveryAt, CatchAt;
    match p
    case UndoUnlink =>
      Stop(if c.fail then h else h.(f := h.f.(quarantine := h.f.quarantine - {r})), l)
  }

  /** Restoring the chosen candidate without overwriting. */
  function ReinstateStep(h: Home, r: Run, l: Local, c: Choice, t: Target, p: RepairPc): (u: Out)
    requires l.pc == Repair(t, p)
    requires p.Reinstate?
    ensures Kept(h, r, l, u)
  {
    hide Named, RecoveryAt, CatchAt, EnterAt, RemoveAt, ExitAt, ElectAt;
    match p
    case Reinstate(n, undo) =>
      if h.main == None && n in h.f.quarantine && !c.fail then
        Go(h.(main := Some(h.f.quarantine[n])), l, Repair(t, ReinstateUnlink(n)))
      else if undo then Go(h, l, Repair(t, UndoDisplace)) else Stop(h, l)
  }

  /** Dropping its quarantine alias. */
  function DropAliasStep(h: Home, r: Run, l: Local, c: Choice, t: Target, p: RepairPc): (u: Out)
    requires l.pc == Repair(t, p)
    requires p.ReinstateUnlink?
    ensures Kept(h, r, l, u)
  {
    hide Named, RecoveryAt, CatchAt;
    match p
    case ReinstateUnlink(n) =>
      Go(if c.fail then h else h.(f := h.f.(quarantine := h.f.quarantine - {n})), l, Repair(t, Reconcile(false)))
  }

  /** Verifying main. */
  function ReconcileStep(h: Home, r: Run, l: Local, c: Choice, t: Target, p: RepairPc): (u: Out)
    requires l.pc == Repair(t, p)
    requires p.Reconcile?
    ensures Kept(h, r, l, u)
  {
    hide Ground;
    match p
    case Reconcile(empty) =>
      if (match h.main case Some(x) => Inspection(h, x, c.doubt).Untrusted? case None => !empty || c.fail)
      then Stop(h, l) else Go(h, l, Repair(t, RepairOwned(ToLegacy(h.main))))
  }

  /** Reading the recovery guard, which must be the dead holder's. */
  function LegacyStep(h: Home, r: Run, l: Local, c: Choice, t: Target, p: RepairPc): (u: Out)
    requires l.pc == Repair(t, p)
    requires p.Legacy?
    ensures Kept(h, r, l, u)
  {
    hide Ground;
    match p
    case Legacy(kept) =>
      (match h.recovery
       case None => Go(h, l, Repair(t, RepairOwned(ToUnfence(kept))))
       case Some(x) => if c.fail then Stop(h, l) else Go(h, l, Repair(t, LegacyJudge(kept, x))))
  }

  function LegacyJudgeStep(h: Home, r: Run, l: Local, c: Choice, t: Target, p: RepairPc): (u: Out)
    requires l.pc == Repair(t, p)
    requires p.LegacyJudge?
    ensures Kept(h, r, l, u)
  {
    hide Ground;
    match p
    case LegacyJudge(kept, x) =>
      if Inspection(h, x, c.doubt).Stale? && x == t.inst then Go(h, l, Repair(t, LegacyMove(kept))) else Stop(h, l)
  }

  /** Removing it, whatever it is by now. */
  function LegacyMoveStep(h: Home, r: Run, l: Local, c: Choice, t: Target, p: RepairPc): (u: Out)
    requires l.pc == Repair(t, p)
    requires p.LegacyMove?
    ensures Kept(h, r, l, u)
  {
    hide Ground;
    match p
    case LegacyMove(kept) =>
      if c.fail then Stop(h, l)
      else (match h.recovery
            case None => Go(h, l, Repair(t, RepairOwned(ToUnfence(kept))))
            case Some(y) => Go(h.(recovery := None), l, Repair(t, LegacyCheck(kept, y))))
  }

  /** Linking it back when it was someone else's. */
  function LegacyCheckStep(h: Home, r: Run, l: Local, c: Choice, t: Target, p: RepairPc): (u: Out)
    requires l.pc == Repair(t, p)
    requires p.LegacyCheck?
    ensures Kept(h, r, l, u)
  {
    hide Ground;
    match p
    case LegacyCheck(kept, y) =>
      if y == t.inst && !c.fail then Go(h, l, Repair(t, RepairOwned(ToUnfence(kept))))
      else Stop(h.(recovery := GivenBack(h.recovery, t.inst, y, c.fail)), l)
  }

  /** Checking the exact stale fence once more. */
  function UnfenceStep(h: Home, r: Run, l: Local, c: Choice, t: Target, p: RepairPc): (u: Out)
    requires l.pc == Repair(t, p)
    requires p.Unfence?
    ensures Kept(h, r, l, u)
  {
    hide Ground;
    match p
    case Unfence(kept) =>
      // removeExactOwnedJson on the fence
      if h.fence == Some(t.inst) && t.content == t.inst && !c.fail then Go(h, l, Repair(t, UnfenceMove(kept)))
      else Stop(h, l)
  }

  /** Removing it, the last thing repair does to shared state, */
  function UnfenceMoveStep(h: Home, r: Run, l: Local, c: Choice, t: Target, p: RepairPc): (u: Out)
    requires l.pc == Repair(t, p)
    requires p.UnfenceMove?
    ensures Kept(h, r, l, u)
  {
    hide Ground;
    match p
    case UnfenceMove(kept) =>
      if c.fail then Stop(h, l)
      else (match h.fence
            case None => Stop(h, l)
            case Some(y) => Go(h.(fence := None), l, Repair(t, UnfenceCheck(kept, y))))
  }

  /** unless it was another fence by then or cannot be removed: then it is linked back. */
  function UnfenceCheckStep(h: Home, r: Run, l: Local, c: Choice, t: Target, p: RepairPc): (u: Out)
    requires l.pc == Repair(t, p)
    requires p.UnfenceCheck?
    ensures Kept(h, r, l, u)
  {
    hide Ground;
    match p
    case UnfenceCheck(kept, y) =>
      if y == t.inst && !c.fail then Go(h, l, Release(true, ReleaseGuard))
      else Stop(h.(fence := GivenBack(h.fence, t.inst, y, c.fail)), l)
  }

  function RepairStep(h: Home, r: Run, l: Local, c: Choice, t: Target, p: RepairPc): (u: Out)
    requires l.pc == Repair(t, p)
    ensures Kept(h, r, l, u)
  {
    match p
    case RepairOwned(_) => OwnedStep(h, r, l, c, t, p)
    case RepairExact(_) => ExactStep(h, r, l, c, t, p)
    case SurveyMain => SurveyMainStep(h, r, l, c, t, p)
    case SurveySnapshot(_) => SurveyListStep(h, r, l, c, t, p)
    case SurveyJudge(_) => SurveyJudgeStep(h, r, l, c, t, p)
    case SurveyScan(_, _, _) => SurveyStep(h, r, l, c, t, p)
    case SurveyFound(_, _, _, _, _) => SurveyFoundStep(h, r, l, c, t, p)
    case Decide(_, _) => DecideStep(h, r, l, c, t, p)
    case Displace(_, _) => DisplaceStep(h, r, l, c, t, p)
    case DisplaceCheck(_, _) => DisplacedStep(h, r, l, c, t, p)
    case UndoDisplace => UndoDisplaceStep(h, r, l, c, t, p)
    case UndoUnlink => UndoUnlinkStep(h, r, l, c, t, p)
    case Reinstate(_, _) => ReinstateStep(h, r, l, c, t, p)
    case ReinstateUnlink(_) => DropAliasStep(h, r, l, c, t, p)
    case Reconcile(_) => ReconcileStep(h, r, l, c, t, p)
    case Legacy(_) => LegacyStep(h, r, l, c, t, p)
    case LegacyJudge(_, _) => LegacyJudgeStep(h, r, l, c, t, p)
    case LegacyMove(_) => LegacyMoveStep(h, r, l, c, t, p)
    case LegacyCheck(_, _) => LegacyCheckStep(h, r, l, c, t, p)
    case Unfence(_) => UnfenceStep(h, r, l, c, t, p)
    case UnfenceMove(_) => UnfenceMoveStep(h, r, l, c, t, p)
    case UnfenceCheck(_, _) => UnfenceCheckStep(h, r, l, c, t, p)
  }

  // ---------------------------------------------------------------- runs

  function StepOf(h: Home, r: Run, l: Local, c: Choice): (u: Out)
    ensures Kept(h, r, l, u)
  {
    match l.pc
    case Enter(e) => EnterStep(h, r, l, c, e)
    case Guard(k, g) => GuardStep(h, r, l, c, k, g)
    case Recovery(v) => RecoveryStep(h, r, l, c, v)
    case Drain(w, d) => DrainStep(h, r, l, c, w, d)
    case Catch(x) => CatchStep(h, r, l, c, x)
    case Remove(m) => RemoveStep(h, r, l, c, m)
    case Exit(x) => ExitStep(h, r, l, c, x)
    case Elect(ph, e) => ElectStep(h, r, l, c, ph, e)
    case PublishTicket(t) => TicketStep(h, r, l, c, t)
    case Canon(o) => CanonStep(h, r, l, c, o)
    case Open(q) => OpenStep(h, r, l, c, q)
    case Repair(t, p) => RepairStep(h, r, l, c, t, p)
    case Release(b, z) => ReleaseStep(h, r, l, c, b, z)
  }

  function Next(s: State, e: Event): State {
    match e
    case Die(p) => s.(h := s.h.(f := s.h.f.(dead := s.h.f.dead + {p})))
    case Do(r, c) =>
      if Alive(s.h, r) then
        var o := StepOf(s.h, r, L(s, r), c);
        State(o.h, s.loc[r := o.l])
      else s
  }

  /** The home before any record exists, whatever processes are already dead. */
  predicate Initial(s: State) {
    && s.h.main == None && s.h.recovery == None && s.h.fence == None && s.h.repairGuard == None
    && s.h.f.entrants == map[] && s.h.f.quarantine == map[] && s.h.f.slots == map[] && s.h.f.tickets == map[]
    && s.h.f.released == {} && s.loc == map[]
  }

  /** An execution: the states it passes through and what happens between them. */
  datatype Trace = Trace(states: seq<State>, events: seq<Event>)

  predicate Happens(t: Trace, i: nat) {
    i < |t.events| && i + 1 < |t.states| && t.states[i + 1] == Next(t.states[i], t.events[i])
  }

  /** Any number of steps and deaths, in any order, from any initial home. */
  predicate Behaviour(t: Trace) {
    && |t.states| == |t.events| + 1 && Initial(t.states[0])
    && forall i {:trigger Happens(t, i)} :: 0 <= i < |t.events| ==> Happens(t, i)
  }
}
