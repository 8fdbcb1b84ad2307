/** Whose records the lock directory can hold: only those of calls that have begun. */
module OwnershipRecords {
  import opened Options
  import opened OwnershipState
  import opened OwnershipFacts
  import opened OwnershipProtocol
  import opened OwnershipSafety
  import opened OwnershipAlone

  predicate FilesOf(files: map<FileName, Run>, runs: set<Run>) {
    forall n :: n in files ==> n.run in runs && files[n] in runs
  }

  predicate FileOf(file: Option<Run>, runs: set<Run>) {
    file.Some? ==> file.value in runs
  }

  /** Every name and every record is of one of these calls. */
  ghost predicate HomeOf(h: Home, runs: set<Run>) {
    && FileOf(h.main, runs) && FileOf(h.recovery, runs) && FileOf(h.fence, runs) && FileOf(h.repairGuard, runs)
    && FilesOf(h.f.entrants, runs) && FilesOf(h.f.slots, runs) && h.f.tickets.Keys <= runs
    && (forall n :: n in h.f.quarantine ==> n in runs && h.f.quarantine[n] in runs)
  }

  /** What a call has renamed aside and may give back. */
  predicate Carries(pc: Pc, runs: set<Run>) {
    match pc
    case Guard(_, GuardCheck(_, y)) => y in runs
    case Catch(FinallyGuardCheck(y)) => y in runs
    case Remove(RmMainCheck(_, y)) => y in runs
    case Remove(RmFenceCheck(_, y)) => y in runs
    case Drain(_, DrainErase(_, _, was, name)) => was.run in runs && name.run in runs
    case Elect(_, EraseSlot(_, was, name)) => was.run in runs && name.run in runs
    case Canon(CanonMoved(_, _, y)) => y in runs
    case Repair(_, LegacyCheck(_, y)) => y in runs
    case Repair(_, UnfenceCheck(_, y)) => y in runs
    case Release(_, ReleaseGuardCheck(y)) => y in runs
    case _ => true
  }

  ghost predicate Known(h: Home, r: Run, l: Local, runs: set<Run>) {
    r in runs && HomeOf(h, runs) && Carries(l.pc, runs)
  }

  /** A step brings in no record of anybody else. */
  ghost predicate Learns(h: Home, r: Run, l: Local, u: Out, runs: set<Run>) {
    !Known(h, r, l, runs) || (HomeOf(u.h, runs) && Carries(u.l.pc, runs))
  }

  lemma StandingKnows(h: Home, r: Run, l: Local, runs: set<Run>)
    ensures Learns(h, r, l, Out(h, l), runs)
  {
  }

  lemma EnterKnows(h: Home, r: Run, l: Local, c: Choice, runs: set<Run>, u: Out)
    requires l.pc.Enter? && u == EnterStep(h, r, l, c, l.pc.e)
    ensures Learns(h, r, l, u, runs)
  {
    hide Kept;
  }

  lemma GuardKnows(h: Home, r: Run, l: Local, c: Choice, runs: set<Run>, u: Out)
    requires l.pc.Guard? && u == GuardStep(h, r, l, c, l.pc.k, l.pc.g)
    ensures Learns(h, r, l, u, runs)
  {
    hide Kept;
  }

  lemma RecoveryKnows(h: Home, r: Run, l: Local, c: Choice, runs: set<Run>, u: Out)
    requires l.pc.Recovery? && u == RecoveryStep(h, r, l, c, l.pc.v)
    ensures Learns(h, r, l, u, runs)
  {
    hide Kept;
  }

  lemma PublishTicketKnows(h: Home, r: Run, l: Local, c: Choice, runs: set<Run>, u: Out)
    requires l.pc.PublishTicket? && u == TicketStep(h, r, l, c, l.pc.number)
    ensures Learns(h, r, l, u, runs)
  {
    hide Kept;
  }

  lemma OpenKnows(h: Home, r: Run, l: Local, c: Choice, runs: set<Run>, u: Out)
    requires l.pc.Open? && u == OpenStep(h, r, l, c, l.pc.q)
    ensures Learns(h, r, l, u, runs)
  {
    hide Kept;
  }

  lemma DrainReadKnows(h: Home, r: Run, l: Local, c: Choice, runs: set<Run>, u: Out)
    requires l.pc.Drain? && (l.pc.d.DrainSnapshot? || l.pc.d.DrainScan? || l.pc.d.DrainJudge?)
    requires u == DrainStep(h, r, l, c, l.pc.w, l.pc.d)
    ensures Learns(h, r, l, u, runs)
  {
    hide Kept;
  }

  lemma DrainDropKnows(h: Home, r: Run, l: Local, c: Choice, runs: set<Run>, u: Out)
    requires l.pc.Drain? && l.pc.d.DrainDrop? && u == DrainDropStep(h, r, l, c, l.pc.w, l.pc.d)
    ensures Learns(h, r, l, u, runs)
  {
    hide Kept;
  }

  lemma DrainEraseKnows(h: Home, r: Run, l: Local, c: Choice, runs: set<Run>, u: Out)
    requires l.pc.Drain? && l.pc.d.DrainErase? && u == DrainEraseStep(h, r, l, c, l.pc.w, l.pc.d)
    ensures Learns(h, r, l, u, runs)
  {
    hide Kept;
  }

  lemma DrainKnows(h: Home, r: Run, l: Local, c: Choice, runs: set<Run>, u: Out)
    requires l.pc.Drain? && u == DrainStep(h, r, l, c, l.pc.w, l.pc.d)
    ensures Learns(h, r, l, u, runs)
  {
    hide Kept, Learns;
    match l.pc.d
    case DrainSnapshot | DrainScan(_, _) | DrainJudge(_, _, _, _) => DrainReadKnows(h, r, l, c, runs, u);
    case DrainDrop(_, _, _) => DrainDropKnows(h, r, l, c, runs, u);
    case DrainErase(_, _, _, _) => DrainEraseKnows(h, r, l, c, runs, u);
  }

  lemma CanonReadKnows(h: Home, r: Run, l: Local, c: Choice, runs: set<Run>, u: Out)
    requires l.pc.Canon? && (l.pc.o.CanonRead? || l.pc.o.CanonJudge? || l.pc.o.CanonCheck?)
    requires u == CanonReadStep(h, r, l, c, l.pc.o)
    ensures Learns(h, r, l, u, runs)
  {
    hide Kept;
  }

  lemma CanonMoveKnows(h: Home, r: Run, l: Local, c: Choice, runs: set<Run>, u: Out)
    requires l.pc.Canon? && (l.pc.o.CanonMove? || l.pc.o.CanonMoved?) && u == CanonMoveStep(h, r, l, c, l.pc.o)
    ensures Learns(h, r, l, u, runs)
  {
    hide Kept;
  }

  lemma CanonLinkKnows(h: Home, r: Run, l: Local, c: Choice, runs: set<Run>, u: Out)
    requires l.pc.Canon? && (l.pc.o.CanonLink? || l.pc.o.CanonAssert?) && u == CanonLinkStep(h, r, l, c, l.pc.o)
    ensures Learns(h, r, l, u, runs)
  {
    hide Kept;
  }

  lemma CanonKnows(h: Home, r: Run, l: Local, c: Choice, runs: set<Run>, u: Out)
    requires l.pc.Canon? && u == CanonStep(h, r, l, c, l.pc.o)
    ensures Learns(h, r, l, u, runs)
  {
    hide Kept, Learns;
    match l.pc.o
    case CanonRead(_) | CanonJudge(_, _) | CanonCheck(_, _) => CanonReadKnows(h, r, l, c, runs, u);
    case CanonMove(_, _) | CanonMoved(_, _, _) => CanonMoveKnows(h, r, l, c, runs, u);
    case CanonLink(_) | CanonAssert => CanonLinkKnows(h, r, l, c, runs, u);
  }

  lemma GiveBackKnows(h: Home, r: Run, l: Local, c: Choice, runs: set<Run>, u: Out)
    requires l.pc.Catch? && (l.pc.h.RestoreEarly? || l.pc.h.EarlyUnlink? || l.pc.h.CatchOwner?)
    requires u == CatchStep(h, r, l, c, l.pc.h)
    ensures Learns(h, r, l, u, runs)
  {
    hide Kept;
  }

  lemma RestoreKnows(h: Home, r: Run, l: Local, c: Choice, runs: set<Run>, u: Out)
    requires l.pc.Catch? && (l.pc.h.RestoreLink? || l.pc.h.RestoreUnlink? || l.pc.h.RestoreVerify?)
    requires u == CatchStep(h, r, l, c, l.pc.h)
    ensures Learns(h, r, l, u, runs)
  {
    hide Kept;
  }

  lemma GuardAwayKnows(h: Home, r: Run, l: Local, c: Choice, runs: set<Run>, u: Out)
    requires l.pc.Catch? && (l.pc.h.FinallyGuard? || l.pc.h.FinallyGuardMove? || l.pc.h.FinallyGuardCheck?
                 || l.pc.h.CatchUnfence? || l.pc.h.FinallyUnfence?)
    requires u == CatchStep(h, r, l, c, l.pc.h)
    ensures Learns(h, r, l, u, runs)
  {
    hide Kept;
  }

  lemma CatchKnows(h: Home, r: Run, l: Local, c: Choice, runs: set<Run>, u: Out)
    requires l.pc.Catch? && u == CatchStep(h, r, l, c, l.pc.h)
    ensures Learns(h, r, l, u, runs)
  {
    hide Kept, Learns;
    match l.pc.h
    case RestoreEarly | EarlyUnlink | CatchOwner => GiveBackKnows(h, r, l, c, runs, u);
    case RestoreLink | RestoreUnlink | RestoreVerify => RestoreKnows(h, r, l, c, runs, u);
    case FinallyGuard | FinallyGuardMove | FinallyGuardCheck(_) | CatchUnfence | FinallyUnfence =>
      GuardAwayKnows(h, r, l, c, runs, u);
  }

  lemma RemoveMainKnows(h: Home, r: Run, l: Local, c: Choice, runs: set<Run>, u: Out)
    requires l.pc.Remove? && (l.pc.m.RmMain? || l.pc.m.RmMainMove? || l.pc.m.RmMainCheck?)
    requires u == RemoveStep(h, r, l, c, l.pc.m)
    ensures Learns(h, r, l, u, runs)
  {
    hide Kept;
  }

  lemma RemoveFenceKnows(h: Home, r: Run, l: Local, c: Choice, runs: set<Run>, u: Out)
    requires l.pc.Remove? && (l.pc.m.RmFence? || l.pc.m.RmFenceMove? || l.pc.m.RmFenceCheck?)
    requires u == RemoveStep(h, r, l, c, l.pc.m)
    ensures Learns(h, r, l, u, runs)
  {
    hide Kept;
  }

  lemma RemoveKnows(h: Home, r: Run, l: Local, c: Choice, runs: set<Run>, u: Out)
    requires l.pc.Remove? && u == RemoveStep(h, r, l, c, l.pc.m)
    ensures Learns(h, r, l, u, runs)
  {
    hide Kept, Learns;
    match l.pc.m
    case RmMain(_) | RmMainMove(_) | RmMainCheck(_, _) => RemoveMainKnows(h, r, l, c, runs, u);
    case RmFence(_) | RmFenceMove(_) | RmFenceCheck(_, _) => RemoveFenceKnows(h, r, l, c, runs, u);
  }

  lemma WithdrawKnows(h: Home, r: Run, l: Local, c: Choice, runs: set<Run>, u: Out)
    requires l.pc.Exit? && l.pc.x.FinallyEntrant? && u == WithdrawStep(h, r, l, c, l.pc.x)
    ensures Learns(h, r, l, u, runs)
  {
    hide Kept;
  }

  lemma EraseKnows(h: Home, r: Run, l: Local, c: Choice, runs: set<Run>, u: Out)
    requires l.pc.Exit? && (l.pc.x.EraseEntrant? || l.pc.x.Leased? || l.pc.x.Released? || l.pc.x.Failed?)
    requires u == ExitStep(h, r, l, c, l.pc.x)
    ensures Learns(h, r, l, u, runs)
  {
    hide Kept;
  }

  lemma ExitKnows(h: Home, r: Run, l: Local, c: Choice, runs: set<Run>, u: Out)
    requires l.pc.Exit? && u == ExitStep(h, r, l, c, l.pc.x)
    ensures Learns(h, r, l, u, runs)
  {
    hide Kept, Learns;
    match l.pc.x
    case FinallyEntrant => WithdrawKnows(h, r, l, c, runs, u);
    case EraseEntrant(_) | Leased | Released | Failed => EraseKnows(h, r, l, c, runs, u);
  }

  lemma ElectReadKnows(h: Home, r: Run, l: Local, c: Choice, runs: set<Run>, u: Out)
    requires l.pc.Elect? && (l.pc.l.ElectSnapshot? || l.pc.l.ElectScan? || l.pc.l.ElectJudge? || l.pc.l.ElectTicket?)
    requires u == ElectStep(h, r, l, c, l.pc.ph, l.pc.l)
    ensures Learns(h, r, l, u, runs)
  {
    hide Kept;
  }

  lemma DropSlotKnows(h: Home, r: Run, l: Local, c: Choice, runs: set<Run>, u: Out)
    requires l.pc.Elect? && (l.pc.l.DropTicket? || l.pc.l.DropSlot?) && u == ElectStep(h, r, l, c, l.pc.ph, l.pc.l)
    ensures Learns(h, r, l, u, runs)
  {
    hide Kept;
  }

  lemma EraseSlotKnows(h: Home, r: Run, l: Local, c: Choice, runs: set<Run>, u: Out)
    requires l.pc.Elect? && l.pc.l.EraseSlot? && u == EraseSlotStep(h, r, l, c, l.pc.ph, l.pc.l)
    ensures Learns(h, r, l, u, runs)
  {
    hide Kept;
  }

  lemma ElectKnows(h: Home, r: Run, l: Local, c: Choice, runs: set<Run>, u: Out)
    requires l.pc.Elect? && u == ElectStep(h, r, l, c, l.pc.ph, l.pc.l)
    ensures Learns(h, r, l, u, runs)
  {
    hide Kept, Learns;
    match l.pc.l
    case ElectSnapshot | ElectScan(_) | ElectJudge(_, _, _) | ElectTicket(_, _) => ElectReadKnows(h, r, l, c, runs, u);
    case DropTicket(_, _, _) | DropSlot(_, _) => DropSlotKnows(h, r, l, c, runs, u);
    case EraseSlot(_, _, _) => EraseSlotKnows(h, r, l, c, runs, u);
  }

  lemma ReleaseGuardKnows(h: Home, r: Run, l: Local, c: Choice, runs: set<Run>, u: Out)
    requires l.pc.Release? && (l.pc.z.ReleaseGuard? || l.pc.z.ReleaseGuardMove? || l.pc.z.ReleaseGuardCheck?
                 || l.pc.z.ReleaseTicket?)
    requires u == ReleaseStep(h, r, l, c, l.pc.repaired, l.pc.z)
    ensures Learns(h, r, l, u, runs)
  {
    hide Kept;
  }

  lemma ReleaseSlotKnows(h: Home, r: Run, l: Local, c: Choice, runs: set<Run>, u: Out)
    requires l.pc.Release? && l.pc.z.ReleaseSlot? && u == ReleaseSlotStep(h, r, l, c, l.pc.repaired, l.pc.z)
    ensures Learns(h, r, l, u, runs)
  {
    hide Kept;
  }

  lemma ReleaseEraseKnows(h: Home, r: Run, l: Local, c: Choice, runs: set<Run>, u: Out)
    requires l.pc.Release? && l.pc.z.ReleaseErase?
    requires u == ReleaseEraseStep(h, r, l, c, l.pc.repaired, l.pc.z)
    ensures Learns(h, r, l, u, runs)
  {
    hide Kept;
  }

  lemma ReleaseKnows(h: Home, r: Run, l: Local, c: Choice, runs: set<Run>, u: Out)
    requires l.pc.Release? && u == ReleaseStep(h, r, l, c, l.pc.repaired, l.pc.z)
    ensures Learns(h, r, l, u, runs)
  {
    hide Kept, Learns;
    match l.pc.z
    case ReleaseGuard | ReleaseGuardMove | ReleaseGuardCheck(_) | ReleaseTicket =>
      ReleaseGuardKnows(h, r, l, c, runs, u);
    case ReleaseSlot => ReleaseSlotKnows(h, r, l, c, runs, u);
    case ReleaseErase(_) => ReleaseEraseKnows(h, r, l, c, runs, u);
    case RepairDone => StandingKnows(h, r, l, runs);
  }

  lemma SurveyKnows(h: Home, r: Run, l: Local, c: Choice, runs: set<Run>, u: Out)
    requires l.pc.Repair? && (l.pc.p.RepairOwned? || l.pc.p.RepairExact? || l.pc.p.SurveyMain?
                 || l.pc.p.SurveySnapshot? || l.pc.p.SurveyJudge? || l.pc.p.SurveyScan? || l.pc.p.SurveyFound?
                 || l.pc.p.Decide? || l.pc.p.Reconcile? || l.pc.p.Legacy? || l.pc.p.LegacyJudge?
                 || l.pc.p.Unfence?)
    requires u == RepairStep(h, r, l, c, l.pc.t, l.pc.p)
    ensures Learns(h, r, l, u, runs)
  {
    hide Kept;
  }

  lemma DisplaceKnows(h: Home, r: Run, l: Local, c: Choice, runs: set<Run>, u: Out)
    requires l.pc.Repair? && (l.pc.p.Displace? || l.pc.p.DisplaceCheck? || l.pc.p.UndoDisplace? || l.pc.p.UndoUnlink?)
    requires u == RepairStep(h, r, l, c, l.pc.t, l.pc.p)
    ensures Learns(h, r, l, u, runs)
  {
    hide Kept;
  }

  lemma ReinstateKnows(h: Home, r: Run, l: Local, c: Choice, runs: set<Run>, u: Out)
    requires l.pc.Repair? && (l.pc.p.Reinstate? || l.pc.p.ReinstateUnlink?)
    requires u == RepairStep(h, r, l, c, l.pc.t, l.pc.p)
    ensures Learns(h, r, l, u, runs)
  {
    hide Kept;
  }

  lemma ClearKnows(h: Home, r: Run, l: Local, c: Choice, runs: set<Run>, u: Out)
    requires l.pc.Repair? && (l.pc.p.LegacyMove? || l.pc.p.LegacyCheck? || l.pc.p.UnfenceMove?
                 || l.pc.p.UnfenceCheck?)
    requires u == RepairStep(h, r, l, c, l.pc.t, l.pc.p)
    ensures Learns(h, r, l, u, runs)
  {
    hide Kept;
  }

  lemma RepairKnows(h: Home, r: Run, l: Local, c: Choice, runs: set<Run>, u: Out)
    requires l.pc.Repair? && u == RepairStep(h, r, l, c, l.pc.t, l.pc.p)
    ensures Learns(h, r, l, u, runs)
  {
    hide Kept, Learns;
    match l.pc.p
    case RepairOwned(_) | RepairExact(_) | SurveyMain | SurveySnapshot(_) | SurveyJudge(_) |
         SurveyScan(_, _, _) | SurveyFound(_, _, _, _, _) | Decide(_, _) | Reconcile(_) | Legacy(_) |
         LegacyJudge(_, _) | Unfence(_) => SurveyKnows(h, r, l, c, runs, u);
    case Displace(_, _) | DisplaceCheck(_, _) | UndoDisplace | UndoUnlink => DisplaceKnows(h, r, l, c, runs, u);
    case Reinstate(_, _) | ReinstateUnlink(_) => ReinstateKnows(h, r, l, c, runs, u);
    case LegacyMove(_) | LegacyCheck(_, _) | UnfenceMove(_) | UnfenceCheck(_, _) => ClearKnows(h, r, l, c, runs, u);
  }

  lemma StepKnows(h: Home, r: Run, l: Local, c: Choice, runs: set<Run>, u: Out)
    requires u == StepOf(h, r, l, c)
    ensures Learns(h, r, l, u, runs)
  {
    hide Kept, Learns;
    match l.pc
    case Enter(_) => EnterKnows(h, r, l, c, runs, u);
    case Guard(_, _) => GuardKnows(h, r, l, c, runs, u);
    case Recovery(_) => RecoveryKnows(h, r, l, c, runs, u);
    case Drain(_, _) => DrainKnows(h, r, l, c, runs, u);
    case Catch(_) => CatchKnows(h, r, l, c, runs, u);
    case Remove(_) => RemoveKnows(h, r, l, c, runs, u);
    case Exit(_) => ExitKnows(h, r, l, c, runs, u);
    case Elect(_, _) => ElectKnows(h, r, l, c, runs, u);
    case PublishTicket(_) => PublishTicketKnows(h, r, l, c, runs, u);
    case Canon(_) => CanonKnows(h, r, l, c, runs, u);
    case Open(_) => OpenKnows(h, r, l, c, runs, u);
    case Repair(_, _) => RepairKnows(h, r, l, c, runs, u);
    case Release(_, _) => ReleaseKnows(h, r, l, c, runs, u);
  }

  lemma MoreRuns(h: Home, runs: set<Run>, more: set<Run>)
    requires HomeOf(h, runs) && runs <= more
    ensures HomeOf(h, more)
  {
  }

  ghost predicate Begun(s: State) {
    HomeOf(s.h, s.loc.Keys) && forall r :: r in s.loc ==> Carries(s.loc[r].pc, s.loc.Keys)
  }

  lemma NextBegun(s: State, e: Event)
    requires Begun(s)
    ensures Begun(Next(s, e))
  {
    hide StepOf;
    if e.Do? && Alive(s.h, e.r) {
      var more := s.loc.Keys + {e.r};
      MoreRuns(s.h, s.loc.Keys, more);
      StepKnows(s.h, e.r, L(s, e.r), e.c, more, StepOf(s.h, e.r, L(s, e.r), e.c));
      hide HomeOf;
      assert Next(s, e).loc.Keys == more;
    }
  }

  /** Every record is of a call that has begun. */
  lemma {:induction false} AllBegun(t: Trace, i: nat)
    requires Behaviour(t) && i < |t.states|
    ensures Begun(t.states[i])
    decreases i
  {
    hide Next;
    if i > 0 {
      AllBegun(t, i - 1);
      hide Begun;
      assert Happens(t, i - 1);
      NextBegun(t.states[i - 1], t.events[i - 1]);
    }
  }

  /** Every call that has begun is dead, and r has not. */
  predicate OthersDead(s: State, r: Run) {
    Alive(s.h, r) && r !in s.loc && forall a :: a in s.loc ==> !Alive(s.h, a)
  }

  /** Then nothing in the lock directory is of anybody alive. */
  lemma AllDeserted(t: Trace, i: nat, r: Run)
    requires Behaviour(t) && i < |t.states| && OthersDead(t.states[i], r)
    ensures var h := t.states[i].h;
            && Deserted(h, r)
            && (h.main.Some? ==> !Alive(h, h.main.value))
            && (h.recovery.Some? ==> !Alive(h, h.recovery.value))
            && (h.fence.Some? ==> !Alive(h, h.fence.value))
  {
    AllBegun(t, i);
    Reachable(t, i);
    GroundHolds(t.states[i], r);
    hide Inv;
  }
}
