/**
 What every step of the daemon ownership protocol keeps: facts about one run and the
 directory, facts about a pair of runs, and the effect one run's step can have on the
 files the others rely on.
 */
module OwnershipFacts {
  import opened Options
  import opened OwnershipState

  // ---------------------------------------------------------------- election

  datatype Phase = Outside | Choosing | Waiting | Past

  /** Where a run stands in the repair election.  Releasing ends it. */
  function PhaseOf(pc: Pc): Phase {
    match pc
    case Elect(ph, _) => if ph.Choose? then Choosing else Waiting
    case PublishTicket(_) => Choosing
    case Canon(_) => Past
    case Open(_) => Past
    case Repair(_, _) => Past
    case Drain(w, _) => if w.Repairer? then Past else Outside
    case _ => Outside
  }

  /** The current pass has still to look at run j's slot. */
  predicate Unseen(e: ElectPc, j: Run) {
    match e
    case ElectSnapshot => true
    case ElectScan(names) => Own(j) in names
    case ElectJudge(names, _, x) => Own(j) in names || x == j
    case ElectTicket(names, x) => Own(j) in names || x == j
    case DropTicket(names, _, _) => Own(j) in names
    case DropSlot(names, _) => Own(j) in names
    case EraseSlot(names, _, _) => Own(j) in names
  }

  /** Run j will draw, or has drawn, a number later than i's. */
  predicate Behind(i: Run, li: Local, j: Run, lj: Local) {
    match lj.pc
    case Elect(Choose(m), e) => Unseen(e, i) || m >= li.v.ticket
    case PublishTicket(t) => t > li.v.ticket
    case _ => Earlier(li.v.ticket, i, lj.v.ticket, j)
  }

  /** Once i's pass, or its finished election, vouches that nobody is ahead of it, every
      other candidate is behind it or still to be looked at in this pass. */
  predicate Ordered(i: Run, li: Local, j: Run, lj: Local) {
    PhaseOf(lj.pc) != Outside ==>
      && (PhaseOf(li.pc) == Past ==> Behind(i, li, j, lj))
      && (li.pc.Elect? && li.pc.ph == Wait(false) ==> Unseen(li.pc.l, j) || Behind(i, li, j, lj))
  }

  // ---------------------------------------------------------------- one run

  /** A published name tells whose record it carries, and quarantined owners are dead or have released. */
  ghost predicate Ground(f: Files) {
    Named(f.entrants) && Named(f.slots) && Abandoned(f.quarantine, f.dead, f.released)
  }

  ghost predicate Named(files: map<FileName, Run>) {
    forall n :: n in files ==> files[n] == n.run
  }

  ghost predicate Abandoned(quarantine: map<Run, Run>, dead: set<nat>, released: set<Run>) {
    forall n :: n in quarantine ==> quarantine[n].proc in dead || quarantine[n] in released
  }

  /** The run has passed a fence check and may still publish or clean up main or the fence. */
  predicate Inside(pc: Pc) {
    match pc
    case Enter(e) => e != Idle && e != Fence1
    case Guard(_, _) => true
    case Recovery(_) => true
    case Drain(w, _) => w.Holder?
    case Catch(_) => true
    case Remove(m) => !Releases(m)
    case _ => false
  }

  /** The removal of main is a lease's release. */
  predicate Releases(m: RemovePc) {
    match m
    case RmMain(ret) => ret.Releasing?
    case RmMainMove(ret) => ret.Releasing?
    case RmMainCheck(ret, _) => ret.Releasing?
    case _ => false
  }

  /** Main holds at most a record that was put back after its release. */
  predicate Vacant(h: Home) {
    h.main.Some? ==> h.main.value in h.f.released
  }

  predicate Unreplaced(h: Home, x: Run) {
    Vacant(h) || h.main == Some(x)
  }

  /** A dead owner that no other lease can have replaced since it was read from main. */
  predicate Lapsed(h: Home, x: Run) {
    !Alive(h, x) && Unreplaced(h, x)
  }

  /** The record under quarantine name n has been linked back onto main. */
  predicate Reinstated(h: Home, n: Run) {
    n in h.f.quarantine ==> h.main == Some(h.f.quarantine[n])
  }

  predicate EnterAt(h: Home, r: Run, l: Local, e: EnterPc) {
    && !l.v.fenced && !l.v.lease
    && (match e
        case Idle => r !in h.f.tickets
        case RacedRecovery => l.v.mine && Own(r) in h.f.entrants
        case RacedFence(_) => l.v.mine && Own(r) in h.f.entrants
        case _ => Own(r) in h.f.entrants)
  }

  predicate HoldAt(h: Home, l: Local, st: Stage) {
    match st
    case ToDrain => !l.v.drained
    case ToMove(x) => l.v.drained && Lapsed(h, x)
    case ToConfirm => l.v.drained && l.v.mine
    case _ => l.v.drained
  }

  predicate RecoveryAt(h: Home, r: Run, l: Local, v: RecoveryPc) {
    && Own(r) in h.f.entrants && !l.v.lease
    && (match v
        case AssertGuard => !l.v.fenced
        case LinkFence => !l.v.fenced
        case HoldGuard(st) => l.v.fenced && HoldAt(h, l, st)
        case HoldFence(st) => l.v.fenced && HoldAt(h, l, st)
        case JudgeInspect(x) => l.v.fenced && l.v.drained && Unreplaced(h, x)
        case MoveMain(x) => l.v.fenced && l.v.drained && Lapsed(h, x)
        case Confirm => l.v.fenced && l.v.drained && l.v.mine
        case ConfirmAgain => !l.v.fenced && l.v.mine
        case ConfirmGuard => !l.v.fenced && l.v.mine
        case _ => l.v.fenced && l.v.drained)
  }

  predicate DrainAt(h: Home, d: DrainPc) {
    match d
    case DrainJudge(_, _, name, x) => name.run == x
    case DrainDrop(_, _, name) => !Alive(h, name.run)
    case DrainErase(_, _, was, name) => !Alive(h, name.run) && was.run == name.run
    case _ => true
  }

  predicate CatchAt(h: Home, r: Run, l: Local, x: CatchPc) {
    && Own(r) in h.f.entrants
    && (x.RestoreUnlink? || x.EarlyUnlink? ==> Reinstated(h, r))
    && (!l.v.lease
        || (l.v.mine && !l.v.fenced
            && (x.FinallyGuard? || x.FinallyGuardMove? || x.FinallyGuardCheck? || x.FinallyUnfence?)))
  }

  /** Whatever a removal takes aside is this run's own record. */
  predicate RemoveAt(h: Home, r: Run, l: Local, m: RemovePc) {
    && (if Releases(m) then !l.v.fenced else !l.v.lease && Own(r) in h.f.entrants)
    && (match m
        case RmMain(_) => true
        case RmMainMove(_) => l.v.mine
        case RmMainCheck(_, y) => y == r && !l.v.mine
        case RmFence(back) => back.Finishing? ==> l.v.mine
        case RmFenceMove(back) => l.v.fenced && (back.Finishing? ==> l.v.mine)
        case RmFenceCheck(back, y) => y == r && !l.v.fenced && (back.Finishing? ==> l.v.mine))
  }

  /** A lease is handed out only with the run's record published and its fence gone. */
  predicate ExitAt(h: Home, r: Run, l: Local, x: ExitPc) {
    match x
    case FinallyEntrant => Own(r) in h.f.entrants && (l.v.lease ==> l.v.mine && !l.v.fenced)
    case EraseEntrant(_) => l.v.lease ==> l.v.mine && !l.v.fenced
    case Leased => l.v.mine && !l.v.fenced
    case _ => true
  }

  /** Whatever an election scan removes belongs to a dead run. */
  predicate ElectAt(h: Home, e: ElectPc) {
    match e
    case ElectJudge(_, name, x) => name.run == x
    case DropTicket(_, name, x) => name.run == x && !Alive(h, x)
    case DropSlot(_, name) => !Alive(h, name.run)
    case EraseSlot(_, was, name) => !Alive(h, name.run) && was.run == name.run
    case _ => true
  }

  predicate Elected(h: Home, r: Run, l: Local) {
    Own(r) in h.f.slots && r in h.f.tickets && h.f.tickets[r] == l.v.ticket && !l.v.lease && !l.v.fenced
  }

  predicate SeenAt(h: Home, m: MainSeen) {
    match m
    case MainAbsent => Vacant(h)
    case MainLive(x) => Unreplaced(h, x)
    case MainStale(x) => Lapsed(h, x)
  }

  /** The survey has listed, or will still look at, every quarantine path. */
  ghost predicate Surveyed(h: Home, left: set<Run>, cands: set<Candidate>) {
    forall n :: n in h.f.quarantine ==> n in left || exists k :: k in cands && k.n == n
  }

  /** What reconciliation found on main is still there, unless its owner withdrew it. */
  ghost predicate KeptAt(h: Home, kept: Option<Run>) {
    match kept
    case None => Vacant(h) && h.f.quarantine == map[]
    case Some(x) => h.main == kept || (Vacant(h) && forall n :: n in h.f.quarantine ==> h.f.quarantine[n] != x)
  }

  /** Repair holds on to one exact stale fence, from its first exact check to its removal. */
  predicate Anchored(h: Home, t: Target) {
    h.fence == Some(t.inst) && t.content == t.inst
  }

  ghost predicate StageAt(h: Home, t: Target, rs: RepairStage) {
    match rs
    case ToSurvey => true
    case ToRestore(_, _) => Anchored(h, t)
    case ToDisplace(x, _) => Anchored(h, t) && Lapsed(h, x)
    case ToLegacy(kept) => Anchored(h, t) && KeptAt(h, kept)
    case ToUnfence(kept) => Anchored(h, t) && KeptAt(h, kept)
  }

  ghost predicate BodyAt(h: Home, r: Run, p: RepairPc) {
    match p
    case SurveyMain => true
    case SurveyJudge(x) => Unreplaced(h, x)
    case SurveySnapshot(m) => SeenAt(h, m)
    case SurveyScan(m, left, cands) => SeenAt(h, m) && Surveyed(h, left, cands)
    case SurveyFound(m, left, cands, n, _) => SeenAt(h, m) && Surveyed(h, left + {n}, cands)
    case Decide(m, cands) => SeenAt(h, m) && Surveyed(h, {}, cands)
    case Displace(x, _) => Lapsed(h, x)
    case UndoUnlink => Reinstated(h, r)
    case ReinstateUnlink(n) => Reinstated(h, n)
    case Reconcile(empty) => empty ==> KeptAt(h, None)
    case Legacy(kept) => KeptAt(h, kept)
    case LegacyJudge(kept, _) => KeptAt(h, kept)
    case LegacyMove(kept) => KeptAt(h, kept)
    case LegacyCheck(kept, _) => KeptAt(h, kept)
    case Unfence(kept) => KeptAt(h, kept)
    case UnfenceMove(kept) => KeptAt(h, kept)
    case _ => true
  }

  ghost predicate RepairAt(h: Home, r: Run, t: Target, p: RepairPc) {
    match p
    case RepairOwned(rs) => StageAt(h, t, rs)
    case RepairExact(rs) => StageAt(h, t, rs)
    case UnfenceCheck(_, y) => y == t.inst
    case _ => Anchored(h, t) && BodyAt(h, r, p)
  }

  /** What holds of a living run wherever it stands. */
  ghost predicate At(h: Home, r: Run, l: Local) {
    match l.pc
    case Enter(e) => EnterAt(h, r, l, e)
    case Guard(_, _) => Own(r) in h.f.entrants && !l.v.fenced && !l.v.lease
    case Recovery(v) => RecoveryAt(h, r, l, v)
    case Drain(w, d) =>
      && DrainAt(h, d)
      && (match w
          case Holder => Own(r) in h.f.entrants && l.v.fenced && !l.v.drained && !l.v.lease
          case Repairer(t) => Elected(h, r, l) && !Alive(h, t.inst))
    case Catch(x) => CatchAt(h, r, l, x)
    case Remove(m) => RemoveAt(h, r, l, m)
    case Exit(x) => ExitAt(h, r, l, x)
    case Elect(ph, e) =>
      && Own(r) in h.f.slots && ElectAt(h, e) && !l.v.lease && !l.v.fenced
      && (if ph.Choose? then r !in h.f.tickets else r in h.f.tickets && h.f.tickets[r] == l.v.ticket)
    case PublishTicket(_) => Own(r) in h.f.slots && r !in h.f.tickets && !l.v.lease && !l.v.fenced
    case Canon(_) => Elected(h, r, l)
    case Open(q) => Elected(h, r, l) && (q.PrintFence? ==> !Alive(h, q.x))
    case Repair(t, p) => Elected(h, r, l) && !Alive(h, t.inst) && RepairAt(h, r, t, p)
    case Release(_, _) => !l.v.lease && !l.v.fenced
  }

  ghost predicate Sound(h: Home, r: Run, l: Local) {
    && Ground(h.f) && Alive(h, r)
    && (r in h.f.released <==> l.pc == Exit(Released))
    && (r !in h.f.released ==> (l.v.mine <==> h.main == Some(r)))
    && (l.v.fenced <==> h.fence == Some(r))
    && At(h, r, l)
  }

  // ---------------------------------------------------------------- effects

  /** Run x's owner record is on main or in a quarantine file. */
  predicate Held(h: Home, x: Run) {
    h.main == Some(x) || x in h.f.quarantine.Values
  }

  /** Repair at work under the stale fence it reconciles. */
  predicate Reconciler(h: Home, l: Local) {
    l.pc.Repair? && h.fence == Some(l.pc.t.inst)
  }

  /** What a step may do to main and the quarantine: publish or withdraw the run's own record, or put it back,
      set a departed owner's record aside, or link a quarantined record back. */
  ghost predicate RecordEffect(h: Home, r: Run, l: Local, u: Home) {
    var q, q' := h.f.quarantine, u.f.quarantine;
    || (u.main == h.main && q' == q)
    || (q' == q && h.main == None && u.main == Some(r) && (Inside(l.pc) || r in u.f.released))
    || (q' == q && h.main == Some(r) && u.main == None && r !in h.f.released)
    || (h.main.Some? && u.main == None && Departed(h.f, h.main.value) && r !in q && q' == q[r := h.main.value]
        && ((l.v.fenced && l.v.drained) || Reconciler(h, l)))
    || (Inside(l.pc) && r in q && u.main == Some(q[r]) && (h.main == None || h.main == u.main)
        && (q' == q || q' == q - {r}))
    || (Reconciler(h, l) && (h.main == None || h.main == u.main)
        && exists n :: n in q && u.main == Some(q[n]) && (q' == q || q' == q - {n}))
  }

  ghost predicate FenceEffect(h: Home, r: Run, l: Local, fence: Option<Run>) {
    || fence == h.fence
    || (h.fence == None && fence == Some(r) && Inside(l.pc))
    || (h.fence == Some(r) && fence == None)
    || (l.pc.Repair? && l.pc.p.UnfenceMove? && h.fence == Some(l.pc.t.inst) && fence == None)
    || (l.pc.Repair? && l.pc.p.UnfenceCheck? && h.fence == None && fence == Some(l.pc.t.inst)
        && !Alive(h, l.pc.t.inst))
  }

  /** No file that another living run published is taken away. */
  ghost predicate Spares(h: Home, r: Run, files: map<FileName, Run>, after: map<FileName, Run>) {
    after == files
    || forall a :: a != r && Alive(h, a) ==> (Own(a) in files <==> Own(a) in after)
  }

  ghost predicate TicketEffect(h: Home, r: Run, after: map<Run, nat>) {
    after == h.f.tickets
    || forall a :: a != r && Alive(h, a) ==>
         (a in h.f.tickets <==> a in after) && (a in after ==> after[a] == h.f.tickets[a])
  }

  /** A release ends with the run's own record gone, or back on main; nothing follows it. */
  ghost predicate ReleaseEffect(h: Home, r: Run, l: Local, u: Out) {
    && u.h.f.released == (if u.l.pc == Exit(Released) then h.f.released + {r} else h.f.released)
    && (u.l.pc == Exit(Released) ==>
          u == Out(h, l) || (u.h.f.quarantine == h.f.quarantine && (u.l.v.mine <==> u.h.main == Some(r))))
    && (l.pc == Exit(Released) ==> u == Out(h, l))
  }

  /** Everything a step of run r may do to the files other runs rely on. */
  ghost predicate Effect(h: Home, r: Run, l: Local, u: Out) {
    && u.h.f.dead == h.f.dead && ReleaseEffect(h, r, l, u)
    && RecordEffect(h, r, l, u.h)
    && FenceEffect(h, r, l, u.h.fence)
    && Spares(h, r, h.f.entrants, u.h.f.entrants)
    && Spares(h, r, h.f.slots, u.h.f.slots)
    && TicketEffect(h, r, u.h.f.tickets)
  }

  /** Past the wait loop of the repair election. */
  predicate Passed(pc: Pc) {
    pc.Canon? || pc.Open? || pc.Repair? || (pc.Drain? && pc.w.Repairer?)
  }

  /** Where one step can take a run: nobody passes a fence check while a fence stands, a
      drain starts with a snapshot, and only a finished drain leaves a run drained. */
  predicate Course(h: Home, l: Local, u: Out) {
    && (Inside(u.l.pc) ==> Inside(l.pc) || (h.fence == None && u.h == h))
    && (!l.pc.Drain? ==>
          && (u.l.v.fenced && u.l.v.drained ==> l.v.fenced && l.v.drained)
          && (u.l.pc.Drain? ==> u.l.pc.d.DrainSnapshot?)
          && (u.l.pc.Repair? ==> l.pc.Repair? && l.pc.t == u.l.pc.t && !l.pc.p.UnfenceCheck?))
    && (!l.pc.Elect? && !l.pc.PublishTicket? && l.pc != Enter(Idle) ==>
          && u.l.v.ticket == l.v.ticket && !u.l.pc.Elect? && !u.l.pc.PublishTicket? && u.l.pc != Enter(Idle)
          && (Passed(u.l.pc) ==> Passed(l.pc)))
  }

  /** The promise every step function makes. */
  ghost predicate Kept(h: Home, r: Run, l: Local, u: Out) {
    !Sound(h, r, l) || (Sound(u.h, r, u.l) && Effect(h, r, l, u) && Course(h, l, u))
  }
}
