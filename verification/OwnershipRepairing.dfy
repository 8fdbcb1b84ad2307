/** A repair that runs while nobody else moves, whatever dead calls have left behind. */
module OwnershipRepairing {
  import opened Options
  import opened OwnershipState
  import opened OwnershipFacts
  import opened OwnershipProtocol
  import opened OwnershipAlone

  /** All quarantine files carry the same record. */
  predicate Agreed(q: map<Run, Run>) {
    forall m, n :: m in q && n in q ==> q[m] == q[n]
  }

  /** When a lone repair can clear the fence of d: what main must become is not in doubt, and no recovery
      guard but that of d stands. */
  predicate Repairable(h: Home, d: Run) {
    (h.main.Some? || Agreed(h.f.quarantine)) && (h.recovery == None || h.recovery == Some(d))
  }

  /** Main is what it has to be: unchanged if it was there, and otherwise a record from quarantine if there is one. */
  predicate Restored(h0: Home, h: Home) {
    if h0.main.Some? || h0.f.quarantine == map[] then h.main == h0.main && h.f.quarantine == h0.f.quarantine
    else exists n :: n in h0.f.quarantine && RestoredFrom(h0, h, n)
  }

  predicate RestoredFrom(h0: Home, h: Home, n: Run)
    requires n in h0.f.quarantine
  {
    h.main == Some(h0.f.quarantine[n]) && h.f.quarantine == h0.f.quarantine - {n}
  }

  /** What a lone repair comes to: it reports success exactly when the fence can be cleared; otherwise fence
      and recovery guard stay, and an ambiguous main is left alone. */
  predicate Result(h0: Home, d: Run, h: Home, repaired: bool) {
    && (repaired <==> Repairable(h0, d))
    && (if repaired then h.fence == None && h.recovery == None && Restored(h0, h)
        else
          && h.fence == h0.fence && h.recovery == h0.recovery
          && (if h0.main.Some? || Agreed(h0.f.quarantine) then Restored(h0, h)
              else h.main == h0.main && h.f.quarantine == h0.f.quarantine))
  }

  // ---------------------------------------------------------------- where it stands

  predicate LockKept(h0: Home, h: Home) {
    h.main == h0.main && h.f.quarantine == h0.f.quarantine && h.recovery == h0.recovery && h.fence == h0.fence
  }

  predicate SlotsLone(h: Home, r: Run) {
    && Own(r) in h.f.slots
    && (forall n :: n in h.f.slots ==> h.f.slots[n] == n.run && (n == Own(r) || !Alive(h, n.run)))
  }

  predicate Covers(h: Home, r: Run, names: set<FileName>) {
    forall n :: n in h.f.slots ==> n == Own(r) || n in names
  }

  predicate ElectLone(h: Home, r: Run, ph: ScanPhase, e: ElectPc) {
    && SlotsLone(h, r)
    && (match ph case Choose(_) => r !in h.f.tickets case Wait(blocked) => !blocked)
    && (match e
        case ElectSnapshot => true
        case ElectScan(names) => Covers(h, r, names)
        case ElectJudge(names, name, x) =>
          x == name.run && (x == r ==> name == Own(r)) && (x != r ==> !Alive(h, x)) && Covers(h, r, names + {name})
        case ElectTicket(names, x) => x == r && ph.Choose? && Covers(h, r, names)
        case DropTicket(names, name, x) => x == name.run && !Alive(h, x) && Covers(h, r, names + {name})
        case DropSlot(names, name) => !Alive(h, name.run) && Covers(h, r, names + {name})
        case EraseSlot(names, was, name) => !Alive(h, name.run) && Covers(h, r, names + {name}))
  }

  lemma SlotDropped(h: Home, r: Run, ph: ScanPhase, names: set<FileName>, name: FileName, n: nat)
    requires ElectLone(h, r, ph, DropSlot(names, name)) && Unused(h.f.slots, n) && Alive(h, r)
    ensures name !in h.f.slots ==> ElectLone(h, r, ph, ElectScan(names))
    ensures name in h.f.slots ==>
              var x := h.f.slots[name];
              && Alias(x, n) !in h.f.slots
              && ElectLone(h.(f := h.f.(slots := (h.f.slots - {name})[Alias(x, n) := x])), r, ph,
                           EraseSlot(names, name, Alias(x, n)))
  {
  }

  predicate CanonLone(h: Home, r: Run, o: CanonPc) {
    match o
    case CanonRead(a) => a <= 1 && (h.repairGuard.Some? ==> a == 0 && !Alive(h, h.repairGuard.value))
    case CanonJudge(a, x) => a == 0 && h.repairGuard == Some(x) && !Alive(h, x)
    case CanonCheck(a, x) => a == 0 && h.repairGuard == Some(x)
    case CanonMove(a, x) => a == 0 && h.repairGuard == Some(x)
    case CanonMoved(a, x, y) => a == 0 && x == y && h.repairGuard == None
    case CanonLink(a) => a <= 1 && h.repairGuard == None
    case CanonAssert => h.repairGuard == Some(r)
  }

  predicate OpenLone(d: Run, q: OpenPc) {
    match q
    case JudgeFence(x) => x == d
    case PrintFence(x) => x == d
    case _ => true
  }

  predicate SeenLone(h: Home, m: MainSeen) {
    match m
    case MainAbsent => h.main == None
    case MainLive(x) => h.main == Some(x)
    case MainStale(x) => h.main == Some(x)
  }

  /** Every quarantine file is still to be read or has been found dead. */
  predicate SurveyLone(h: Home, left: set<Run>, cands: set<Candidate>) {
    && left <= h.f.quarantine.Keys
    && (forall n :: n in h.f.quarantine ==> n in left || Seen(n, h.f.quarantine[n], false) in cands)
    && (forall k :: k in cands ==> k.Seen? && k.n in h.f.quarantine && k == Seen(k.n, h.f.quarantine[k.n], false))
  }

  predicate StageLone(h0: Home, d: Run, h: Home, rs: RepairStage) {
    match rs
    case ToSurvey => LockKept(h0, h)
    case ToRestore(n, undo) =>
      !undo && LockKept(h0, h) && h0.main == None && n in h0.f.quarantine && Agreed(h0.f.quarantine)
    case ToDisplace(_, _) => false
    case ToLegacy(_) => Settled(h0, d, h) && h.recovery == h0.recovery
    case ToUnfence(_) => Settled(h0, d, h) && h.recovery == None && Repairable(h0, d)
  }

  /** Main is reconciled; the fence still stands. */
  predicate Settled(h0: Home, d: Run, h: Home) {
    (h0.main.Some? || Agreed(h0.f.quarantine)) && Restored(h0, h) && h.fence == Some(d)
  }

  predicate BodyLone(h0: Home, d: Run, h: Home, p: RepairPc) {
    match p
    case RepairOwned(rs) => StageLone(h0, d, h, rs)
    case RepairExact(rs) => StageLone(h0, d, h, rs)
    case SurveyMain => LockKept(h0, h)
    case SurveyJudge(x) => LockKept(h0, h) && h.main == Some(x)
    case SurveySnapshot(m) => LockKept(h0, h) && SeenLone(h, m)
    case SurveyScan(m, left, cands) => LockKept(h0, h) && SeenLone(h, m) && SurveyLone(h, left, cands)
    case SurveyFound(m, left, cands, n, x) =>
      && LockKept(h0, h) && SeenLone(h, m)
      && n in h.f.quarantine && x == h.f.quarantine[n] && SurveyLone(h, left + {n}, cands)
    case Decide(m, cands) => LockKept(h0, h) && SeenLone(h, m) && SurveyLone(h, {}, cands)
    case Reinstate(n, undo) => StageLone(h0, d, h, ToRestore(n, undo))
    case ReinstateUnlink(n) =>
      && h0.main == None && n in h0.f.quarantine && Agreed(h0.f.quarantine) && h.recovery == h0.recovery
      && h.fence == Some(d) && h.main == Some(h0.f.quarantine[n]) && h.f.quarantine == h0.f.quarantine
    case Reconcile(empty) => Settled(h0, d, h) && h.recovery == h0.recovery && (h.main == None ==> empty)
    case Legacy(_) => Settled(h0, d, h) && h.recovery == h0.recovery
    case LegacyJudge(_, x) => Settled(h0, d, h) && h.recovery == h0.recovery == Some(x)
    case LegacyMove(_) => Settled(h0, d, h) && h.recovery == h0.recovery == Some(d)
    case LegacyCheck(_, y) => Settled(h0, d, h) && h.recovery == None && y == d && h0.recovery == Some(d)
    case Unfence(_) => StageLone(h0, d, h, ToUnfence(None))
    case UnfenceMove(_) => StageLone(h0, d, h, ToUnfence(None))
    case UnfenceCheck(_, y) => y == d && Result(h0, d, h, true)
    case _ => false
  }

  predicate ReleaseLone(h: Home, r: Run, z: ReleasePc) {
    match z
    case ReleaseGuard => h.repairGuard == Some(r) && h.f.slots == map[Own(r) := r]
    case ReleaseGuardMove => h.repairGuard == Some(r) && h.f.slots == map[Own(r) := r]
    case ReleaseGuardCheck(y) => y == r && h.repairGuard == None && h.f.slots == map[Own(r) := r]
    case ReleaseTicket => h.repairGuard == None && h.f.slots == map[Own(r) := r]
    case ReleaseSlot => h.repairGuard == None && h.f.slots == map[Own(r) := r] && r !in h.f.tickets
    case ReleaseErase(n) => h.repairGuard == None && h.f.slots == map[Alias(r, n) := r] && r !in h.f.tickets
    case RepairDone => h.repairGuard == None && h.f.slots == map[] && r !in h.f.tickets
  }

  predicate Facing(h0: Home, h: Home, d: Run) {
    h.f.dead == h0.f.dead && h0.fence == Some(d) && !Alive(h0, d)
  }

  /** Elected, with the canonical guard its own. */
  predicate Guarded(h: Home, r: Run, v: Vars) {
    h.repairGuard == Some(r) && h.f.slots == map[Own(r) := r] && v.guarded
  }

  predicate StaleGuard(h: Home) {
    h.repairGuard.Some? ==> !Alive(h, h.repairGuard.value)
  }

  ghost predicate RepairLone(h0: Home, d: Run, h: Home, r: Run, l: Local) {
    && Deserted(h0, r) && Facing(h0, h, d)
    && (match l.pc
        case Enter(e) => e.Idle? && h == h0 && l == FRESH
        case Elect(ph, e) =>
          LockKept(h0, h) && h.f.entrants == h0.f.entrants && StaleGuard(h) && ElectLone(h, r, ph, e)
        case PublishTicket(_) =>
          && LockKept(h0, h) && h.f.entrants == h0.f.entrants && StaleGuard(h)
          && h.f.slots == map[Own(r) := r] && r !in h.f.tickets
        case Canon(o) =>
          && LockKept(h0, h) && h.f.entrants == h0.f.entrants && h.f.slots == map[Own(r) := r] && CanonLone(h, r, o)
        case Open(q) => LockKept(h0, h) && h.f.entrants == h0.f.entrants && Guarded(h, r, l.v) && OpenLone(d, q)
        case Drain(w, e) =>
          LockKept(h0, h) && w == Repairer(Target(d, d)) && Guarded(h, r, l.v) && DrainingLone(h, None, e)
        case Repair(t, p) => t == Target(d, d) && Guarded(h, r, l.v) && h.f.entrants == map[] && BodyLone(h0, d, h, p)
        case Release(b, z) =>
          l.v.guarded && h.f.entrants == map[] && Result(h0, d, h, b) && ReleaseLone(h, r, z)
        case _ => false)
  }

  /** The repair stands where it should, and the environment helps. */
  ghost predicate Going(h0: Home, d: Run, h: Home, r: Run, l: Local, c: Choice) {
    RepairLone(h0, d, h, r, l) && Helpful(Out(h, l), c) && c.repair
  }

  /** The step leads on. */
  ghost predicate Gone(h0: Home, d: Run, r: Run, l: Local, u: Out) {
    !Deserted(h0, r) || (RepairLone(h0, d, u.h, r, u.l) && Nearer(u.l.pc, l.pc))
  }

  // ---------------------------------------------------------------- one step

  /** What the evidence of a lone repair leads to. */
  function Decided(h: Home, n: Run): Option<RepairPc> {
    if h.main.Some? then Some(Reconcile(false))
    else if h.f.quarantine == map[] then Some(Reconcile(true))
    else if n in h.f.quarantine && Agreed(h.f.quarantine) then Some(RepairOwned(ToRestore(n, false)))
    else None
  }

  lemma Decides(h: Home, m: MainSeen, cands: set<Candidate>, n: Run)
    requires SeenLone(h, m) && SurveyLone(h, {}, cands)
    ensures Decision(m, cands, n) == Decided(h, n)
  {
    var q := h.f.quarantine;
    if k :| k in cands {
      assert k.n in q;
    }
    if x :| x in q {
      assert Seen(x, q[x], false) in cands;
    }
    if n in q && Agreed(q) {
      var k := Seen(n, q[n], false);
      assert k in cands && Unique(cands, k.x, false);
      assert Chosen(cands, n, false);
    }
    if Chosen(cands, n, false) {
      var k :| k in cands && k.Seen? && k.n == n && !k.live && Unique(cands, k.x, false);
      forall a, b | a in q && b in q ensures q[a] == q[b] {
        assert Seen(a, q[a], false) in cands && Seen(b, q[b], false) in cands;
      }
    }
  }

  /** A step from where the repair should be leads on. */
  ghost predicate Leads(h0: Home, d: Run, h: Home, r: Run, l: Local, c: Choice, u: Out) {
    !Going(h0, d, h, r, l, c) || Gone(h0, d, r, l, u)
  }

  lemma ArriveOn(h0: Home, d: Run, h: Home, r: Run, l: Local, c: Choice, u: Out)
    requires l.pc.Enter? && l.pc.e.Idle? && u == SlotStep(h, r, l, c, l.pc.e)
    ensures Leads(h0, d, h, r, l, c, u)
  {
    hide Kept;
  }

  lemma ElectListOn(h0: Home, d: Run, h: Home, r: Run, l: Local, c: Choice, u: Out)
    requires l.pc.Elect? && l.pc.l.ElectSnapshot? && u == ElectListStep(h, r, l, c, l.pc.ph, l.pc.l)
    ensures Leads(h0, d, h, r, l, c, u)
  {
    hide Kept;
  }

  lemma ElectReadOn(h0: Home, d: Run, h: Home, r: Run, l: Local, c: Choice, u: Out)
    requires l.pc.Elect? && l.pc.l.ElectScan? && u == ElectReadStep(h, r, l, c, l.pc.ph, l.pc.l)
    ensures Leads(h0, d, h, r, l, c, u)
  {
    hide Kept;
  }

  lemma ElectJudgeOn(h0: Home, d: Run, h: Home, r: Run, l: Local, c: Choice, u: Out)
    requires l.pc.Elect? && (l.pc.l.ElectJudge? || l.pc.l.ElectTicket?)
    requires u == ElectJudgeStep(h, r, l, c, l.pc.ph, l.pc.l)
    ensures Leads(h0, d, h, r, l, c, u)
  {
    hide Kept;
  }

  lemma DropTicketOn(h0: Home, d: Run, h: Home, r: Run, l: Local, c: Choice, u: Out)
    requires l.pc.Elect? && l.pc.l.DropTicket? && u == DropTicketStep(h, r, l, c, l.pc.ph, l.pc.l)
    ensures Leads(h0, d, h, r, l, c, u)
  {
    hide Kept;
  }

  lemma DropSlotOn(h0: Home, d: Run, h: Home, r: Run, l: Local, c: Choice, u: Out)
    requires l.pc.Elect? && l.pc.l.DropSlot? && u == DropSlotStep(h, r, l, c, l.pc.ph, l.pc.l)
    ensures Leads(h0, d, h, r, l, c, u)
  {
    if Going(h0, d, h, r, l, c) {
      SlotDropped(h, r, l.pc.ph, l.pc.l.names, l.pc.l.name, c.n);
    }
    hide StepOf, ElectStep, Kept, ElectLone;
  }

  lemma EraseSlotOn(h0: Home, d: Run, h: Home, r: Run, l: Local, c: Choice, u: Out)
    requires l.pc.Elect? && l.pc.l.EraseSlot? && u == EraseSlotStep(h, r, l, c, l.pc.ph, l.pc.l)
    ensures Leads(h0, d, h, r, l, c, u)
  {
    hide Kept;
  }

  lemma TicketOn(h0: Home, d: Run, h: Home, r: Run, l: Local, c: Choice, u: Out)
    requires l.pc.PublishTicket? && u == TicketStep(h, r, l, c, l.pc.number)
    ensures Leads(h0, d, h, r, l, c, u)
  {
    hide Kept;
  }

  lemma CanonReadOn(h0: Home, d: Run, h: Home, r: Run, l: Local, c: Choice, u: Out)
    requires l.pc.Canon? && (l.pc.o.CanonRead? || l.pc.o.CanonJudge? || l.pc.o.CanonCheck?)
    requires u == CanonReadStep(h, r, l, c, l.pc.o)
    ensures Leads(h0, d, h, r, l, c, u)
  {
    hide Kept;
  }

  lemma CanonMoveOn(h0: Home, d: Run, h: Home, r: Run, l: Local, c: Choice, u: Out)
    requires l.pc.Canon? && (l.pc.o.CanonMove? || l.pc.o.CanonMoved?) && u == CanonMoveStep(h, r, l, c, l.pc.o)
    ensures Leads(h0, d, h, r, l, c, u)
  {
    hide Kept;
  }

  lemma CanonLinkOn(h0: Home, d: Run, h: Home, r: Run, l: Local, c: Choice, u: Out)
    requires l.pc.Canon? && (l.pc.o.CanonLink? || l.pc.o.CanonAssert?) && u == CanonLinkStep(h, r, l, c, l.pc.o)
    ensures Leads(h0, d, h, r, l, c, u)
  {
    hide Kept;
  }

  lemma OpenReadOn(h0: Home, d: Run, h: Home, r: Run, l: Local, c: Choice, u: Out)
    requires l.pc.Open? && (l.pc.q.OpenOwned? || l.pc.q.ReadFence?) && u == OpenReadStep(h, r, l, c, l.pc.q)
    ensures Leads(h0, d, h, r, l, c, u)
  {
    hide Kept;
  }

  lemma OpenJudgeOn(h0: Home, d: Run, h: Home, r: Run, l: Local, c: Choice, u: Out)
    requires l.pc.Open? && (l.pc.q.JudgeFence? || l.pc.q.PrintFence?) && u == OpenJudgeStep(h, r, l, c, l.pc.q)
    ensures Leads(h0, d, h, r, l, c, u)
  {
    hide Kept;
  }

  lemma DrainListOn(h0: Home, d: Run, h: Home, r: Run, l: Local, c: Choice, u: Out)
    requires l.pc.Drain? && l.pc.d.DrainSnapshot? && u == DrainListStep(h, r, l, c, l.pc.w, l.pc.d)
    ensures Leads(h0, d, h, r, l, c, u)
  {
    hide Kept;
  }

  lemma DrainReadOn(h0: Home, d: Run, h: Home, r: Run, l: Local, c: Choice, u: Out)
    requires l.pc.Drain? && l.pc.d.DrainScan? && u == DrainReadStep(h, r, l, c, l.pc.w, l.pc.d)
    ensures Leads(h0, d, h, r, l, c, u)
  {
    if Going(h0, d, h, r, l, c) {
      if l.pc.d.todo == {} {
        Drained(h, None, l.pc.d.blocked);
      } else {
        DrainRead(h, None, l.pc.d.todo, l.pc.d.blocked, c.name);
      }
    }
    hide StepOf, DrainStep, Kept, DrainingLone;
  }

  lemma DrainJudgeOn(h0: Home, d: Run, h: Home, r: Run, l: Local, c: Choice, u: Out)
    requires l.pc.Drain? && l.pc.d.DrainJudge? && u == DrainJudgeStep(h, r, l, c, l.pc.w, l.pc.d)
    ensures Leads(h0, d, h, r, l, c, u)
  {
    hide Kept;
  }

  lemma DrainDropOn(h0: Home, d: Run, h: Home, r: Run, l: Local, c: Choice, u: Out)
    requires l.pc.Drain? && l.pc.d.DrainDrop? && u == DrainDropStep(h, r, l, c, l.pc.w, l.pc.d)
    ensures Leads(h0, d, h, r, l, c, u)
  {
    if Going(h0, d, h, r, l, c) {
      Dropped(h, None, l.pc.d.todo, l.pc.d.blocked, l.pc.d.name, c.n);
    }
    hide StepOf, DrainStep, Kept, DrainingLone;
  }

  lemma DrainEraseOn(h0: Home, d: Run, h: Home, r: Run, l: Local, c: Choice, u: Out)
    requires l.pc.Drain? && l.pc.d.DrainErase? && u == DrainEraseStep(h, r, l, c, l.pc.w, l.pc.d)
    ensures Leads(h0, d, h, r, l, c, u)
  {
    hide Kept;
  }

  lemma OwnedOn(h0: Home, d: Run, h: Home, r: Run, l: Local, c: Choice, u: Out)
    requires l.pc.Repair? && l.pc.p.RepairOwned? && u == OwnedStep(h, r, l, c, l.pc.t, l.pc.p)
    ensures Leads(h0, d, h, r, l, c, u)
  {
    hide Kept;
  }

  lemma ExactOn(h0: Home, d: Run, h: Home, r: Run, l: Local, c: Choice, u: Out)
    requires l.pc.Repair? && l.pc.p.RepairExact? && u == ExactStep(h, r, l, c, l.pc.t, l.pc.p)
    ensures Leads(h0, d, h, r, l, c, u)
  {
    hide Kept;
  }

  lemma SurveyMainOn(h0: Home, d: Run, h: Home, r: Run, l: Local, c: Choice, u: Out)
    requires l.pc.Repair? && l.pc.p.SurveyMain? && u == SurveyMainStep(h, r, l, c, l.pc.t, l.pc.p)
    ensures Leads(h0, d, h, r, l, c, u)
  {
    hide Kept;
  }

  lemma SurveyListOn(h0: Home, d: Run, h: Home, r: Run, l: Local, c: Choice, u: Out)
    requires l.pc.Repair? && l.pc.p.SurveySnapshot? && u == SurveyListStep(h, r, l, c, l.pc.t, l.pc.p)
    ensures Leads(h0, d, h, r, l, c, u)
  {
    hide Kept;
  }

  lemma SurveyJudgeOn(h0: Home, d: Run, h: Home, r: Run, l: Local, c: Choice, u: Out)
    requires l.pc.Repair? && l.pc.p.SurveyJudge? && u == SurveyJudgeStep(h, r, l, c, l.pc.t, l.pc.p)
    ensures Leads(h0, d, h, r, l, c, u)
  {
    hide Kept;
  }

  lemma SurveyOn(h0: Home, d: Run, h: Home, r: Run, l: Local, c: Choice, u: Out)
    requires l.pc.Repair? && l.pc.p.SurveyScan? && u == SurveyStep(h, r, l, c, l.pc.t, l.pc.p)
    ensures Leads(h0, d, h, r, l, c, u)
  {
    hide Kept;
  }

  lemma SurveyFoundOn(h0: Home, d: Run, h: Home, r: Run, l: Local, c: Choice, u: Out)
    requires l.pc.Repair? && l.pc.p.SurveyFound? && u == SurveyFoundStep(h, r, l, c, l.pc.t, l.pc.p)
    ensures Leads(h0, d, h, r, l, c, u)
  {
    hide Kept;
  }

  lemma DecideOn(h0: Home, d: Run, h: Home, r: Run, l: Local, c: Choice, u: Out)
    requires l.pc.Repair? && l.pc.p.Decide? && u == DecideStep(h, r, l, c, l.pc.t, l.pc.p)
    ensures Leads(h0, d, h, r, l, c, u)
  {
    if Going(h0, d, h, r, l, c) {
      HelpfulPick(h, l.pc.t, l.v, l.pc.p.m, l.pc.p.cands, c);
      DecideLeads(h0, d, h, c.pick);
    }
    hide StepOf, RepairStep, Kept, Decision, SurveyLone, SeenLone, Helpful, Result, BodyLone, Decided;
  }

  ghost predicate DecidedWell(h0: Home, d: Run, h: Home, n: Run) {
    !(LockKept(h0, h) && h0.fence == Some(d) && (Agreed(h.f.quarantine) ==> Decided(h, n).Some?))
    || (match Decided(h, n)
        case None => Result(h0, d, h, false)
        case Some(q) => BodyLone(h0, d, h, q) && Rank(Repair(Target(d, d), q)) < RepairRank(Decide(MainAbsent, {})))
  }

  lemma DecideLeads(h0: Home, d: Run, h: Home, n: Run)
    ensures DecidedWell(h0, d, h, n)
  {
  }

  /** A helpful choice finds the candidate, if there is one to agree on. */
  lemma HelpfulPick(h: Home, t: Target, v: Vars, m: MainSeen, cands: set<Candidate>, c: Choice)
    requires SeenLone(h, m) && SurveyLone(h, {}, cands) && Helpful(Out(h, Local(Repair(t, Decide(m, cands)), v)), c)
    ensures Decision(m, cands, c.pick) == Decided(h, c.pick)
    ensures Agreed(h.f.quarantine) ==> Decided(h, c.pick).Some?
  {
    forall n ensures Decision(m, cands, n) == Decided(h, n) {
      Decides(h, m, cands, n);
    }
    hide Decision, SurveyLone, SeenLone;
    if h.f.quarantine != map[] {
      var n :| n in h.f.quarantine;
      assert Agreed(h.f.quarantine) ==> Decided(h, n).Some?;
    }
  }

  lemma ReinstateOn(h0: Home, d: Run, h: Home, r: Run, l: Local, c: Choice, u: Out)
    requires l.pc.Repair? && l.pc.p.Reinstate? && u == ReinstateStep(h, r, l, c, l.pc.t, l.pc.p)
    ensures Leads(h0, d, h, r, l, c, u)
  {
    hide Kept;
  }

  lemma DropAliasOn(h0: Home, d: Run, h: Home, r: Run, l: Local, c: Choice, u: Out)
    requires l.pc.Repair? && l.pc.p.ReinstateUnlink? && u == DropAliasStep(h, r, l, c, l.pc.t, l.pc.p)
    ensures Leads(h0, d, h, r, l, c, u)
  {
    hide Kept;
  }

  lemma ReconcileOn(h0: Home, d: Run, h: Home, r: Run, l: Local, c: Choice, u: Out)
    requires l.pc.Repair? && l.pc.p.Reconcile? && u == ReconcileStep(h, r, l, c, l.pc.t, l.pc.p)
    ensures Leads(h0, d, h, r, l, c, u)
  {
    hide Kept;
  }

  lemma LegacyOn(h0: Home, d: Run, h: Home, r: Run, l: Local, c: Choice, u: Out)
    requires l.pc.Repair? && l.pc.p.Legacy? && u == LegacyStep(h, r, l, c, l.pc.t, l.pc.p)
    ensures Leads(h0, d, h, r, l, c, u)
  {
    hide Kept;
  }

  lemma LegacyJudgeOn(h0: Home, d: Run, h: Home, r: Run, l: Local, c: Choice, u: Out)
    requires l.pc.Repair? && l.pc.p.LegacyJudge? && u == LegacyJudgeStep(h, r, l, c, l.pc.t, l.pc.p)
    ensures Leads(h0, d, h, r, l, c, u)
  {
    hide Kept;
  }

  lemma LegacyMoveOn(h0: Home, d: Run, h: Home, r: Run, l: Local, c: Choice, u: Out)
    requires l.pc.Repair? && l.pc.p.LegacyMove? && u == LegacyMoveStep(h, r, l, c, l.pc.t, l.pc.p)
    ensures Leads(h0, d, h, r, l, c, u)
  {
    hide Kept;
  }

  lemma LegacyCheckOn(h0: Home, d: Run, h: Home, r: Run, l: Local, c: Choice, u: Out)
    requires l.pc.Repair? && l.pc.p.LegacyCheck? && u == LegacyCheckStep(h, r, l, c, l.pc.t, l.pc.p)
    ensures Leads(h0, d, h, r, l, c, u)
  {
    hide Kept;
  }

  lemma UnfenceOn(h0: Home, d: Run, h: Home, r: Run, l: Local, c: Choice, u: Out)
    requires l.pc.Repair? && l.pc.p.Unfence? && u == UnfenceStep(h, r, l, c, l.pc.t, l.pc.p)
    ensures Leads(h0, d, h, r, l, c, u)
  {
    hide Kept;
  }

  lemma UnfenceMoveOn(h0: Home, d: Run, h: Home, r: Run, l: Local, c: Choice, u: Out)
    requires l.pc.Repair? && l.pc.p.UnfenceMove? && u == UnfenceMoveStep(h, r, l, c, l.pc.t, l.pc.p)
    ensures Leads(h0, d, h, r, l, c, u)
  {
    hide Kept;
  }

  lemma UnfenceCheckOn(h0: Home, d: Run, h: Home, r: Run, l: Local, c: Choice, u: Out)
    requires l.pc.Repair? && l.pc.p.UnfenceCheck? && u == UnfenceCheckStep(h, r, l, c, l.pc.t, l.pc.p)
    ensures Leads(h0, d, h, r, l, c, u)
  {
    hide Kept;
  }

  lemma ReleaseGuardOn(h0: Home, d: Run, h: Home, r: Run, l: Local, c: Choice, u: Out)
    requires l.pc.Release? && (l.pc.z.ReleaseGuard? || l.pc.z.ReleaseGuardMove? || l.pc.z.ReleaseGuardCheck?)
    requires u == ReleaseGuardStep(h, r, l, c, l.pc.repaired, l.pc.z)
    ensures Leads(h0, d, h, r, l, c, u)
  {
    hide Kept;
  }

  lemma ReleaseTicketOn(h0: Home, d: Run, h: Home, r: Run, l: Local, c: Choice, u: Out)
    requires l.pc.Release? && l.pc.z.ReleaseTicket? && u == ReleaseTicketStep(h, r, l, c, l.pc.repaired, l.pc.z)
    ensures Leads(h0, d, h, r, l, c, u)
  {
    hide Kept;
  }

  lemma ReleaseSlotOn(h0: Home, d: Run, h: Home, r: Run, l: Local, c: Choice, u: Out)
    requires l.pc.Release? && l.pc.z.ReleaseSlot? && u == ReleaseSlotStep(h, r, l, c, l.pc.repaired, l.pc.z)
    ensures Leads(h0, d, h, r, l, c, u)
  {
    hide Kept;
  }

  lemma ReleaseEraseOn(h0: Home, d: Run, h: Home, r: Run, l: Local, c: Choice, u: Out)
    requires l.pc.Release? && l.pc.z.ReleaseErase? && u == ReleaseEraseStep(h, r, l, c, l.pc.repaired, l.pc.z)
    ensures Leads(h0, d, h, r, l, c, u)
  {
    hide Kept;
  }

  lemma ElectOn(h0: Home, d: Run, h: Home, r: Run, l: Local, c: Choice, u: Out)
    requires l.pc.Elect? && u == ElectStep(h, r, l, c, l.pc.ph, l.pc.l)
    ensures Leads(h0, d, h, r, l, c, u)
  {
    hide Kept, Helpful, Gone, ElectLone;
    if !Going(h0, d, h, r, l, c) { return; }
    match l.pc.l
    case ElectSnapshot => ElectListOn(h0, d, h, r, l, c, u);
    case ElectScan(_) => ElectReadOn(h0, d, h, r, l, c, u);
    case ElectJudge(_, _, _) | ElectTicket(_, _) => ElectJudgeOn(h0, d, h, r, l, c, u);
    case DropTicket(_, _, _) => DropTicketOn(h0, d, h, r, l, c, u);
    case DropSlot(_, _) => DropSlotOn(h0, d, h, r, l, c, u);
    case EraseSlot(_, _, _) => EraseSlotOn(h0, d, h, r, l, c, u);
  }

  lemma CanonOn(h0: Home, d: Run, h: Home, r: Run, l: Local, c: Choice, u: Out)
    requires l.pc.Canon? && u == CanonStep(h, r, l, c, l.pc.o)
    ensures Leads(h0, d, h, r, l, c, u)
  {
    hide Kept, Helpful, Gone;
    if !Going(h0, d, h, r, l, c) { return; }
    match l.pc.o
    case CanonRead(_) | CanonJudge(_, _) | CanonCheck(_, _) => CanonReadOn(h0, d, h, r, l, c, u);
    case CanonMove(_, _) | CanonMoved(_, _, _) => CanonMoveOn(h0, d, h, r, l, c, u);
    case CanonLink(_) | CanonAssert => CanonLinkOn(h0, d, h, r, l, c, u);
  }

  lemma OpenOn(h0: Home, d: Run, h: Home, r: Run, l: Local, c: Choice, u: Out)
    requires l.pc.Open? && u == OpenStep(h, r, l, c, l.pc.q)
    ensures Leads(h0, d, h, r, l, c, u)
  {
    hide Kept, Helpful, Gone;
    if !Going(h0, d, h, r, l, c) { return; }
    match l.pc.q
    case OpenOwned | ReadFence => OpenReadOn(h0, d, h, r, l, c, u);
    case JudgeFence(_) | PrintFence(_) => OpenJudgeOn(h0, d, h, r, l, c, u);
  }

  lemma DrainOn(h0: Home, d: Run, h: Home, r: Run, l: Local, c: Choice, u: Out)
    requires l.pc.Drain? && u == DrainStep(h, r, l, c, l.pc.w, l.pc.d)
    ensures Leads(h0, d, h, r, l, c, u)
  {
    hide Kept, Helpful, Gone, DrainingLone;
    if !Going(h0, d, h, r, l, c) { return; }
    match l.pc.d
    case DrainSnapshot => DrainListOn(h0, d, h, r, l, c, u);
    case DrainScan(_, _) => DrainReadOn(h0, d, h, r, l, c, u);
    case DrainJudge(_, _, _, _) => DrainJudgeOn(h0, d, h, r, l, c, u);
    case DrainDrop(_, _, _) => DrainDropOn(h0, d, h, r, l, c, u);
    case DrainErase(_, _, _, _) => DrainEraseOn(h0, d, h, r, l, c, u);
  }

  lemma BodyOn(h0: Home, d: Run, h: Home, r: Run, l: Local, c: Choice, u: Out)
    requires l.pc.Repair? && u == RepairStep(h, r, l, c, l.pc.t, l.pc.p)
    ensures Leads(h0, d, h, r, l, c, u)
  {
    hide Kept, Helpful, Gone, StageLone, Settled, LockKept;
    if !Going(h0, d, h, r, l, c) { return; }
    match l.pc.p
    case RepairOwned(_) => OwnedOn(h0, d, h, r, l, c, u);
    case RepairExact(_) => ExactOn(h0, d, h, r, l, c, u);
    case SurveyMain => SurveyMainOn(h0, d, h, r, l, c, u);
    case SurveySnapshot(_) => SurveyListOn(h0, d, h, r, l, c, u);
    case SurveyJudge(_) => SurveyJudgeOn(h0, d, h, r, l, c, u);
    case SurveyScan(_, _, _) => SurveyOn(h0, d, h, r, l, c, u);
    case SurveyFound(_, _, _, _, _) => SurveyFoundOn(h0, d, h, r, l, c, u);
    case Decide(_, _) => DecideOn(h0, d, h, r, l, c, u);
    case Reinstate(_, _) => ReinstateOn(h0, d, h, r, l, c, u);
    case ReinstateUnlink(_) => DropAliasOn(h0, d, h, r, l, c, u);
    case Reconcile(_) => ReconcileOn(h0, d, h, r, l, c, u);
    case Legacy(_) => LegacyOn(h0, d, h, r, l, c, u);
    case LegacyJudge(_, _) => LegacyJudgeOn(h0, d, h, r, l, c, u);
    case LegacyMove(_) => LegacyMoveOn(h0, d, h, r, l, c, u);
    case LegacyCheck(_, _) => LegacyCheckOn(h0, d, h, r, l, c, u);
    case Unfence(_) => UnfenceOn(h0, d, h, r, l, c, u);
    case UnfenceMove(_) => UnfenceMoveOn(h0, d, h, r, l, c, u);
    case UnfenceCheck(_, _) => UnfenceCheckOn(h0, d, h, r, l, c, u);
    case _ =>
  }

  lemma ReleaseOn(h0: Home, d: Run, h: Home, r: Run, l: Local, c: Choice, u: Out)
    requires l.pc.Release? && Rank(l.pc) > 0 && u == ReleaseStep(h, r, l, c, l.pc.repaired, l.pc.z)
    ensures Leads(h0, d, h, r, l, c, u)
  {
    hide Kept, Helpful, Gone, Result;
    if !Going(h0, d, h, r, l, c) { return; }
    match l.pc.z
    case ReleaseGuard | ReleaseGuardMove | ReleaseGuardCheck(_) => ReleaseGuardOn(h0, d, h, r, l, c, u);
    case ReleaseTicket => ReleaseTicketOn(h0, d, h, r, l, c, u);
    case ReleaseSlot => ReleaseSlotOn(h0, d, h, r, l, c, u);
    case ReleaseErase(_) => ReleaseEraseOn(h0, d, h, r, l, c, u);
    case RepairDone =>
  }

  lemma RepairOn(h0: Home, d: Run, h: Home, r: Run, l: Local, c: Choice, u: Out)
    requires Rank(l.pc) > 0 && u == StepOf(h, r, l, c)
    ensures Leads(h0, d, h, r, l, c, u)
  {
    hide Kept, Helpful, Gone;
    if !Going(h0, d, h, r, l, c) { return; }
    match l.pc
    case Enter(_) => ArriveOn(h0, d, h, r, l, c, u);
    case Elect(_, _) => ElectOn(h0, d, h, r, l, c, u);
    case PublishTicket(_) => TicketOn(h0, d, h, r, l, c, u);
    case Canon(_) => CanonOn(h0, d, h, r, l, c, u);
    case Open(_) => OpenOn(h0, d, h, r, l, c, u);
    case Drain(_, _) => DrainOn(h0, d, h, r, l, c, u);
    case Repair(_, _) => BodyOn(h0, d, h, r, l, c, u);
    case Release(_, _) => ReleaseOn(h0, d, h, r, l, c, u);
    case _ =>
  }

  /** The repair has come to rest as Result says. */
  ghost predicate Rests(h0: Home, d: Run, r: Run, u: Out) {
    u.l.pc.Release? && Rank(u.l.pc) == 0 && RepairLone(h0, d, u.h, r, u.l)
  }

  lemma AtRest(h0: Home, d: Run, h: Home, r: Run, l: Local)
    ensures RepairLone(h0, d, h, r, l) && Rank(l.pc) == 0 ==> l.pc.Release?
  {
  }

  lemma {:induction false} RepairEnds(h0: Home, d: Run, h: Home, r: Run, l: Local, env: Env)
    requires Deserted(h0, r) && Helps(env, true)
    ensures RepairLone(h0, d, h, r, l) ==> exists k :: Rests(h0, d, r, Alone(h, r, l, env, k))
    decreases Rank(l.pc), Left(l.pc), Sub(l.pc)
  {
    hide RepairLone, StepOf, Helpful, Alone, Deserted;
    if !RepairLone(h0, d, h, r, l) { return; }
    if Rank(l.pc) == 0 {
      AtRest(h0, d, h, r, l);
      AloneStep(h, r, l, env, 0);
      assert Rests(h0, d, r, Alone(h, r, l, env, 0));
    } else {
      var o := StepOf(h, r, l, env(Out(h, l)));
      RepairOn(h0, d, h, r, l, env(Out(h, l)), o);
      RepairEnds(h0, d, o.h, r, o.l, env);
      var k: nat :| Rests(h0, d, r, Alone(o.h, r, o.l, env, k));
      AloneStep(h, r, l, env, k);
      assert Rests(h0, d, r, Alone(h, r, l, env, k + 1));
    }
  }
}
