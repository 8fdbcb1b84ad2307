/**
 What holds in every reachable state: the repair election admits one living repairer, a
 finished drain leaves its run alone past the fence check, and main holds exactly the
 record of the one living lease.
 */
module OwnershipSafety {
  import opened Options
  import opened OwnershipState
  import opened OwnershipFacts
  import opened OwnershipProtocol

  // ---------------------------------------------------------------- pairs of runs

  /** The drain pass of this position still has to account for run a, or is spoilt. */
  predicate Awaits(d: DrainPc, a: Run) {
    match d
    case DrainSnapshot => true
    case DrainScan(todo, blocked) => blocked || Own(a) in todo
    case DrainJudge(todo, blocked, _, x) => blocked || Own(a) in todo || x == a
    case DrainDrop(todo, blocked, _) => blocked || Own(a) in todo
    case DrainErase(todo, blocked, _, _) => blocked || Own(a) in todo
  }

  /** The fence/entrant handshake: once r has drained under a standing fence, no other
      living run is past its fence check. */
  predicate Apart(h: Home, r: Run, l: Local, a: Run, la: Local) {
    Inside(la.pc) ==>
      match l.pc
      case Drain(Holder, d) => Awaits(d, a)
      case Drain(Repairer(t), d) => h.fence == Some(t.inst) ==> Awaits(d, a)
      case Repair(t, _) => h.fence != Some(t.inst)
      case _ => !(l.v.fenced && l.v.drained)
  }

  ghost predicate Inv(s: State) {
    && (forall r :: Alive(s.h, r) ==> Sound(s.h, r, L(s, r)))
    && (forall r, a {:trigger Alive(s.h, r), Alive(s.h, a)} :: r != a && Alive(s.h, r) && Alive(s.h, a) ==>
          Apart(s.h, r, L(s, r), a, L(s, a)) && Ordered(r, L(s, r), a, L(s, a)))
    && (forall x :: L(s, x).v.mine <==> Held(s.h, x))
  }

  // ---------------------------------------------------------------- one step

  /** The election admits one living repairer: two finished elections would each have to
      be behind the other. */
  lemma OneRepairer(s: State, r: Run, a: Run)
    requires Inv(s) && Alive(s.h, r) && Alive(s.h, a)
    requires Passed(L(s, r).pc) && Passed(L(s, a).pc)
    ensures r == a
  {
  }

  /** Runs r and a before and after a step of r. */
  ghost predicate Beside(h: Home, r: Run, l: Local, u: Out, a: Run, la: Local) {
    && a != r && Alive(h, r) && Alive(h, a) && !(Passed(l.pc) && Passed(la.pc))
    && Sound(h, r, l) && Sound(h, a, la) && Apart(h, r, l, a, la) && Apart(h, a, la, r, l)
    && Sound(u.h, r, u.l) && Effect(h, r, l, u)
  }

  /** One other run's facts survive a step of r. */
  ghost predicate Unshaken(h: Home, r: Run, l: Local, u: Out, a: Run, la: Local) {
    !Beside(h, r, l, u, a, la) || Sound(u.h, a, la)
  }

  lemma OtherSound(h: Home, r: Run, l: Local, u: Out, a: Run, la: Local)
    ensures Unshaken(h, r, l, u, a, la)
  {
    hide *;
    if la.pc.Repair? {
      OtherRepair(h, r, l, u, a, la);
    } else if la.pc.Recovery? || la.pc.Remove? || la.pc.Catch? {
      OtherRecovery(h, r, l, u, a, la);
    } else {
      OtherRest(h, r, l, u, a, la);
    }
  }

  lemma OtherRepair(h: Home, r: Run, l: Local, u: Out, a: Run, la: Local)
    requires la.pc.Repair?
    ensures Unshaken(h, r, l, u, a, la)
  {
    hide RecoveryAt, CatchAt, EnterAt, RemoveAt, ExitAt, ElectAt;
  }

  lemma OtherRecovery(h: Home, r: Run, l: Local, u: Out, a: Run, la: Local)
    requires la.pc.Recovery? || la.pc.Remove? || la.pc.Catch?
    ensures Unshaken(h, r, l, u, a, la)
  {
  }

  lemma OtherRest(h: Home, r: Run, l: Local, u: Out, a: Run, la: Local)
    requires !la.pc.Repair? && !la.pc.Recovery? && !la.pc.Remove? && !la.pc.Catch?
    ensures Unshaken(h, r, l, u, a, la)
  {
  }

  /** Another run's facts survive a step of r. */
  lemma OthersSound(s: State, r: Run, c: Choice)
    requires Inv(s) && Alive(s.h, r)
    ensures var u := StepOf(s.h, r, L(s, r), c);
            forall a :: a != r && Alive(s.h, a) ==> Sound(u.h, a, L(s, a))
  {
    hide StepOf, Apart;
    var u := StepOf(s.h, r, L(s, r), c);
    forall a | a != r && Alive(s.h, a) ensures Sound(u.h, a, L(s, a)) {
      if Passed(L(s, r).pc) && Passed(L(s, a).pc) {
        OneRepairer(s, r, a);
      }
      hide Sound, Effect;
      OtherSound(s.h, r, L(s, r), u, a, L(s, a));
    }
  }

  ghost predicate Draining(h: Home, r: Run, l: Local, a: Run, la: Local) {
    a != r && l.pc.Drain? && Alive(h, a) && Sound(h, r, l) && Sound(h, a, la) && Apart(h, r, l, a, la)
  }

  /** A drain accounts for every run past its fence check before it passes. */
  lemma DrainerApart(h: Home, r: Run, l: Local, c: Choice, u: Out, a: Run, la: Local)
    requires Draining(h, r, l, a, la) && u == StepOf(h, r, l, c)
    ensures Apart(u.h, r, u.l, a, la)
  {
    hide Kept, Sound, Apart;
    match l.pc.d
    case DrainSnapshot | DrainScan(_, _) => ReaderApart(h, r, l, c, u, a, la);
    case _ => JudgeApart(h, r, l, c, u, a, la);
  }

  lemma ReaderApart(h: Home, r: Run, l: Local, c: Choice, u: Out, a: Run, la: Local)
    requires Draining(h, r, l, a, la) && (l.pc.d.DrainSnapshot? || l.pc.d.DrainScan?)
    requires u == DrainStep(h, r, l, c, l.pc.w, l.pc.d)
    ensures Apart(u.h, r, u.l, a, la)
  {
    hide Kept, RepairAt;
  }

  lemma JudgeApart(h: Home, r: Run, l: Local, c: Choice, u: Out, a: Run, la: Local)
    requires Draining(h, r, l, a, la) && !l.pc.d.DrainSnapshot? && !l.pc.d.DrainScan?
    requires u == DrainStep(h, r, l, c, l.pc.w, l.pc.d)
    ensures Apart(u.h, r, u.l, a, la)
  {
    hide Kept, RepairAt, RecoveryAt;
  }

  lemma MoverApart(s: State, r: Run, c: Choice)
    requires Inv(s) && Alive(s.h, r)
    ensures var u := StepOf(s.h, r, L(s, r), c);
            forall a :: a != r && Alive(s.h, a) ==> Apart(u.h, r, u.l, a, L(s, a))
  {
    hide StepOf;
    if L(s, r).pc.Drain? {
      hide Apart, Sound;
      var u := StepOf(s.h, r, L(s, r), c);
      forall a | a != r && Alive(s.h, a) ensures Apart(u.h, r, u.l, a, L(s, a)) {
        DrainerApart(s.h, r, L(s, r), c, u, a, L(s, a));
      }
    } else {
      var u := StepOf(s.h, r, L(s, r), c);
      forall a | a != r && Alive(s.h, a) ensures Apart(u.h, r, u.l, a, L(s, a)) {
      }
    }
  }

  lemma WatchersApart(s: State, r: Run, c: Choice)
    requires Inv(s) && Alive(s.h, r)
    ensures var u := StepOf(s.h, r, L(s, r), c);
            forall a :: a != r && Alive(s.h, a) ==> Apart(u.h, a, L(s, a), r, u.l)
  {
    var u := StepOf(s.h, r, L(s, r), c);
    forall a | a != r && Alive(s.h, a) ensures Apart(u.h, a, L(s, a), r, u.l) {
    }
  }

  /** A fence that comes back was taken away by r, which was alone past the election. */
  ghost predicate StayApart(h: Home, r: Run, l: Local, u: Out, a: Run, la: Local, b: Run, lb: Local) {
    !Beside(h, r, l, u, a, la) || !Apart(h, a, la, b, lb) || Apart(u.h, a, la, b, lb)
  }

  lemma BystanderApart(h: Home, r: Run, l: Local, u: Out, a: Run, la: Local, b: Run, lb: Local)
    ensures StayApart(h, r, l, u, a, la, b, lb)
  {
    hide RecordEffect, Spares, TicketEffect, Ground, RepairAt;
  }

  /** No fence that a repair waits for reappears, so two other runs stay apart. */
  lemma BystandersApart(s: State, r: Run, c: Choice)
    requires Inv(s) && Alive(s.h, r)
    ensures var u := StepOf(s.h, r, L(s, r), c);
            forall a, b :: a != r && b != r && a != b && Alive(s.h, a) && Alive(s.h, b) ==>
              Apart(u.h, a, L(s, a), b, L(s, b))
  {
    hide StepOf, Apart;
    var u := StepOf(s.h, r, L(s, r), c);
    forall a, b | a != r && b != r && a != b && Alive(s.h, a) && Alive(s.h, b)
      ensures Apart(u.h, a, L(s, a), b, L(s, b))
    {
      if Passed(L(s, r).pc) && Passed(L(s, a).pc) {
        OneRepairer(s, r, a);
      }
      hide Sound, Effect;
      BystanderApart(s.h, r, L(s, r), u, a, L(s, a), b, L(s, b));
    }
  }

  predicate Electing(pc: Pc) {
    pc.Elect? || pc.PublishTicket? || pc == Enter(Idle)
  }

  lemma OthersOrdered(s: State, r: Run, c: Choice)
    requires Inv(s) && Alive(s.h, r) && !Electing(L(s, r).pc)
    ensures var u := StepOf(s.h, r, L(s, r), c);
            forall a :: a != r && Alive(s.h, a) ==> Ordered(r, u.l, a, L(s, a)) && Ordered(a, L(s, a), r, u.l)
  {
    hide StepOf, Apart, Held, Sound, Effect;
    var u := StepOf(s.h, r, L(s, r), c);
    forall a | a != r && Alive(s.h, a) ensures Ordered(r, u.l, a, L(s, a)) && Ordered(a, L(s, a), r, u.l) {
    }
  }

  /** Run i competes with a published number. */
  ghost predicate Numbered(h: Home, i: Run, li: Local) {
    Ground(h.f) && Alive(h, i) && Own(i) in h.f.slots && i in h.f.tickets && h.f.tickets[i] == li.v.ticket
  }

  predicate BehindIfIn(i: Run, li: Local, j: Run, lj: Local) {
    PhaseOf(lj.pc) != Outside ==> Behind(i, li, j, lj)
  }

  /** A candidate's scan stays behind whoever has its number already. */
  lemma ScanBehind(h: Home, i: Run, li: Local, j: Run, lj: Local, c: Choice, u: Out)
    requires Numbered(h, i, li) && lj.pc.Elect? && BehindIfIn(i, li, j, lj) && u == StepOf(h, j, lj, c)
    ensures BehindIfIn(i, li, j, u.l)
  {
    hide Kept, Numbered, BehindIfIn;
    match lj.pc.l
    case ElectSnapshot | ElectScan(_) => ReadBehind(h, i, li, j, lj, c, u);
    case _ => JudgeBehind(h, i, li, j, lj, c, u);
  }

  lemma ReadBehind(h: Home, i: Run, li: Local, j: Run, lj: Local, c: Choice, u: Out)
    requires Numbered(h, i, li) && lj.pc.Elect? && BehindIfIn(i, li, j, lj)
    requires (lj.pc.l.ElectSnapshot? || lj.pc.l.ElectScan?) && u == ElectStep(h, j, lj, c, lj.pc.ph, lj.pc.l)
    ensures BehindIfIn(i, li, j, u.l)
  {
    hide Kept;
  }

  lemma JudgeBehind(h: Home, i: Run, li: Local, j: Run, lj: Local, c: Choice, u: Out)
    requires Numbered(h, i, li) && lj.pc.Elect? && BehindIfIn(i, li, j, lj)
    requires !lj.pc.l.ElectSnapshot? && !lj.pc.l.ElectScan? && u == ElectStep(h, j, lj, c, lj.pc.ph, lj.pc.l)
    ensures BehindIfIn(i, li, j, u.l)
  {
    hide Kept;
  }

  lemma NumberBehind(h: Home, i: Run, li: Local, j: Run, lj: Local, c: Choice)
    requires Numbered(h, i, li) && (lj.pc.PublishTicket? || lj.pc == Enter(Idle)) && BehindIfIn(i, li, j, lj)
    ensures BehindIfIn(i, li, j, StepOf(h, j, lj, c).l)
  {
  }

  lemma CandidateBehind(s: State, r: Run, c: Choice)
    requires Inv(s) && Alive(s.h, r) && Electing(L(s, r).pc)
    ensures var u := StepOf(s.h, r, L(s, r), c);
            forall a :: a != r && Alive(s.h, a) ==> Ordered(a, L(s, a), r, u.l)
  {
    hide StepOf;
    var u := StepOf(s.h, r, L(s, r), c);
    forall a | a != r && Alive(s.h, a) ensures Ordered(a, L(s, a), r, u.l) {
      var la := L(s, a);
      if (PhaseOf(la.pc) == Past || (la.pc.Elect? && la.pc.ph == Wait(false))) && BehindIfIn(a, la, r, L(s, r)) {
        if L(s, r).pc.Elect? {
          ScanBehind(s.h, a, la, r, L(s, r), c, u);
        } else {
          NumberBehind(s.h, a, la, r, L(s, r), c);
        }
      }
    }
  }

  /** A scan's own step: whoever its pass has vouched for stays behind it. */
  ghost predicate StaysAhead(h: Home, r: Run, l: Local, u: Out, a: Run, la: Local) {
    !(a != r && Alive(h, a) && Sound(h, r, l) && Sound(h, a, la) && Ordered(r, l, a, la)) || Ordered(r, u.l, a, la)
  }

  lemma ScanListAhead(h: Home, r: Run, l: Local, c: Choice, u: Out, a: Run, la: Local)
    requires l.pc.Elect? && l.pc.l.ElectSnapshot? && u == ElectListStep(h, r, l, c, l.pc.ph, l.pc.l)
    ensures StaysAhead(h, r, l, u, a, la)
  {
    hide Kept;
  }

  lemma ScanReadAhead(h: Home, r: Run, l: Local, c: Choice, u: Out, a: Run, la: Local)
    requires l.pc.Elect? && l.pc.l.ElectScan? && u == ElectReadStep(h, r, l, c, l.pc.ph, l.pc.l)
    ensures StaysAhead(h, r, l, u, a, la)
  {
    hide Kept;
  }

  lemma ScanJudgeAhead(h: Home, r: Run, l: Local, c: Choice, u: Out, a: Run, la: Local)
    requires l.pc.Elect? && l.pc.l.ElectJudge? && u == ElectJudgeStep(h, r, l, c, l.pc.ph, l.pc.l)
    ensures StaysAhead(h, r, l, u, a, la)
  {
    hide Kept;
  }

  lemma ScanTicketAhead(h: Home, r: Run, l: Local, c: Choice, u: Out, a: Run, la: Local)
    requires l.pc.Elect? && l.pc.l.ElectTicket? && u == ElectJudgeStep(h, r, l, c, l.pc.ph, l.pc.l)
    ensures StaysAhead(h, r, l, u, a, la)
  {
    hide Kept;
  }

  lemma ScanDropAhead(h: Home, r: Run, l: Local, c: Choice, u: Out, a: Run, la: Local)
    requires l.pc.Elect? && (l.pc.l.DropTicket? || l.pc.l.DropSlot? || l.pc.l.EraseSlot?)
    requires u == ElectStep(h, r, l, c, l.pc.ph, l.pc.l)
    ensures StaysAhead(h, r, l, u, a, la)
  {
    hide Kept;
  }

  lemma ElectAhead(h: Home, r: Run, l: Local, c: Choice, u: Out, a: Run, la: Local)
    requires l.pc.Elect? && u == StepOf(h, r, l, c)
    ensures StaysAhead(h, r, l, u, a, la)
  {
    hide Kept, StaysAhead;
    match l.pc.l
    case ElectSnapshot => ScanListAhead(h, r, l, c, u, a, la);
    case ElectScan(_) => ScanReadAhead(h, r, l, c, u, a, la);
    case ElectJudge(_, _, _) => ScanJudgeAhead(h, r, l, c, u, a, la);
    case ElectTicket(_, _) => ScanTicketAhead(h, r, l, c, u, a, la);
    case DropTicket(_, _, _) | DropSlot(_, _) | EraseSlot(_, _, _) => ScanDropAhead(h, r, l, c, u, a, la);
  }

  lemma ScanAhead(s: State, r: Run, c: Choice)
    requires Inv(s) && Alive(s.h, r) && L(s, r).pc.Elect?
    ensures var u := StepOf(s.h, r, L(s, r), c);
            forall a :: a != r && Alive(s.h, a) ==> Ordered(r, u.l, a, L(s, a))
  {
    hide StepOf, Ordered;
    var u := StepOf(s.h, r, L(s, r), c);
    forall a | a != r && Alive(s.h, a) ensures Ordered(r, u.l, a, L(s, a)) {
      ElectAhead(s.h, r, L(s, r), c, u, a, L(s, a));
    }
  }

  lemma NumberAhead(s: State, r: Run, c: Choice)
    requires Inv(s) && Alive(s.h, r) && (L(s, r).pc.PublishTicket? || L(s, r).pc == Enter(Idle))
    ensures var u := StepOf(s.h, r, L(s, r), c);
            forall a :: a != r && Alive(s.h, a) ==> Ordered(r, u.l, a, L(s, a))
  {
  }

  /** Only the run itself takes its record out of main and the quarantine. */
  lemma OtherHeld(h: Home, r: Run, l: Local, u: Home, x: Run)
    requires RecordEffect(h, r, l, u) && x != r
    ensures Held(h, x) <==> Held(u, x)
  {
    var q, q' := h.f.quarantine, u.f.quarantine;
    if h.main == Some(x) && u.main == None {
      assert q'[r] == x;
    }
    if x in q.Values && h.main != Some(x) {
      var n :| n in q && q[n] == x;
      assert n in q' ==> q'[n] == x;
    }
    if x in q'.Values && u.main != Some(x) {
      var n :| n in q' && q'[n] == x;
      assert n in q ==> q[n] == x;
    }
  }

  /** A quarantined record is of a run that has departed, so a run's own record is on main or nowhere. */
  ghost predicate HoldsOwn(h: Home, r: Run, l: Local) {
    !Sound(h, r, l) || l.pc == Exit(Released) || (Held(h, r) <==> l.v.mine)
  }

  lemma OwnHeld(h: Home, r: Run, l: Local)
    ensures HoldsOwn(h, r, l)
  {
    hide At;
  }

  lemma StepHeld(s: State, r: Run, c: Choice)
    requires Inv(s) && Alive(s.h, r)
    ensures var u := StepOf(s.h, r, L(s, r), c);
            forall x :: (if x == r then u.l else L(s, x)).v.mine <==> Held(u.h, x)
  {
    hide StepOf, Apart, Ordered;
    var u := StepOf(s.h, r, L(s, r), c);
    forall x ensures (if x == r then u.l else L(s, x)).v.mine <==> Held(u.h, x) {
      assert L(s, x).v.mine <==> Held(s.h, x);
      if x != r {
        hide Held, RecordEffect, Sound;
        OtherHeld(s.h, r, L(s, r), u.h, x);
      } else if u.l.pc != Exit(Released) {
        hide Held, RecordEffect, Sound;
        OwnHeld(u.h, r, u.l);
      } else if L(s, r).pc != Exit(Released) {
        OwnHeld(s.h, r, L(s, r));
        hide RecordEffect, At;
      }
    }
  }

  lemma DoInv(s: State, r: Run, c: Choice)
    requires Inv(s)
    ensures Inv(Next(s, Do(r, c)))
  {
    hide StepOf, Apart, Ordered, Held;
    if Alive(s.h, r) {
      OthersSound(s, r, c);
      MoverApart(s, r, c);
      WatchersApart(s, r, c);
      BystandersApart(s, r, c);
      if Electing(L(s, r).pc) {
        if L(s, r).pc.Elect? {
          ScanAhead(s, r, c);
        } else {
          NumberAhead(s, r, c);
        }
        CandidateBehind(s, r, c);
      } else {
        OthersOrdered(s, r, c);
      }
      StepHeld(s, r, c);
      var s' := Next(s, Do(r, c));
      forall a, b | a != b && Alive(s'.h, a) && Alive(s'.h, b)
        ensures Apart(s'.h, a, L(s', a), b, L(s', b)) && Ordered(a, L(s', a), b, L(s', b))
      {
        assert Alive(s.h, a) && Alive(s.h, b);
      }
      assert forall a :: Alive(s'.h, a) ==> Alive(s.h, a);
      assert forall x :: L(s', x) == (if x == r then StepOf(s.h, r, L(s, r), c).l else L(s, x));
    }
  }

  /** One run's facts survive a death elsewhere. */
  ghost predicate Outlives(h: Home, p: nat, r: Run, l: Local) {
    r.proc == p || !At(h, r, l) || At(h.(f := h.f.(dead := h.f.dead + {p})), r, l)
  }

  lemma DieSound(h: Home, p: nat, r: Run, l: Local)
    ensures Outlives(h, p, r, l)
  {
    hide *;
    if l.pc.Repair? {
      DieRepair(h, p, r, l);
    } else {
      DieRest(h, p, r, l);
    }
  }

  lemma DieRepair(h: Home, p: nat, r: Run, l: Local)
    requires l.pc.Repair?
    ensures Outlives(h, p, r, l)
  {
    var h' := h.(f := h.f.(dead := h.f.dead + {p}));
    assert forall x :: !Alive(h, x) ==> !Alive(h', x);
    hide Alive;
  }

  lemma DieRest(h: Home, p: nat, r: Run, l: Local)
    requires !l.pc.Repair?
    ensures Outlives(h, p, r, l)
  {
    var h' := h.(f := h.f.(dead := h.f.dead + {p}));
    assert forall x :: !Alive(h, x) ==> !Alive(h', x);
    hide Alive;
  }

  lemma DieInv(s: State, p: nat)
    requires Inv(s)
    ensures Inv(Next(s, Die(p)))
  {
    hide At;
    var s' := Next(s, Die(p));
    forall r | Alive(s'.h, r) ensures Sound(s'.h, r, L(s', r)) {
      assert Alive(s.h, r);
      DieSound(s.h, p, r, L(s, r));
    }
    forall a, b | a != b && Alive(s'.h, a) && Alive(s'.h, b)
      ensures Apart(s'.h, a, L(s', a), b, L(s', b)) && Ordered(a, L(s', a), b, L(s', b))
    {
      assert Alive(s.h, a) && Alive(s.h, b);
    }
    forall x ensures L(s', x).v.mine <==> Held(s'.h, x) {
      assert L(s, x).v.mine <==> Held(s.h, x);
    }
  }

  /** What everybody alive can rely on. */
  lemma GroundHolds(s: State, r: Run)
    requires Inv(s) && Alive(s.h, r)
    ensures Ground(s.h.f)
  {
    hide Apart, Ordered, Held, At;
  }

  lemma NextInv(s: State, e: Event)
    requires Inv(s)
    ensures Inv(Next(s, e))
  {
    match e
    case Die(p) => DieInv(s, p);
    case Do(r, c) => DoInv(s, r, c);
  }

  /** Every reachable state satisfies the invariant. */
  lemma {:induction false} Reachable(t: Trace, i: nat)
    requires Behaviour(t) && i < |t.states|
    ensures Inv(t.states[i])
    decreases i
  {
    hide Inv, Next;
    if i == 0 {
      InitialInv(t.states[0]);
    } else {
      Reachable(t, i - 1);
      assert Happens(t, i - 1);
      NextInv(t.states[i - 1], t.events[i - 1]);
    }
  }

  lemma InitialInv(s: State)
    requires Initial(s)
    ensures Inv(s)
  {
  }
}
