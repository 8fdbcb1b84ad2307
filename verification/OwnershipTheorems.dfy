/**
 The guarantees of the daemon ownership lock, over every interleaving and every crash.
 Each theorem quantifies over an arbitrary initial home, an arbitrary sequence of steps
 and deaths, and arbitrary runs.
 */
module OwnershipTheorems {
  import opened Options
  import opened OwnershipState
  import opened OwnershipFacts
  import opened OwnershipProtocol
  import opened OwnershipSafety

  /** A living process holds a returned, unreleased lease. */
  predicate HoldsLease(s: State, r: Run) {
    Alive(s.h, r) && L(s, r).pc == Exit(Leased)
  }

  /** Main holds exactly the record of the one living lease. */
  lemma MutualExclusion(t: Trace, i: nat, r: Run, a: Run)
    requires Behaviour(t) && i < |t.states| && HoldsLease(t.states[i], r) && HoldsLease(t.states[i], a)
    ensures r == a && t.states[i].h.main == Some(r)
  {
    Reachable(t, i);
  }

  /** The record of a living owner that has not released its lease leaves main only by the owner's own step; no
      reader that took it for stale ever moves it. */
  lemma OnlyOwnerWithdraws(t: Trace, i: nat, x: Run)
    requires Behaviour(t) && i < |t.events| && Alive(t.states[i].h, x)
    requires L(t.states[i], x).pc != Exit(Released)
    requires t.states[i].h.main == Some(x) && t.states[i + 1].h.main != Some(x)
    ensures t.events[i].Do? && t.events[i].r == x
  {
    Reachable(t, i);
    assert Happens(t, i);
  }

  /** A quarantined record is of a dead owner, or of one whose lease is released. */
  lemma QuarantinedDeparted(t: Trace, i: nat, n: Run, x: Run)
    requires Behaviour(t) && i < |t.states| && n in t.states[i].h.f.quarantine && t.states[i].h.f.quarantine[n] == x
    ensures Alive(t.states[i].h, x) ==> L(t.states[i], x).pc == Exit(Released)
  {
    Reachable(t, i);
    hide At, Apart, Ordered, Held;
  }

  /** At most the record of a has come or gone. */
  predicate OwnAtMost(a: Run, main: Option<Run>, after: Option<Run>) {
    after == main || (main == Some(a) && after == None) || (main == None && after == Some(a))
  }

  /** The fence/entrant handshake.  After a successful drain, and while its fence stands, a living holder is alone
      past the fence check, and any other run's step leaves main alone, withdraws that run's own record or puts it
      back. */
  lemma DrainedHolderIsAlone(t: Trace, i: nat, r: Run, a: Run)
    requires Behaviour(t) && i < |t.states|
    requires var s := t.states[i]; a != r && Alive(s.h, r) && Alive(s.h, a) && L(s, r).v.fenced && L(s, r).v.drained
    ensures var s := t.states[i];
            && s.h.fence == Some(r)
            && !Inside(L(s, a).pc)
            && (i < |t.events| && t.events[i].Do? && t.events[i].r == a ==>
                  OwnAtMost(a, s.h.main, t.states[i + 1].h.main))
  {
    Reachable(t, i);
    var s := t.states[i];
    assert Alive(s.h, r) && Alive(s.h, a);
    if i < |t.events| && t.events[i].Do? && t.events[i].r == a {
      assert Happens(t, i);
      MainEffect(s, a, t.events[i].c);
    }
  }

  /** What a step of a run that is not past the fence check can do to main without repairing. */
  lemma MainEffect(s: State, a: Run, c: Choice)
    requires Inv(s) && Alive(s.h, a) && !Inside(L(s, a).pc) && !Reconciler(s.h, L(s, a))
    requires !(L(s, a).v.fenced && L(s, a).v.drained)
    ensures OwnAtMost(a, s.h.main, Next(s, Do(a, c)).h.main)
  {
    hide StepOf;
  }

  /** Two living repairers are never both past the wait loop. */
  lemma ElectionExcludes(t: Trace, i: nat, r: Run, a: Run)
    requires Behaviour(t) && i < |t.states|
    requires var s := t.states[i]; Alive(s.h, r) && Alive(s.h, a) && Passed(L(s, r).pc) && Passed(L(s, a).pc)
    ensures r == a
  {
    Reachable(t, i);
    OneRepairer(t.states[i], r, a);
  }

  // ---------------------------------------------------------------- records

  /** From state i to state j nobody steps x. */
  predicate Unstepped(t: Trace, i: nat, j: nat, x: Run) {
    forall k :: i <= k < j && k < |t.events| && t.events[k].Do? ==> t.events[k].r != x
  }

  lemma {:induction false} StaysPut(t: Trace, i: nat, j: nat, x: Run)
    requires Behaviour(t) && i <= j < |t.states| && Unstepped(t, i, j, x)
    ensures L(t.states[j], x) == L(t.states[i], x)
    decreases j
  {
    hide StepOf;
    if i < j {
      StaysPut(t, i, j - 1, x);
      assert Happens(t, j - 1);
    }
  }

  /** No owner record is lost: whatever recoveries and repairs run, and wherever they are
      killed, a record that its own run does not withdraw stays on main or in quarantine,
      and a withdrawn record never comes back. */
  lemma NoRecordLost(t: Trace, i: nat, j: nat, x: Run)
    requires Behaviour(t) && i <= j < |t.states| && Unstepped(t, i, j, x)
    ensures Held(t.states[i].h, x) <==> Held(t.states[j].h, x)
  {
    Reachable(t, i);
    Reachable(t, j);
    StaysPut(t, i, j, x);
    assert L(t.states[i], x).v.mine <==> Held(t.states[i].h, x);
    assert L(t.states[j], x).v.mine <==> Held(t.states[j].h, x);
  }

  /** Setting a stale main aside for a live candidate loses no record, in any state. */
  lemma DisplacementKeeps(h: Home, r: Run, l: Local, c: Choice, t: Target, p: RepairPc, x: Run)
    requires l.pc == Repair(t, p) && (p.Displace? || p.DisplaceCheck? || p.UndoDisplace? || p.UndoUnlink?)
    requires p.UndoUnlink? && r in h.f.quarantine ==> h.main == Some(h.f.quarantine[r])
    ensures Held(h, x) <==> Held(RepairStep(h, r, l, c, t, p).h, x)
  {
    hide Kept;
    var q, u := h.f.quarantine, RepairStep(h, r, l, c, t, p).h;
    var q' := u.f.quarantine;
    if x in q.Values && u.main != Some(x) {
      var n :| n in q && q[n] == x;
      assert q'[n] == x;
    }
    if h.main == Some(x) && u.main == None {
      assert q'[r] == x;
    }
    if x in q'.Values && h.main != Some(x) {
      var n :| n in q' && q'[n] == x;
      assert q[n] == x;
    }
  }

  // ---------------------------------------------------------------- a dead holder's fence

  /** Not admitted: not past the fence check, and without a lease. */
  predicate Refused(l: Local) {
    !Inside(l.pc) && !l.v.lease && !l.pc.Remove? && l.pc != Exit(Leased)
  }

  lemma DeadGrows(s: State, e: Event)
    requires Inv(s)
    ensures s.h.f.dead <= Next(s, e).h.f.dead
  {
    hide StepOf, Sound, Effect;
    if e.Do? && Alive(s.h, e.r) {
      StepKeepsDead(s, e.r, e.c);
    }
  }

  lemma StepKeepsDead(s: State, r: Run, c: Choice)
    requires Inv(s) && Alive(s.h, r)
    ensures StepOf(s.h, r, L(s, r), c).h.f.dead == s.h.f.dead
  {
    hide StepOf;
  }

  lemma RefusedAtDoor(h: Home, r: Run, l: Local, c: Choice)
    requires h.fence.Some? && Refused(l) && (l.pc.Enter? || l.pc.Exit?)
    ensures Refused(StepOf(h, r, l, c).l)
  {
  }

  lemma RefusedElection(h: Home, r: Run, l: Local, c: Choice)
    requires Refused(l) && (l.pc.Elect? || l.pc.PublishTicket?)
    ensures Refused(StepOf(h, r, l, c).l)
  {
    hide Kept;
  }

  lemma RefusedGuard(h: Home, r: Run, l: Local, c: Choice)
    requires Refused(l) && (l.pc.Canon? || l.pc.Open? || l.pc.Release?)
    ensures Refused(StepOf(h, r, l, c).l)
  {
    hide Kept;
  }

  /** Repair is still finding out what main must become. */
  predicate Early(p: RepairPc) {
    match p
    case RepairOwned(_) => true
    case RepairExact(_) => true
    case SurveyMain => true
    case SurveyJudge(_) => true
    case SurveySnapshot(_) => true
    case SurveyScan(_, _, _) => true
    case SurveyFound(_, _, _, _, _) => true
    case Decide(_, _) => true
    case _ => false
  }

  lemma RefusedRepair(h: Home, r: Run, l: Local, c: Choice)
    requires Refused(l) && l.pc.Repair?
    ensures Refused(StepOf(h, r, l, c).l)
  {
    hide *;
    if Early(l.pc.p) {
      RefusedSurvey(h, r, l, c);
    } else {
      RefusedClearing(h, r, l, c);
    }
  }

  lemma RefusedSurvey(h: Home, r: Run, l: Local, c: Choice)
    requires Refused(l) && l.pc.Repair? && Early(l.pc.p)
    ensures Refused(StepOf(h, r, l, c).l)
  {
    assert StepOf(h, r, l, c) == RepairStep(h, r, l, c, l.pc.t, l.pc.p);
    hide StepOf, Kept;
  }

  lemma RefusedClearing(h: Home, r: Run, l: Local, c: Choice)
    requires Refused(l) && l.pc.Repair? && !Early(l.pc.p)
    ensures Refused(StepOf(h, r, l, c).l)
  {
    assert StepOf(h, r, l, c) == RepairStep(h, r, l, c, l.pc.t, l.pc.p);
    hide StepOf, Kept;
  }

  lemma RefusedDrain(h: Home, r: Run, l: Local, c: Choice)
    requires Refused(l) && l.pc.Drain?
    ensures Refused(StepOf(h, r, l, c).l)
  {
    assert StepOf(h, r, l, c) == DrainStep(h, r, l, c, l.pc.w, l.pc.d);
    hide StepOf, Kept;
  }

  /** Under a standing fence a run that is refused stays refused. */
  lemma RefusedStep(s: State, e: Event, r: Run)
    requires s.h.fence.Some? && Refused(L(s, r))
    ensures Refused(L(Next(s, e), r))
  {
    hide StepOf;
    if e.Do? && e.r == r && Alive(s.h, r) {
      var l := L(s, r);
      if l.pc.Enter? || l.pc.Exit? {
        RefusedAtDoor(s.h, r, l, e.c);
      } else if l.pc.Repair? {
        RefusedRepair(s.h, r, l, e.c);
      } else if l.pc.Drain? {
        RefusedDrain(s.h, r, l, e.c);
      } else if l.pc.Elect? || l.pc.PublishTicket? {
        RefusedElection(s.h, r, l, e.c);
      } else {
        RefusedGuard(s.h, r, l, e.c);
      }
    }
  }

  /** The living repair that took a fence away cannot remove what it renamed, and links it back. */
  predicate LinksBack(s: State, e: Event, holder: Run) {
    && e.Do? && Alive(s.h, e.r) && e.c.fail && s.h.fence == None
    && (var pc := L(s, e.r).pc; pc.Repair? && pc.p.UnfenceCheck? && pc.p.aside == holder)
  }

  lemma LinkedBack(h: Home, r: Run, l: Local, c: Choice, u: Out)
    requires l.pc.Repair? && l.pc.p.UnfenceCheck? && u == StepOf(h, r, l, c)
    ensures h.fence == None && l.pc.p.aside == l.pc.t.inst ==>
              u.h.fence == if c.fail then Some(l.pc.t.inst) else None
  {
    assert u == UnfenceCheckStep(h, r, l, c, l.pc.t, l.pc.p);
    hide StepOf, Kept;
  }

  /** A dead holder's fence that is gone comes back exactly when the repair that took it away links it back. */
  lemma DeadFenceGone(s: State, e: Event, holder: Run)
    requires Inv(s) && !Alive(s.h, holder) && s.h.fence != Some(holder)
    ensures Next(s, e).h.fence == Some(holder) <==> LinksBack(s, e, holder)
  {
    hide StepOf, RecordEffect, Course, Apart, Ordered, Held, FenceEffect, At, ReleaseEffect, Spares, TicketEffect;
    if e.Do? && Alive(s.h, e.r) {
      var l := L(s, e.r);
      assert FenceEffect(s.h, e.r, l, Next(s, e).h.fence);
      AsideAt(s.h, e.r, l);
      hide Effect, Ground;
      FenceBack(s.h, e.r, l, e.c, StepOf(s.h, e.r, l, e.c), holder);
    }
  }

  /** What a repair has taken aside is the fence it inspected. */
  ghost predicate TookTarget(h: Home, r: Run, l: Local) {
    !At(h, r, l) || (l.pc.Repair? && l.pc.p.UnfenceCheck? ==> l.pc.p.aside == l.pc.t.inst)
  }

  lemma AsideAt(h: Home, r: Run, l: Local)
    ensures TookTarget(h, r, l)
  {
  }

  lemma FenceBack(h: Home, r: Run, l: Local, c: Choice, u: Out, holder: Run)
    requires u == StepOf(h, r, l, c) && FenceEffect(h, r, l, u.h.fence) && r != holder && h.fence != Some(holder)
    requires l.pc.Repair? && l.pc.p.UnfenceCheck? ==> l.pc.p.aside == l.pc.t.inst
    ensures u.h.fence == Some(holder)
            <==> c.fail && h.fence == None && l.pc.Repair? && l.pc.p.UnfenceCheck? && l.pc.p.aside == holder
  {
    hide StepOf, Kept;
    if l.pc.Repair? && l.pc.p.UnfenceCheck? {
      LinkedBack(h, r, l, c, u);
    }
  }

  /** A dead holder's fence stays where it is until a repair takes it away. */
  lemma DeadFenceStays(t: Trace, i: nat, holder: Run)
    requires Behaviour(t) && i < |t.events| && !Alive(t.states[i].h, holder)
    requires t.states[i].h.fence == Some(holder)
    ensures t.states[i + 1].h.fence == Some(holder) <==> !Unfences(t, i)
  {
    Reachable(t, i);
    assert Happens(t, i);
    var s, e := t.states[i], t.events[i];
    hide StepOf, RecordEffect, Course, Apart, Ordered, Held;
    if e.Do? && Alive(s.h, e.r) {
      assert FenceEffect(s.h, e.r, L(s, e.r), Next(s, e).h.fence);
    }
  }

  /** A fence left by a dead holder makes every acquirer refuse: until a repair takes it away it stands, and no
      run that is not past its fence check when it appears is ever admitted. */
  lemma {:induction false} DeadFenceRefuses(t: Trace, i: nat, j: nat, holder: Run, r: Run)
    requires Behaviour(t) && i <= j < |t.states| && forall k :: i <= k < j ==> !Unfences(t, k)
    requires var s := t.states[i]; s.h.fence == Some(holder) && !Alive(s.h, holder) && Refused(L(s, r))
    ensures var u := t.states[j];
            !Alive(u.h, holder) && u.h.fence == Some(holder) && Refused(L(u, r)) && !HoldsLease(u, r)
    decreases j
  {
    hide Next, Inv, Unfences;
    if i < j {
      DeadFenceRefuses(t, i, j - 1, holder, r);
      var u, e := t.states[j - 1], t.events[j - 1];
      Reachable(t, j - 1);
      assert Happens(t, j - 1);
      DeadFenceStays(t, j - 1, holder);
      RefusedStep(u, e, r);
      DeadGrows(u, e);
    }
  }

  // ---------------------------------------------------------------- the bakery order

  /** Run i has left the election, or still holds that ticket and j, if it competes, has or
      will draw a later one. */
  predicate Precedes(s: State, i: Run, j: Run, ticket: nat) {
    var pc := L(s, i).pc;
    || (PhaseOf(pc) == Outside && pc != Enter(Idle))
    || (PhaseOf(pc) in {Waiting, Past} && L(s, i).v.ticket == ticket
        && (PhaseOf(L(s, j).pc) != Outside ==> Behind(i, L(s, i), j, L(s, j))))
  }

  lemma PrecedesStep(s: State, e: Event, i: Run, j: Run, ticket: nat)
    requires Inv(s) && Alive(s.h, i) && Alive(s.h, j) && i != j && Precedes(s, i, j, ticket)
    ensures Precedes(Next(s, e), i, j, ticket)
  {
    if e.Do? && Alive(s.h, e.r) {
      if e.r == i {
        LeaderStep(s, e.c, i, j, ticket);
      } else if e.r == j {
        FollowerStep(s, e.c, i, j, ticket);
      }
    }
  }

  lemma WaiterStep(h: Home, r: Run, l: Local, c: Choice)
    requires l.pc.Elect? && l.pc.ph.Wait?
    ensures var u := StepOf(h, r, l, c);
            u.l.v.ticket == l.v.ticket
            && (PhaseOf(u.l.pc) in {Waiting, Past} || (PhaseOf(u.l.pc) == Outside && u.l.pc != Enter(Idle)))
  {
    assert StepOf(h, r, l, c) == ElectStep(h, r, l, c, l.pc.ph, l.pc.l);
    hide StepOf, Kept;
  }

  lemma LeaderStep(s: State, c: Choice, i: Run, j: Run, ticket: nat)
    requires Inv(s) && Alive(s.h, i) && Alive(s.h, j) && i != j && Precedes(s, i, j, ticket)
    ensures Precedes(Next(s, Do(i, c)), i, j, ticket)
  {
    hide StepOf, Apart, Ordered, Held, At, Effect;
    if L(s, i).pc.Elect? {
      WaiterStep(s.h, i, L(s, i), c);
    }
  }

  lemma FollowerStep(s: State, c: Choice, i: Run, j: Run, ticket: nat)
    requires Inv(s) && Alive(s.h, i) && Alive(s.h, j) && i != j && Precedes(s, i, j, ticket)
    ensures Precedes(Next(s, Do(j, c)), i, j, ticket)
  {
    hide StepOf, Apart, Held, Effect;
    var li, lj := L(s, i), L(s, j);
    if PhaseOf(li.pc) in {Waiting, Past} && Electing(lj.pc) {
      if lj.pc.Elect? {
        ScanBehind(s.h, i, li, j, lj, c, StepOf(s.h, j, lj, c));
      } else {
        NumberBehind(s.h, i, li, j, lj, c);
      }
    }
  }

  /** A candidate whose ticket was published before another's slot appeared is ordered
      first, for as long as both live and compete. */
  lemma {:induction false} FirstTicketFirst(t: Trace, i: nat, j: nat, a: Run, b: Run)
    requires Behaviour(t) && i <= j < |t.states| && a != b
    requires var s := t.states[i]; PhaseOf(L(s, a).pc) in {Waiting, Past} && L(s, b).pc == Enter(Idle)
    requires Alive(t.states[j].h, a) && Alive(t.states[j].h, b)
    ensures Precedes(t.states[j], a, b, L(t.states[i], a).v.ticket)
    decreases j
  {
    hide Next, Inv;
    if i < j {
      Reachable(t, j - 1);
      assert Happens(t, j - 1);
      DeadGrows(t.states[j - 1], t.events[j - 1]);
      FirstTicketFirst(t, i, j - 1, a, b);
      PrecedesStep(t.states[j - 1], t.events[j - 1], a, b, L(t.states[i], a).v.ticket);
    }
  }

  // ---------------------------------------------------------------- repair

  /** At step i a repair removes the fence. */
  predicate Unfences(t: Trace, i: nat) {
    && i < |t.events| && i + 1 < |t.states| && t.events[i].Do?
    && (var s, r := t.states[i], t.events[i].r;
        Alive(s.h, r) && L(s, r).pc.Repair? && L(s, r).pc.p.UnfenceMove? && t.states[i + 1].h.fence != s.h.fence)
  }

  lemma UnfenceOnly(h: Home, r: Run, l: Local, c: Choice)
    requires l.pc.Repair? && l.pc.p.UnfenceMove?
    ensures var u := StepOf(h, r, l, c);
            u.h == h.(fence := u.h.fence) && u.l.v == l.v && u.h.fence in {h.fence, None}
  {
    assert StepOf(h, r, l, c) == UnfenceMoveStep(h, r, l, c, l.pc.t, l.pc.p);
    hide StepOf, Kept;
  }

  /** Exactly the stale fence that was inspected is gone, main is untouched by the removal, a living owner that has
      not released (there is at most one) is on main, and main is empty only if nothing was quarantined or the
      reconciled owner has withdrawn its record. */
  ghost predicate Cleared(s: State, pc: Pc, u: State)
    requires pc.Repair? && pc.p.UnfenceMove?
  {
    && s.h.fence == Some(pc.t.inst) && !Alive(s.h, pc.t.inst)
    && u.h.fence == None && u.h.main == s.h.main && u.h.f == s.h.f
    && (forall x :: Alive(u.h, x) && Held(u.h, x) ==> u.h.main == Some(x) || L(u, x).pc == Exit(Released))
    && (u.h.main == None ==>
          match pc.p.kept
          case None => forall x :: !Held(u.h, x)
          case Some(x) => !L(u, x).v.mine)
  }

  /** What a repair leaves when it takes the fence away. */
  lemma RepairOutcome(t: Trace, i: nat)
    requires Behaviour(t) && Unfences(t, i)
    ensures Cleared(t.states[i], L(t.states[i], t.events[i].r).pc, t.states[i + 1])
  {
    Reachable(t, i);
    assert Happens(t, i);
    UnfencedOutcome(t.states[i], t.events[i].r, t.events[i].c);
  }

  lemma UnfencedOutcome(s: State, r: Run, c: Choice)
    requires Inv(s) && Alive(s.h, r) && L(s, r).pc.Repair? && L(s, r).pc.p.UnfenceMove?
    requires Next(s, Do(r, c)).h.fence != s.h.fence
    ensures Cleared(s, L(s, r).pc, Next(s, Do(r, c)))
  {
    var t := Next(s, Do(r, c));
    hide StepOf, RecordEffect, Course;
    UnfenceOnly(s.h, r, L(s, r), c);
    assert forall x :: L(t, x).v == L(s, x).v;
    assert forall x :: L(s, x).v.mine <==> Held(s.h, x);
  }
}
