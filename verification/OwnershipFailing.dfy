/** What a call has seen when it takes the lease at its first try, and what a call that fails leaves of its record,
    among any other calls. */
module OwnershipFailing {
  import opened Options
  import opened OwnershipState
  import opened OwnershipFacts
  import opened OwnershipProtocol
  import opened OwnershipSafety
  import opened OwnershipTheorems
  import opened OwnershipReleasing

  /** Where a call can stand while its record is published: it goes on to confirm it, to withdraw it, or to return
      the lease. */
  predicate Answerable(l: Local) {
    l.v.mine ==>
      match l.pc
      case Enter(e) => e.RacedRecovery? || e.RacedFence?
      case Recovery(_) => true
      case Drain(w, _) => w.Holder?
      case Catch(x) => x.RestoreEarly? || x.EarlyUnlink? || x.CatchOwner? || l.v.lease
      case Remove(m) =>
        (match m
         case RmMain(_) => true
         case RmMainMove(_) => true
         case RmMainCheck(_, _) => false
         case RmFence(back) => back.Finishing? || l.v.lease
         case RmFenceMove(back) => back.Finishing? || l.v.lease
         case RmFenceCheck(back, _) => back.Finishing? || l.v.lease)
      case Exit(x) => x.Leased? || x.Released? || (!x.Failed? && l.v.lease)
      case _ => false
  }

  /** A step keeps that, unless it is a removal that throws. */
  ghost predicate Answers(h: Home, r: Run, l: Local, c: Choice, u: Out) {
    Answerable(l) && (l.v.mine ==> h.main == Some(r)) && (l.pc.Remove? ==> !c.fail) ==> Answerable(u.l)
  }

  lemma EnterAnswers(h: Home, r: Run, l: Local, c: Choice)
    requires l.pc.Enter?
    ensures Answers(h, r, l, c, EnterStep(h, r, l, c, l.pc.e))
  {
    hide Kept;
  }

  lemma GuardAnswers(h: Home, r: Run, l: Local, c: Choice)
    requires l.pc.Guard?
    ensures Answers(h, r, l, c, GuardStep(h, r, l, c, l.pc.k, l.pc.g))
  {
    hide Kept;
  }

  lemma RecoveryAnswers(h: Home, r: Run, l: Local, c: Choice)
    requires l.pc.Recovery?
    ensures Answers(h, r, l, c, RecoveryStep(h, r, l, c, l.pc.v))
  {
    hide Kept;
  }

  lemma DrainAnswers(h: Home, r: Run, l: Local, c: Choice)
    requires l.pc.Drain?
    ensures Answers(h, r, l, c, DrainStep(h, r, l, c, l.pc.w, l.pc.d))
  {
    hide Kept;
  }

  lemma CatchAnswers(h: Home, r: Run, l: Local, c: Choice)
    requires l.pc.Catch?
    ensures Answers(h, r, l, c, CatchStep(h, r, l, c, l.pc.h))
  {
    hide Kept;
  }

  lemma RemoveAnswers(h: Home, r: Run, l: Local, c: Choice)
    requires l.pc.Remove?
    ensures Answers(h, r, l, c, RemoveStep(h, r, l, c, l.pc.m))
  {
    hide Kept;
  }

  lemma ExitAnswers(h: Home, r: Run, l: Local, c: Choice)
    requires l.pc.Exit?
    ensures Answers(h, r, l, c, ExitStep(h, r, l, c, l.pc.x))
  {
    hide Kept;
  }

  lemma RepairAnswers(h: Home, r: Run, l: Local, c: Choice)
    requires l.pc.Elect? || l.pc.PublishTicket? || l.pc.Canon? || l.pc.Open? || l.pc.Repair? || l.pc.Release?
    ensures Answers(h, r, l, c, StepOf(h, r, l, c))
  {
    hide Kept;
  }

  lemma StepAnswers(h: Home, r: Run, l: Local, c: Choice)
    ensures Answers(h, r, l, c, StepOf(h, r, l, c))
  {
    hide Answers, Kept, EnterStep, GuardStep, RecoveryStep, DrainStep, CatchStep, RemoveStep, ExitStep, ElectStep,
        TicketStep, CanonStep, OpenStep, RepairStep, ReleaseStep;
    match l.pc
    case Enter(_) => EnterAnswers(h, r, l, c);
    case Guard(_, _) => GuardAnswers(h, r, l, c);
    case Recovery(_) => RecoveryAnswers(h, r, l, c);
    case Drain(_, _) => DrainAnswers(h, r, l, c);
    case Catch(_) => CatchAnswers(h, r, l, c);
    case Remove(_) => RemoveAnswers(h, r, l, c);
    case Exit(_) => ExitAnswers(h, r, l, c);
    case _ => RepairAnswers(h, r, l, c);
  }

  // ---------------------------------------------------------------- a call that fails

  /** None of the first j steps of r in which it removes a file throws. */
  predicate RemovesWell(t: Trace, j: nat, r: Run)
    requires |t.states| == |t.events| + 1 && j <= |t.events|
  {
    forall k :: 0 <= k < j && t.events[k].Do? && t.events[k].r == r && L(t.states[k], r).pc.Remove? ==>
      !t.events[k].c.fail
  }

  lemma MineOnMain(t: Trace, i: nat, r: Run)
    requires Behaviour(t) && i < |t.states| && Alive(t.states[i].h, r)
    requires L(t.states[i], r).v.mine && L(t.states[i], r).pc != Exit(Released)
    ensures t.states[i].h.main == Some(r)
  {
    HeldAsMine(t, i, r);
    var h := t.states[i].h;
    if h.main != Some(r) {
      var n :| n in h.f.quarantine && h.f.quarantine[n] == r;
      QuarantinedDeparted(t, i, n, r);
    }
  }

  lemma {:induction false} AnswerableAlong(t: Trace, j: nat, r: Run)
    requires Behaviour(t) && j <= |t.events| && RemovesWell(t, j, r)
    ensures Answerable(L(t.states[j], r))
    decreases j
  {
    if j > 0 {
      AnswerableAlong(t, j - 1, r);
      assert Happens(t, j - 1);
      var s, e := t.states[j - 1], t.events[j - 1];
      if e.Do? && e.r == r && Alive(s.h, r) {
        var l := L(s, r);
        if l.v.mine && l.pc != Exit(Released) {
          MineOnMain(t, j - 1, r);
        }
        StepAnswers(s.h, r, l, e.c);
        OverIsOver(s.h, r, l, e.c);
        hide Answerable, StepOf, Behaviour;
      }
    }
  }

  lemma OverIsOver(h: Home, r: Run, l: Local, c: Choice)
    ensures l.pc == Exit(Released) ==> StepOf(h, r, l, c) == Out(h, l)
  {
    hide Kept;
  }

  /** A call that fails, for whatever reason, leaves no record of its own anywhere, unless the removal itself
      throws: what it has published it withdraws. */
  lemma FailedWithdrawn(t: Trace, j: nat, r: Run)
    requires Behaviour(t) && j <= |t.events| && RemovesWell(t, j, r) && L(t.states[j], r).pc == Exit(Failed)
    ensures !Held(t.states[j].h, r)
  {
    AnswerableAlong(t, j, r);
    HeldAsMine(t, j, r);
    hide Behaviour, Held;
  }

  // ---------------------------------------------------------------- the first try

  /** At step i run r, its record on main, looks for a recovery guard; `seen` when there is one, or it cannot be
      read. */
  predicate LooksForGuard(t: Trace, i: nat, r: Run, seen: bool) {
    && i < |t.events| && i < |t.states| && t.events[i].Do? && t.events[i].r == r
    && L(t.states[i], r).pc == Enter(RacedRecovery) && t.states[i].h.main == Some(r)
    && (seen <==> t.states[i].h.recovery.Some? || t.events[i].c.fail)
  }

  lemma {:induction false} GuardLookedFor(t: Trace, j: nat, r: Run, seen: bool)
    requires Behaviour(t) && j <= |t.events| && L(t.states[j], r).pc == Enter(RacedFence(seen))
    ensures exists i: nat :: i < j && LooksForGuard(t, i, r, seen)
    decreases j
  {
    if j > 0 {
      assert Happens(t, j - 1);
      var s, e := t.states[j - 1], t.events[j - 1];
      if L(s, r).pc == Enter(RacedFence(seen)) {
        GuardLookedFor(t, j - 1, r, seen);
      } else {
        assert e.Do? && e.r == r && Alive(s.h, r);
        ToRacedFence(s.h, r, L(s, r), e.c, seen);
        OnMain(t, j - 1, r);
        assert LooksForGuard(t, j - 1, r, seen);
      }
    }
  }

  /** Its record is on main while it looks. */
  lemma OnMain(t: Trace, i: nat, r: Run)
    requires Behaviour(t) && i < |t.states| && Alive(t.states[i].h, r)
    requires var pc := L(t.states[i], r).pc; pc.Enter? && (pc.e.RacedRecovery? || pc.e.RacedFence?)
    ensures t.states[i].h.main == Some(r)
  {
    MineWhileLooking(t, i, r);
    MineOnMain(t, i, r);
  }

  lemma MineWhileLooking(t: Trace, i: nat, r: Run)
    requires Behaviour(t) && i < |t.states| && Alive(t.states[i].h, r)
    requires var pc := L(t.states[i], r).pc; pc.Enter? && (pc.e.RacedRecovery? || pc.e.RacedFence?)
    ensures L(t.states[i], r).v.mine
  {
    Reachable(t, i);
    hide Behaviour, Apart, Ordered;
  }

  /** Only that look leads to the next one. */
  lemma ToRacedFence(h: Home, r: Run, l: Local, c: Choice, seen: bool)
    requires StepOf(h, r, l, c).l.pc == Enter(RacedFence(seen)) && l.pc != Enter(RacedFence(seen))
    ensures l.pc == Enter(RacedRecovery) && (seen <==> h.recovery.Some? || c.fail)
  {
    hide Kept;
  }

  lemma RacedNext(h: Home, r: Run, l: Local, c: Choice)
    requires l.pc.Enter? && l.pc.e.RacedFence?
    ensures var u := StepOf(h, r, l, c);
            && u.h == h
            && u.l == if !l.pc.e.seen && h.fence == None && !c.fail
                      then Local(Exit(FinallyEntrant), l.v.(lease := true))
                      else Local(Remove(RmMain(Raced)), l.v)
  {
    hide Kept;
  }

  /** A call takes the lease at its first try if and only if, with its record on main, it has found no recovery
      guard and then no fence; otherwise it goes on to withdraw the record. */
  lemma FirstTry(t: Trace, i: nat, r: Run, seen: bool)
    requires Behaviour(t) && i < |t.events| && t.events[i].Do? && t.events[i].r == r && Alive(t.states[i].h, r)
    requires L(t.states[i], r).pc == Enter(RacedFence(seen))
    ensures t.states[i].h.main == Some(r) && exists k: nat :: k < i && LooksForGuard(t, k, r, seen)
    ensures var h, l, u := t.states[i].h, L(t.states[i], r), L(t.states[i + 1], r);
            if !seen && h.fence == None && !t.events[i].c.fail
            then u == Local(Exit(FinallyEntrant), l.v.(lease := true))
            else u == Local(Remove(RmMain(Raced)), l.v)
  {
    OnMain(t, i, r);
    GuardLookedFor(t, i, r, seen);
    assert Happens(t, i);
    hide Behaviour, StepOf;
    RacedNext(t.states[i].h, r, L(t.states[i], r), t.events[i].c);
  }
}
