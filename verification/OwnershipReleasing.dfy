/** Releasing a lease: the record of the owner goes, nothing else does, and the next call gets in. */
module OwnershipReleasing {
  import opened Options
  import opened OwnershipState
  import opened OwnershipFacts
  import opened OwnershipProtocol
  import opened OwnershipSafety
  import opened OwnershipTheorems
  import opened OwnershipAlone
  import opened OwnershipRecords
  import opened OwnershipScenarios
  import Acquiring = OwnershipAcquiring

  // ---------------------------------------------------------------- removing one's own record

  lemma AloneMore(h: Home, r: Run, l: Local, env: Env, k: nat, u: Out)
    requires StepOf(h, r, l, env(Out(h, l))) == u
    ensures Alone(h, r, l, env, k + 1) == Alone(u.h, r, u.l, env, k)
  {
    AloneStep(h, r, l, env, k);
    hide StepOf;
  }

  lemma {:induction false} AloneOn(h: Home, r: Run, l: Local, env: Env, k: nat, n: nat)
    ensures var u := Alone(h, r, l, env, k); Alone(h, r, l, env, k + n) == Alone(u.h, r, u.l, env, n)
    decreases k
  {
    hide StepOf;
    if k > 0 {
      var o := StepOf(h, r, l, env(Out(h, l)));
      AloneStep(h, r, l, env, k - 1);
      AloneStep(h, r, l, env, k - 1 + n);
      AloneOn(o.h, r, o.l, env, k - 1, n);
    }
  }

  /** What the removal of main leaves: the run's own record is gone, anybody else's is not. */
  function Withdrawn(h: Home, r: Run, ret: AfterMain): Home {
    Concluded(h.(main := if h.main == Some(r) then None else h.main), r, ret)
  }

  lemma FindsMain(h: Home, r: Run, v: Vars, ret: AfterMain, c: Choice)
    requires !c.fail && h.main == Some(r)
    ensures StepOf(h, r, Local(Remove(RmMain(ret)), v), c) == Out(h, Local(Remove(RmMainMove(ret)), v))
  {
    hide Kept;
  }

  lemma MovesMain(h: Home, r: Run, v: Vars, ret: AfterMain, c: Choice)
    requires !c.fail && h.main == Some(r)
    ensures StepOf(h, r, Local(Remove(RmMainMove(ret)), v), c)
            == Out(h.(main := None), Local(Remove(RmMainCheck(ret, r)), v.(mine := false)))
  {
    hide Kept;
  }

  lemma ErasesMain(h: Home, r: Run, v: Vars, ret: AfterMain, c: Choice)
    requires !c.fail && h.main == None
    ensures StepOf(h, r, Local(Remove(RmMainCheck(ret, r)), v), c)
            == Out(Concluded(h, r, ret), Local(AfterRmMain(ret), v))
  {
    hide Kept;
  }

  lemma Helped(env: Env, repair: bool, h: Home, l: Local)
    requires Helps(env, repair)
    ensures !env(Out(h, l)).fail && !env(Out(h, l)).doubt
  {
    assert Helpful(Out(h, l), env(Out(h, l)));
  }

  /** removeOwnedJson on main, for whatever reason, when nothing goes wrong. */
  lemma RemovesMain(h: Home, r: Run, v: Vars, ret: AfterMain, env: Env, repair: bool)
    requires Helps(env, repair) && h.main == Some(r)
    ensures Alone(h, r, Local(Remove(RmMain(ret)), v), env, 3)
            == Out(Withdrawn(h, r, ret), Local(AfterRmMain(ret), v.(mine := false)))
  {
    var l0, l1, l2 := Local(Remove(RmMain(ret)), v), Local(Remove(RmMainMove(ret)), v),
                      Local(Remove(RmMainCheck(ret, r)), v.(mine := false));
    var h2 := h.(main := None);
    Helped(env, repair, h, l0);
    Helped(env, repair, h, l1);
    Helped(env, repair, h2, l2);
    FindsMain(h, r, v, ret, env(Out(h, l0)));
    MovesMain(h, r, v, ret, env(Out(h, l1)));
    ErasesMain(h2, r, v.(mine := false), ret, env(Out(h2, l2)));
    hide StepOf, Helps;
    var u := Out(Withdrawn(h, r, ret), Local(AfterRmMain(ret), v.(mine := false)));
    AloneMore(h, r, l0, env, 2, Out(h, l1));
    AloneMore(h, r, l1, env, 1, Out(h2, l2));
    AloneMore(h2, r, l2, env, 0, u);
    AloneStep(u.h, r, u.l, env, 0);
  }

  /** A record of somebody else, or none, is left alone. */
  lemma RemovesNothing(h: Home, r: Run, v: Vars, ret: AfterMain, env: Env)
    requires h.main != Some(r)
    ensures Alone(h, r, Local(Remove(RmMain(ret)), v), env, 1)
            == Out(Withdrawn(h, r, ret), Local(AfterRmMain(ret), v))
  {
    hide Kept;
    AloneMore(h, r, Local(Remove(RmMain(ret)), v), env, 0, Out(Withdrawn(h, r, ret), Local(AfterRmMain(ret), v)));
  }

  lemma FindsFence(h: Home, r: Run, v: Vars, back: AfterFence, c: Choice)
    requires !c.fail && h.fence == Some(r)
    ensures StepOf(h, r, Local(Remove(RmFence(back)), v), c) == Out(h, Local(Remove(RmFenceMove(back)), v))
  {
    hide Kept;
  }

  lemma MovesFence(h: Home, r: Run, v: Vars, back: AfterFence, c: Choice)
    requires !c.fail && h.fence == Some(r)
    ensures StepOf(h, r, Local(Remove(RmFenceMove(back)), v), c)
            == Out(h.(fence := None), Local(Remove(RmFenceCheck(back, r)), v.(fenced := false)))
  {
    hide Kept;
  }

  lemma ErasesFence(h: Home, r: Run, v: Vars, back: AfterFence, c: Choice)
    requires !c.fail && h.fence == None
    ensures StepOf(h, r, Local(Remove(RmFenceCheck(back, r)), v), c) == Out(h, Local(AfterRmFence(back, true), v))
  {
    hide Kept;
  }

  /** removeOwnedJson on the fence. */
  lemma RemovesFence(h: Home, r: Run, v: Vars, back: AfterFence, env: Env, repair: bool)
    requires Helps(env, repair) && h.fence == Some(r)
    ensures Alone(h, r, Local(Remove(RmFence(back)), v), env, 3)
            == Out(h.(fence := None), Local(AfterRmFence(back, true), v.(fenced := false)))
  {
    var l0, l1, l2 := Local(Remove(RmFence(back)), v), Local(Remove(RmFenceMove(back)), v),
                      Local(Remove(RmFenceCheck(back, r)), v.(fenced := false));
    var h2 := h.(fence := None);
    Helped(env, repair, h, l0);
    Helped(env, repair, h, l1);
    Helped(env, repair, h2, l2);
    FindsFence(h, r, v, back, env(Out(h, l0)));
    MovesFence(h, r, v, back, env(Out(h, l1)));
    ErasesFence(h2, r, v.(fenced := false), back, env(Out(h2, l2)));
    hide StepOf, Helps;
    var u := Out(h2, Local(AfterRmFence(back, true), v.(fenced := false)));
    AloneMore(h, r, l0, env, 2, Out(h, l1));
    AloneMore(h, r, l1, env, 1, Out(h2, l2));
    AloneMore(h2, r, l2, env, 0, u);
    AloneStep(u.h, r, u.l, env, 0);
  }

  // ---------------------------------------------------------------- a release on its own

  /** A holder that releases its lease while nobody else moves takes its record off main, changes nothing else,
      and is through. */
  lemma LoneRelease(h: Home, r: Run, l: Local, env: Env, repair: bool)
    requires l.pc == Exit(Leased) && h.main == Some(r) && Helps(env, repair)
    ensures Alone(h, r, l, env, 4)
            == Out(h.(main := None, f := h.f.(released := h.f.released + {r})),
                   Local(Exit(Released), l.v.(mine := false)))
  {
    AloneMore(h, r, l, env, 3, Out(h, Local(Remove(RmMain(Releasing)), l.v)));
    RemovesMain(h, r, l.v, Releasing, env, repair);
  }

  /** So does any holder in any state of any execution. */
  lemma HolderReleases(t: Trace, i: nat, r: Run, env: Env, repair: bool)
    requires Behaviour(t) && i < |t.states| && HoldsLease(t.states[i], r) && Helps(env, repair)
    ensures var h, u := t.states[i].h, Alone(t.states[i].h, r, L(t.states[i], r), env, 4);
            && h.main == Some(r) && u.l.pc == Exit(Released)
            && u.h == h.(main := None, f := h.f.(released := h.f.released + {r}))
  {
    MutualExclusion(t, i, r, r);
    hide Alone, Behaviour, Helps, HoldsLease;
    LoneRelease(t.states[i].h, r, L(t.states[i], r), env, repair);
  }

  // ---------------------------------------------------------------- a release among others

  /** At step i the release of r comes to its end. */
  predicate ReleaseEnds(t: Trace, i: nat, r: Run) {
    && i < |t.events| && i + 1 < |t.states| && t.events[i].Do? && t.events[i].r == r
    && L(t.states[i], r).pc != Exit(Released) && L(t.states[i + 1], r).pc == Exit(Released)
  }

  /** The record is still there before the step, and the step cannot take it away or, once it is renamed aside,
      erase it. */
  predicate CannotWithdraw(h: Home, r: Run, l: Local, c: Choice) {
    && c.fail && l.pc.Remove?
    && (match l.pc.m
        case RmMainCheck(_, y) => y == r && h.main == None
        case _ => h.main == Some(r))
  }

  ghost predicate EndsRelease(h: Home, r: Run, l: Local, c: Choice, u: Out) {
    l.pc != Exit(Released) && u.l.pc == Exit(Released) ==>
      && u.h == h.(main := u.h.main, f := h.f.(released := h.f.released + {r}))
      && (u.h.main == Some(r) <==> CannotWithdraw(h, r, l, c))
      && (u.h.main == h.main || u.h.main == Some(r))
  }

  lemma EndOfRelease(h: Home, r: Run, l: Local, c: Choice, u: Out)
    requires Sound(h, r, l) && l.pc.Remove? && u == RemoveStep(h, r, l, c, l.pc.m)
    ensures EndsRelease(h, r, l, c, u)
  {
    hide Ground;
    match l.pc.m {
      case RmFence(_) | RmFenceMove(_) | RmFenceCheck(_, _) =>
      case _ =>
    }
  }

  lemma OnlyRemovalReleases(h: Home, r: Run, l: Local, c: Choice)
    requires l.pc != Exit(Released) && !l.pc.Remove?
    ensures StepOf(h, r, l, c).l.pc != Exit(Released)
  {
    hide Kept;
  }

  /** A release that ends leaves the record on main exactly when the removal itself throws, and touches nothing
      else. */
  lemma ReleaseOutcome(t: Trace, i: nat, r: Run)
    requires Behaviour(t) && ReleaseEnds(t, i, r)
    ensures var s, u := t.states[i], t.states[i + 1];
            && u.h == s.h.(main := u.h.main, f := s.h.f.(released := s.h.f.released + {r}))
            && (u.h.main == Some(r) <==> CannotWithdraw(s.h, r, L(s, r), t.events[i].c))
            && (u.h.main == s.h.main || u.h.main == Some(r))
  {
    Reachable(t, i);
    assert Happens(t, i);
    var s, e := t.states[i], t.events[i];
    var l := L(s, r);
    assert l.pc.Remove? ==> StepOf(s.h, r, l, e.c) == RemoveStep(s.h, r, l, e.c, l.pc.m);
    hide StepOf, At, RecordEffect, Course, Behaviour;
    if L(s, r).pc.Remove? {
      EndOfRelease(s.h, r, L(s, r), e.c, StepOf(s.h, r, L(s, r), e.c));
    } else {
      OnlyRemovalReleases(s.h, r, L(s, r), e.c);
    }
  }

  lemma NotHeldWhenReleased(t: Trace, i: nat, r: Run)
    requires Behaviour(t) && ReleaseEnds(t, i, r) && !CannotWithdraw(t.states[i].h, r, L(t.states[i], r), t.events[i].c)
    ensures !Held(t.states[i + 1].h, r)
  {
    Reachable(t, i);
    assert Happens(t, i);
    hide StepOf;
    var s := t.states[i];
    assert Alive(s.h, r);
    ReleaseOutcome(t, i, r);
    hide At, Apart, Ordered, Behaviour, ReleaseEnds;
    assert forall n :: n in s.h.f.quarantine ==> s.h.f.quarantine[n] != r;
  }

  lemma ReleasedStays(t: Trace, i: nat, r: Run)
    requires Behaviour(t) && i < |t.events| && L(t.states[i], r).pc == Exit(Released)
    ensures L(t.states[i + 1], r) == L(t.states[i], r)
  {
    assert Happens(t, i);
    hide Behaviour, Kept;
  }

  /** When none of its steps throws, a release takes the record off main, and it never comes back: nobody has it
      in quarantine either. */
  lemma {:induction false} ReleasedForGood(t: Trace, i: nat, j: nat, r: Run)
    requires Behaviour(t) && i <= j < |t.states|
    requires L(t.states[i], r).pc != Exit(Released) && L(t.states[j], r).pc == Exit(Released)
    requires forall k :: i <= k < j && t.events[k].Do? && t.events[k].r == r ==> !t.events[k].c.fail
    ensures !Held(t.states[j].h, r)
    decreases j
  {
    hide Next, Inv, Held;
    assert Happens(t, j - 1);
    if L(t.states[j - 1], r).pc == Exit(Released) {
      ReleasedForGood(t, i, j - 1, r);
      ReleasedStays(t, j - 1, r);
      HeldAsMine(t, j - 1, r);
      HeldAsMine(t, j, r);
    } else {
      OnlyOwnSteps(t, j - 1, r);
      NotHeldWhenReleased(t, j - 1, r);
    }
  }

  lemma HeldAsMine(t: Trace, i: nat, r: Run)
    requires Behaviour(t) && i < |t.states|
    ensures L(t.states[i], r).v.mine <==> Held(t.states[i].h, r)
  {
    Reachable(t, i);
    hide Sound, Apart, Ordered, Held;
  }

  lemma OnlyOwnSteps(t: Trace, i: nat, r: Run)
    requires Behaviour(t) && i < |t.events| && L(t.states[i + 1], r).pc != L(t.states[i], r).pc
    ensures t.events[i].Do? && t.events[i].r == r
  {
    assert Happens(t, i);
    hide Behaviour, StepOf;
  }

  // ---------------------------------------------------------------- the next call

  /** Before the release the next call, alone, is turned away; after it the call gets the lease, although the
      process that released is alive. */
  lemma ReleaseAdmits(h: Home, r: Run, l: Local, release: Env, repair: bool, a: Run, acquire: Env)
    requires l.pc == Exit(Leased) && h.main == Some(r) && Alive(h, r) && Helps(release, repair)
    requires Deserted(h, a) && a != r && h.fence == None && Acquiring.NotAlive(h, h.recovery) && Helps(acquire, false)
    ensures exists k :: TurnedAway(h, Alone(h, a, FRESH, acquire, k))
    ensures var u := Alone(h, r, l, release, 4);
            && u.l.pc == Exit(Released) && Alive(u.h, r)
            && exists k :: Admitted(u.h, a, Alone(u.h, a, FRESH, acquire, k))
  {
    LoneRelease(h, r, l, release, repair);
    var u := Alone(h, r, l, release, 4);
    assert !Acquiring.Admissible(h) && Acquiring.Admissible(u.h) && Deserted(u.h, a);
    hide Alone, Helps, Deserted, Acquiring.Admissible, Admitted, TurnedAway;
    LoneAcquirer(h, a, acquire);
    LoneAcquirer(u.h, a, acquire);
  }

  /** An execution goes on: a call gets the lease and releases it, the next one gets the lease, and both processes
      are alive. */
  lemma HandOver(t: Trace, r: Run, a: Run) returns (u: Trace)
    requires Behaviour(t) && OthersDead(Last(t), r) && OthersDead(Last(t), a) && r != a && Last(t).h.fence == None
    ensures u.states != [] && Behaviour(u)
    ensures L(Last(u), r).pc == Exit(Released) && Alive(Last(u).h, r) && HoldsLease(Last(u), a)
    ensures Last(u).h.main == Some(a) && Last(u).h.fence == None && Last(u).h.recovery == None
    ensures var q := Last(t).h.f.quarantine;
            Last(u).h.f.quarantine == match Last(t).h.main case None => q case Some(x) => q[r := x]
  {
    assert t.states != [];
    hide Alone, StepOf, Inv, Next, Helpful, Behaviour, Last;
    var env := o => Help(o, false);
    var h := Last(t).h;
    LastState(t);
    AllDeserted(t, |t.events|, r);
    AllDeserted(t, |t.events|, a);
    AcquireAfterCrash(t, |t.events|, r, env);
    var k: nat :| Admitted(h, r, Alone(h, r, FRESH, env, k));
    u := AloneHappens(t, r, env, k);
    var h1, held := Last(u).h, L(Last(u), r);
    LoneRelease(h1, r, held, env, false);
    u := AloneHappens(u, r, env, 4);
    var h2 := Last(u).h;
    NextDeserted(h, r, Out(h1, held), h2, a);
    LoneAcquirer(h2, a, env);
    var n: nat :| Admitted(h2, a, Alone(h2, a, FRESH, env, n));
    u := AloneHappens(u, a, env, n);
  }

  lemma LastState(t: Trace)
    requires Behaviour(t)
    ensures t.states != [] && Last(t) == t.states[|t.events|]
  {
  }

  lemma NextDeserted(h: Home, r: Run, u: Out, h2: Home, a: Run)
    requires Deserted(h, r) && Deserted(h, a) && a != r && Acquiring.Admissible(h) && Admitted(h, r, u)
    requires h2 == u.h.(main := None, f := u.h.f.(released := u.h.f.released + {r}))
    ensures Deserted(h2, a) && Acquiring.Admissible(h2)
  {
  }
}
