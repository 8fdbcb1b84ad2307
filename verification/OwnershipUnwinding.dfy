/** A recovery that fails and is let finish takes back whatever it has done, but for a fence under which main is in
    doubt. */
module OwnershipUnwinding {
  import opened Options
  import opened OwnershipState
  import opened OwnershipFacts
  import opened OwnershipProtocol
  import opened OwnershipSafety
  import opened OwnershipAlone
  import opened OwnershipReleasing
  import Acquiring = OwnershipAcquiring

  /** Run r, alone, gets from o to u. */
  ghost predicate Comes(o: Out, r: Run, env: Env, u: Out) {
    exists k :: Alone(o.h, r, o.l, env, k) == u
  }

  lemma ComesOn(o: Out, r: Run, env: Env, m: Out, u: Out)
    requires Comes(o, r, env, m) && Comes(m, r, env, u)
    ensures Comes(o, r, env, u)
  {
    hide Alone;
    var k: nat :| Alone(o.h, r, o.l, env, k) == m;
    var n: nat :| Alone(m.h, r, m.l, env, n) == u;
    AloneOn(o.h, r, o.l, env, k, n);
    assert Alone(o.h, r, o.l, env, k + n) == u;
  }

  lemma ComesNext(o: Out, r: Run, env: Env, m: Out)
    requires StepOf(o.h, r, o.l, env(o)) == m
    ensures Comes(o, r, env, m)
  {
    AloneMore(o.h, r, o.l, env, 0, m);
    AloneStep(m.h, r, m.l, env, 0);
    hide StepOf;
    assert Alone(o.h, r, o.l, env, 0 + 1) == m;
  }

  function CatchAs(x: CatchPc, v: Vars): Local { Local(Catch(x), v) }

  /** Its own record, if it has published it, is taken off main. */
  lemma TakesOwnBack(h: Home, r: Run, v: Vars, env: Env)
    requires Helps(env, false) && (v.mine <==> h.main == Some(r))
    ensures Comes(Out(h, CatchAs(CatchOwner, v)), r, env,
                  Out(h.(main := if v.mine then None else h.main), CatchAs(RestoreLink, v.(mine := false))))
  {
    var o := Out(h, CatchAs(CatchOwner, v));
    FromCatchOwner(h, r, v, env(o));
    ComesNext(o, r, env, StepOf(h, r, o.l, env(o)));
    hide StepOf, Alone, Helps;
    if v.mine {
      RemovesMain(h, r, v, Failing, env, false);
      var m := Out(h, Local(Remove(RmMain(Failing)), v));
      var u := Out(h.(main := None), CatchAs(RestoreLink, v.(mine := false)));
      assert Alone(m.h, r, m.l, env, 3) == u;
      ComesOn(o, r, env, m, u);
    }
  }

  lemma FromCatchOwner(h: Home, r: Run, v: Vars, c: Choice)
    ensures StepOf(h, r, CatchAs(CatchOwner, v), c)
            == Out(h, if v.mine then Local(Remove(RmMain(Failing)), v) else CatchAs(RestoreLink, v))
  {
    hide Kept;
  }

  /** The record it has set aside, if it still is in quarantine. */
  function Aside(h: Home, r: Run, v: Vars): Option<Run> {
    if v.moved.Some? && r in h.f.quarantine then Some(h.f.quarantine[r]) else None
  }

  /** It is back on main, if main is free for it. */
  function Restored(h: Home, r: Run, v: Vars): Home {
    if Aside(h, r, v).Some? && h.main == None
    then h.(main := Aside(h, r, v), f := h.f.(quarantine := h.f.quarantine - {r})) else h
  }

  /** Main is in order: nothing was set aside, and it was found so before, or what was set aside is back and is the
      record that was judged. */
  function InOrder(h: Home, r: Run, v: Vars): bool {
    if Aside(h, r, v).Some? then h.main == None && Aside(h, r, v) == v.moved else v.safe
  }

  lemma PutsBack(h: Home, r: Run, v: Vars, env: Env)
    requires Helps(env, false)
    ensures Comes(Out(h, CatchAs(RestoreLink, v)), r, env,
                  Out(Restored(h, r, v), CatchAs(CatchUnfence, v.(safe := InOrder(h, r, v)))))
  {
    var o := Out(h, CatchAs(RestoreLink, v));
    Helped(env, false, h, o.l);
    if Aside(h, r, v).Some? && h.main == None {
      var linked := h.(main := Aside(h, r, v));
      var back := Restored(h, r, v);
      var m1, m2 := Out(linked, CatchAs(RestoreUnlink, v)), Out(back, CatchAs(RestoreVerify, v));
      var u := Out(back, CatchAs(CatchUnfence, v.(safe := InOrder(h, r, v))));
      Helped(env, false, linked, m1.l);
      LinksBack(h, r, v, env(o));
      Unlinks(linked, r, v, env(m1));
      Verifies(back, r, v, env(m2));
      hide StepOf, Helps;
      ComesNext(o, r, env, m1);
      ComesNext(m1, r, env, m2);
      ComesNext(m2, r, env, u);
      ComesOn(m1, r, env, m2, u);
      ComesOn(o, r, env, m1, u);
    } else {
      NothingBack(h, r, v, env(o));
      hide StepOf, Helps;
      ComesNext(o, r, env, Out(h, CatchAs(CatchUnfence, v.(safe := InOrder(h, r, v)))));
    }
  }

  lemma LinksBack(h: Home, r: Run, v: Vars, c: Choice)
    requires !c.fail && Aside(h, r, v).Some? && h.main == None
    ensures StepOf(h, r, CatchAs(RestoreLink, v), c) == Out(h.(main := Aside(h, r, v)), CatchAs(RestoreUnlink, v))
  {
    hide Kept;
  }

  lemma Unlinks(h: Home, r: Run, v: Vars, c: Choice)
    requires !c.fail
    ensures StepOf(h, r, CatchAs(RestoreUnlink, v), c)
            == Out(h.(f := h.f.(quarantine := h.f.quarantine - {r})), CatchAs(RestoreVerify, v))
  {
    hide Kept;
  }

  lemma Verifies(h: Home, r: Run, v: Vars, c: Choice)
    requires v.moved.Some?
    ensures StepOf(h, r, CatchAs(RestoreVerify, v), c) == Out(h, CatchAs(CatchUnfence, v.(safe := h.main == v.moved)))
  {
    hide Kept;
  }

  lemma NothingBack(h: Home, r: Run, v: Vars, c: Choice)
    requires Aside(h, r, v) == None || h.main.Some?
    ensures StepOf(h, r, CatchAs(RestoreLink, v), c) == Out(h, CatchAs(CatchUnfence, v.(safe := InOrder(h, r, v))))
  {
    hide Kept;
  }

  /** The fence goes if main is not in doubt. */
  function Unfenced(h: Home, v: Vars): Home {
    if v.fenced && v.safe then h.(fence := None) else h
  }

  lemma GivesUpFence(h: Home, r: Run, v: Vars, env: Env)
    requires Helps(env, false) && (v.fenced <==> h.fence == Some(r))
    ensures Comes(Out(h, CatchAs(CatchUnfence, v)), r, env,
                  Out(Unfenced(h, v), CatchAs(FinallyGuard, v.(fenced := v.fenced && !v.safe))))
  {
    var o := Out(h, CatchAs(CatchUnfence, v));
    FromUnfence(h, r, v, env(o));
    ComesNext(o, r, env, StepOf(h, r, o.l, env(o)));
    hide StepOf, Alone, Helps;
    if v.fenced && v.safe {
      RemovesFence(h, r, v, CatchFence, env, false);
      var m := Out(h, Local(Remove(RmFence(CatchFence)), v));
      var u := Out(h.(fence := None), CatchAs(FinallyGuard, v.(fenced := false)));
      assert Alone(m.h, r, m.l, env, 3) == u;
      ComesOn(o, r, env, m, u);
    }
  }

  lemma FromUnfence(h: Home, r: Run, v: Vars, c: Choice)
    ensures StepOf(h, r, CatchAs(CatchUnfence, v), c)
            == Out(h, if v.fenced && v.safe then Local(Remove(RmFence(CatchFence)), v) else CatchAs(FinallyGuard, v))
  {
    hide Kept;
  }

  function Unguarded(h: Home, r: Run): Home {
    if h.recovery == Some(r) then h.(recovery := None) else h
  }

  /** Its guard goes. */
  lemma GivesUpGuard(h: Home, r: Run, v: Vars, env: Env)
    requires Helps(env, false) && !(v.fenced && v.safe)
    ensures Comes(Out(h, CatchAs(FinallyGuard, v)), r, env, Out(Unguarded(h, r), Local(Exit(FinallyEntrant), v)))
  {
    var o := Out(h, CatchAs(FinallyGuard, v));
    var free := Unguarded(h, r);
    var m3, u := Out(free, CatchAs(FinallyUnfence, v)), Out(free, Local(Exit(FinallyEntrant), v));
    Helped(env, false, h, o.l);
    FromFinallyGuard(h, r, v, env(o));
    FromFinally(free, r, v, env(m3));
    ComesNext(m3, r, env, u);
    if h.recovery != Some(r) {
      hide StepOf, Helps;
      ComesNext(o, r, env, m3);
    } else {
      var m1, m2 := Out(h, CatchAs(FinallyGuardMove, v)), Out(free, CatchAs(FinallyGuardCheck(r), v));
      Helped(env, false, h, m1.l);
      Helped(env, false, free, m2.l);
      MovesGuard(h, r, v, env(m1));
      ErasesGuard(free, r, v, env(m2));
      hide StepOf, Helps;
      ComesNext(o, r, env, m1);
      ComesNext(m1, r, env, m2);
      ComesNext(m2, r, env, m3);
      ComesOn(m1, r, env, m2, m3);
      ComesOn(o, r, env, m1, m3);
    }
    ComesOn(o, r, env, m3, u);
  }

  lemma FromFinallyGuard(h: Home, r: Run, v: Vars, c: Choice)
    requires !c.doubt
    ensures StepOf(h, r, CatchAs(FinallyGuard, v), c)
            == Out(h, CatchAs(if h.recovery == Some(r) then FinallyGuardMove else FinallyUnfence, v))
  {
    hide Kept;
  }

  lemma MovesGuard(h: Home, r: Run, v: Vars, c: Choice)
    requires !c.fail && h.recovery == Some(r)
    ensures StepOf(h, r, CatchAs(FinallyGuardMove, v), c)
            == Out(h.(recovery := None), CatchAs(FinallyGuardCheck(r), v))
  {
    hide Kept;
  }

  lemma ErasesGuard(h: Home, r: Run, v: Vars, c: Choice)
    requires !c.fail && h.recovery == None
    ensures StepOf(h, r, CatchAs(FinallyGuardCheck(r), v), c) == Out(h, CatchAs(FinallyUnfence, v))
  {
    hide Kept;
  }

  lemma FromFinally(h: Home, r: Run, v: Vars, c: Choice)
    requires !(v.fenced && v.safe)
    ensures StepOf(h, r, CatchAs(FinallyUnfence, v), c) == Out(h, Local(Exit(FinallyEntrant), v))
  {
    hide Kept;
  }

  /** The entrant goes, and with it the call. */
  lemma GivesUpEntrant(h: Home, r: Run, v: Vars, env: Env)
    requires Helps(env, false) && Own(r) in h.f.entrants
    ensures Comes(Out(h, Local(Exit(FinallyEntrant), v)), r, env,
                  Out(h.(f := h.f.(entrants := h.f.entrants - {Own(r)})),
                      Local(Exit(if v.lease then Leased else Failed), v)))
  {
    var o := Out(h, Local(Exit(FinallyEntrant), v));
    assert Helpful(o, env(o));
    var n := env(o).n;
    var aside := h.(f := h.f.(entrants := (h.f.entrants - {Own(r)})[Alias(r, n) := r]));
    var m := Out(aside, Local(Exit(EraseEntrant(n)), v));
    Helped(env, false, aside, m.l);
    Withdraws(h, r, v, env(o));
    Erases(aside, r, v, env(m), n);
    hide StepOf, Helps;
    assert aside.f.entrants - {Alias(r, n)} == h.f.entrants - {Own(r)};
    var u := Out(h.(f := h.f.(entrants := h.f.entrants - {Own(r)})),
                 Local(Exit(if v.lease then Leased else Failed), v));
    ComesNext(o, r, env, m);
    ComesNext(m, r, env, u);
    ComesOn(o, r, env, m, u);
  }

  lemma Withdraws(h: Home, r: Run, v: Vars, c: Choice)
    requires !c.fail && Own(r) in h.f.entrants && Alias(r, c.n) !in h.f.entrants
    ensures StepOf(h, r, Local(Exit(FinallyEntrant), v), c)
            == Out(h.(f := h.f.(entrants := (h.f.entrants - {Own(r)})[Alias(r, c.n) := r])),
                   Local(Exit(EraseEntrant(c.n)), v))
  {
    hide Kept;
  }

  lemma Erases(h: Home, r: Run, v: Vars, c: Choice, n: nat)
    requires !c.fail
    ensures StepOf(h, r, Local(Exit(EraseEntrant(n)), v), c)
            == Out(h.(f := h.f.(entrants := h.f.entrants - {Alias(r, n)})),
                   Local(Exit(if v.lease then Leased else Failed), v))
  {
    hide Kept;
  }

  // ---------------------------------------------------------------- the whole catch block

  /** A recovery has thrown; its variables are true to the files. */
  predicate Caught(h: Home, r: Run, l: Local) {
    && l.pc == Catch(CatchOwner) && !l.v.lease && Own(r) in h.f.entrants
    && (l.v.mine <==> h.main == Some(r)) && (l.v.fenced <==> h.fence == Some(r))
  }

  /** What is left: no record of its own, the record it set aside back on main if main is free, no guard, no
      entrant, and its fence only if it stood and main is in doubt. */
  predicate Undone(h: Home, r: Run, l: Local, u: Out) {
    var own := if h.main == Some(r) then None else h.main;
    var aside := if l.v.moved.Some? && r in h.f.quarantine then Some(h.f.quarantine[r]) else None;
    var back := aside.Some? && own == None;
    var inOrder := if aside.Some? then back && aside == l.v.moved else l.v.safe;
    && u.l.pc == Exit(Failed)
    && u.h.main == (if back then aside else own)
    && u.h.f.quarantine == (if back then h.f.quarantine - {r} else h.f.quarantine)
    && u.h.fence == (if h.fence == Some(r) && inOrder then None else h.fence)
    && u.h.recovery == (if h.recovery == Some(r) then None else h.recovery)
    && u.h == h.(main := u.h.main, fence := u.h.fence, recovery := u.h.recovery,
                 f := h.f.(quarantine := u.h.f.quarantine, entrants := h.f.entrants - {Own(r)}))
  }

  /** A recovery that has thrown, and that nothing disturbs any more, undoes what it has done. */
  lemma Unwinds(h: Home, r: Run, l: Local, env: Env)
    requires Caught(h, r, l) && Helps(env, false)
    ensures exists k :: Undone(h, r, l, Alone(h, r, l, env, k))
  {
    hide Alone, Helps, Comes, StepOf;
    var o := Out(h, l);
    var h1 := h.(main := if l.v.mine then None else h.main);
    var v1 := l.v.(mine := false);
    TakesOwnBack(h, r, l.v, env);
    PutsBack(h1, r, v1, env);
    var h2, v2 := Restored(h1, r, v1), v1.(safe := InOrder(h1, r, v1));
    GivesUpFence(h2, r, v2, env);
    var h3, v3 := Unfenced(h2, v2), v2.(fenced := v2.fenced && !v2.safe);
    GivesUpGuard(h3, r, v3, env);
    var h4 := Unguarded(h3, r);
    GivesUpEntrant(h4, r, v3, env);
    var u := Out(h4.(f := h4.f.(entrants := h4.f.entrants - {Own(r)})), Local(Exit(Failed), v3));
    ComesOn(o, r, env, Out(h1, CatchAs(RestoreLink, v1)), Out(h2, CatchAs(CatchUnfence, v2)));
    ComesOn(o, r, env, Out(h2, CatchAs(CatchUnfence, v2)), Out(h3, CatchAs(FinallyGuard, v3)));
    ComesOn(o, r, env, Out(h3, CatchAs(FinallyGuard, v3)), Out(h4, Local(Exit(FinallyEntrant), v3)));
    ComesOn(o, r, env, Out(h4, Local(Exit(FinallyEntrant), v3)), u);
    Reaches(h, r, l, env, u);
  }

  lemma Reaches(h: Home, r: Run, l: Local, env: Env, u: Out)
    requires Comes(Out(h, l), r, env, u) && Undone(h, r, l, u)
    ensures exists k :: Undone(h, r, l, Alone(h, r, l, env, k))
  {
    hide Alone, Undone;
    var k: nat :| Alone(h, r, l, env, k) == u;
    assert Undone(h, r, l, Alone(h, r, l, env, k));
  }

  /** So does any recovery that throws in any state of any execution. */
  lemma FailedRecoveryUnwinds(t: Trace, i: nat, r: Run, env: Env)
    requires Behaviour(t) && i < |t.states| && Helps(env, false)
    requires Alive(t.states[i].h, r) && L(t.states[i], r).pc == Catch(CatchOwner)
    ensures var h, l := t.states[i].h, L(t.states[i], r);
            && (l.v.fenced <==> h.fence == Some(r))
            && exists k :: Undone(h, r, l, Alone(h, r, l, env, k))
  {
    Reachable(t, i);
    var h, l := t.states[i].h, L(t.states[i], r);
    assert Sound(h, r, l);
    hide Alone, Helps, Undone, Ground, Behaviour;
    Unwinds(h, r, l, env);
  }

  // ---------------------------------------------------------------- a recovery that throws

  /** The call has its fence up and has not yet dealt with main. */
  predicate InDoubt(pc: Pc) {
    match pc
    case Recovery(HoldGuard(st)) => st.ToDrain? || st.ToInspect? || st.ToMove?
    case Recovery(HoldFence(st)) => st.ToDrain? || st.ToInspect? || st.ToMove?
    case Recovery(MoveMain(_)) => true
    case Drain(_, _) => true
    case _ => false
  }

  /** Main is as it was, or what stood there is set aside under the call's own name. */
  predicate Touched(h0: Home, h: Home, r: Run, l: Local, doubt: bool) {
    if l.v.moved == None then
      h.main == h0.main && h.f.quarantine == h0.f.quarantine && !l.v.mine && (l.v.fenced ==> (l.v.safe <==> !doubt))
    else
      && !doubt && h0.main.Some? && h0.main.value != r && l.v.moved == h0.main
      && h.f.quarantine == h0.f.quarantine[r := h0.main.value] && h.main in {None, Some(r)}
  }

  /** A lone recovery has just thrown. */
  predicate Threw(h0: Home, h: Home, r: Run, l: Local, doubt: bool) {
    && l.pc.Catch? && !l.v.lease && Own(r) in h.f.entrants && h.recovery == Some(r) && (doubt ==> l.v.fenced)
    && h.fence == (if l.v.fenced then Some(r) else None) && (l.v.mine <==> h.main == Some(r))
    && Touched(h0, h, r, l, doubt)
    && (l.pc == Catch(CatchOwner) || (l.pc == Catch(RestoreEarly) && l.v.moved.Some? && h.main == None))
  }

  /** From where a lone recovery should be, a step that throws leads there, and changes nothing but the fence. */
  ghost predicate Throws(h0: Home, h: Home, r: Run, l: Local, u: Out) {
    Acquiring.AcquireLone(h0, h, r, l) && u.l.pc.Catch? && !u.l.v.lease ==>
      Threw(h0, u.h, r, u.l, InDoubt(l.pc)) && u.h == h.(fence := u.h.fence)
  }

  lemma LinkFenceThrows(h0: Home, h: Home, r: Run, l: Local, c: Choice, u: Out)
    requires l.pc.Recovery? && (l.pc.v.AssertGuard? || l.pc.v.LinkFence?) && u == LinkFenceStep(h, r, l, c, l.pc.v)
    ensures Throws(h0, h, r, l, u)
  {
    hide Kept;
  }

  lemma HoldGuardThrows(h0: Home, h: Home, r: Run, l: Local, c: Choice, u: Out)
    requires l.pc.Recovery? && l.pc.v.HoldGuard? && u == HoldGuardStep(h, r, l, c, l.pc.v)
    ensures Throws(h0, h, r, l, u)
  {
    hide Kept;
  }

  lemma HoldFenceThrows(h0: Home, h: Home, r: Run, l: Local, c: Choice, u: Out)
    requires l.pc.Recovery? && l.pc.v.HoldFence? && u == HoldFenceStep(h, r, l, c, l.pc.v)
    ensures Throws(h0, h, r, l, u)
  {
    hide Kept;
  }

  lemma InspectThrows(h0: Home, h: Home, r: Run, l: Local, c: Choice, u: Out)
    requires l.pc.Recovery? && (l.pc.v.Inspect? || l.pc.v.JudgeInspect?) && u == InspectStep(h, r, l, c, l.pc.v)
    ensures Throws(h0, h, r, l, u)
  {
    hide Kept;
  }

  lemma MoveMainThrows(h0: Home, h: Home, r: Run, l: Local, c: Choice, u: Out)
    requires l.pc.Recovery? && l.pc.v.MoveMain? && u == MoveAsideStep(h, r, l, c, l.pc.v)
    ensures Throws(h0, h, r, l, u)
  {
    hide Kept;
  }

  lemma CheckMovedThrows(h0: Home, h: Home, r: Run, l: Local, c: Choice, u: Out)
    requires l.pc.Recovery? && l.pc.v.CheckMoved? && u == MovedStep(h, r, l, c, l.pc.v)
    ensures Throws(h0, h, r, l, u)
  {
    hide Kept;
  }

  lemma RepublishThrows(h0: Home, h: Home, r: Run, l: Local, c: Choice, u: Out)
    requires l.pc.Recovery? && (l.pc.v.Republish? || l.pc.v.Confirm?) && u == RepublishStep(h, r, l, c, l.pc.v)
    ensures Throws(h0, h, r, l, u)
  {
    hide Kept;
  }

  lemma ConfirmThrows(h0: Home, h: Home, r: Run, l: Local, c: Choice, u: Out)
    requires l.pc.Recovery? && (l.pc.v.ConfirmAgain? || l.pc.v.ConfirmGuard?) && u == ConfirmStep(h, r, l, c, l.pc.v)
    ensures Throws(h0, h, r, l, u)
  {
    hide Kept;
  }

  lemma DrainThrows(h0: Home, h: Home, r: Run, l: Local, c: Choice, u: Out)
    requires l.pc.Drain? && u == DrainStep(h, r, l, c, l.pc.w, l.pc.d)
    ensures Throws(h0, h, r, l, u)
  {
    hide Kept;
  }

  lemma UnfencingThrows(h0: Home, h: Home, r: Run, l: Local, c: Choice, u: Out)
    requires l.pc.Remove? && u == RemoveStep(h, r, l, c, l.pc.m)
    ensures Throws(h0, h, r, l, u)
  {
    hide Kept;
  }

  /** The part of a call in which it recovers. */
  predicate Recovering(pc: Pc) {
    pc.Recovery? || pc.Drain? || (pc.Remove? && !Releases(pc.m))
  }

  lemma RecoveryThrows(h0: Home, h: Home, r: Run, l: Local, c: Choice, u: Out)
    requires l.pc.Recovery? && u == RecoveryStep(h, r, l, c, l.pc.v)
    ensures Throws(h0, h, r, l, u)
  {
    hide Kept, Throws;
    match l.pc.v
    case AssertGuard | LinkFence => LinkFenceThrows(h0, h, r, l, c, u);
    case HoldGuard(_) => HoldGuardThrows(h0, h, r, l, c, u);
    case HoldFence(_) => HoldFenceThrows(h0, h, r, l, c, u);
    case Inspect | JudgeInspect(_) => InspectThrows(h0, h, r, l, c, u);
    case MoveMain(_) => MoveMainThrows(h0, h, r, l, c, u);
    case CheckMoved(_) => CheckMovedThrows(h0, h, r, l, c, u);
    case Republish | Confirm => RepublishThrows(h0, h, r, l, c, u);
    case ConfirmAgain | ConfirmGuard => ConfirmThrows(h0, h, r, l, c, u);
  }

  lemma StepThrows(h0: Home, h: Home, r: Run, l: Local, c: Choice, u: Out)
    requires Recovering(l.pc) && u == StepOf(h, r, l, c)
    ensures Throws(h0, h, r, l, u)
  {
    hide Kept, Throws;
    match l.pc
    case Recovery(_) => RecoveryThrows(h0, h, r, l, c, u);
    case Drain(_, _) => DrainThrows(h0, h, r, l, c, u);
    case Remove(_) => UnfencingThrows(h0, h, r, l, c, u);
  }

  lemma RestoresEarly(h: Home, r: Run, v: Vars, env: Env)
    requires Helps(env, false) && h.main == None && r in h.f.quarantine
    ensures Comes(Out(h, CatchAs(RestoreEarly, v)), r, env,
                  Out(h.(main := Some(h.f.quarantine[r]), f := h.f.(quarantine := h.f.quarantine - {r})),
                      CatchAs(CatchOwner, v.(safe := true))))
  {
    var o := Out(h, CatchAs(RestoreEarly, v));
    var linked := h.(main := Some(h.f.quarantine[r]));
    var m := Out(linked, CatchAs(EarlyUnlink, v));
    Helped(env, false, h, o.l);
    Helped(env, false, linked, m.l);
    LinksEarly(h, r, v, env(o));
    UnlinksEarly(linked, r, v, env(m));
    hide StepOf, Helps;
    var u := Out(linked.(f := h.f.(quarantine := h.f.quarantine - {r})), CatchAs(CatchOwner, v.(safe := true)));
    ComesNext(o, r, env, m);
    ComesNext(m, r, env, u);
    ComesOn(o, r, env, m, u);
  }

  lemma LinksEarly(h: Home, r: Run, v: Vars, c: Choice)
    requires !c.fail && h.main == None && r in h.f.quarantine
    ensures StepOf(h, r, CatchAs(RestoreEarly, v), c)
            == Out(h.(main := Some(h.f.quarantine[r])), CatchAs(EarlyUnlink, v))
  {
    hide Kept;
  }

  lemma UnlinksEarly(h: Home, r: Run, v: Vars, c: Choice)
    requires !c.fail
    ensures StepOf(h, r, CatchAs(EarlyUnlink, v), c)
            == Out(h.(f := h.f.(quarantine := h.f.quarantine - {r})), CatchAs(CatchOwner, v.(safe := true)))
  {
    hide Kept;
  }

  /** A failed takeover: main and quarantine are as they were before the call, its own entrant and its guard are
      gone, and its fence stands only if the call threw between putting it up and dealing with main. */
  predicate AsBefore(h0: Home, h: Home, r: Run, doubt: bool, u: Out) {
    && u.l.pc == Exit(Failed)
    && u.h == h.(main := h0.main, recovery := None, fence := if doubt then Some(r) else None,
                 f := h.f.(quarantine := h0.f.quarantine, entrants := h.f.entrants - {Own(r)}))
  }

  lemma ThrewUndone(h0: Home, h: Home, r: Run, l: Local, doubt: bool, u: Out)
    requires Deserted(h0, r) && Threw(h0, h, r, l, doubt) && l.pc == Catch(CatchOwner) && Undone(h, r, l, u)
    ensures AsBefore(h0, h, r, doubt, u)
  {
    assert r !in h0.f.quarantine;
    assert h0.main.Some? ==> h0.f.quarantine[r := h0.main.value] - {r} == h0.f.quarantine;
  }

  /** Wherever a lone recovery throws, if nothing disturbs it any more it leaves main as it found it. */
  lemma ThrownRecovery(h0: Home, h: Home, r: Run, l: Local, c: Choice, env: Env)
    requires Deserted(h0, r) && Acquiring.AcquireLone(h0, h, r, l) && Recovering(l.pc) && Helps(env, false)
    requires var u := StepOf(h, r, l, c); u.l.pc.Catch? && !u.l.v.lease
    ensures var u := StepOf(h, r, l, c);
            exists k :: AsBefore(h0, h, r, InDoubt(l.pc), Alone(u.h, r, u.l, env, k))
  {
    var u := StepOf(h, r, l, c);
    StepThrows(h0, h, r, l, c, u);
    hide StepOf, Alone, Helps, Acquiring.AcquireLone, Deserted;
    if u.l.pc == Catch(CatchOwner) {
      Unwinds(u.h, r, u.l, env);
      hide Comes;
      var k: nat :| Undone(u.h, r, u.l, Alone(u.h, r, u.l, env, k));
      ThrewUndone(h0, u.h, r, u.l, InDoubt(l.pc), Alone(u.h, r, u.l, env, k));
      assert AsBefore(h0, h, r, InDoubt(l.pc), Alone(u.h, r, u.l, env, k));
    } else {
      EarlyUndone(h0, u.h, r, u.l, InDoubt(l.pc), env);
      var k: nat :| AsBefore(h0, u.h, r, InDoubt(l.pc), Alone(u.h, r, u.l, env, k));
      assert AsBefore(h0, h, r, InDoubt(l.pc), Alone(u.h, r, u.l, env, k));
    }
  }

  lemma EarlyUndone(h0: Home, h: Home, r: Run, l: Local, doubt: bool, env: Env)
    requires Deserted(h0, r) && Threw(h0, h, r, l, doubt) && l.pc == Catch(RestoreEarly) && Helps(env, false)
    ensures exists k :: AsBefore(h0, h, r, doubt, Alone(h, r, l, env, k))
  {
    RestoresEarly(h, r, l.v, env);
    assert r !in h0.f.quarantine;
    assert h0.f.quarantine[r := h0.main.value] - {r} == h0.f.quarantine;
    hide Alone, Helps, Deserted, StepOf;
    var back := h.(main := h0.main, f := h.f.(quarantine := h0.f.quarantine));
    var m := Out(back, CatchAs(CatchOwner, l.v.(safe := true)));
    Unwinds(back, r, m.l, env);
    var k: nat :| Undone(back, r, m.l, Alone(back, r, m.l, env, k));
    var u := Alone(back, r, m.l, env, k);
    assert Comes(m, r, env, u);
    ComesOn(Out(h, l), r, env, m, u);
    var n: nat :| Alone(h, r, l, env, n) == u;
    assert AsBefore(h0, h, r, doubt, Alone(h, r, l, env, n));
  }

  // ---------------------------------------------------------------- a guard that was carried off

  /** An inspector that has renamed another guard aside than the one it judged puts it back, and gives up. */
  lemma OtherGuardReturned(h: Home, r: Run, v: Vars, k: Guarding, a: nat, x: Run, env: Env)
    requires Helps(env, false) && h.recovery.Some? && h.recovery.value != x
    ensures Comes(Out(h, Local(Guard(k, GuardMove(a, x)), v)), r, env, Out(h, Local(Exit(FinallyEntrant), v)))
  {
    var y := h.recovery.value;
    var o := Out(h, Local(Guard(k, GuardMove(a, x)), v));
    var m := Out(h.(recovery := None), Local(Guard(k, GuardCheck(x, y)), v));
    Helped(env, false, h, o.l);
    Helped(env, false, m.h, m.l);
    CarriesOff(h, r, v, k, a, x, env(o));
    Returns(m.h, r, v, k, x, y, env(m));
    hide StepOf, Helps;
    assert h == m.h.(recovery := Some(y));
    ComesNext(o, r, env, m);
    ComesNext(m, r, env, Out(h, Local(Exit(FinallyEntrant), v)));
    ComesOn(o, r, env, m, Out(h, Local(Exit(FinallyEntrant), v)));
  }

  lemma CarriesOff(h: Home, r: Run, v: Vars, k: Guarding, a: nat, x: Run, c: Choice)
    requires !c.fail && h.recovery.Some?
    ensures StepOf(h, r, Local(Guard(k, GuardMove(a, x)), v), c)
            == Out(h.(recovery := None), Local(Guard(k, GuardCheck(x, h.recovery.value)), v))
  {
    hide Kept;
  }

  lemma Returns(h: Home, r: Run, v: Vars, k: Guarding, x: Run, y: Run, c: Choice)
    requires !c.fail && x != y && h.recovery == None
    ensures StepOf(h, r, Local(Guard(k, GuardCheck(x, y)), v), c)
            == Out(h.(recovery := Some(y)), Local(Exit(FinallyEntrant), v))
  {
    hide Kept;
  }
}
