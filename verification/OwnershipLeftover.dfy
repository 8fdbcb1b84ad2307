/** A released record that could not be removed comes back to main, and a recovery that has judged another record
    stale may carry it off while its owner is alive: why the guarantees for owners end with the release. */
module OwnershipLeftover {
  import opened Options
  import opened OwnershipState
  import opened OwnershipFacts
  import opened OwnershipProtocol
  import opened OwnershipAlone
  import opened OwnershipScenarios

  // ---------------------------------------------------------------- steps of one call

  const OWNER := FRESH.v.(mine := true)
  const LEASED := OWNER.(lease := true)
  const FENCED := FRESH.v.(fenced := true)
  const DRAINED := FENCED.(drained := true)

  /** Nothing throws, the first alias is drawn, and a scan reads the call's own entry. */
  function Plain(r: Run): Env {
    o => Choice(false, false, Own(r), 0, false, r)
  }

  lemma AloneNext(h: Home, r: Run, l: Local, k: nat, u: Out)
    requires StepOf(h, r, l, Plain(r)(Out(h, l))) == u
    ensures Alone(h, r, l, Plain(r), k + 1) == Alone(u.h, r, u.l, Plain(r), k)
  {
    AloneStep(h, r, l, Plain(r), k);
    hide StepOf;
  }

  function Entering(h: Home, r: Run): Home {
    h.(f := h.f.(entrants := h.f.entrants[Own(r) := r]))
  }

  function Leaving(h: Home, r: Run): Home {
    h.(f := h.f.(entrants := (h.f.entrants - {Own(r)})[Alias(r, 0) := r]))
  }

  function Left(h: Home, r: Run): Home {
    Leaving(h, r).(f := h.f.(entrants := Leaving(h, r).f.entrants - {Alias(r, 0)}))
  }

  /** Five steps of an acquirer that finds main taken, */
  lemma FindsTaken(h: Home, r: Run)
    requires h.fence == None && h.recovery == None && h.main.Some? && Own(r) !in h.f.entrants
    ensures Alone(h, r, FRESH, Plain(r), 5) == Out(Entering(h, r), Local(Enter(ReadMain), FRESH.v))
  {
    hide Kept;
    var l1, l2, l3, l4 :=
      Local(Enter(Fence1), FRESH.v),
      Local(Guard(First, GuardRead(0)), FRESH.v),
      Local(Enter(Fence2(First)), FRESH.v),
      Local(Enter(LinkMain), FRESH.v);
    AloneNext(h, r, FRESH, 4, Out(Entering(h, r), l1));
    AloneNext(Entering(h, r), r, l1, 3, Out(Entering(h, r), l2));
    AloneNext(Entering(h, r), r, l2, 2, Out(Entering(h, r), l3));
    AloneNext(Entering(h, r), r, l3, 1, Out(Entering(h, r), l4));
    AloneNext(Entering(h, r), r, l4, 0, Out(Entering(h, r), Local(Enter(ReadMain), FRESH.v)));
  }

  /** and one more when it has been emptied. */
  lemma FindsEmpty(h: Home, r: Run)
    requires h.main == None
    ensures Alone(h, r, Local(Enter(ReadMain), FRESH.v), Plain(r), 1)
            == Out(h, Local(Guard(Second, GuardRead(0)), FRESH.v))
  {
    hide Kept;
    AloneNext(h, r, Local(Enter(ReadMain), FRESH.v), 0, Out(h, Local(Guard(Second, GuardRead(0)), FRESH.v)));
  }

  /** Five steps of an acquirer that finds main empty, */
  lemma Publishes(h: Home, r: Run)
    requires h.fence == None && h.recovery == None && h.main == None && Own(r) !in h.f.entrants
    ensures Alone(h, r, FRESH, Plain(r), 5)
            == Out(Entering(h, r).(main := Some(r)), Local(Enter(RacedRecovery), OWNER))
  {
    hide Kept;
    var l1, l2, l3, l4 :=
      Local(Enter(Fence1), FRESH.v),
      Local(Guard(First, GuardRead(0)), FRESH.v),
      Local(Enter(Fence2(First)), FRESH.v),
      Local(Enter(LinkMain), FRESH.v);
    AloneNext(h, r, FRESH, 4, Out(Entering(h, r), l1));
    AloneNext(Entering(h, r), r, l1, 3, Out(Entering(h, r), l2));
    AloneNext(Entering(h, r), r, l2, 2, Out(Entering(h, r), l3));
    AloneNext(Entering(h, r), r, l3, 1, Out(Entering(h, r), l4));
    AloneNext(Entering(h, r), r, l4, 0, Out(Entering(h, r).(main := Some(r)), Local(Enter(RacedRecovery), OWNER)));
  }

  /** four that bring it its lease, */
  lemma TakesLease(h: Home, r: Run)
    requires h.fence == None && h.recovery == None && Own(r) in h.f.entrants && Alias(r, 0) !in h.f.entrants
    ensures Alone(h, r, Local(Enter(RacedRecovery), OWNER), Plain(r), 4)
            == Out(Left(h, r), Local(Exit(Leased), LEASED))
  {
    hide Kept;
    var l1, l2, l3 :=
      Local(Enter(RacedFence(false)), OWNER),
      Local(Exit(FinallyEntrant), LEASED),
      Local(Exit(EraseEntrant(0)), LEASED);
    AloneNext(h, r, Local(Enter(RacedRecovery), OWNER), 3, Out(h, l1));
    AloneNext(h, r, l1, 2, Out(h, l2));
    AloneNext(h, r, l2, 1, Out(Leaving(h, r), l3));
    AloneNext(Leaving(h, r), r, l3, 0, Out(Left(h, r), Local(Exit(Leased), LEASED)));
  }

  /** two with which it sets out to release it, */
  lemma StartsRelease(h: Home, r: Run)
    requires h.main == Some(r)
    ensures Alone(h, r, Local(Exit(Leased), LEASED), Plain(r), 2)
            == Out(h, Local(Remove(RmMainMove(Releasing)), LEASED))
  {
    hide Kept;
    var l1 :=
      Local(Remove(RmMain(Releasing)), LEASED);
    AloneNext(h, r, Local(Exit(Leased), LEASED), 1, Out(h, l1));
    AloneNext(h, r, l1, 0, Out(h, Local(Remove(RmMainMove(Releasing)), LEASED)));
  }

  /** and the one that takes its record off main. */
  lemma TakesDown(h: Home, r: Run)
    requires h.main == Some(r)
    ensures Alone(h, r, Local(Remove(RmMainMove(Releasing)), LEASED), Plain(r), 1)
            == Out(h.(main := None), Local(Remove(RmMainCheck(Releasing, r)), LEASED.(mine := false)))
  {
    hide Kept;
    var u := Out(h.(main := None), Local(Remove(RmMainCheck(Releasing, r)), LEASED.(mine := false)));
    AloneNext(h, r, Local(Remove(RmMainMove(Releasing)), LEASED), 0, u);
  }

  /** Four steps from a main found empty to the recovery guard, */
  lemma PutsUpGuard(h: Home, r: Run)
    requires h.fence == None && h.recovery == None
    ensures Alone(h, r, Local(Guard(Second, GuardRead(0)), FRESH.v), Plain(r), 4)
            == Out(h.(recovery := Some(r)), Local(Recovery(LinkFence), FRESH.v))
  {
    hide Kept;
    var l1, l2, l3 :=
      Local(Enter(Fence2(Second)), FRESH.v),
      Local(Enter(LinkRecovery), FRESH.v),
      Local(Recovery(AssertGuard), FRESH.v);
    AloneNext(h, r, Local(Guard(Second, GuardRead(0)), FRESH.v), 3, Out(h, l1));
    AloneNext(h, r, l1, 2, Out(h, l2));
    AloneNext(h, r, l2, 1, Out(h.(recovery := Some(r)), l3));
    AloneNext(h.(recovery := Some(r)), r, l3, 0, Out(h.(recovery := Some(r)), Local(Recovery(LinkFence), FRESH.v)));
  }

  /** three to the fence and the drain, */
  lemma PutsUpFence(h: Home, r: Run)
    requires h.fence == None && h.recovery == Some(r)
    ensures Alone(h, r, Local(Recovery(LinkFence), FRESH.v), Plain(r), 3)
            == Out(h.(fence := Some(r)), Local(Drain(Holder, DrainSnapshot), FENCED))
  {
    hide Kept;
    var l1, l2 :=
      Local(Recovery(HoldGuard(ToDrain)), FENCED),
      Local(Recovery(HoldFence(ToDrain)), FENCED);
    AloneNext(h, r, Local(Recovery(LinkFence), FRESH.v), 2, Out(h.(fence := Some(r)), l1));
    AloneNext(h.(fence := Some(r)), r, l1, 1, Out(h.(fence := Some(r)), l2));
    AloneNext(h.(fence := Some(r)), r, l2, 0, Out(h.(fence := Some(r)), Local(Drain(Holder, DrainSnapshot), FENCED)));
  }

  /** three through the drain, */
  lemma DrainsAlone(h: Home, r: Run)
    requires h.f.entrants == map[Own(r) := r]
    ensures Alone(h, r, Local(Drain(Holder, DrainSnapshot), FENCED), Plain(r), 3)
            == Out(h, Local(Recovery(HoldGuard(ToInspect)), DRAINED))
  {
    hide Kept;
    var l1, l2 :=
      Local(Drain(Holder, DrainScan({Own(r)}, false)), FENCED),
      Local(Drain(Holder, DrainScan({}, false)), FENCED);
    assert h.f.entrants.Keys == {Own(r)} && {Own(r)} - {Own(r)} == {};
    AloneNext(h, r, Local(Drain(Holder, DrainSnapshot), FENCED), 2, Out(h, l1));
    AloneNext(h, r, l1, 1, Out(h, l2));
    AloneNext(h, r, l2, 0, Out(h, Local(Recovery(HoldGuard(ToInspect)), DRAINED)));
  }

  /** three to the owner it reads on main, */
  lemma ReadsMain(h: Home, r: Run, x: Run)
    requires h.recovery == Some(r) && h.fence == Some(r) && h.main == Some(x)
    ensures Alone(h, r, Local(Recovery(HoldGuard(ToInspect)), DRAINED), Plain(r), 3)
            == Out(h, Local(Recovery(JudgeInspect(x)), DRAINED))
  {
    hide Kept;
    var l1, l2 :=
      Local(Recovery(HoldFence(ToInspect)), DRAINED),
      Local(Recovery(Inspect), DRAINED);
    AloneNext(h, r, Local(Recovery(HoldGuard(ToInspect)), DRAINED), 2, Out(h, l1));
    AloneNext(h, r, l1, 1, Out(h, l2));
    AloneNext(h, r, l2, 0, Out(h, Local(Recovery(JudgeInspect(x)), DRAINED)));
  }

  /** and three more when that owner has died. */
  lemma Judges(h: Home, r: Run, x: Run)
    requires h.recovery == Some(r) && h.fence == Some(r) && !Alive(h, x)
    ensures Alone(h, r, Local(Recovery(JudgeInspect(x)), DRAINED), Plain(r), 3)
            == Out(h, Local(Recovery(MoveMain(x)), DRAINED))
  {
    hide Kept;
    var l1, l2 :=
      Local(Recovery(HoldGuard(ToMove(x))), DRAINED),
      Local(Recovery(HoldFence(ToMove(x))), DRAINED);
    AloneNext(h, r, Local(Recovery(JudgeInspect(x)), DRAINED), 2, Out(h, l1));
    AloneNext(h, r, l1, 1, Out(h, l2));
    AloneNext(h, r, l2, 0, Out(h, Local(Recovery(MoveMain(x)), DRAINED)));
  }

  /** A removal that fails puts the released record back. */
  lemma PutsBack(h: Home, r: Run, c: Choice)
    requires h.main == None && c.fail
    ensures StepOf(h, r, Local(Remove(RmMainCheck(Releasing, r)), LEASED.(mine := false)), c)
            == Out(h.(main := Some(r), f := h.f.(released := h.f.released + {r})), Local(Exit(Released), LEASED))
  {
    hide Kept;
  }

  /** The rename takes whatever stands on main by then. */
  lemma TakesWhatever(h: Home, r: Run, x: Run, c: Choice)
    requires h.main.Some? && r !in h.f.quarantine && !c.fail
    ensures StepOf(h, r, Local(Recovery(MoveMain(x)), DRAINED), c).h
            == h.(main := None, f := h.f.(quarantine := h.f.quarantine[r := h.main.value]))
  {
    hide Kept;
  }

  lemma InAndOut(h: Home, r: Run)
    requires Own(r) !in h.f.entrants && Alias(r, 0) !in h.f.entrants
    ensures Left(Entering(h, r).(main := Some(r)), r) == h.(main := Some(r))
  {
    assert Left(Entering(h, r).(main := Some(r)), r).f.entrants == h.f.entrants;
  }

  // ---------------------------------------------------------------- the execution

  /** The last step carries off the record of x, which is alive and not the one that steps. */
  ghost predicate CarriedOff(t: Trace, x: Run) {
    && Behaviour(t) && t.events != []
    && (var n := |t.events| - 1;
        var s, e, u := t.states[n], t.events[n], t.states[n + 1];
        && e.Do? && e.r != x && Alive(s.h, x)
        && s.h.main == Some(x) && u.h.main == None && e.r in u.h.f.quarantine && u.h.f.quarantine[e.r] == x)
  }

  // W releases its lease, A recovers, X comes and dies
  const W := Run(0, 0)
  const A := Run(1, 1)
  const X := Run(2, 2)

  const EMPTY := Files(map[], map[], map[], map[], {}, {})

  /** W holds the lease, and A has found main taken. */
  predicate Refused(s: State) {
    && s.h == Home(Some(W), None, None, None, EMPTY.(entrants := map[Own(A) := A]))
    && L(s, W) == Local(Exit(Leased), LEASED) && L(s, A) == Local(Enter(ReadMain), FRESH.v) && X !in s.loc
  }

  /** Where A stands, with W's record taken down and X not yet begun. */
  predicate Opened(s: State) {
    && s.h == Home(None, None, None, None, EMPTY.(entrants := map[Own(A) := A]))
    && L(s, W) == Local(Remove(RmMainCheck(Releasing, W)), LEASED.(mine := false))
    && L(s, A) == Local(Guard(Second, GuardRead(0)), FRESH.v) && X !in s.loc
  }

  /** A reads X's record on main under its fence; X is about to take it down. */
  predicate Inspecting(s: State) {
    && s.h == Home(Some(X), Some(A), Some(A), None, EMPTY.(entrants := map[Own(A) := A]))
    && L(s, W) == Local(Remove(RmMainCheck(Releasing, W)), LEASED.(mine := false))
    && L(s, A) == Local(Recovery(JudgeInspect(X)), DRAINED)
    && L(s, X) == Local(Remove(RmMainMove(Releasing)), LEASED)
  }

  /** X is dead and main empty. */
  predicate Vacated(s: State) {
    && s.h == Home(None, Some(A), Some(A), None, EMPTY.(entrants := map[Own(A) := A], dead := {2}))
    && L(s, W) == Local(Remove(RmMainCheck(Releasing, W)), LEASED.(mine := false))
    && L(s, A) == Local(Recovery(JudgeInspect(X)), DRAINED)
  }

  /** W's record is back on main, which A still takes for X's. */
  predicate Returned(s: State) {
    && s.h == Home(Some(W), Some(A), Some(A), None, EMPTY.(entrants := map[Own(A) := A], dead := {2}, released := {W}))
    && L(s, A) == Local(Recovery(JudgeInspect(X)), DRAINED)
  }

  lemma Moves(t: Trace, r: Run, k: nat) returns (u: Trace)
    requires Behaviour(t) && Alive(Last(t).h, r)
    ensures u.states != [] && Behaviour(u)
    ensures Out(Last(u).h, L(Last(u), r)) == Alone(Last(t).h, r, L(Last(t), r), Plain(r), k)
    ensures forall a :: a != r ==> L(Last(u), a) == L(Last(t), a)
    ensures Last(u).loc.Keys <= Last(t).loc.Keys + {r}
  {
    u := AloneHappens(t, r, Plain(r), k);
  }

  lemma Acts(t: Trace, r: Run, c: Choice) returns (u: Trace)
    requires Behaviour(t) && Alive(Last(t).h, r)
    ensures t.states != [] && Behaviour(u) && u.events == t.events + [Do(r, c)] && u.states == t.states + [Last(u)]
    ensures Out(Last(u).h, L(Last(u), r)) == StepOf(Last(t).h, r, L(Last(t), r), c)
    ensures forall a :: a != r ==> L(Last(u), a) == L(Last(t), a)
  {
    ThenBehaves(t, Do(r, c));
    hide StepOf;
    u := Then(t, Do(r, c));
  }

  lemma Dies(t: Trace, p: nat) returns (u: Trace)
    requires Behaviour(t)
    ensures u.states != [] && Behaviour(u) && Last(u).loc == Last(t).loc
    ensures var h := Last(t).h; Last(u).h == h.(f := h.f.(dead := h.f.dead + {p}))
  {
    ThenBehaves(t, Die(p));
    u := Then(t, Die(p));
  }

  /** An acquirer that finds everything empty but other entrants. */
  lemma Leases(t: Trace, r: Run) returns (u: Trace)
    requires Behaviour(t) && Alive(Last(t).h, r) && r !in Last(t).loc
    requires var h := Last(t).h;
             && h.main == None && h.recovery == None && h.fence == None
             && Own(r) !in h.f.entrants && Alias(r, 0) !in h.f.entrants
    ensures u.states != [] && Behaviour(u)
    ensures Last(u).h == Last(t).h.(main := Some(r)) && L(Last(u), r) == Local(Exit(Leased), LEASED)
    ensures forall a :: a != r ==> L(Last(u), a) == L(Last(t), a)
    ensures Last(u).loc.Keys <= Last(t).loc.Keys + {r}
  {
    assert t.states != [];
    var h, v := Last(t).h, Entering(Last(t).h, r).(main := Some(r));
    InAndOut(h, r);
    Publishes(h, r);
    TakesLease(v, r);
    hide Alone, Behaviour, Left, Entering;
    u := Moves(t, r, 5);
    u := Moves(u, r, 4);
  }

  lemma Opening() returns (t: Trace)
    ensures Behaviour(t) && Refused(Last(t))
  {
    t := Begin({});
    assert t.states != [];
    FindsTaken(Last(t).h.(main := Some(W)), A);
    hide Alone, Behaviour;
    t := Leases(t, W);
    t := Moves(t, A, 5);
  }

  lemma ToOpened(t: Trace) returns (u: Trace)
    requires Behaviour(t) && Refused(Last(t))
    ensures Behaviour(u) && Opened(Last(u))
  {
    assert t.states != [];
    var h := Last(t).h;
    StartsRelease(h, W);
    TakesDown(h, W);
    FindsEmpty(h.(main := None), A);
    hide Alone, Behaviour, Last;
    u := Moves(t, W, 2);
    assert Last(u).h == h && L(Last(u), W) == Local(Remove(RmMainMove(Releasing)), LEASED);
    u := Moves(u, W, 1);
    assert Last(u).h == h.(main := None);
    u := Moves(u, A, 1);
  }

  lemma ToInspection(t: Trace) returns (u: Trace)
    requires Behaviour(t) && Opened(Last(t))
    ensures Behaviour(u) && Inspecting(Last(u))
  {
    assert t.states != [];
    hide Alone, Behaviour, Last;
    u := Leases(t, X);
    var h := Last(u).h;
    StartsRelease(h, X);
    u := Moves(u, X, 2);
    PutsUpGuard(h, A);
    u := Moves(u, A, 4);
    h := Last(u).h;
    PutsUpFence(h, A);
    u := Moves(u, A, 3);
    h := Last(u).h;
    DrainsAlone(h, A);
    u := Moves(u, A, 3);
    ReadsMain(h, A, X);
    u := Moves(u, A, 3);
  }

  /** X takes its record down and dies, */
  lemma ToVacant(t: Trace) returns (u: Trace)
    requires Behaviour(t) && Inspecting(Last(t))
    ensures Behaviour(u) && Vacated(Last(u))
  {
    assert t.states != [];
    TakesDown(Last(t).h, X);
    hide Alone, Behaviour, Last;
    u := Moves(t, X, 1);
    u := Dies(u, 2);
    assert {} + {2} == {2};
  }

  /** and W gives its own back. */
  lemma ToReturned(t: Trace) returns (u: Trace)
    requires Behaviour(t) && Vacated(Last(t))
    ensures Behaviour(u) && Returned(Last(u))
  {
    assert t.states != [];
    var fail := Choice(true, false, Own(W), 0, false, W);
    PutsBack(Last(t).h, W, fail);
    hide Behaviour, StepOf, Last;
    u := Acts(t, W, fail);
    assert {} + {W} == {W};
  }

  /** A judges X dead and carries off what stands on main. */
  lemma ToCarriedOff(t: Trace) returns (u: Trace)
    requires Behaviour(t) && Returned(Last(t))
    ensures CarriedOff(u, W)
  {
    assert t.states != [];
    var c := Choice(false, false, Own(A), 0, false, A);
    Judges(Last(t).h, A, X);
    TakesWhatever(Last(t).h, A, X, c);
    hide Alone, Behaviour, StepOf, Last;
    var v := Moves(t, A, 3);
    u := Acts(v, A, c);
    LastOf(v);
    assert u.states[|u.events| - 1] == Last(v);
  }

  lemma LastOf(t: Trace)
    requires Behaviour(t)
    ensures t.states != [] && Last(t) == t.states[|t.events|]
  {
  }

  /** An execution in which the record of a living process is taken off main by another call's step: W released its
      lease, could not remove its record, and linked it back when A had judged X's stale. */
  lemma LivingRecordCarriedOff()
    ensures exists t :: CarriedOff(t, W)
  {
    hide CarriedOff, Behaviour;
    var t := Opening();
    t := ToOpened(t);
    t := ToInspection(t);
    t := ToVacant(t);
    t := ToReturned(t);
    t := ToCarriedOff(t);
  }
}
