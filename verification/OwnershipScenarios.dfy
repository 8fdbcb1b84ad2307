/** A call that is alone does what it is for, whatever dead calls have left behind: an acquirer is admitted
    exactly if nothing of anybody alive, and no fence, stands in its way; a repair clears a dead holder's fence
    exactly if what main must become is not in doubt. */
module OwnershipScenarios {
  import opened Options
  import opened OwnershipState
  import opened OwnershipFacts
  import opened OwnershipProtocol
  import opened OwnershipSafety
  import opened OwnershipTheorems
  import opened OwnershipAlone
  import opened OwnershipRecords
  import Acquiring = OwnershipAcquiring
  import Repairing = OwnershipRepairing

  // ---------------------------------------------------------------- acquiring

  /** The lease, with nothing left of fence and guard, a stale main set aside, and the files of repairs as they
      were. */
  predicate Admitted(h: Home, r: Run, u: Out) {
    && u.l.pc == Exit(Leased) && Acquiring.OthersFiles(h, u.h)
    && u.h.main == Some(r) && u.h.fence == None && u.h.recovery == None
    && (match h.main
        case None => u.h.f.quarantine == h.f.quarantine && u.h.f.entrants == h.f.entrants
        case Some(x) => u.h.f.quarantine == h.f.quarantine[r := x] && u.h.f.entrants == map[])
  }

  /** No lease, and main, quarantine, fence, entrants and the files of repairs as they were.  A stale recovery
      guard is gone, unless there is a fence. */
  predicate TurnedAway(h: Home, u: Out) {
    && u.l.pc == Exit(Failed) && Acquiring.OthersFiles(h, u.h)
    && u.h.main == h.main && u.h.f.quarantine == h.f.quarantine && u.h.fence == h.fence
      && u.h.f.entrants == h.f.entrants
    && u.h.recovery == if h.fence == None && (h.recovery.Some? ==> !Alive(h, h.recovery.value)) then None
                       else h.recovery
  }

  /** A lone acquirer gets the lease if there is no fence and neither main nor the recovery guard is of a
      living process; otherwise it is turned away. */
  lemma LoneAcquirer(h: Home, r: Run, env: Env)
    requires Deserted(h, r) && Helps(env, false)
    ensures exists k :: var u := Alone(h, r, FRESH, env, k);
              if Acquiring.Admissible(h) then Admitted(h, r, u) else TurnedAway(h, u)
  {
    Acquiring.AcquireEnds(h, h, r, FRESH, env);
    hide Alone, Helps, StepOf, Deserted, Acquiring.Admissible, Acquiring.Rests, Admitted, TurnedAway, Answered;
    var k: nat :| Acquiring.Rests(h, r, Alone(h, r, FRESH, env, k));
    AcquirerRests(h, r, Alone(h, r, FRESH, env, k));
  }

  ghost predicate Answered(h: Home, r: Run, u: Out) {
    !Acquiring.Rests(h, r, u) || if Acquiring.Admissible(h) then Admitted(h, r, u) else TurnedAway(h, u)
  }

  lemma AcquirerRests(h: Home, r: Run, u: Out)
    ensures Answered(h, r, u)
  {
    hide Deserted;
  }

  /** In any state of any execution in which every call that has begun is dead, the next acquirer gets the
      lease if and only if no fence stands. */
  lemma AcquireAfterCrash(t: Trace, i: nat, r: Run, env: Env)
    requires Behaviour(t) && i < |t.states| && OthersDead(t.states[i], r) && Helps(env, false)
    ensures var h := t.states[i].h;
            exists k :: var u := Alone(h, r, FRESH, env, k);
              if h.fence == None then Admitted(h, r, u) else TurnedAway(h, u)
  {
    AllDeserted(t, i, r);
    hide Behaviour;
    var h := t.states[i].h;
    LoneAcquirer(h, r, env);
    hide Alone, Helpful;
    assert Acquiring.Admissible(h) <==> h.fence == None;
  }

  // ---------------------------------------------------------------- repairing

  /** The fence of d is gone, and with it its guard; main holds what it held or, if it was empty, a record
      from quarantine if there is one; nothing is left of this repair, of slots and of entrants. */
  predicate Repaired(h: Home, r: Run, u: Out) {
    && u.l.pc == Release(true, RepairDone)
    && u.h.fence == None && u.h.recovery == None && Repairing.Restored(h, u.h)
    && u.h.f.entrants == map[] && u.h.f.dead == h.f.dead && Withdrawn(r, u.h)
  }

  /** The repair has given up guard, ticket and slot, and found no other slot. */
  predicate Withdrawn(r: Run, h: Home) {
    h.repairGuard == None && r !in h.f.tickets && h.f.slots == map[]
  }

  /** The repair gives up; fence and recovery guard stay, and a main that is in doubt is left alone. */
  predicate Unrepaired(h: Home, r: Run, u: Out) {
    && Withdrawn(r, u.h)
    && u.l.pc == Release(false, RepairDone) && u.h.fence == h.fence && u.h.recovery == h.recovery
    && (Ambiguous(h) ==> u.h.main == h.main && u.h.f.quarantine == h.f.quarantine)
  }

  /** A lone repair of a dead holder's fence clears it if main is there, or all quarantined records agree, and
      no recovery guard but the holder's stands; otherwise it gives up. */
  lemma LoneRepair(h: Home, d: Run, r: Run, env: Env)
    requires Deserted(h, r) && h.fence == Some(d) && !Alive(h, d) && Helps(env, true)
    ensures exists k :: var u := Alone(h, r, FRESH, env, k);
              if Repairing.Repairable(h, d) then Repaired(h, r, u) else Unrepaired(h, r, u)
  {
    Repairing.RepairEnds(h, d, h, r, FRESH, env);
    hide Alone, Helps, StepOf, Deserted, Repairing.Restored, Repairing.Rests, Repaired, Unrepaired, Settled;
    var k: nat :| Repairing.Rests(h, d, r, Alone(h, r, FRESH, env, k));
    RepairRests(h, d, r, Alone(h, r, FRESH, env, k));
  }

  ghost predicate Settled(h: Home, d: Run, r: Run, u: Out) {
    !Repairing.Rests(h, d, r, u) || if Repairing.Repairable(h, d) then Repaired(h, r, u) else Unrepaired(h, r, u)
  }

  lemma RepairRests(h: Home, d: Run, r: Run, u: Out)
    ensures Settled(h, d, r, u)
  {
    hide Deserted, Repairing.Restored;
  }

  /** The same in any state of any execution in which every call that has begun is dead, wherever a recovery
      and any number of repairs were killed. */
  lemma RepairAfterCrash(t: Trace, i: nat, d: Run, r: Run, env: Env)
    requires Behaviour(t) && i < |t.states| && OthersDead(t.states[i], r) && Helps(env, true)
    requires t.states[i].h.fence == Some(d)
    ensures var h := t.states[i].h;
            exists k :: var u := Alone(h, r, FRESH, env, k);
              if Repairing.Repairable(h, d) then Repaired(h, r, u) else Unrepaired(h, r, u)
  {
    AllDeserted(t, i, r);
    LoneRepair(t.states[i].h, d, r, env);
  }

  /** After a repair that cleared the fence the next acquirer, alone, gets the lease. */
  lemma AcquireAfterRepair(h: Home, u: Out, r: Run, a: Run, env: Env)
    requires Deserted(h, r) && Repaired(h, r, u) && (h.main.Some? ==> !Alive(h, h.main.value))
    requires Alive(h, a) && a !in h.f.quarantine && a !in u.h.f.tickets && a !in u.h.f.released && Helps(env, false)
    ensures exists k :: Admitted(u.h, a, Alone(u.h, a, FRESH, env, k))
  {
    assert Deserted(u.h, a) && Acquiring.Admissible(u.h);
    LoneAcquirer(u.h, a, env);
    hide Alone, Helpful, Deserted;
  }

  // ---------------------------------------------------------------- a fence that no repair clears

  /** Main is empty and the quarantine does not tell which record it must get back. */
  predicate Ambiguous(h: Home) {
    h.main == None && h.fence.Some? && !Repairing.Agreed(h.f.quarantine)
  }

  /** A small instance: two dead owners in quarantine under a dead holder's fence.  Every repair gives up. */
  lemma AmbiguousStays(r: Run, env: Env)
    requires r.proc > 2 && Helps(env, true)
    ensures var h := Home(None, None, Some(Run(2, 2)), None,
                          Files(map[], map[Run(1, 1) := Run(0, 0), Run(2, 2) := Run(1, 1)], map[], map[],
                                {0, 1, 2}, {}));
            Ambiguous(h) && exists k :: Unrepaired(h, r, Alone(h, r, FRESH, env, k))
  {
    var q := map[Run(1, 1) := Run(0, 0), Run(2, 2) := Run(1, 1)];
    var h := Home(None, None, Some(Run(2, 2)), None, Files(map[], q, map[], map[], {0, 1, 2}, {}));
    assert Run(1, 1) in q && Run(2, 2) in q && q[Run(1, 1)] != q[Run(2, 2)];
    LoneRepair(h, Run(2, 2), r, env);
    hide Alone, Helpful;
  }

  function Last(t: Trace): State
    requires t.states != []
  {
    t.states[|t.states| - 1]
  }

  function Then(t: Trace, e: Event): Trace
    requires t.states != []
  {
    Trace(t.states + [Next(Last(t), e)], t.events + [e])
  }

  lemma ThenBehaves(t: Trace, e: Event)
    requires Behaviour(t)
    ensures t.states != [] && Behaviour(Then(t, e)) && Last(Then(t, e)) == Next(Last(t), e)
  {
    hide Next;
    var u := Then(t, e);
    forall i {:trigger Happens(u, i)} | 0 <= i < |u.events| ensures Happens(u, i) {
      if i < |t.events| {
        assert Happens(t, i);
      }
    }
  }

  lemma OneMore(t: Trace, r: Run, c: Choice)
    requires Behaviour(t) && Alive(Last(t).h, r)
    ensures var s, u := Last(t), Then(t, Do(r, c));
            var o := StepOf(s.h, r, L(s, r), c);
            && Behaviour(u) && Last(u) == State(o.h, s.loc[r := o.l]) && o.h.f.dead == s.h.f.dead
  {
    Reachable(t, |t.states| - 1);
    hide StepOf, Inv, Kept;
    StepKeepsDead(Last(t), r, c);
    ThenBehaves(t, Do(r, c));
  }

  /** What a call does alone is part of an execution. */
  lemma {:induction false} AloneHappens(t: Trace, r: Run, env: Env, k: nat) returns (u: Trace)
    requires Behaviour(t) && Alive(Last(t).h, r)
    ensures Behaviour(u)
    ensures Out(Last(u).h, L(Last(u), r)) == Alone(Last(t).h, r, L(Last(t), r), env, k)
    ensures forall a :: a != r ==> L(Last(u), a) == L(Last(t), a)
    ensures Last(u).h.f.dead == Last(t).h.f.dead
    ensures Last(u).loc.Keys <= Last(t).loc.Keys + {r}
    decreases k
  {
    if k == 0 {
      u := t;
    } else {
      var s := Last(t);
      var e := Do(r, env(Out(s.h, L(s, r))));
      OneMore(t, r, e.c);
      AloneStep(s.h, r, L(s, r), env, k - 1);
      hide StepOf, Alone, Behaviour, Last, Then, Next;
      u := AloneHappens(Then(t, e), r, env, k - 1);
    }
  }

  /** A call that runs alone for a while and is then killed. */
  lemma RunThenDie(t: Trace, r: Run, env: Env, k: nat) returns (u: Trace)
    requires Behaviour(t) && OthersDead(Last(t), r)
    ensures Behaviour(u)
    ensures Last(u).h.f.dead == Last(t).h.f.dead + {r.proc} && Last(u).loc.Keys <= Last(t).loc.Keys + {r}
    ensures var h := Alone(Last(t).h, r, FRESH, env, k).h; Last(u).h == h.(f := h.f.(dead := Last(u).h.f.dead))
    ensures forall a :: a in Last(u).loc ==> !Alive(Last(u).h, a)
  {
    var v := AloneHappens(t, r, env, k);
    ThenBehaves(v, Die(r.proc));
    u := Then(v, Die(r.proc));
    hide Alone, Behaviour;
  }

  /** An execution that ends with every call dead and main ambiguous. */
  ghost predicate Stuck(t: Trace) {
    && Behaviour(t) && Ambiguous(t.states[|t.events|].h)
    && forall a :: a in t.states[|t.events|].loc ==> !Alive(t.states[|t.events|].h, a)
  }

  lemma Begin(dead: set<nat>) returns (t: Trace)
    ensures Behaviour(t) && Last(t).loc == map[]
    ensures Last(t).h == Home(None, None, None, None, Files(map[], map[], map[], map[], dead, {}))
  {
    t := Trace([State(Home(None, None, None, None, Files(map[], map[], map[], map[], dead, {})), map[])], []);
  }

  /** An acquirer that gets the lease and is then killed. */
  lemma OwnerDies(t: Trace, r: Run) returns (u: Trace)
    requires Behaviour(t) && OthersDead(Last(t), r) && Last(t).h.fence == None
    ensures Behaviour(u) && forall a :: a in Last(u).loc ==> !Alive(Last(u).h, a)
    ensures Last(u).h.f.dead == Last(t).h.f.dead + {r.proc} && Last(u).loc.Keys <= Last(t).loc.Keys + {r}
    ensures Last(u).h.main == Some(r) && Last(u).h.fence == None
    ensures var q := Last(t).h.f.quarantine;
            Last(u).h.f.quarantine == match Last(t).h.main case None => q case Some(x) => q[r := x]
  {
    hide Alone, StepOf, Inv, Next, Helpful;
    var env := o => Help(o, false);
    AcquireAfterCrash(t, |t.events|, r, env);
    var k: nat :| Admitted(Last(t).h, r, Alone(Last(t).h, r, FRESH, env, k));
    u := RunThenDie(t, r, env, k);
  }

  /** It takes two crashes of a daemon and one killed recovery: a takeover leaves the record it set aside in
      quarantine, and a recovery killed before it publishes adds another one. */
  lemma AmbiguityArises()
    ensures exists t :: Stuck(t)
  {
    hide Alone, StepOf, Inv, Next, Helpful;
    var a, b, c := Run(0, 0), Run(1, 1), Run(2, 2);
    var env := o => Help(o, false);
    var t := Begin({});
    t := OwnerDies(t, a);
    t := OwnerDies(t, b);
    assert Last(t).h.main == Some(b) && Last(t).h.f.quarantine == map[b := a];
    AllDeserted(t, |t.events|, c);
    var h := Last(t).h;
    Acquiring.TakeoverPasses(h, h, c, FRESH, env);
    var k: nat :| Acquiring.Midway(h, c, Alone(h, c, FRESH, env, k));
    Acquiring.MidwayHome(h, c, Alone(h, c, FRESH, env, k));
    t := RunThenDie(t, c, env, k);
    var q := Last(t).h.f.quarantine;
    assert q == map[b := a][c := b];
    assert b in q && c in q && q[b] != q[c];
    assert Stuck(t);
  }

  /** From there every repair gives up and every acquirer is turned away. */
  lemma StuckForGood(t: Trace, r: Run, repair: Env, acquire: Env)
    requires Stuck(t) && Helps(repair, true) && Helps(acquire, false)
    requires Alive(t.states[|t.events|].h, r) && r !in t.states[|t.events|].loc
    ensures var h := t.states[|t.events|].h;
            && (exists k :: Unrepaired(h, r, Alone(h, r, FRESH, repair, k)))
            && (exists k :: TurnedAway(h, Alone(h, r, FRESH, acquire, k)))
  {
    var i := |t.events|;
    RepairAfterCrash(t, i, t.states[i].h.fence.value, r, repair);
    AcquireAfterCrash(t, i, r, acquire);
    hide Alone, Helpful, Behaviour;
  }
}
