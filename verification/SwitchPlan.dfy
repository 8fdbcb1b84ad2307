/**
 The moves of a local client switch: what each one does to the client files, how an
 interrupted one is classified, and where a whole plan leaves every file.
 */
module SwitchPlan {
  import opened Options

  type ClientId = nat

  datatype Kind = ClientYaml | Agents | ContextYaml | ContextBackup | Sessions | Workspaces | Byo

  /** The active root, a parked client's root, or the placeholder of a client yet to be created. */
  datatype Slot = Active | Parked(client: ClientId) | NewClient

  datatype Path = Path(slot: Slot, kind: Kind)

  /** client.yaml is read and edited; every other file or directory is moved unread. */
  datatype Obj = Yaml(client: Option<ClientId>, server: Option<nat>) | Data(id: nat)

  type Files = map<Path, Obj>

  datatype Group = Park | Restore
  datatype MoveState = Pending | Done | Absent | Create
  datatype Move = Move(group: Group, source: Path, target: Path, required: bool, state: MoveState)

  const KINDS: seq<Kind> := [ClientYaml, Agents, ContextYaml, ContextBackup, Sessions, Workspaces, Byo]

  function Rank(k: Kind): (i: nat)
    ensures i < |KINDS| && KINDS[i] == k
  {
    match k
    case ClientYaml => 0
    case Agents => 1
    case ContextYaml => 2
    case ContextBackup => 3
    case Sessions => 4
    case Workspaces => 5
    case Byo => 6
  }

  function MoveOf(group: Group, source: Slot, target: Slot, k: Kind): Move {
    Move(group, Path(source, k), Path(target, k), k.ClientYaml?, Pending)
  }

  function Moves(group: Group, source: Slot, target: Slot): (ms: seq<Move>) {
    seq(|KINDS|, i requires 0 <= i < |KINDS| => MoveOf(group, source, target, KINDS[i]))
  }

  const CREATE: Move := Move(Restore, Path(NewClient, ClientYaml), Path(Active, ClientYaml), true, Create)

  function Restores(to: Option<ClientId>): seq<Move> {
    match to case None => [CREATE] case Some(t) => Moves(Restore, Parked(t), Active)
  }

  /** buildSwitchMoves. */
  function Plan(from: ClientId, to: Option<ClientId>): seq<Move> {
    Moves(Park, Active, Parked(from)) + Restores(to)
  }

  // ---------------------------------------------------------------- one move

  /** How a move is recorded once it has been carried out on f; None cannot be classified. */
  function Mark(f: Files, m: Move): Option<MoveState> {
    if m.state != Pending then Some(m.state)
    else if m.source in f then (if m.target in f then None else Some(Done))
    else if m.target in f then Some(Done)
    else if m.required then None
    else Some(Absent)
  }

  /** The move renames something. */
  predicate Renames(f: Files, m: Move) {
    m.state == Pending && m.source in f && m.target !in f
  }

  function Applied(f: Files, m: Move): Files {
    if Renames(f, m) then (f - {m.source})[m.target := f[m.source]] else f
  }

  /** The files after the first i moves of an undisturbed run. */
  function After(f: Files, plan: seq<Move>, i: nat): Files
    requires i <= |plan|
    decreases i
  {
    if i == 0 then f else Applied(After(f, plan, i - 1), plan[i - 1])
  }

  /** The first i moves can all be classified. */
  ghost predicate Clear(f: Files, plan: seq<Move>, i: nat)
    requires i <= |plan|
  {
    forall j :: 0 <= j < i ==> Mark(After(f, plan, j), plan[j]).Some?
  }

  /** The first b moves park, the rest restore, and no move is onto itself. */
  predicate Grouped(plan: seq<Move>, b: nat) {
    && b <= |plan|
    && (forall j :: 0 <= j < |plan| ==> (plan[j].group.Park? <==> j < b))
    && (forall j :: 0 <= j < |plan| ==> plan[j].source != plan[j].target)
  }

  lemma PlanGrouped(from: ClientId, to: Option<ClientId>)
    ensures Grouped(Plan(from, to), |KINDS|)
    ensures |Plan(from, to)| == |KINDS| + (if to.Some? then |KINDS| else 1)
    ensures forall j :: 0 <= j < |KINDS| ==> Plan(from, to)[j] == MoveOf(Park, Active, Parked(from), KINDS[j])
    ensures to.Some? ==> forall j :: 0 <= j < |KINDS| ==>
              Plan(from, to)[|KINDS| + j] == MoveOf(Restore, Parked(to.value), Active, KINDS[j])
    ensures to.None? ==> Plan(from, to)[|KINDS|] == CREATE
  {
  }

  // ---------------------------------------------------------------- where everything ends up

  function Get(f: Files, p: Path): Option<Obj> {
    if p in f then Some(f[p]) else None
  }

  /** What p holds once the objects of the first i kinds have all moved from one slot to another. */
  function Shifted(f: Files, source: Slot, target: Slot, i: nat, p: Path): Option<Obj> {
    if Rank(p.kind) >= i then Get(f, p)
    else if p.slot == source then None
    else if p.slot == target && Path(source, p.kind) in f then Get(f, Path(source, p.kind))
    else Get(f, p)
  }

  ghost predicate IsShift(t: Files, f: Files, source: Slot, target: Slot, i: nat) {
    forall p :: Get(t, p) == Shifted(f, source, target, i, p)
  }

  /** This kind is not on both sides, and client.yaml is on one. */
  predicate Movable(f: Files, source: Slot, target: Slot, k: Kind) {
    && (Path(source, k) !in f || Path(target, k) !in f)
    && (k.ClientYaml? ==> Path(source, k) in f || Path(target, k) in f)
  }

  /** One more move of a group extends the shift by one kind, and can be classified exactly
      if that kind is movable. */
  lemma ShiftStep(f: Files, s: Files, g: Group, source: Slot, target: Slot, i: nat)
    requires source != target && i < |KINDS| && IsShift(s, f, source, target, i)
    ensures var m := MoveOf(g, source, target, KINDS[i]);
            && (Mark(s, m).Some? <==> Movable(f, source, target, KINDS[i]))
            && (Mark(s, m).Some? ==> IsShift(Applied(s, m), f, source, target, i + 1))
  {
    var k := KINDS[i];
    var m := MoveOf(g, source, target, k);
    assert Rank(k) == i;
    assert Get(s, m.source) == Get(f, m.source) && Get(s, m.target) == Get(f, m.target);
    if Mark(s, m).Some? {
      forall p ensures Get(Applied(s, m), p) == Shifted(f, source, target, i + 1, p) {
        assert Get(s, p) == Shifted(f, source, target, i, p);
        assert KINDS[Rank(p.kind)] == p.kind;
      }
    }
  }

  /** The same for a whole group. */
  lemma {:induction false} GroupShift(f: Files, g: Group, source: Slot, target: Slot, i: nat)
    requires source != target && i <= |KINDS|
    ensures var ms := Moves(g, source, target);
            && (Clear(f, ms, i) <==> forall j :: 0 <= j < i ==> Movable(f, source, target, KINDS[j]))
            && (Clear(f, ms, i) ==> IsShift(After(f, ms, i), f, source, target, i))
    decreases i
  {
    var ms := Moves(g, source, target);
    if i > 0 {
      GroupShift(f, g, source, target, i - 1);
      assert Clear(f, ms, i) <==> Clear(f, ms, i - 1) && Mark(After(f, ms, i - 1), ms[i - 1]).Some?;
      if Clear(f, ms, i - 1) {
        ShiftStep(f, After(f, ms, i - 1), g, source, target, i - 1);
      }
    }
  }

  lemma {:induction false} AfterConcat(f: Files, a: seq<Move>, b: seq<Move>, i: nat)
    requires i <= |a + b|
    ensures After(f, a + b, i)
            == if i <= |a| then After(f, a, i) else After(After(f, a, |a|), b, i - |a|)
    decreases i
  {
    if i > 0 {
      AfterConcat(f, a, b, i - 1);
    }
  }

  lemma ClearConcat(f: Files, a: seq<Move>, b: seq<Move>)
    ensures Clear(f, a + b, |a + b|) <==> Clear(f, a, |a|) && Clear(After(f, a, |a|), b, |b|)
  {
    forall i | 0 <= i < |a| ensures After(f, a + b, i) == After(f, a, i) && (a + b)[i] == a[i] {
      AfterConcat(f, a, b, i);
    }
    forall i | 0 <= i < |b|
      ensures After(f, a + b, |a| + i) == After(After(f, a, |a|), b, i) && (a + b)[|a| + i] == b[i]
    {
      AfterConcat(f, a, b, |a| + i);
    }
    if Clear(f, a + b, |a + b|) {
      forall i | 0 <= i < |b| ensures Mark(After(After(f, a, |a|), b, i), b[i]).Some? {
        assert Mark(After(f, a + b, |a| + i), (a + b)[|a| + i]).Some?;
      }
    }
  }

  /** Nothing is parked twice, and both clients' client.yaml can be found. */
  ghost predicate Feasible(f: Files, from: ClientId, to: Option<ClientId>) {
    && (forall k :: Path(Active, k) !in f || Path(Parked(from), k) !in f)
    && (Path(Active, ClientYaml) in f || Path(Parked(from), ClientYaml) in f)
    && (to.Some? ==> to.value == from || Path(Parked(to.value), ClientYaml) in f)
  }

  lemma ParksFeasible(f: Files, from: ClientId)
    ensures var parks := Moves(Park, Active, Parked(from));
            && (Clear(f, parks, |KINDS|) <==> Feasible(f, from, None))
            && (Clear(f, parks, |KINDS|) ==> IsShift(After(f, parks, |KINDS|), f, Active, Parked(from), |KINDS|))
  {
    GroupShift(f, Park, Active, Parked(from), |KINDS|);
    if forall j :: 0 <= j < |KINDS| ==> Movable(f, Active, Parked(from), KINDS[j]) {
      forall k ensures Path(Active, k) !in f || Path(Parked(from), k) !in f {
        assert Movable(f, Active, Parked(from), KINDS[Rank(k)]);
      }
      assert Movable(f, Active, Parked(from), KINDS[0]);
    }
    if Feasible(f, from, None) {
      forall j | 0 <= j < |KINDS| ensures Movable(f, Active, Parked(from), KINDS[j]) {
      }
    }
  }

  /** Once a client is parked the active root is empty, so restoring needs the target's client.yaml only. */
  lemma RestoresFeasible(f: Files, s: Files, from: ClientId, t: ClientId)
    requires Feasible(f, from, None) && IsShift(s, f, Active, Parked(from), |KINDS|)
    ensures var restores := Restores(Some(t));
            && (Clear(s, restores, |KINDS|) <==> Feasible(f, from, Some(t)))
            && (Clear(s, restores, |KINDS|) ==> IsShift(After(s, restores, |KINDS|), s, Parked(t), Active, |KINDS|))
  {
    GroupShift(s, Restore, Parked(t), Active, |KINDS|);
    forall k ensures Path(Active, k) !in s {
      assert Get(s, Path(Active, k)) == Shifted(f, Active, Parked(from), |KINDS|, Path(Active, k));
    }
    var y := Path(Parked(t), ClientYaml);
    assert Get(s, y) == Shifted(f, Active, Parked(from), |KINDS|, y);
    assert KINDS[0] == ClientYaml;
    forall j | 0 < j < |KINDS| ensures Movable(s, Parked(t), Active, KINDS[j]) {
      assert Rank(KINDS[j]) == j;
    }
  }

  /** The files parking leaves. */
  function ParkedFiles(f: Files, from: ClientId): Files {
    After(f, Moves(Park, Active, Parked(from)), |KINDS|)
  }

  /** Feasible is the exact condition under which an undisturbed switch classifies every move. */
  lemma PlanFeasible(f: Files, from: ClientId, to: Option<ClientId>)
    ensures Clear(f, Plan(from, to), |Plan(from, to)|) <==> Feasible(f, from, to)
    ensures Feasible(f, from, to) ==>
              var s, t := ParkedFiles(f, from), After(f, Plan(from, to), |Plan(from, to)|);
              && IsShift(s, f, Active, Parked(from), |KINDS|)
              && (if to.None? then t == s else IsShift(t, s, Parked(to.value), Active, |KINDS|))
  {
    hide Shifted, IsShift, Applied, Renames;
    var parks, restores := Moves(Park, Active, Parked(from)), Restores(to);
    var plan := Plan(from, to);
    assert plan == parks + restores;
    ClearConcat(f, parks, restores);
    AfterConcat(f, parks, restores, |plan|);
    ParksFeasible(f, from);
    if Feasible(f, from, None) {
      if to.Some? {
        RestoresFeasible(f, ParkedFiles(f, from), from, to.value);
      } else {
        CreateKeeps(ParkedFiles(f, from));
      }
    }
  }

  /** The placeholder entry for a client yet to be created moves nothing. */
  lemma CreateKeeps(s: Files)
    ensures Clear(s, [CREATE], 1) && After(s, [CREATE], 1) == s
  {
    assert After(s, [CREATE], 0) == s;
  }

  /** Where a switch takes the object at p. */
  function Destination(from: ClientId, to: Option<ClientId>, p: Path): Path {
    match p.slot
    case Active => if to == Some(from) then p else Path(Parked(from), p.kind)
    case Parked(c) => if to == Some(c) then Path(Active, p.kind) else p
    case NewClient => p
  }

  /** The inverse: where the object that ends up at q comes from. */
  function Origin(f: Files, from: ClientId, to: Option<ClientId>, q: Path): Path {
    var m := if to.Some? && q.slot.Active? then Path(Parked(to.value), q.kind) else q;
    if m.slot == Parked(from) && m !in f then Path(Active, m.kind) else m
  }

  /** What p holds when the switch is done, read off the two shifts. */
  lemma FinalAt(f: Files, from: ClientId, to: Option<ClientId>, p: Path)
    requires Feasible(f, from, to)
    ensures var t := After(f, Plan(from, to), |Plan(from, to)|);
            Get(t, p) == if to.None? then Shifted(f, Active, Parked(from), |KINDS|, p)
                         else if p.slot.Active? then Shifted(f, Active, Parked(from), |KINDS|,
                           Path(Parked(to.value), p.kind))
                         else if p.slot == Parked(to.value) then None
                         else Shifted(f, Active, Parked(from), |KINDS|, p)
  {
    hide Feasible, After, Plan;
    PlanFeasible(f, from, to);
    var s, t := ParkedFiles(f, from), After(f, Plan(from, to), |Plan(from, to)|);
    if to.Some? {
      var q := Path(Parked(to.value), p.kind);
      assert Get(t, p) == Shifted(s, Parked(to.value), Active, |KINDS|, p);
      assert Get(s, q) == Shifted(f, Active, Parked(from), |KINDS|, q);
    }
    assert Get(s, p) == Shifted(f, Active, Parked(from), |KINDS|, p);
  }

  /** Where everything ends up: every object reaches its destination, no two share one, and
      nothing else is there. */
  lemma Placement(f: Files, from: ClientId, to: Option<ClientId>)
    requires Feasible(f, from, to)
    ensures var t := After(f, Plan(from, to), |Plan(from, to)|);
            && (forall p :: p in f ==> Get(t, Destination(from, to, p)) == Some(f[p]))
            && (forall q :: q in t ==>
                  Origin(f, from, to, q) in f && Destination(from, to, Origin(f, from, to, q)) == q)
            && (forall p :: p in f ==> Origin(f, from, to, Destination(from, to, p)) == p)
  {
    hide After, Plan;
    var t := After(f, Plan(from, to), |Plan(from, to)|);
    forall p | p in f ensures Get(t, Destination(from, to, p)) == Some(f[p]) {
      FinalAt(f, from, to, Destination(from, to, p));
    }
    forall q | q in t
      ensures Origin(f, from, to, q) in f && Destination(from, to, Origin(f, from, to, q)) == q
    {
      FinalAt(f, from, to, q);
    }
  }

  /** Switching there and back again puts every file back where it was. */
  lemma SwitchBack(f: Files, a: ClientId, b: ClientId)
    requires a != b && Feasible(f, a, Some(b)) && Path(Active, ClientYaml) in f
    requires forall k :: Path(Parked(a), k) !in f
    ensures var there := After(f, Plan(a, Some(b)), |Plan(a, Some(b))|);
            && Feasible(there, b, Some(a))
            && After(there, Plan(b, Some(a)), |Plan(b, Some(a))|) == f
  {
    hide Feasible, After, Plan, Destination, Origin;
    var there := After(f, Plan(a, Some(b)), |Plan(a, Some(b))|);
    Placement(f, a, Some(b));
    ReadyToReturn(f, a, b);
    Placement(there, b, Some(a));
    var back := After(there, Plan(b, Some(a)), |Plan(b, Some(a))|);
    forall p | p in f ensures Get(back, p) == Some(f[p]) {
      var q := Destination(a, Some(b), p);
      assert Get(there, q) == Some(f[p]);
      ThereAndBack(a, b, p);
    }
    forall p | p in back ensures p in f {
      var q := Origin(there, b, Some(a), p);
      var o := Origin(f, a, Some(b), q);
      ThereAndBack(a, b, o);
    }
  }

  lemma ThereAndBack(a: ClientId, b: ClientId, p: Path)
    requires a != b && p.slot != Parked(a)
    ensures Destination(b, Some(a), Destination(a, Some(b), p)) == p
  {
  }

  lemma ReadyToReturn(f: Files, a: ClientId, b: ClientId)
    requires a != b && Feasible(f, a, Some(b)) && Path(Active, ClientYaml) in f
    ensures Feasible(After(f, Plan(a, Some(b)), |Plan(a, Some(b))|), b, Some(a))
  {
    var there := After(f, Plan(a, Some(b)), |Plan(a, Some(b))|);
    hide After, Plan;
    Placement(f, a, Some(b));
    forall k ensures Path(Parked(b), k) !in there {
      FinalAt(f, a, Some(b), Path(Parked(b), k));
    }
    assert Get(there, Destination(a, Some(b), Path(Active, ClientYaml))).Some?;
    assert Get(there, Destination(a, Some(b), Path(Parked(b), ClientYaml))).Some?;
  }

  // ---------------------------------------------------------------- conservation at every step

  /** Where the first i moves have carried the object at p. */
  function Track(f: Files, plan: seq<Move>, i: nat, p: Path): Path
    requires i <= |plan|
    decreases i
  {
    if i == 0 then p
    else
      var q := Track(f, plan, i - 1, p);
      if Renames(After(f, plan, i - 1), plan[i - 1]) && q == plan[i - 1].source then plan[i - 1].target else q
  }

  /** Where the object found at q after i moves comes from. */
  function Source(f: Files, plan: seq<Move>, i: nat, q: Path): Path
    requires i <= |plan|
    decreases i
  {
    if i == 0 then q
    else
      Source(f, plan, i - 1,
             if Renames(After(f, plan, i - 1), plan[i - 1]) && q == plan[i - 1].target then plan[i - 1].source else q)
  }

  /** After any number of moves, of any plan, every object exists at exactly one place, and
      nothing has been overwritten. */
  lemma {:induction false} Conserved(f: Files, plan: seq<Move>, i: nat)
    requires i <= |plan|
    ensures var t := After(f, plan, i);
            && (forall p :: p in f ==>
                  Get(t, Track(f, plan, i, p)) == Some(f[p]) && Source(f, plan, i, Track(f, plan, i, p)) == p)
            && (forall q :: q in t ==> Source(f, plan, i, q) in f && Track(f, plan, i, Source(f, plan, i, q)) == q)
    decreases i
  {
    if i > 0 {
      Conserved(f, plan, i - 1);
    }
  }

  /** Parking leaves every other client's parked files alone. */
  lemma {:induction false} RestoreUntouched(f: Files, from: ClientId, to: Option<ClientId>, i: nat, c: ClientId,
      k: Kind)
    requires i <= |KINDS| && c != from
    ensures i <= |Plan(from, to)|
    ensures var p, t := Path(Parked(c), k), After(f, Plan(from, to), i);
            (p in t <==> p in f) && (p in f ==> t[p] == f[p])
    decreases i
  {
    PlanGrouped(from, to);
    if i > 0 {
      RestoreUntouched(f, from, to, i - 1, c, k);
      assert Plan(from, to)[i - 1] == MoveOf(Park, Active, Parked(from), KINDS[i - 1]);
    }
  }
}
