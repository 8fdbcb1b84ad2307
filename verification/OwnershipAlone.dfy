/** A call that runs while nobody else moves: what a well-behaved environment may decide, the states the
    call passes through, and why it comes to rest. */
module OwnershipAlone {
  import opened Options
  import opened OwnershipState
  import opened OwnershipFacts
  import opened OwnershipProtocol

  /** What decides each choice, from all there is to see. */
  type Env = Out -> Choice

  /** The scan entries still to be read. */
  function Todo(pc: Pc): set<FileName> {
    match pc
    case Drain(_, DrainScan(todo, _)) => todo
    case Elect(_, ElectScan(names)) => names
    case _ => {}
  }

  ghost predicate Unused(files: map<FileName, Run>, n: nat) {
    forall x :: Alias(x, n) !in files
  }

  /** Nothing throws, every query is conclusive, alias suffixes are new, a scan goes on with one of its
      entries, and the repair decision finds the candidate there is.  The order of a scan is free. */
  ghost predicate Helpful(o: Out, c: Choice) {
    && !c.fail && !c.doubt
    && (Todo(o.l.pc) != {} ==> c.name in Todo(o.l.pc))
    && Unused(o.h.f.entrants, c.n) && Unused(o.h.f.slots, c.n)
    && (match o.l.pc
        case Repair(_, SurveyScan(_, left, _)) => left != {} ==> c.pick in left
        case Repair(_, Decide(m, cands)) => forall n :: Decision(m, cands, n).Some? ==> Decision(m, cands, c.pick).Some?
        case _ => true)
  }

  ghost predicate Helps(env: Env, repair: bool) {
    forall o :: Helpful(o, env(o)) && env(o).repair == repair
  }

  predicate Below(names: set<FileName>, n: nat) {
    forall a :: a in names && a.Alias? ==> a.n < n
  }

  lemma {:induction false} SomeSuffix(names: set<FileName>)
    ensures exists n :: Below(names, n)
    decreases names
  {
    if names == {} {
      assert Below(names, 0);
    } else {
      var a :| a in names;
      SomeSuffix(names - {a});
      var n :| Below(names - {a}, n);
      assert Below(names, if a.Alias? && a.n >= n then a.n + 1 else n);
    }
  }

  /** There is always such a choice. */
  lemma HelpfulChoice(o: Out, repair: bool)
    ensures exists c :: Helpful(o, c) && c.repair == repair
  {
    var names := o.h.f.entrants.Keys + o.h.f.slots.Keys;
    SomeSuffix(names);
    var n :| Below(names, n);
    assert forall x :: Alias(x, n) !in names;
    var name :| Todo(o.l.pc) != {} ==> name in Todo(o.l.pc);
    var pick: Run :=
      match o.l.pc
      case Repair(_, SurveyScan(_, left, _)) => (var p :| left != {} ==> p in left; p)
      case Repair(_, Decide(m, cands)) =>
        if k :| Decision(m, cands, k).Some? then k else Run(0, 0)
      case _ => Run(0, 0);
    assert Helpful(o, Choice(false, false, name, n, repair, pick));
  }

  ghost function Help(o: Out, repair: bool): (c: Choice)
    ensures Helpful(o, c) && c.repair == repair
  {
    HelpfulChoice(o, repair);
    var c :| Helpful(o, c) && c.repair == repair;
    c
  }

  /** k steps of run r with nobody else moving. */
  function Alone(h: Home, r: Run, l: Local, env: Env, k: nat): Out
    decreases k
  {
    if k == 0 then Out(h, l) else var o := StepOf(h, r, l, env(Out(h, l))); Alone(o.h, r, o.l, env, k - 1)
  }

  lemma AloneStep(h: Home, r: Run, l: Local, env: Env, k: nat)
    ensures Alone(h, r, l, env, 0) == Out(h, l)
    ensures var o := StepOf(h, r, l, env(Out(h, l))); Alone(h, r, l, env, k + 1) == Alone(o.h, r, o.l, env, k)
  {
    hide StepOf;
  }

  /** Nobody alive has an entrant, a slot or the repair guard, and r is new.  What dead calls left, killed
      recoveries and killed repairs included, may all be there. */
  ghost predicate Deserted(h: Home, r: Run) {
    && Ground(h.f) && Alive(h, r) && r !in h.f.tickets && r !in h.f.quarantine && r !in h.f.released
    && (forall n :: n in h.f.quarantine ==> !Alive(h, h.f.quarantine[n]))
    && (forall n :: n in h.f.entrants ==> !Alive(h, n.run))
    && (forall n :: n in h.f.slots ==> !Alive(h, n.run))
    && (h.repairGuard.Some? ==> !Alive(h, h.repairGuard.value))
  }

  /** The entrants but one's own all are dead, and still to be looked at. */
  predicate DrainingLone(h: Home, own: Option<FileName>, d: DrainPc) {
    && (own.Some? ==> own.value in h.f.entrants)
    && (forall n :: n in h.f.entrants ==> h.f.entrants[n] == n.run)
    && (forall n :: n in h.f.entrants && own != Some(n) ==> !Alive(h, n.run))
    && (match d
        case DrainSnapshot => true
        case DrainScan(todo, blocked) => !blocked && forall n :: n in h.f.entrants ==> own == Some(n) || n in todo
        case DrainJudge(todo, blocked, name, x) =>
          !blocked && x == name.run && !Alive(h, x)
          && forall n :: n in h.f.entrants ==> own == Some(n) || n in todo || n == name
        case DrainDrop(todo, blocked, name) =>
          !blocked && !Alive(h, name.run) && forall n :: n in h.f.entrants ==> own == Some(n) || n in todo || n == name
        case DrainErase(todo, blocked, _, name) =>
          !blocked && own != Some(name) && forall n :: n in h.f.entrants ==> own == Some(n) || n in todo || n == name)
  }

  /** Reading one more entrant of the listing. */
  lemma DrainRead(h: Home, own: Option<FileName>, todo: set<FileName>, blocked: bool, name: FileName)
    requires DrainingLone(h, own, DrainScan(todo, blocked)) && name in todo
    ensures |todo - {name}| < |todo| && !blocked
    ensures own == Some(name) || name !in h.f.entrants ==> DrainingLone(h, own, DrainScan(todo - {name}, blocked))
    ensures own != Some(name) && name in h.f.entrants ==>
              DrainingLone(h, own, DrainJudge(todo - {name}, blocked, name, h.f.entrants[name]))
  {
  }

  /** The end of the listing. */
  lemma Drained(h: Home, own: Option<FileName>, blocked: bool)
    requires DrainingLone(h, own, DrainScan({}, blocked))
    ensures !blocked && h.f.entrants == match own case None => map[] case Some(n) => map[n := n.run]
  {
  }

  /** Setting a dead entrant aside. */
  lemma Dropped(h: Home, own: Option<FileName>, todo: set<FileName>, blocked: bool, name: FileName, n: nat)
    requires DrainingLone(h, own, DrainDrop(todo, blocked, name)) && Unused(h.f.entrants, n)
    requires own.Some? ==> Alive(h, own.value.run)
    ensures name !in h.f.entrants ==> DrainingLone(h, own, DrainScan(todo, blocked))
    ensures name in h.f.entrants ==>
              var x := h.f.entrants[name];
              && Alias(x, n) !in h.f.entrants
              && DrainingLone(h.(f := h.f.(entrants := (h.f.entrants - {name})[Alias(x, n) := x])), own,
                              DrainErase(todo, blocked, name, Alias(x, n)))
  {
  }

  // ---------------------------------------------------------------- coming to rest

  function EnterRank(e: EnterPc): nat {
    match e
    case Idle => 100
    case Fence1 => 99
    case Fence2(k) => if k.First? then 92 else 80
    case LinkMain => 91
    case RacedRecovery => 90
    case RacedFence(_) => 89
    case ReadMain => 88
    case JudgeMain(_) => 87
    case LinkRecovery => 79
  }

  function GuardRank(g: GuardPc): nat {
    match g
    case GuardRead(_) => 5
    case GuardJudge(_, _) => 4
    case GuardReread(_, _) => 3
    case GuardRejudge(_, _, _) => 2
    case GuardMove(_, _) => 1
    case GuardCheck(_, _) => 0
  }

  function StageRank(st: Stage): nat {
    match st
    case ToDrain => 76
    case ToInspect => 72
    case ToMove(_) => 68
    case AfterMove(_) => 64
    case ToRepublish => 62
    case ToConfirm => 59
  }

  function RecoveryRank(v: RecoveryPc): nat {
    match v
    case AssertGuard => 78
    case LinkFence => 77
    case HoldGuard(st) => StageRank(st)
    case HoldFence(st) => StageRank(st) - 1
    case Inspect => 70
    case JudgeInspect(_) => 69
    case MoveMain(_) => 66
    case CheckMoved(_) => 65
    case Republish => 60
    case Confirm => 57
    case ConfirmAgain => 53
    case ConfirmGuard => 52
  }

  function CatchRank(x: CatchPc): nat {
    match x
    case FinallyGuard => 51
    case FinallyGuardMove => 50
    case FinallyGuardCheck(_) => 49
    case _ => 48
  }

  function RemoveRank(m: RemovePc): nat {
    match m
    case RmFence(_) => 56
    case RmFenceMove(_) => 55
    case _ => 54
  }

  function ExitRank(x: ExitPc): nat {
    match x
    case FinallyEntrant => 2
    case EraseEntrant(_) => 1
    case _ => 0
  }

  function CanonRank(o: CanonPc): nat {
    match o
    case CanonRead(a) => if a == 0 then 94 else 89
    case CanonJudge(_, _) => 93
    case CanonCheck(_, _) => 92
    case CanonMove(_, _) => 91
    case CanonMoved(_, _, _) => 90
    case CanonLink(_) => 88
    case CanonAssert => 87
  }

  function OpenRank(q: OpenPc): nat {
    match q
    case OpenOwned => 86
    case ReadFence => 85
    case JudgeFence(_) => 84
    case PrintFence(_) => 83
  }

  function RepairStageRank(rs: RepairStage): nat {
    match rs
    case ToSurvey => 79
    case ToDisplace(_, _) => 72
    case ToRestore(_, _) => 68
    case ToLegacy(_) => 63
    case ToUnfence(_) => 57
  }

  function RepairRank(p: RepairPc): nat {
    match p
    case RepairOwned(rs) => RepairStageRank(rs)
    case RepairExact(rs) => RepairStageRank(rs) - 1
    case SurveyMain => 77
    case SurveyJudge(_) => 76
    case SurveySnapshot(_) => 75
    case SurveyScan(_, _, _) => 74
    case SurveyFound(_, _, _, _, _) => 74
    case Decide(_, _) => 73
    case Reinstate(_, _) => 66
    case ReinstateUnlink(_) => 65
    case Reconcile(_) => 64
    case Legacy(_) => 61
    case LegacyJudge(_, _) => 60
    case LegacyMove(_) => 59
    case LegacyCheck(_, _) => 58
    case Unfence(_) => 55
    case UnfenceMove(_) => 54
    case UnfenceCheck(_, _) => 53
    case _ => 70
  }

  function ReleaseRank(z: ReleasePc): nat {
    match z
    case ReleaseGuard => 6
    case ReleaseGuardMove => 5
    case ReleaseGuardCheck(_) => 4
    case ReleaseTicket => 3
    case ReleaseSlot => 2
    case ReleaseErase(_) => 1
    case RepairDone => 0
  }

  /** How far the call still has to go, */
  function Rank(pc: Pc): nat {
    match pc
    case Enter(e) => EnterRank(e)
    case Guard(k, g) => GuardRank(g) + if k.First? then 93 else 81
    case Recovery(v) => RecoveryRank(v)
    case Drain(w, d) => (if w.Holder? then 73 else 81) + if d.DrainSnapshot? then 1 else 0
    case Catch(x) => CatchRank(x)
    case Remove(m) => RemoveRank(m)
    case Exit(x) => ExitRank(x)
    case Elect(ph, e) => (if ph.Choose? then 98 else 95) + if e.ElectSnapshot? then 1 else 0
    case PublishTicket(_) => 97
    case Canon(o) => CanonRank(o)
    case Open(q) => OpenRank(q)
    case Repair(_, p) => RepairRank(p)
    case Release(_, z) => ReleaseRank(z)
  }

  /** inside a scan how many entries are left, */
  function Left(pc: Pc): nat {
    match pc
    case Drain(_, DrainScan(todo, _)) => |todo|
    case Drain(_, DrainJudge(todo, _, _, _)) => |todo|
    case Drain(_, DrainDrop(todo, _, _)) => |todo|
    case Drain(_, DrainErase(todo, _, _, _)) => |todo|
    case Elect(_, ElectScan(names)) => |names|
    case Elect(_, ElectJudge(names, _, _)) => |names|
    case Elect(_, ElectTicket(names, _)) => |names|
    case Elect(_, DropTicket(names, _, _)) => |names|
    case Elect(_, DropSlot(names, _)) => |names|
    case Elect(_, EraseSlot(names, _, _)) => |names|
    case Repair(_, SurveyScan(_, left, _)) => |left|
    case Repair(_, SurveyFound(_, left, _, _, _)) => |left|
    case _ => 0
  }

  /** and how much is still to be done about the one at hand. */
  function Sub(pc: Pc): nat {
    match pc
    case Drain(_, DrainJudge(_, _, _, _)) => 3
    case Drain(_, DrainDrop(_, _, _)) => 2
    case Drain(_, DrainErase(_, _, _, _)) => 1
    case Elect(_, ElectJudge(_, _, _)) => 4
    case Elect(_, ElectTicket(_, _)) => 1
    case Elect(_, DropTicket(_, _, _)) => 3
    case Elect(_, DropSlot(_, _)) => 2
    case Elect(_, EraseSlot(_, _, _)) => 1
    case Repair(_, SurveyFound(_, _, _, _, _)) => 1
    case _ => 0
  }

  predicate Nearer(a: Pc, b: Pc) {
    || Rank(a) < Rank(b)
    || (Rank(a) == Rank(b) && Left(a) < Left(b))
    || (Rank(a) == Rank(b) && Left(a) == Left(b) && Sub(a) < Sub(b))
  }
}
