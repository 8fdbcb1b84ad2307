/**
 The journaled client switch.  `Computer` is the disk a login works on and the environment
 that may make any step throw or kill the process before it.  Every rename, removal and
 whole-file write is one step; JSON and YAML files are read and written whole.
 */
module ClientSwitch {
  import opened Options
  import opened SwitchPlan

  datatype Account = Account(server: nat, user: nat)
  datatype Owner = Owner(client: ClientId, account: Account)

  datatype Phase =
    Locked | ServiceStopped | DrainClean | ParkedOldClient | RestoredTargetClient | CredentialsWritten | Complete

  datatype Journal = Journal(
    phase: Phase, from: Owner, client: Option<ClientId>, to: Account, moves: Option<seq<Move>>)

  datatype Entry = Entry(account: Account, active: bool)

  datatype Index = Index(defaults: map<Account, ClientId>, clients: map<ClientId, Entry>, active: Option<ClientId>)

  datatype Disk = Disk(
    files: Files, lock: bool, journal: Option<Journal>, credentials: Option<Account>, index: Index)

  datatype Failure = Io | ManualRepair | RetryRequired | OwnerUnknown
  datatype Outcome = Fine | Killed | Failed(why: Failure)
  datatype Signal = Go | Throw | Kill

  const YAML: Path := Path(Active, ClientYaml)

  /** readRootClientId. */
  function ClientOf(f: Files): Option<ClientId> {
    if YAML in f && f[YAML].Yaml? then f[YAML].client else None
  }

  /** setConfigValue of server.url; creates client.yaml when there is none. */
  function Pointed(f: Files, server: nat): Files {
    f[YAML := Yaml(ClientOf(f), Some(server))]
  }

  /** initConfig generates and saves a client id when client.yaml has none. */
  function Identified(f: Files, draw: ClientId): Files {
    if ClientOf(f).Some? then f
    else f[YAML := Yaml(Some(draw), if YAML in f && f[YAML].Yaml? then f[YAML].server else None)]
  }

  function Remembered(ix: Index, a: Account): Option<ClientId> {
    if a in ix.defaults then Some(ix.defaults[a]) else None
  }

  /** updateSwitchIndex. */
  function Indexed(ix: Index, from: Owner, to: Owner): Index {
    Index(ix.defaults[from.account := from.client][to.account := to.client],
          ix.clients[from.client := Entry(from.account, false)][to.client := Entry(to.account, true)],
          Some(to.client))
  }

  /** Writing the index again after a kill changes nothing. */
  lemma IndexedTwice(ix: Index, from: Owner, to: Owner)
    ensures Indexed(Indexed(ix, from, to), from, to) == Indexed(ix, from, to)
  {
    var once, twice := Indexed(ix, from, to), Indexed(Indexed(ix, from, to), from, to);
    assert twice.defaults == once.defaults;
    assert twice.clients == once.clients;
  }

  /** getClientSwitchStartupBlock. */
  predicate StartupBlocked(d: Disk) {
    d.lock || d.journal.Some?
  }

  predicate HasRootMovement(journal: Option<Journal>) {
    journal.Some? &&
    ((journal.value.moves.Some? && |journal.value.moves.value| > 0)
     || journal.value.phase in {ParkedOldClient, RestoredTargetClient, CredentialsWritten, Complete})
  }

  // ---------------------------------------------------------------- one switch and its progress

  /** The switch a login sets out to make, and the state it started from. */
  datatype Goal = Goal(files: Files, index: Index, credentials: Option<Account>, from: Owner, to: Account) {
    function Target(): Option<ClientId> { Remembered(index, to) }

    function Moves(): seq<Move> { Plan(from.client, Target()) }

    /** The files after an undisturbed run of all moves. */
    function Base(): Files { After(files, Moves(), |Moves()|) }
  }

  /** The first m moves are recorded, and at most the rename of the next one has happened: the
      files are exactly those of an undisturbed run at that point. */
  ghost predicate Midway(f0: Files, plan: seq<Move>, f: Files, moves: seq<Move>, m: nat) {
    && m <= |plan| == |moves|
    && Clear(f0, plan, m)
    && (forall j :: 0 <= j < m ==> moves[j] == plan[j].(state := Mark(After(f0, plan, j), plan[j]).value))
    && (forall j :: m <= j < |plan| ==> moves[j] == plan[j])
    && (f == After(f0, plan, m)
        || (m < |plan| && Renames(After(f0, plan, m), plan[m]) && f == After(f0, plan, m + 1)))
  }

  lemma AfterNext(f0: Files, plan: seq<Move>, m: nat)
    requires m < |plan|
    ensures After(f0, plan, m + 1) == Applied(After(f0, plan, m), plan[m])
    ensures Clear(f0, plan, m + 1) <==> Clear(f0, plan, m) && Mark(After(f0, plan, m), plan[m]).Some?
  {
    assert After(f0, plan, m + 1) == Applied(After(f0, plan, m), plan[m]);
    hide After;
  }

  lemma EntryAt(f0: Files, plan: seq<Move>, f: Files, moves: seq<Move>, m: nat, i: nat)
    requires Midway(f0, plan, f, moves, m) && i < |plan|
    ensures m <= |plan| == |moves| && moves[i].group == plan[i].group
    ensures i < m ==> moves[i].state != Pending
    ensures m <= i ==> moves[i] == plan[i]
  {
  }

  /** A move that cannot be classified now cannot be classified by an undisturbed run. */
  lemma Stuck(f0: Files, plan: seq<Move>, f: Files, moves: seq<Move>, m: nat, b: nat)
    requires Midway(f0, plan, f, moves, m) && Grouped(plan, b) && m < |plan| && Mark(f, plan[m]) == None
    ensures !Clear(f0, plan, |plan|)
  {
    assert Mark(After(f0, plan, m), plan[m]) == None;
  }

  /** A rename that has still to be made takes the files one move on. */
  lemma Renamed(f0: Files, plan: seq<Move>, f: Files, moves: seq<Move>, m: nat, b: nat)
    requires Midway(f0, plan, f, moves, m) && Grouped(plan, b) && m < |plan| && Renames(f, plan[m])
    ensures Midway(f0, plan, Applied(f, plan[m]), moves, m)
  {
    assert f == After(f0, plan, m);
    assert Applied(f, plan[m]) == After(f0, plan, m + 1);
  }

  /** A move without a source is recorded as an undisturbed run would record it. */
  lemma Recorded(f0: Files, plan: seq<Move>, f: Files, moves: seq<Move>, m: nat, b: nat)
    requires Midway(f0, plan, f, moves, m) && Grouped(plan, b) && m < |plan| && plan[m].state == Pending
    requires plan[m].source !in f && (plan[m].target in f || !plan[m].required)
    ensures m < |moves|
    ensures var state := if plan[m].target in f then Done else Absent;
            Midway(f0, plan, f, moves[m := plan[m].(state := state)], m + 1)
  {
    var state := if plan[m].target in f then Done else Absent;
    AfterNext(f0, plan, m);
    hide After, Clear;
    assert f == After(f0, plan, m + 1);
    assert Mark(After(f0, plan, m), plan[m]) == Some(state);
  }

  lemma GroupAt(plan: seq<Move>, b: nat, i: nat)
    requires Grouped(plan, b) && i < |plan|
    ensures plan[i].group == if i < b then Park else Restore
  {
  }

  lemma MidwayLengths(f0: Files, plan: seq<Move>, f: Files, moves: seq<Move>, m: nat)
    requires Midway(f0, plan, f, moves, m)
    ensures m <= |plan| == |moves|
  {
  }

  lemma Skipped(f0: Files, plan: seq<Move>, f: Files, moves: seq<Move>, m: nat)
    requires Midway(f0, plan, f, moves, m) && m < |plan| && plan[m].state != Pending
    ensures Midway(f0, plan, f, moves, m + 1)
  {
    AfterNext(f0, plan, m);
    hide After, Clear;
  }

  predicate Ours(g: Goal, j: Journal) {
    j.from == g.from && j.to == g.to && j.phase != Complete
  }

  /** No move is planned yet; the journal may be left from an earlier, completed switch. */
  predicate Early(g: Goal, d: Disk) {
    && d.files == g.files && d.index == g.index && d.credentials == g.credentials
    && ClientOf(g.files) == Some(g.from.client)
    && (d.journal.Some? ==>
          d.journal.value.phase.Complete?
          || (Ours(g, d.journal.value) && d.journal.value.moves == None
              && d.journal.value.phase in {Locked, ServiceStopped, DrainClean}))
  }

  ghost predicate MovingAt(g: Goal, d: Disk, m: nat) {
    && d.lock && d.index == g.index && d.credentials == g.credentials
    && d.journal.Some? && Ours(g, d.journal.value) && d.journal.value.moves.Some?
    && Midway(g.files, g.Moves(), d.files, d.journal.value.moves.value, m)
  }

  ghost predicate Moving(g: Goal, d: Disk) {
    exists m :: MovingAt(g, d, m)
  }

  /** The files of the finished switch: client.yaml names its client and the target's server. */
  predicate Identity(g: Goal, f: Files) {
    && ClientOf(f).Some?
    && ClientOf(g.Base()) in {None, ClientOf(f)}
    && f == g.Base()[YAML := Yaml(ClientOf(f), Some(g.to.server))]
  }

  /** client.yaml on its way from what the moves left to the finished switch. */
  predicate Dressed(g: Goal, f: Files) {
    f == g.Base() || f == Pointed(g.Base(), g.to.server) || Identity(g, f)
  }

  lemma PointedDressed(g: Goal, f: Files)
    requires Dressed(g, f)
    ensures var p := Pointed(f, g.to.server);
            Dressed(g, p) && (Identity(g, f) ==> p == f)
  {
    var base := g.Base();
    hide After, Plan;
    assert Identity(g, f) ==> Pointed(f, g.to.server) == f;
    assert f == Pointed(base, g.to.server) ==> Pointed(f, g.to.server) == f;
  }

  lemma IdentifiedIdentity(g: Goal, f: Files, draw: ClientId)
    requires Dressed(g, f) && f == Pointed(f, g.to.server)
    ensures Identity(g, Identified(f, draw)) && (Identity(g, f) ==> Identified(f, draw) == f)
  {
    var base := g.Base();
    hide After, Plan;
    assert f == base[YAML := Yaml(ClientOf(f), Some(g.to.server))];
    assert Identified(f, draw) == base[YAML := Yaml(ClientOf(Identified(f, draw)), Some(g.to.server))];
  }

  /** The client id a switch ends with: the one the moves brought, or else one generated now. */
  function Named(g: Goal, draw: ClientId): Option<ClientId> {
    if ClientOf(g.Base()).Some? then ClientOf(g.Base()) else Some(draw)
  }

  lemma IdentifiedNames(g: Goal, draw: ClientId)
    ensures ClientOf(Identified(Pointed(g.Base(), g.to.server), draw)) == Named(g, draw)
  {
    hide After, Plan;
  }

  function NewIndex(g: Goal, f: Files): Index
    requires ClientOf(f).Some?
  {
    Indexed(g.index, g.from, Owner(ClientOf(f).value, g.to))
  }

  /** Every move is recorded; credentials, client.yaml and index are being written. */
  ghost predicate Finishing(g: Goal, d: Disk) {
    && d.lock && d.journal.Some? && Ours(g, d.journal.value) && d.journal.value.moves.Some?
    && Midway(g.files, g.Moves(), g.Base(), d.journal.value.moves.value, |g.Moves()|)
    && Dressed(g, d.files)
    && (d.index == g.index || (Identity(g, d.files) && d.index == NewIndex(g, d.files)))
  }

  /** Everything any number of killed logins can leave before the switch is complete. */
  ghost predicate Underway(g: Goal, d: Disk) {
    Early(g, d) || Moving(g, d) || Finishing(g, d)
  }

  /** The switch is made; at most its journal, marked complete, and its lock are left. */
  ghost predicate Completed(g: Goal, d: Disk) {
    && Identity(g, d.files) && d.index == NewIndex(g, d.files) && d.credentials == Some(g.to)
    && Feasible(g.files, g.from.client, g.Target())
    && (d.journal.Some? ==> d.journal.value.phase.Complete?)
  }

  /** A lock without a journal: what a kill leaves between the two writes that set a switch
      up, or the two removals that end one. */
  predicate LockedOut(d: Disk) {
    d.lock && d.journal.None?
  }

  /** Nothing keeps a login from starting a switch. */
  predicate CanStart(d: Disk, previous: Option<Account>) {
    d.journal == None && !d.lock && previous.Some? && ClientOf(d.files).Some?
  }

  /** A journal that is not marked complete. */
  predicate SwitchPending(d: Disk) {
    d.journal.Some? && d.journal.value.phase != Complete
  }

  lemma PendingOurs(g: Goal, d: Disk)
    requires Underway(g, d)
    ensures SwitchPending(d) ==> Ours(g, d.journal.value)
    ensures !SwitchPending(d) ==> Early(g, d)
  {
  }

  /** This login makes, or takes up, the switch g. */
  ghost predicate Attempts(g: Goal, d: Disk, previous: Option<Account>, target: Account) {
    && Underway(g, d) && target == g.to
    && (!SwitchPending(d) ==> previous == Some(g.from.account))
  }

  // ---------------------------------------------------------------- which switch a login makes

  /** readActiveClientOwner. */
  function ActiveOwner(f: Files, ix: Index): Option<Account> {
    var c := ClientOf(f);
    if c.Some? && c.value in ix.clients && ix.clients[c.value].active then Some(ix.clients[c.value].account) else None
  }

  /** The login command switches from the stored credentials, or else from the remembered owner of the active
      client, if that is another user. */
  function SwitchFrom(f: Files, ix: Index, credentials: Option<Account>, target: Account): Option<Account> {
    var remembered := ActiveOwner(f, ix);
    if credentials.Some? && credentials.value.user != target.user then credentials
    else if remembered.Some? && remembered.value.user != target.user then remembered
    else None
  }

  /** What logins to one account, stopped anywhere, can leave of the switch the first of them had to make. */
  ghost predicate OnTheWay(g: Goal, d: Disk) {
    && SwitchFrom(g.files, g.index, g.credentials, g.to) == Some(g.from.account)
    && (Underway(g, d) || Completed(g, d))
  }

  /** Until a move is planned a login has the same switch to make, and once it is made it has none. */
  lemma SameSwitch(g: Goal, d: Disk)
    requires OnTheWay(g, d)
    ensures Early(g, d) ==> SwitchFrom(d.files, d.index, d.credentials, g.to) == Some(g.from.account)
    ensures Completed(g, d) ==> SwitchFrom(d.files, d.index, d.credentials, g.to) == None && !SwitchPending(d)
    ensures !(Completed(g, d) && Underway(g, d))
    ensures !Completed(g, d) && !SwitchPending(d) ==> Early(g, d)
    ensures SwitchPending(d) ==> Ours(g, d.journal.value)
  {
    hide Feasible, Midway, Goal.Base, Goal.Moves;
    if Completed(g, d) {
      assert ActiveOwner(d.files, d.index) == Some(g.to);
    } else {
      PendingOurs(g, d);
    }
  }

  // ---------------------------------------------------------------- plans in progress

  lemma Planned(g: Goal)
    ensures Midway(g.files, g.Moves(), g.files, g.Moves(), 0)
  {
  }

  /** No move is recorded yet. */
  lemma JustPlanned(g: Goal, d: Disk)
    requires d.journal.Some? && d.journal.value.moves == Some(g.Moves())
    ensures !Finishing(g, d)
  {
    PlanGrouped(g.from.client, g.Target());
    if Finishing(g, d) {
      EntryAt(g.files, g.Moves(), g.Base(), g.Moves(), |g.Moves()|, 0);
    }
  }

  lemma PlanNotEmpty(g: Goal, d: Disk)
    requires Moving(g, d) || Finishing(g, d)
    ensures |d.journal.value.moves.value| > 0
  {
    PlanGrouped(g.from.client, g.Target());
  }

  lemma {:induction false} IdleAfter(f: Files, plan: seq<Move>, i: nat)
    requires i <= |plan| && forall j :: 0 <= j < |plan| ==> plan[j].state != Pending
    ensures After(f, plan, i) == f
    decreases i
  {
    if i > 0 {
      IdleAfter(f, plan, i - 1);
    }
  }

  lemma IdleMidway(f: Files, plan: seq<Move>)
    requires forall j :: 0 <= j < |plan| ==> plan[j].state != Pending
    ensures Midway(f, plan, f, plan, |plan|)
    ensures forall t, moves :: Midway(f, plan, t, moves, |plan|) ==> t == f && moves == plan
  {
    forall i | 0 <= i <= |plan| ensures After(f, plan, i) == f {
      IdleAfter(f, plan, i);
    }
  }

  lemma RecordedIdle(g: Goal, d: Disk)
    requires Finishing(g, d)
    ensures var plan := d.journal.value.moves.value;
            && Grouped(plan, |KINDS|) && |plan| >= |KINDS|
            && Midway(d.files, plan, d.files, plan, |plan|)
            && (forall t, moves :: Midway(d.files, plan, t, moves, |plan|) ==> t == d.files && moves == plan)
  {
    PlanGrouped(g.from.client, g.Target());
    var plan := d.journal.value.moves.value;
    forall j | 0 <= j < |plan| ensures plan[j].state != Pending {
      EntryAt(g.files, g.Moves(), g.Base(), plan, |plan|, j);
    }
    IdleMidway(d.files, plan);
  }

  /** The plan this login carries out from where it stands.  Once every move is recorded, the recorded moves
      are themselves a plan that does nothing. */
  ghost predicate InProgress(g: Goal, d: Disk, f0: Files, plan: seq<Move>, m: nat) {
    || (f0 == g.files && plan == g.Moves() && MovingAt(g, d, m))
    || (Finishing(g, d) && f0 == d.files && plan == d.journal.value.moves.value && m == |plan|)
  }

  lemma Progress(g: Goal, d: Disk) returns (f0: Files, plan: seq<Move>, m: nat)
    requires Moving(g, d) || Finishing(g, d)
    ensures InProgress(g, d, f0, plan, m) && Grouped(plan, |KINDS|)
    ensures d.journal.Some? && d.journal.value.moves.Some? && Midway(f0, plan, d.files, d.journal.value.moves.value, m)
    ensures !Clear(f0, plan, |plan|) ==> !Feasible(g.files, g.from.client, g.Target())
  {
    PlanGrouped(g.from.client, g.Target());
    PlanFeasible(g.files, g.from.client, g.Target());
    if Finishing(g, d) {
      RecordedIdle(g, d);
      f0, plan, m := d.files, d.journal.value.moves.value, |d.journal.value.moves.value|;
    } else {
      m :| MovingAt(g, d, m);
      f0, plan := g.files, g.Moves();
    }
  }

  /** Only moves and phase of the journal, and the files, have changed. */
  predicate Carried(before: Disk, j: Journal, after: Disk) {
    && before.journal.Some? && j.moves.Some? && after == before.(files := after.files, journal := Some(j))
    && j == before.journal.value.(moves := j.moves, phase := j.phase)
    && j.phase in {before.journal.value.phase, ParkedOldClient}
  }

  /** What carrying out the groups leaves is a switch on its way, or one whose moves all are recorded. */
  lemma GroupsOn(g: Goal, before: Disk, f0: Files, plan: seq<Move>, m0: nat, j: Journal, after: Disk, m: nat)
    requires InProgress(g, before, f0, plan, m0) && Carried(before, j, after)
    requires Midway(f0, plan, after.files, j.moves.value, m) && m0 <= m
    ensures Moving(g, after) || Finishing(g, after)
    ensures m == |plan| ==> Finishing(g, after) && (Finishing(g, before) || after.files == g.Base())
  {
    assert !Finishing(g, before) ==> f0 == g.files && plan == g.Moves() && MovingAt(g, before, m0);
    hide Midway, Goal.Moves, Goal.Base, Carried, Finishing, MovingAt;
    if f0 == g.files && plan == g.Moves() && MovingAt(g, before, m0) {
      GroupsMove(g, before, j, after, m);
    } else {
      GroupsIdle(g, before, j, after, m);
    }
  }

  lemma GroupsMove(g: Goal, before: Disk, j: Journal, after: Disk, m: nat)
    requires Moving(g, before) && Carried(before, j, after)
    requires Midway(g.files, g.Moves(), after.files, j.moves.value, m)
    ensures Moving(g, after) && (m == |g.Moves()| ==> Finishing(g, after) && after.files == g.Base())
  {
    assert MovingAt(g, after, m);
    hide Goal.Moves, After, Clear;
  }

  lemma GroupsIdle(g: Goal, before: Disk, j: Journal, after: Disk, m: nat)
    requires Finishing(g, before) && Carried(before, j, after)
    requires var plan := before.journal.value.moves.value;
             m >= |plan| && Midway(before.files, plan, after.files, j.moves.value, m)
    ensures Finishing(g, after)
  {
    RecordedIdle(g, before);
    assert m == |before.journal.value.moves.value|;
    hide Midway, Goal.Moves, Goal.Base;
  }

  class Computer {
    const signal: nat -> Signal
    var clock: nat
    var disk: Disk

    constructor (d: Disk, signal: nat -> Signal)
      ensures disk == d && clock == 0 && this.signal == signal
    {
      disk, clock, this.signal := d, 0, signal;
    }

    /** Nothing throws and nobody kills the process any more. */
    ghost predicate SmoothFrom(t: nat) {
      forall i :: t <= i ==> signal(i) == Go
    }

    /** Nothing throws and nobody kills the process before step u. */
    ghost predicate SmoothUntil(t: nat, u: nat) {
      forall i :: t <= i < u ==> signal(i) == Go
    }

    /** One step on the disk, if the process gets to make it. */
    method Effect(d: Disk) returns (o: Outcome)
      modifies this
      ensures clock == old(clock) + 1
      ensures disk == if o.Fine? then d else old(disk)
      ensures o == match signal(old(clock)) case Go => Fine case Throw => Failed(Io) case Kill => Killed
    {
      var s := signal(clock);
      clock := clock + 1;
      match s
      case Go => disk := d; o := Fine;
      case Throw => o := Failed(Io);
      case Kill => o := Killed;
    }

    /** writeJournal: the file is replaced as a whole. */
    method WriteJournal(j: Journal) returns (o: Outcome)
      modifies this
      ensures clock == old(clock) + 1
      ensures disk == if o.Fine? then old(disk).(journal := Some(j)) else old(disk)
      ensures o == match signal(old(clock)) case Go => Fine case Throw => Failed(Io) case Kill => Killed
    {
      o := Effect(disk.(journal := Some(j)));
    }

    /** clearSwitchLock: the journal goes first. */
    method ClearSwitchLock() returns (o: Outcome)
      modifies this
      ensures old(clock) <= clock <= old(clock) + 2
      ensures o.Fine? ==> disk == old(disk).(journal := None, lock := false)
      ensures !o.Fine? ==> disk in {old(disk), old(disk).(journal := None)} && o in {Killed, Failed(Io)}
      ensures SmoothFrom(old(clock)) ==> o.Fine?
      ensures signal(old(clock)) == Kill ==> o == Killed && disk == old(disk)
    {
      o := Effect(disk.(journal := None));
      if o.Fine? {
        o := Effect(disk.(lock := false));
      }
    }

    /** executeSwitchMoves on one pending entry: classify the move by what exists, rename, record. */
    method ExecuteMove(j0: Journal, i: nat, ghost f0: Files, ghost plan: seq<Move>, ghost b: nat)
      returns (o: Outcome, j: Journal)
      requires disk.journal == Some(j0) && j0.moves.Some?
      requires Grouped(plan, b) && Midway(f0, plan, disk.files, j0.moves.value, i)
      requires i < |plan| && plan[i].state == Pending
      modifies this
      ensures old(clock) <= clock
      ensures disk == old(disk).(files := disk.files, journal := Some(j))
      ensures j.moves.Some? && j == j0.(moves := j.moves)
      ensures Midway(f0, plan, disk.files, j.moves.value, if o.Fine? then i + 1 else i)
      ensures o == Failed(ManualRepair) ==> !Clear(f0, plan, |plan|)
      ensures SmoothFrom(old(clock)) ==> o in {Fine, Failed(ManualRepair)}
      ensures o in {Fine, Killed, Failed(Io), Failed(ManualRepair)}
    {
      EntryAt(f0, plan, disk.files, j0.moves.value, i, i);
      hide Midway, After, Clear, Grouped;
      var entry := j0.moves.value[i];
      var source, target := entry.source in disk.files, entry.target in disk.files;
      j, o := j0, Fine;
      if (!source && !target && entry.required) || (source && target) {
        Stuck(f0, plan, disk.files, j0.moves.value, i, b);
        return Failed(ManualRepair), j;
      }
      if source {
        // mkdirSync and assertSameDeviceRename
        o := Effect(disk);
        if !o.Fine? { return; }
        Renamed(f0, plan, disk.files, j0.moves.value, i, b);
        o := Effect(disk.(files := (disk.files - {entry.source})[entry.target := disk.files[entry.source]]));
        if !o.Fine? { return; }
      }
      // markMove
      Recorded(f0, plan, disk.files, j0.moves.value, i, b);
      var state := if source || target then Done else Absent;
      var marked := j0.(moves := Some(j0.moves.value[i := entry.(state := state)]));
      o := WriteJournal(marked);
      if o.Fine? {
        j := marked;
      }
    }

    /** One turn of its loop: an entry of this group that is still pending is carried out. */
    method ExecuteEntry(j0: Journal, i: nat, group: Group, ghost f0: Files, ghost plan: seq<Move>, ghost b: nat,
        ghost m0: nat)
      returns (o: Outcome, j: Journal, ghost m: nat)
      requires disk.journal == Some(j0) && j0.moves.Some?
      requires Grouped(plan, b) && Midway(f0, plan, disk.files, j0.moves.value, m0)
      requires i < |plan| && (i <= m0 || (group.Park? && b <= m0)) && (group.Restore? ==> b <= m0)
      modifies this
      ensures old(clock) <= clock && m0 <= m
      ensures disk == old(disk).(files := disk.files, journal := Some(j))
      ensures j.moves.Some? && j == j0.(moves := j.moves)
      ensures Midway(f0, plan, disk.files, j.moves.value, m)
      ensures o.Fine? ==> i + 1 <= m || (group.Park? && b <= m)
      ensures o == Failed(ManualRepair) ==> !Clear(f0, plan, |plan|)
      ensures SmoothFrom(old(clock)) ==> o in {Fine, Failed(ManualRepair)}
      ensures o in {Fine, Killed, Failed(Io), Failed(ManualRepair)}
    {
      hide *;
      EntryAt(f0, plan, disk.files, j0.moves.value, m0, i);
      GroupAt(plan, b, i);
      o, j, m := Fine, j0, m0;
      var entry := j0.moves.value[i];
      if entry.group == group && entry.state == Pending {
        o, j := ExecuteMove(j0, i, f0, plan, b);
        if o.Fine? {
          m := m + 1;
        }
      } else if i == m && entry.state != Pending {
        Skipped(f0, plan, disk.files, j.moves.value, m);
        m := m + 1;
      }
    }

    /** executeSwitchMoves: wherever it is stopped, the files and the recorded moves are those
        of an undisturbed run, and it gives up exactly on a move that such a run cannot
        classify either. */
    method ExecuteSwitchMoves(j0: Journal, group: Group, ghost f0: Files, ghost plan: seq<Move>, ghost b: nat,
        ghost m0: nat)
      returns (o: Outcome, j: Journal, ghost m: nat)
      requires disk.journal == Some(j0) && j0.moves.Some?
      requires Grouped(plan, b) && Midway(f0, plan, disk.files, j0.moves.value, m0) && (group.Restore? ==> b <= m0)
      modifies this
      ensures old(clock) <= clock && m0 <= m
      ensures disk == old(disk).(files := disk.files, journal := Some(j))
      ensures j.moves.Some? && j == j0.(moves := j.moves)
      ensures Midway(f0, plan, disk.files, j.moves.value, m)
      ensures o.Fine? ==> b <= m && (group.Restore? ==> m == |plan|)
      ensures o == Failed(ManualRepair) ==> !Clear(f0, plan, |plan|)
      ensures SmoothFrom(old(clock)) ==> o in {Fine, Failed(ManualRepair)}
      ensures o in {Fine, Killed, Failed(Io), Failed(ManualRepair)}
    {
      assert b <= |plan|;
      MidwayLengths(f0, plan, disk.files, j0.moves.value, m0);
      hide After, Clear, Midway, Grouped;
      j, m, o := j0, m0, Fine;
      var i := 0;
      while i < |j0.moves.value|
        invariant o.Fine? && 0 <= i <= |plan| && m0 <= m && old(clock) <= clock
        invariant i <= m || (group.Park? && b <= m)
        invariant j.moves.Some? && j == j0.(moves := j.moves)
        invariant disk == old(disk).(files := disk.files, journal := Some(j))
        invariant Midway(f0, plan, disk.files, j.moves.value, m)
      {
        o, j, m := ExecuteEntry(j, i, group, f0, plan, b, m);
        if !o.Fine? { return; }
        i := i + 1;
      }
      MidwayLengths(f0, plan, disk.files, j.moves.value, m);
    }

    /** The credentials of the target replace the old ones. */
    method FinishCredentials(j0: Journal, ghost g: Goal) returns (o: Outcome, j: Journal)
      requires Finishing(g, disk) && disk.journal == Some(j0)
      modifies this
      ensures old(clock) <= clock
      ensures Finishing(g, disk) && disk.files == old(disk).files
      ensures o.Fine? ==> disk.journal == Some(j) && disk.credentials == Some(g.to) && clock == old(clock) + 4
      ensures o in {Fine, Killed, Failed(Io)}
      ensures SmoothUntil(old(clock), old(clock) + 4) ==> o.Fine?
    {
      hide Dressed, Identity, Midway, Goal.Base, Goal.Moves;
      j := j0.(phase := RestoredTargetClient);
      o := WriteJournal(j);
      if !o.Fine? { return; }
      o := Effect(disk.(credentials := None));
      if !o.Fine? { return; }
      o := Effect(disk.(credentials := Some(j.to)));
      if !o.Fine? { return; }
      j := j.(phase := CredentialsWritten);
      o := WriteJournal(j);
    }

    /** client.yaml is pointed at the target's server and given a client id if it has none. */
    method FinishIdentity(j0: Journal, draw: ClientId, ghost g: Goal) returns (o: Outcome)
      requires Finishing(g, disk) && disk.journal == Some(j0)
      modifies this
      ensures old(clock) <= clock
      ensures disk == old(disk).(files := disk.files) && Finishing(g, disk)
      ensures o.Fine? ==> Identity(g, disk.files) && clock == old(clock) + 2
      ensures o.Fine? && old(disk).files == g.Base() ==> ClientOf(disk.files) == Named(g, draw)
      ensures o in {Fine, Killed, Failed(Io)}
      ensures SmoothUntil(old(clock), old(clock) + 2) ==> o.Fine?
    {
      PointedDressed(g, disk.files);
      IdentifiedNames(g, draw);
      hide Midway, Goal.Base, Goal.Moves;
      o := Effect(disk.(files := Pointed(disk.files, j0.to.server)));
      if !o.Fine? { return; }
      IdentifiedIdentity(g, disk.files, draw);
      o := Effect(disk.(files := Identified(disk.files, draw)));
    }

    /** The index, and the journal marked complete. */
    method FinishIndex(j0: Journal, ghost g: Goal) returns (o: Outcome)
      requires Finishing(g, disk) && disk.journal == Some(j0) && Identity(g, disk.files)
                && disk.credentials == Some(g.to)
      requires Feasible(g.files, g.from.client, g.Target())
      modifies this
      ensures old(clock) <= clock
      ensures (Finishing(g, disk) || Completed(g, disk)) && disk.files == old(disk).files
      ensures o.Fine? ==> Completed(g, disk) && disk.lock && disk.journal.Some? && clock == old(clock) + 2
      ensures o in {Fine, Killed, Failed(Io)}
      ensures SmoothUntil(old(clock), old(clock) + 2) ==> o.Fine?
    {
      hide Midway, Goal.Base, Goal.Moves, Feasible;
      var client := ClientOf(disk.files).value;
      IndexedTwice(g.index, g.from, Owner(client, g.to));
      hide Identity;
      o := Effect(disk.(index := Indexed(disk.index, j0.from, Owner(client, j0.to))));
      if !o.Fine? { return; }
      o := WriteJournal(j0.(phase := Complete, client := Some(client)));
    }

    /** What follows the moves: credentials, client.yaml, index. */
    method FinishSwitch(j0: Journal, draw: ClientId, ghost g: Goal) returns (o: Outcome)
      requires Finishing(g, disk) && disk.journal == Some(j0)
      modifies this
      ensures old(clock) <= clock
      ensures Finishing(g, disk) || Completed(g, disk)
      ensures o.Fine? ==> Completed(g, disk) && disk.lock && disk.journal.Some? && clock == old(clock) + 8
      ensures o.Fine? && old(disk).files == g.Base() ==> ClientOf(disk.files) == Named(g, draw)
      ensures o in {Fine, Killed, Failed(Io)}
      ensures SmoothUntil(old(clock), old(clock) + 8) ==> o.Fine?
    {
      PlanFeasible(g.files, g.from.client, g.Target());
      assert Feasible(g.files, g.from.client, g.Target());
      hide Finishing, Completed, Feasible, Identity;
      var j;
      o, j := FinishCredentials(j0, g);
      if !o.Fine? { return; }
      o := FinishIdentity(j, draw, g);
      if !o.Fine? { return; }
      o := FinishIndex(j, g);
    }

    /** The end of the first login and of a resumed one alike. */
    method Finish(j0: Journal, draw: ClientId, ghost g: Goal) returns (o: Outcome)
      requires Finishing(g, disk) && disk.journal == Some(j0)
      modifies this
      ensures old(clock) <= clock
      ensures Finishing(g, disk) || Completed(g, disk)
      ensures o.Fine? ==> Completed(g, disk) && !StartupBlocked(disk)
      ensures o.Fine? && old(disk).files == g.Base() ==> ClientOf(disk.files) == Named(g, draw)
      ensures o in {Fine, Killed, Failed(Io)}
      ensures SmoothFrom(old(clock)) ==> o.Fine?
      // killed before the journal is removed, it leaves the switch made and start-up blocked
      ensures SmoothUntil(old(clock), old(clock) + 8) && signal(old(clock) + 8) == Kill ==>
                o == Killed && Completed(g, disk) && StartupBlocked(disk)
    {
      hide Finishing;
      o := FinishSwitch(j0, draw, g);
      if !o.Fine? { return; }
      hide Identity, Feasible;
      o := ClearSwitchLock();
    }

    /** Both groups of moves. */
    method ExecuteGroups(j0: Journal, ghost f0: Files, ghost plan: seq<Move>, ghost b: nat, ghost m0: nat)
      returns (o: Outcome, j: Journal, ghost m: nat)
      requires disk.journal == Some(j0) && j0.moves.Some?
      requires Grouped(plan, b) && Midway(f0, plan, disk.files, j0.moves.value, m0)
      modifies this
      ensures old(clock) <= clock && m0 <= m
      ensures disk == old(disk).(files := disk.files, journal := Some(j))
      ensures j.moves.Some? && j == j0.(moves := j.moves, phase := j.phase) && j.phase in {j0.phase, ParkedOldClient}
      ensures Midway(f0, plan, disk.files, j.moves.value, m)
      ensures o.Fine? ==> m == |plan|
      ensures o == Failed(ManualRepair) ==> !Clear(f0, plan, |plan|)
      ensures SmoothFrom(old(clock)) ==> o in {Fine, Failed(ManualRepair)}
      ensures o in {Fine, Killed, Failed(Io), Failed(ManualRepair)}
    {
      hide After, Clear, Midway, Grouped;
      o, j, m := ExecuteSwitchMoves(j0, Park, f0, plan, b, m0);
      if !o.Fine? { return; }
      ghost var before := j;
      o := WriteJournal(j.(phase := ParkedOldClient));
      if !o.Fine? { return; }
      j := j.(phase := ParkedOldClient);
      o, j, m := ExecuteSwitchMoves(j, Restore, f0, plan, b, m);
    }

    /** Both groups of moves and what follows them. */
    method ExecutePlan(j0: Journal, draw: ClientId, ghost g: Goal) returns (o: Outcome)
      requires (Moving(g, disk) || Finishing(g, disk)) && disk.journal == Some(j0)
      modifies this
      ensures old(clock) <= clock
      ensures Moving(g, disk) || Finishing(g, disk) || Completed(g, disk)
      ensures o.Fine? ==> Completed(g, disk) && !StartupBlocked(disk)
      ensures o.Fine? && !Finishing(g, old(disk)) ==> ClientOf(disk.files) == Named(g, draw)
      ensures SmoothFrom(old(clock)) ==>
                if Feasible(g.files, g.from.client, g.Target()) then o.Fine? else o == Failed(ManualRepair)
    {
      ghost var f0, plan, m0 := Progress(g, disk);
      ghost var before := disk;
      hide Midway, InProgress, Moving, Finishing, Completed, Feasible, Clear, Grouped;
      var j;
      ghost var m;
      o, j, m := ExecuteGroups(j0, f0, plan, |KINDS|, m0);
      GroupsOn(g, before, f0, plan, m0, j, disk, m);
      if !o.Fine? { return; }
      o := Finish(j, draw, g);
    }

    /** The `try` block of a fresh switch. */
    method StartSwitch(j0: Journal, draw: ClientId, ghost g: Goal) returns (o: Outcome)
      requires Early(g, disk) && disk.lock && disk.journal == None
      requires j0 == Journal(Locked, g.from, None, g.to, None)
      modifies this
      ensures old(clock) <= clock
      ensures Underway(g, disk) || Completed(g, disk)
      ensures !HasRootMovement(disk.journal) ==> Early(g, disk) || Completed(g, disk)
      ensures signal(old(clock)) == Kill ==> o == Killed && disk == old(disk)
      ensures o.Fine? ==> Completed(g, disk) && !StartupBlocked(disk) && ClientOf(disk.files) == Named(g, draw)
      ensures SmoothFrom(old(clock)) ==>
                if Feasible(g.files, g.from.client, g.Target()) then o.Fine?
                else o == Failed(ManualRepair) && HasRootMovement(disk.journal)
    {
      hide Plan, After, Feasible, Midway;
      var j := j0;
      o := WriteJournal(j);
      if !o.Fine? { return; }
      // stopServiceForSwitch
      o := Effect(disk);
      if !o.Fine? { return; }
      j := j.(phase := ServiceStopped);
      o := WriteJournal(j);
      if !o.Fine? { return; }
      // assertNoLiveRuntimeMarkers, assertSwitchDrainClean
      o := Effect(disk);
      if !o.Fine? { return; }
      j := j.(phase := DrainClean);
      o := WriteJournal(j);
      if !o.Fine? { return; }
      j := j.(client := Remembered(disk.index, j.to));
      o := WriteJournal(j);
      if !o.Fine? { return; }
      // preflightSwitchRenames
      o := Effect(disk);
      if !o.Fine? { return; }
      j := j.(moves := Some(Plan(j.from.client, j.client)));
      o := WriteJournal(j);
      if !o.Fine? { return; }
      Planned(g);
      assert MovingAt(g, disk, 0);
      JustPlanned(g, disk);
      o := ExecutePlan(j, draw, g);
      if Moving(g, disk) || Finishing(g, disk) {
        PlanNotEmpty(g, disk);
      }
    }

    /** completePendingSwitchForLogin. */
    method CompletePendingSwitch(j0: Journal, target: Account, draw: ClientId, ghost g: Goal) returns (o: Outcome)
      requires disk.journal == Some(j0) && j0.phase != Complete && Underway(g, disk)
      modifies this
      ensures old(clock) <= clock
      ensures j0.to != target ==> o == Failed(ManualRepair) && disk == old(disk)
      ensures Early(g, old(disk)) ==> !o.Fine?
      ensures j0.to == target ==>
                && (Underway(g, disk) || Completed(g, disk))
                && (o.Fine? ==> Completed(g, disk) && !StartupBlocked(disk))
                && (SmoothFrom(old(clock)) ==>
                      if Early(g, old(disk)) then o == Failed(RetryRequired) && Early(g, disk) && !StartupBlocked(disk)
                      else if Feasible(g.files, g.from.client, g.Target()) then o.Fine?
                      else o == Failed(ManualRepair))
    {
      if j0.to != target {
        return Failed(ManualRepair);
      }
      if !Early(g, disk) {
        PlanNotEmpty(g, disk);
      }
      hide Plan, After, Feasible, Midway, Goal.Base;
      if j0.moves == None || j0.moves.value == [] {
        o := ClearSwitchLock();
        if o.Fine? {
          o := Failed(RetryRequired);
        }
        return;
      }
      o := ExecutePlan(j0, draw, g);
    }

    /** switchLocalClientForLogin, for a disk that logins may have left at any point of an
        earlier switch g.  The switch is taken up where it was left, and made at most once;
        what keeps a login from making it is exactly a lock without a journal, a journal
        for somebody else, or a plan with a move that cannot be classified. */
    method Login(previous: Option<Account>, target: Account, draw: ClientId, ghost g: Goal) returns (o: Outcome)
      requires SwitchPending(disk) ==> Underway(g, disk)
      modifies this
      ensures old(clock) <= clock
      ensures LockedOut(old(disk)) ==> o.Failed? && disk == old(disk)
      ensures CanStart(old(disk), previous) && signal(old(clock)) == Go && signal(old(clock) + 1) == Kill ==>
                o == Killed && disk == old(disk).(lock := true)
      ensures SwitchPending(old(disk)) && target != g.to ==> o == Failed(ManualRepair) && disk == old(disk)
      ensures Attempts(g, old(disk), previous, target) ==>
                && (Underway(g, disk) || Completed(g, disk))
                && (o.Fine? ==> Completed(g, disk) && !StartupBlocked(disk))
      ensures Attempts(g, old(disk), previous, target) && SmoothFrom(old(clock)) && !LockedOut(old(disk)) ==>
                if SwitchPending(old(disk)) && Early(g, old(disk)) then
                  o == Failed(RetryRequired) && Early(g, disk) && !StartupBlocked(disk)
                else if Feasible(g.files, g.from.client, g.Target()) then o.Fine?
                else o == Failed(ManualRepair)
      ensures Attempts(g, old(disk), previous, target) && Early(g, old(disk)) && o.Fine? ==>
                ClientOf(disk.files) == Named(g, draw)
    {
      if Underway(g, disk) {
        PendingOurs(g, disk);
      }
      hide Feasible, Midway, Goal.Base, Goal.Moves, Finishing, Moving;
      if disk.journal.Some? {
        if disk.journal.value.phase.Complete? {
          o := ClearSwitchLock();
          if !o.Fine? { return; }
        } else {
          o := CompletePendingSwitch(disk.journal.value, target, draw, g);
          return;
        }
      }
      if previous == None || ClientOf(disk.files) == None {
        return Failed(OwnerUnknown);
      }
      if disk.lock || disk.journal.Some? {
        return Failed(ManualRepair);
      }
      o := Effect(disk.(lock := true));
      if !o.Fine? { return; }
      var from := Owner(ClientOf(disk.files).value, previous.value);
      ghost var goal := Goal(disk.files, disk.index, disk.credentials, from, target);
      o := StartSwitch(Journal(Locked, from, None, target, None), draw, goal);
      if o.Failed? && !HasRootMovement(disk.journal) {
        var cleared := ClearSwitchLock();
        if !cleared.Fine? {
          o := cleared;
        }
      }
    }

    /** The login command: an interrupted switch is taken up, a switch to another user is made, and a login of
        the same user switches nothing. */
    method SignIn(target: Account, draw: ClientId, ghost g: Goal) returns (o: Outcome)
      requires OnTheWay(g, disk) && target == g.to
      modifies this
      ensures old(clock) <= clock && OnTheWay(g, disk)
      ensures o.Fine? ==> Completed(g, disk)
      ensures LockedOut(old(disk)) || Completed(g, old(disk)) ==> disk == old(disk)
      ensures SmoothFrom(old(clock)) && !LockedOut(old(disk)) && !Completed(g, old(disk)) ==>
                if SwitchPending(old(disk)) && Early(g, old(disk)) then
                  o == Failed(RetryRequired) && Early(g, disk) && !StartupBlocked(disk)
                else o.Fine? == Feasible(g.files, g.from.client, g.Target())
      ensures !Completed(g, old(disk)) && o.Fine? ==> !StartupBlocked(disk)
      ensures Early(g, old(disk)) && !Completed(g, old(disk)) && o.Fine? ==> ClientOf(disk.files) == Named(g, draw)
    {
      SameSwitch(g, disk);
      hide Feasible, Goal.Base, Goal.Moves, Finishing, Moving, Early, Completed;
      if disk.journal.Some? && disk.journal.value.phase != Complete {
        o := Login(None, target, draw, g);
        return;
      }
      var from := SwitchFrom(disk.files, disk.index, disk.credentials, target);
      if from == None {
        return Fine;
      }
      o := Login(from, target, draw, g);
    }
  }

  // ---------------------------------------------------------------- what holds wherever a switch is killed

  /** Start-up is blocked from the first rename until the switch is complete. */
  lemma BlockedWhileMoving(g: Goal, d: Disk)
    requires Underway(g, d) && (d.files != g.files || d.index != g.index || d.credentials != g.credentials)
    ensures StartupBlocked(d) && HasRootMovement(d.journal)
  {
    PlanNotEmpty(g, d);
  }

  /** While the journal still has a park entry to carry out, nothing has been restored: every
      other parked client is untouched. */
  lemma NoRestoreBeforePark(g: Goal, d: Disk, i: nat, c: ClientId, k: Kind)
    requires Moving(g, d) && c != g.from.client
    requires var ms := d.journal.value.moves.value; i < |ms| && ms[i].group.Park? && ms[i].state == Pending
    ensures Get(d.files, Path(Parked(c), k)) == Get(g.files, Path(Parked(c), k))
  {
    PlanGrouped(g.from.client, g.Target());
    var m: nat :| MovingAt(g, d, m);
    EntryAt(g.files, g.Moves(), d.files, d.journal.value.moves.value, m, i);
    assert m <= i < |KINDS|;
    hide Plan, Goal.Moves;
    RestoreUntouched(g.files, g.from.client, g.Target(), m, c, k);
    RestoreUntouched(g.files, g.from.client, g.Target(), m + 1, c, k);
  }

  /** The first i moves have carried the files found to those there are now, one to one. */
  ghost predicate CarriedTo(g: Goal, d: Disk, i: nat) {
    && i <= |g.Moves()|
    && (forall p :: p in g.files ==>
          var t := Track(g.files, g.Moves(), i, p);
          Get(d.files, t) == Some(g.files[p]) && Source(g.files, g.Moves(), i, t) == p)
    && (forall q :: q in d.files ==>
          var o := Source(g.files, g.Moves(), i, q);
          o in g.files && Track(g.files, g.Moves(), i, o) == q)
  }

  /** Wherever the moves are cut off, every object the switch found exists in exactly one
      place, unchanged, and nothing else does. */
  lemma NothingLost(g: Goal, d: Disk)
    requires Moving(g, d)
    ensures exists i :: CarriedTo(g, d, i)
  {
    var m: nat :| MovingAt(g, d, m);
    var i := if d.files == After(g.files, g.Moves(), m) then m else m + 1;
    assert d.files == After(g.files, g.Moves(), i);
    Conserved(g.files, g.Moves(), i);
    assert CarriedTo(g, d, i);
  }

  /** A finished switch remembers the new account with the client that is active now and the old one with the client
      that is parked, and knows who owns either; every other account and client is remembered as before. */
  lemma RemembersOwners(g: Goal, d: Disk)
    requires Completed(g, d)
    ensures ClientOf(d.files).Some? && d.index.active == ClientOf(d.files) == Remembered(d.index, g.to)
    ensures g.from.account != g.to ==> Remembered(d.index, g.from.account) == Some(g.from.client)
    ensures forall a :: a != g.from.account && a != g.to ==> Remembered(d.index, a) == Remembered(g.index, a)
    ensures ActiveOwner(d.files, d.index) == Some(g.to)
    ensures ClientOf(d.files) != Some(g.from.client) ==>
              g.from.client in d.index.clients && d.index.clients[g.from.client] == Entry(g.from.account, false)
    ensures forall c :: c != g.from.client && Some(c) != ClientOf(d.files) ==>
              (c in d.index.clients <==> c in g.index.clients)
              && (c in g.index.clients ==> d.index.clients[c] == g.index.clients[c])
  {
    hide Feasible, Goal.Base, Goal.Moves;
  }

  /** However often a switch was killed and taken up again, it ends in the same place: only a
      client id that had to be generated can differ. */
  lemma SameOutcome(g: Goal, d: Disk, e: Disk)
    requires Completed(g, d) && Completed(g, e)
    ensures forall p :: p != YAML ==> Get(d.files, p) == Get(e.files, p) == Get(g.Base(), p)
    ensures d.credentials == e.credentials
    ensures ClientOf(g.Base()).Some? || ClientOf(d.files) == ClientOf(e.files) ==>
              d.files == e.files && d.index == e.index
  {
  }

  /** A finished switch has every object where it belongs and nothing else, client.yaml apart. */
  lemma CompletedPlacement(g: Goal, d: Disk)
    requires Completed(g, d)
    ensures forall p :: p in g.files && Destination(g.from.client, g.Target(), p) != YAML ==>
              Get(d.files, Destination(g.from.client, g.Target(), p)) == Some(g.files[p])
    ensures forall q :: q in d.files && q != YAML ==>
              var p := Origin(g.files, g.from.client, g.Target(), q);
              p in g.files && Destination(g.from.client, g.Target(), p) == q
  {
    Placement(g.files, g.from.client, g.Target());
    hide After, Plan, Feasible, Destination, Origin;
  }

  /** A login killed right after it took the lock leaves a disk on which every later login that has a switch
      to make fails without a change, whoever logs in. */
  method LockOut(d: Disk, previous: Account, target: Account, later: Account, draw: ClientId, ghost g: Goal)
    returns (first: Outcome, second: Outcome, after: Disk)
    requires CanStart(d, Some(previous))
    ensures first == Killed && second.Failed? && after == d.(lock := true) && StartupBlocked(after)
  {
    var c := new Computer(d, t => if t == 0 then Go else Kill);
    first := c.Login(Some(previous), target, draw, g);
    var e := new Computer(c.disk, t => Go);
    second := e.Login(Some(previous), later, draw, g);
    after := e.disk;
  }

  /** One login: what interferes with it, and the client id it would generate. */
  datatype Attempt = Attempt(signal: nat -> Signal, draw: ClientId)

  /** Any number of logins of one user, each stopped anywhere, and then logins that nothing interferes with:
      the second of them is needed when a switch was stopped before its moves were planned.  Unless a stop
      has left the lock without a journal, the switch is made, or its plan cannot be classified. */
  method KilledLogins(d: Disk, attempts: seq<Attempt>, target: Account, draw: ClientId, ghost g: Goal)
    returns (after: Disk)
    requires OnTheWay(g, d) && target == g.to
    ensures OnTheWay(g, after)
    ensures LockedOut(after) || (Completed(g, after) <==> Feasible(g.files, g.from.client, g.Target()))
    ensures attempts == [] && !LockedOut(d) && Feasible(g.files, g.from.client, g.Target()) ==> Completed(g, after)
  {
    assert forall e :: Completed(g, e) ==> Feasible(g.files, g.from.client, g.Target());
    hide Feasible, OnTheWay, Completed, Early;
    after := d;
    var i := 0;
    while i < |attempts|
      invariant 0 <= i <= |attempts| && OnTheWay(g, after)
      invariant attempts == [] ==> after == d
    {
      var c := new Computer(after, attempts[i].signal);
      var _ := c.SignIn(target, attempts[i].draw, g);
      after := c.disk;
      i := i + 1;
    }
    var last := new Computer(after, t => Go);
    var o := last.SignIn(target, draw, g);
    if o == Failed(RetryRequired) {
      o := last.SignIn(target, draw, g);
    }
    after := last.disk;
  }

  /** A login killed when its switch is made and before its journal is removed leaves start-up blocked. */
  method Linger(d: Disk, j: Journal, draw: ClientId, ghost g: Goal) returns (o: Outcome, after: Disk)
    requires Finishing(g, d) && d.journal == Some(j)
    ensures o == Killed && Completed(g, after) && StartupBlocked(after)
  {
    var c := new Computer(d, t => if t < 8 then Go else Kill);
    o := c.Finish(j, draw, g);
    after := c.disk;
  }
}
