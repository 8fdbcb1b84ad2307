/** Whose files a computer holds over any number of switches: every client keeps its own, and every user comes back
    to the client it left. */
module SwitchReturn {
  import opened Options
  import opened SwitchPlan
  import opened ClientSwitch

  /** Where the files of client c are. */
  function Where(f: Files, c: ClientId): Slot {
    if ClientOf(f) == Some(c) then Active else Parked(c)
  }

  /** What client c has of one kind. */
  function Shelf(f: Files, c: ClientId, k: Kind): Option<Obj> {
    Get(f, Path(Where(f, c), k))
  }

  predicate Lives(f: Files, c: ClientId) {
    ClientOf(f) == Some(c) || Path(Parked(c), ClientYaml) in f
  }

  predicate Names(o: Obj, c: ClientId) {
    o.Yaml? && o.client == Some(c)
  }

  /** No switch is under way, nothing is parked for the active client, every parked client.yaml names the client it
      is parked for, and every remembered client is there.  The index need not know who is active. */
  ghost predicate Tidy(d: Disk) {
    && !StartupBlocked(d) && ClientOf(d.files).Some?
    && (forall k :: Path(Parked(ClientOf(d.files).value), k) !in d.files)
    && (forall c :: Path(Parked(c), ClientYaml) in d.files ==> Names(d.files[Path(Parked(c), ClientYaml)], c))
    && (forall a :: a in d.index.defaults ==> Lives(d.files, d.index.defaults[a]))
  }

  /** A client id that nothing on the disk is kept for. */
  ghost predicate Unused(f: Files, draw: ClientId) {
    ClientOf(f) != Some(draw) && forall k :: Path(Parked(draw), k) !in f
  }

  /** The switch a login from one account to another has to make. */
  function SwitchOf(d: Disk, from: Account, to: Account): Goal
    requires ClientOf(d.files).Some?
  {
    Goal(d.files, d.index, d.credentials, Owner(ClientOf(d.files).value, from), to)
  }

  /** Every client has what it had, client.yaml apart. */
  ghost predicate SameShelves(f: Files, t: Files) {
    && (forall c, k :: k != ClientYaml ==> Shelf(t, c, k) == Shelf(f, c, k))
    && (forall k :: Get(t, Path(NewClient, k)) == Get(f, Path(NewClient, k)))
  }

  /** Every file is where it was, client.yaml apart. */
  ghost predicate SameFiles(f: Files, t: Files) {
    forall p: Path :: p.kind != ClientYaml ==> Get(t, p) == Get(f, p)
  }

  /** The client of account x when account a is signed in. */
  function HomeOf(d: Disk, a: Account, x: Account): Option<ClientId> {
    if x == a then ClientOf(d.files) else Remembered(d.index, x)
  }

  /** Every account that had a client still has that one. */
  ghost predicate SameHomes(d: Disk, a: Account, e: Disk, b: Account) {
    forall x :: HomeOf(d, a, x).Some? ==> HomeOf(e, b, x) == HomeOf(d, a, x)
  }

  // ---------------------------------------------------------------- one switch

  /** On a tidy disk every switch can be made. */
  lemma TidyFeasible(d: Disk, from: Account, to: Account)
    requires Tidy(d)
    ensures var g := SwitchOf(d, from, to); Feasible(g.files, g.from.client, g.Target()) && Early(g, d)
  {
  }

  /** What the moves of a switch leave at a path, for a tidy disk. */
  lemma BaseAt(d: Disk, from: Account, to: Account, p: Path)
    requires Tidy(d)
    ensures var g, f, a := SwitchOf(d, from, to), d.files, ClientOf(d.files).value;
            Get(g.Base(), p)
            == match p.slot
               case NewClient => Get(f, p)
               case Active =>
                 if g.Target() == None then None
                 else if g.Target() == Some(a) then Get(f, p) else Get(f, Path(Parked(g.Target().value), p.kind))
               case Parked(c) =>
                 if g.Target() == Some(c) then None
                 else if c == a then Get(f, Path(Active, p.kind)) else Get(f, p)
  {
    var g := SwitchOf(d, from, to);
    TidyFeasible(d, from, to);
    FinalAt(d.files, g.from.client, g.Target(), p);
    hide Feasible, After, Plan;
    assert KINDS[Rank(p.kind)] == p.kind;
  }

  /** The moves bring the client.yaml of the remembered client, or none. */
  lemma BaseClient(d: Disk, from: Account, to: Account)
    requires Tidy(d)
    ensures ClientOf(SwitchOf(d, from, to).Base()) == SwitchOf(d, from, to).Target()
  {
    BaseAt(d, from, to, YAML);
    hide After, Plan, Goal.Base;
  }

  /** A finished switch differs from what its moves left in client.yaml only. */
  lemma FinishedAt(g: Goal, d: Disk, p: Path)
    requires Completed(g, d) && p != YAML
    ensures Get(d.files, p) == Get(g.Base(), p)
  {
  }

  lemma KeepsShelves(d: Disk, from: Account, to: Account, e: Disk, draw: ClientId)
    requires Tidy(d) && Unused(d.files, draw)
    requires var g := SwitchOf(d, from, to); Completed(g, e) && ClientOf(e.files) == Named(g, draw)
    ensures SameShelves(d.files, e.files)
  {
    var g := SwitchOf(d, from, to);
    BaseClient(d, from, to);
    hide Goal.Base, Completed, Plan, After;
    forall c, k | k != ClientYaml ensures Shelf(e.files, c, k) == Shelf(d.files, c, k) {
      var p := Path(Where(e.files, c), k);
      FinishedAt(g, e, p);
      BaseAt(d, from, to, p);
    }
    forall k ensures Get(e.files, Path(NewClient, k)) == Get(d.files, Path(NewClient, k)) {
      FinishedAt(g, e, Path(NewClient, k));
      BaseAt(d, from, to, Path(NewClient, k));
    }
  }

  /** Who is parked once the switch is made. */
  lemma ParkedAfter(d: Disk, from: Account, to: Account, e: Disk, draw: ClientId, c: ClientId, k: Kind)
    requires Tidy(d) && Unused(d.files, draw)
    requires var g := SwitchOf(d, from, to); Completed(g, e) && ClientOf(e.files) == Named(g, draw)
    ensures Get(e.files, Path(Parked(c), k))
            == if ClientOf(e.files) == Some(c) then None
               else if ClientOf(d.files) == Some(c) then Get(d.files, Path(Active, k))
               else Get(d.files, Path(Parked(c), k))
  {
    var g := SwitchOf(d, from, to);
    BaseClient(d, from, to);
    BaseAt(d, from, to, Path(Parked(c), k));
    FinishedAt(g, e, Path(Parked(c), k));
    hide Goal.Base, Completed, Plan, After;
  }

  lemma KeepsHomes(d: Disk, from: Account, to: Account, e: Disk, draw: ClientId)
    requires Tidy(d) && from != to
    requires var g := SwitchOf(d, from, to); Completed(g, e) && ClientOf(e.files) == Named(g, draw)
    ensures SameHomes(d, from, e, to) && e.credentials == Some(to)
  {
    var g := SwitchOf(d, from, to);
    BaseClient(d, from, to);
    RemembersOwners(g, e);
    assert e.credentials == Some(to);
    hide Goal.Base, Completed, Plan, After, Tidy;
  }

  lemma StaysTidy(d: Disk, from: Account, to: Account, e: Disk, draw: ClientId)
    requires Tidy(d) && Unused(d.files, draw) && !StartupBlocked(e) && from != to
    requires var g := SwitchOf(d, from, to); Completed(g, e) && ClientOf(e.files) == Named(g, draw)
    ensures Tidy(e)
  {
    var g := SwitchOf(d, from, to);
    var a, b := ClientOf(d.files).value, ClientOf(e.files);
    RemembersOwners(g, e);
    forall c: ClientId, k: Kind ensures Get(e.files, Path(Parked(c), k))
            == (if b == Some(c) then None else Get(d.files, Path(if c == a then Active else Parked(c), k)))
    {
      ParkedAfter(d, from, to, e, draw, c, k);
    }
    hide Goal.Base, Completed, Plan, After;
    forall k: Kind ensures Path(Parked(b.value), k) !in e.files {
      assert Get(e.files, Path(Parked(b.value), k)) == None;
    }
    forall c: ClientId | Path(Parked(c), ClientYaml) in e.files
      ensures Names(e.files[Path(Parked(c), ClientYaml)], c)
    {
      assert Get(e.files, Path(Parked(c), ClientYaml)) == Some(e.files[Path(Parked(c), ClientYaml)]);
    }
    forall x | x in e.index.defaults ensures Lives(e.files, e.index.defaults[x]) {
      var c := e.index.defaults[x];
      assert Remembered(e.index, x) == Some(c);
      assert x != from && x != to ==> Remembered(d.index, x) == Some(c);
      assert b != Some(c) ==> Get(e.files, Path(Parked(c), ClientYaml)).Some?;
    }
  }

  // ---------------------------------------------------------------- any number of switches

  /** One login that nothing interferes with: it makes the switch, and everybody keeps what they had. */
  method Visit(d: Disk, from: Account, to: Account, draw: ClientId) returns (e: Disk)
    requires Tidy(d) && Unused(d.files, draw)
    requires SwitchFrom(d.files, d.index, d.credentials, to) == Some(from)
    ensures Tidy(e) && e.credentials == Some(to)
    ensures SameShelves(d.files, e.files) && SameHomes(d, from, e, to)
    ensures ClientOf(e.files) == match Remembered(d.index, to) case None => Some(draw) case Some(c) => Some(c)
  {
    ghost var g := SwitchOf(d, from, to);
    TidyFeasible(d, from, to);
    BaseClient(d, from, to);
    var c := new Computer(d, t => Go);
    assert OnTheWay(g, d);
    SameSwitch(g, d);
    assert from != to;
    hide Feasible, Completed, Early, Goal.Base, Tidy;
    var _ := c.SignIn(to, draw, g);
    e := c.disk;
    KeepsShelves(d, from, to, e, draw);
    KeepsHomes(d, from, to, e, draw);
    StaysTidy(d, from, to, e, draw);
  }

  /** Each login is of another user than the one before. */
  predicate Alternate(from: Account, targets: seq<Account>) {
    forall i :: 0 <= i < |targets| ==> targets[i].user != (if i == 0 then from else targets[i - 1]).user
  }

  /** Who is signed in after the first n of these logins. */
  function Current(from: Account, targets: seq<Account>, n: nat): Account
    requires n <= |targets|
  {
    if n == 0 then from else targets[n - 1]
  }

  lemma HomesOn(d: Disk, a: Account, m: Disk, b: Account, e: Disk, c: Account)
    requires SameHomes(d, a, m, b) && SameHomes(m, b, e, c)
    ensures SameHomes(d, a, e, c)
  {
    forall x | HomeOf(d, a, x).Some? ensures HomeOf(e, c, x) == HomeOf(d, a, x) {
      assert HomeOf(m, b, x) == HomeOf(d, a, x);
    }
  }

  lemma ShelvesOn(f: Files, m: Files, t: Files)
    requires SameShelves(f, m) && SameShelves(m, t)
    ensures SameShelves(f, t)
  {
  }

  /** With the same client active, and everybody's files with their client, every file is where it was. */
  lemma ShelvesPlaced(d: Disk, e: Disk)
    requires Tidy(d) && Tidy(e) && SameShelves(d.files, e.files) && ClientOf(e.files) == ClientOf(d.files)
    ensures SameFiles(d.files, e.files)
  {
    var a := ClientOf(d.files).value;
    forall p: Path | p.kind != ClientYaml ensures Get(e.files, p) == Get(d.files, p) {
      match p.slot
      case Active => assert Shelf(e.files, a, p.kind) == Shelf(d.files, a, p.kind);
      case Parked(c) => assert Shelf(e.files, c, p.kind) == Shelf(d.files, c, p.kind);
      case NewClient =>
    }
  }

  /** Any number of logins of one user after the other, the generated client ids being new ones: all switches are
      made, every client keeps its files, every account keeps its client, and when the first user is back every file
      but client.yaml is where it was. */
  method Visits(d: Disk, from: Account, targets: seq<Account>, draw: Disk -> ClientId) returns (e: Disk)
    requires Tidy(d) && forall x: Disk :: Unused(x.files, draw(x))
    requires targets != [] ==> SwitchFrom(d.files, d.index, d.credentials, targets[0]) == Some(from)
    requires Alternate(from, targets)
    ensures var last := Current(from, targets, |targets|);
            && Tidy(e) && SameShelves(d.files, e.files) && SameHomes(d, from, e, last)
            && (targets != [] ==> e.credentials == Some(last))
            && (last == from ==> ClientOf(e.files) == ClientOf(d.files) && SameFiles(d.files, e.files))
  {
    hide Tidy, SameShelves, SameHomes, Unused, HomeOf;
    e := d;
    StartsSame(d, from);
    for i := 0 to |targets|
      invariant Tidy(e) && SameShelves(d.files, e.files) && SameHomes(d, from, e, Current(from, targets, i))
      invariant if i == 0 then e == d else e.credentials == Some(Current(from, targets, i))
    {
      var before := e;
      e := Visit(before, Current(from, targets, i), targets[i], draw(before));
      ShelvesOn(d.files, before.files, e.files);
      HomesOn(d, from, before, Current(from, targets, i), e, targets[i]);
    }
    if Current(from, targets, |targets|) == from {
      HomeAgain(d, from, e);
      ShelvesPlaced(d, e);
    }
  }

  lemma StartsSame(d: Disk, a: Account)
    ensures SameShelves(d.files, d.files) && SameHomes(d, a, d, a)
  {
  }

  lemma HomeAgain(d: Disk, a: Account, e: Disk)
    requires Tidy(d) && SameHomes(d, a, e, a)
    ensures ClientOf(e.files) == ClientOf(d.files)
  {
    assert HomeOf(d, a, a) == ClientOf(d.files);
  }
}
