/**
 The migration of a workspace, killed any number of times and taken up again: exactly when it always ends
 where an undisturbed one ends, and whether what it ends in is recognised as migrated.
 */
module WorkspaceResume {
  import opened Options
  import opened FrameworkBlock
  import opened WorkspaceState
  import opened WorkspaceMigration

  // ---------------------------------------------------------------- one migration and its progress

  /** A marked workspace with one bound tree.  The manifest schema admits no source name that begins with a dot. */
  ghost predicate Movable(w0: Workspace, tree: Name) {
    && w0.marker && "" !in w0.children && Bound(w0, tree)
    && (forall n :: Bound(w0, n) ==> n == tree)
    && (w0.manifest.Some? ==> forall n :: n in w0.manifest.value.sources ==> !Hidden(n))
  }

  /** No framework file of a source root has more than one block. */
  predicate OneBlockRoots(w0: Workspace, tree: Name) {
    forall n :: n in RootsOf(w0, tree) && n in w0.children ==> OneBlockFiles(w0.children[n])
  }

  function Target(w0: Workspace, tree: Name): Manifest {
    Manifest(tree, Listed(RootsOf(w0, tree), tree))
  }

  /** The workspace after an undisturbed migration. */
  function Final(w0: Workspace, tree: Name): Workspace {
    Migrated(w0, tree, RootsOf(w0, tree))
  }

  /** A child once the sources have been cleaned. */
  function Sourced(w0: Workspace, tree: Name, n: Name): Repo
    requires n in w0.children
  {
    if n in RootsOf(w0, tree) then CleanedSource(w0.children[n]) else w0.children[n]
  }

  /** The sources are being cleaned; the tree still has all its bindings. */
  ghost predicate CleaningSources(w0: Workspace, tree: Name, w: Workspace) {
    && w.children.Keys == w0.children.Keys
    && (w.manifest == w0.manifest || w.manifest == Some(Target(w0, tree)))
    && (w.manifest != Some(Target(w0, tree)) ==> w.children == w0.children)
    && (forall n :: n in w0.children ==>
          if n in RootsOf(w0, tree) then SourcePartly(w0.children[n], w.children[n])
          else w.children[n] == w0.children[n])
  }

  /** The sources are clean; the tree is being cleaned. */
  ghost predicate CleaningTree(w0: Workspace, tree: Name, w: Workspace) {
    && w.children.Keys == w0.children.Keys && w.manifest == Some(Target(w0, tree))
    && (forall n :: n in w0.children ==>
          if n == tree then TreePartly(Sourced(w0, tree, n), w.children[n]) else w.children[n] == Sourced(w0, tree, n))
  }

  /** Everything any number of killed migrations can leave while the marker stands. */
  ghost predicate Underway(w0: Workspace, tree: Name, w: Workspace) {
    w.marker && (CleaningSources(w0, tree, w) || CleaningTree(w0, tree, w))
  }

  lemma Starts(w0: Workspace, tree: Name)
    requires Movable(w0, tree)
    ensures Underway(w0, tree, w0)
  {
    forall n | n in w0.children ensures SourcePartly(w0.children[n], w0.children[n]) {
      PartlySame(w0.children[n]);
    }
    assert CleaningSources(w0, tree, w0);
  }

  // ---------------------------------------------------------------- what detection finds again

  /** As long as the marker stands, detection finds the same tree, and roots that list the same sources. */
  lemma SameDetection(w0: Workspace, tree: Name, w: Workspace)
    requires Movable(w0, tree) && Underway(w0, tree, w)
    ensures forall n :: Bound(w, n) ==> n == tree
    ensures !Bound(w, tree) ==> w.manifest == Some(Target(w0, tree))
    ensures Listed(RootsOf(w, tree), tree) == Target(w0, tree).sources && RootsOf(w, tree) <= RootsOf(w0, tree)
    ensures CleaningSources(w0, tree, w) ==> RootsOf(w, tree) == RootsOf(w0, tree) && Bound(w, tree)
  {
    var roots0, roots := RootsOf(w0, tree), RootsOf(w, tree);
    forall n ensures Bound(w, n) ==> n == tree {
      assert Bound(w, n) ==> Bound(w0, n);
    }
    forall n | n in roots ensures n in roots0 {
      RootWas(w0, tree, w, n);
    }
    if CleaningSources(w0, tree, w) {
      forall n | n in roots0 ensures n in roots {
        RootStays(w0, tree, w, n);
      }
    } else {
      forall n | n in Listed(roots0, tree) ensures n in roots {
        assert n in w.manifest.value.sources && n in w.children;
      }
    }
  }

  lemma RootWas(w0: Workspace, tree: Name, w: Workspace, n: Name)
    requires Movable(w0, tree) && Underway(w0, tree, w) && n in RootsOf(w, tree)
    ensures n in RootsOf(w0, tree)
  {
    if n in w0.children && Stateful(w, n) && n != tree {
      assert Stateful(w0, n);
    }
  }

  lemma RootStays(w0: Workspace, tree: Name, w: Workspace, n: Name)
    requires Movable(w0, tree) && Underway(w0, tree, w) && CleaningSources(w0, tree, w) && n in RootsOf(w0, tree)
    ensures n in RootsOf(w, tree)
  {
    assert w.children[tree].bindings == w0.children[tree].bindings;
    if w.manifest == Some(Target(w0, tree)) && n != tree && !Hidden(n) {
      assert n in w.manifest.value.sources;
    }
  }

  /** Detection takes a workspace that is under way for a legacy one, with the same tree. */
  lemma DetectedAgain(w0: Workspace, tree: Name, w: Workspace, listing: seq<Name>, d: Detection)
    requires Movable(w0, tree) && Underway(w0, tree, w) && Describes(w, listing, d)
    requires d.Legacy? <==> SomeBound(w) || (w.manifest.Some? && (w.marker || SomeStateful(w)))
    ensures d.Legacy? && d.tree == tree && d.roots == RootsOf(w, tree)
  {
    SameDetection(w0, tree, w);
    hide CleaningSources, CleaningTree, Movable, RootsOf;
    if SomeBound(w) {
      assert Bound(w, tree);
    } else {
      assert !Bound(w, tree);
    }
  }

  // ---------------------------------------------------------------- one more run

  lemma PartlyAgain(r0: Repo, r1: Repo, r2: Repo)
    requires SourcePartly(r0, r1) && SourcePartly(r1, r2) && OneBlockFiles(r0)
    ensures SourcePartly(r0, r2)
  {
    StrippedTwice(r0.agentsMd);
    StrippedTwice(r0.claudeMd);
    hide Stripped, OneBlockFile;
  }

  /** Cleaning a source that is clean already, or the tree while it is still bound, changes nothing. */
  lemma NothingToClean(r0: Repo, r1: Repo, r2: Repo)
    requires OneBlockFiles(r0) && SourcePartly(r1, r2)
    requires r1 == CleanedSource(r0) || (TreePartly(CleanedSource(r0), r1) && r1.bindings.Some?)
    ensures r2 == r1
  {
    StrippedTwice(r0.agentsMd);
    StrippedTwice(r0.claudeMd);
    hide Stripped, OneBlockFile;
  }

  lemma TreeAgain(r0: Repo, r1: Repo, r2: Repo)
    requires TreePartly(r0, r1) && TreePartly(r1, r2)
    ensures TreePartly(r0, r2) && CleanedTree(r1) == CleanedTree(r0)
  {
  }

  lemma TreeCleans(r0: Repo, r: Repo)
    requires TreePartly(r0, r)
    ensures CleanedTree(r) == CleanedTree(r0)
  {
  }

  lemma TreeEnds(r: Repo)
    ensures TreePartly(r, r) && TreePartly(r, CleanedTree(r))
  {
  }

  /** In the second phase a pass over the roots changes nothing. */
  lemma CleanAlready(w0: Workspace, tree: Name, w: Workspace, w': Workspace)
    requires Movable(w0, tree) && OneBlockRoots(w0, tree) && w.marker && CleaningTree(w0, tree, w)
    requires SourcesPartly(w, w', RootsOf(w, tree))
    ensures w' == w
  {
    SameDetection(w0, tree, w);
    forall n | n in w.children ensures w'.children[n] == w.children[n] {
      if n in RootsOf(w, tree) {
        assert n == tree ==> w.children[n].bindings.Some?;
        hide RootsOf, SourcePartly, TreePartly, CleanedSource, OneBlockFiles;
        assert n in RootsOf(w0, tree) && OneBlockFiles(w0.children[n]);
        NothingToClean(w0.children[n], w.children[n], w'.children[n]);
      }
    }
    assert w'.children == w.children;
  }

  /** The manifest written in the second phase is the one that is there. */
  lemma WrittenAlready(w0: Workspace, tree: Name, w: Workspace)
    requires Movable(w0, tree) && w.marker && CleaningTree(w0, tree, w)
    ensures Rewritten(w, tree, RootsOf(w, tree)) == w
  {
    SameDetection(w0, tree, w);
    hide RootsOf, CleanedSource;
  }

  /** In the first phase a pass over the roots goes on. */
  lemma CleanFurther(w0: Workspace, tree: Name, w: Workspace, w': Workspace)
    requires Movable(w0, tree) && OneBlockRoots(w0, tree) && w.marker && CleaningSources(w0, tree, w)
    requires SourcesPartly(Rewritten(w, tree, RootsOf(w, tree)), w', RootsOf(w, tree))
    ensures w'.marker && CleaningSources(w0, tree, w')
  {
    SameDetection(w0, tree, w);
    hide Movable, RootsOf, SourcePartly, CleanedSource, OneBlockFiles;
    forall n | n in w0.children
      ensures if n in RootsOf(w0, tree) then SourcePartly(w0.children[n], w'.children[n])
              else w'.children[n] == w0.children[n]
    {
      if n in RootsOf(w0, tree) {
        PartlyAgain(w0.children[n], w.children[n], w'.children[n]);
      }
    }
  }

  /** After a whole pass over the roots the second phase begins, whichever phase the pass began in. */
  lemma CleanNow(w0: Workspace, tree: Name, w: Workspace)
    requires Movable(w0, tree) && OneBlockRoots(w0, tree) && Underway(w0, tree, w)
    ensures var roots := RootsOf(w, tree); CleaningTree(w0, tree, SourcesDone(Rewritten(w, tree, roots), roots))
  {
    var roots := RootsOf(w, tree);
    var s := Rewritten(w, tree, roots);
    var c := SourcesDone(s, roots);
    SameDetection(w0, tree, w);
    if CleaningSources(w0, tree, w) {
      hide Movable, RootsOf, SourcePartly, CleanedSource, OneBlockFiles, TreePartly;
      forall n | n in w0.children ensures c.children[n] == Sourced(w0, tree, n) {
        if n in roots {
          CleanAbsorbs(w0.children[n], w.children[n]);
        }
      }
      forall n | n in w0.children ensures TreePartly(Sourced(w0, tree, n), Sourced(w0, tree, n)) {
        TreeEnds(Sourced(w0, tree, n));
      }
    } else {
      WrittenAlready(w0, tree, w);
      AllDone(w, roots);
      CleanAlready(w0, tree, w, c);
    }
  }

  /** A run from a state that killed runs left ends where an undisturbed one ends and, if it is killed, leaves
      another such state. */
  lemma Resumes(w0: Workspace, tree: Name, w: Workspace, w': Workspace)
    requires Movable(w0, tree) && OneBlockRoots(w0, tree) && Underway(w0, tree, w)
    ensures Migrated(w, tree, RootsOf(w, tree)) == Final(w0, tree)
    ensures MigratedPartly(w, w', tree, RootsOf(w, tree)) ==> Underway(w0, tree, w')
  {
    var roots := RootsOf(w, tree);
    Starts(w0, tree);
    EndsSame(w0, tree, w, w0);
    if SourcesPartly(Rewritten(w, tree, roots), w', roots) {
      if CleaningSources(w0, tree, w) {
        CleanFurther(w0, tree, w, w');
      } else {
        WrittenAlready(w0, tree, w);
        CleanAlready(w0, tree, w, w');
      }
    } else if MigratedPartly(w, w', tree, roots) && w' != w {
      CleanNow(w0, tree, w);
      hide Movable, RootsOf, SourcePartly, CleanedSource, OneBlockFiles, SourcesDone, Target;
      TreeFurther(w0, tree, SourcesDone(Rewritten(w, tree, roots), roots), w');
    }
  }

  lemma TreeReplaced(w0: Workspace, tree: Name, c: Workspace, r: Repo)
    requires CleaningTree(w0, tree, c) && tree in w0.children && TreePartly(c.children[tree], r)
    ensures CleaningTree(w0, tree, With(c, tree, r))
  {
    TreeAgain(Sourced(w0, tree, tree), c.children[tree], r);
    hide TreePartly, CleanedTree, Sourced, Target;
  }

  lemma TreeFurther(w0: Workspace, tree: Name, c: Workspace, w': Workspace)
    requires CleaningTree(w0, tree, c) && tree in w0.children
    requires w' == TreeDone(c, tree)
             || (tree in w'.children && w' == With(c, tree, w'.children[tree])
                 && TreePartly(c.children[tree], w'.children[tree]))
    ensures CleaningTree(w0, tree, w')
  {
    hide TreePartly, CleanedTree, Sourced, Target;
    TreeEnds(c.children[tree]);
    if w' == TreeDone(c, tree) {
      TreeReplaced(w0, tree, c, CleanedTree(c.children[tree]));
    } else {
      TreeReplaced(w0, tree, c, w'.children[tree]);
    }
  }

  lemma EndsSame(w0: Workspace, tree: Name, w: Workspace, v: Workspace)
    requires Movable(w0, tree) && OneBlockRoots(w0, tree) && Underway(w0, tree, w) && Underway(w0, tree, v)
    ensures Migrated(w, tree, RootsOf(w, tree)) == Migrated(v, tree, RootsOf(v, tree))
  {
    CleanNow(w0, tree, w);
    CleanNow(w0, tree, v);
    hide RootsOf, SourcesDone, Underway, OneBlockRoots;
    TreeSame(w0, tree, SourcesDone(Rewritten(w, tree, RootsOf(w, tree)), RootsOf(w, tree)),
             SourcesDone(Rewritten(v, tree, RootsOf(v, tree)), RootsOf(v, tree)));
  }

  lemma TreeSame(w0: Workspace, tree: Name, c: Workspace, e: Workspace)
    requires CleaningTree(w0, tree, c) && CleaningTree(w0, tree, e) && tree in w0.children
    ensures TreeDone(c, tree).(marker := false) == TreeDone(e, tree).(marker := false)
  {
    TreeCleans(Sourced(w0, tree, tree), c.children[tree]);
    TreeCleans(Sourced(w0, tree, tree), e.children[tree]);
    hide TreePartly, CleanedTree, Sourced, Target;
    var a, b := TreeDone(c, tree).children, TreeDone(e, tree).children;
    assert a.Keys == w0.children.Keys == b.Keys;
    assert forall n :: n in w0.children ==> a[n] == b[n];
    assert a == b;
    assert c.(children := a, marker := false) == e.(children := b, marker := false);
  }

  // ---------------------------------------------------------------- exactly when

  /** All sources are clean and the tree is untouched: a process killed between the two leaves this. */
  function Between(w0: Workspace, tree: Name): Workspace {
    SourcesDone(Rewritten(w0, tree, RootsOf(w0, tree)), RootsOf(w0, tree))
  }

  lemma BetweenUnderway(w0: Workspace, tree: Name)
    requires Movable(w0, tree)
    ensures Underway(w0, tree, Between(w0, tree)) && CleaningSources(w0, tree, Between(w0, tree))
    ensures RootsOf(Between(w0, tree), tree) == RootsOf(w0, tree)
  {
    AllDone(Rewritten(w0, tree, RootsOf(w0, tree)), RootsOf(w0, tree));
    assert CleaningSources(w0, tree, Between(w0, tree)) by {
      hide RootsOf, SourcePartly, CleanedSource;
    }
    SameDetection(w0, tree, Between(w0, tree));
  }

  /** What a second run makes of the framework files of a root, */
  lemma FilesAfter(w0: Workspace, tree: Name, n: Name)
    requires Movable(w0, tree) && n in RootsOf(w0, tree) && n in w0.children
    ensures var again := Migrated(Between(w0, tree), tree, RootsOf(w0, tree));
            && n in Final(w0, tree).children && n in again.children
            && Final(w0, tree).children[n].agentsMd == Stripped(w0.children[n].agentsMd)
            && Final(w0, tree).children[n].claudeMd == Stripped(w0.children[n].claudeMd)
            && again.children[n].agentsMd == Stripped(Stripped(w0.children[n].agentsMd))
            && again.children[n].claudeMd == Stripped(Stripped(w0.children[n].claudeMd))
  {
    hide RootsOf, Stripped;
  }

  /** and when it makes no difference that the first one was killed there. */
  lemma BetweenEnds(w0: Workspace, tree: Name)
    requires Movable(w0, tree)
    ensures Migrated(Between(w0, tree), tree, RootsOf(w0, tree)) == Final(w0, tree) <==> OneBlockRoots(w0, tree)
  {
    BetweenUnderway(w0, tree);
    if OneBlockRoots(w0, tree) {
      Resumes(w0, tree, Between(w0, tree), Between(w0, tree));
    } else {
      var n :| n in RootsOf(w0, tree) && n in w0.children && !OneBlockFiles(w0.children[n]);
      FilesAfter(w0, tree, n);
      StrippedTwice(w0.children[n].agentsMd);
      StrippedTwice(w0.children[n].claudeMd);
      hide RootsOf, Stripped, Migrated, Between, OneBlockFile;
    }
  }

  /** Wherever it is killed and however often, a migration that is taken up again ends where an undisturbed
      one ends, if and only if no framework file of a source root has more than one block. */
  lemma ResumesExactly(w0: Workspace, tree: Name)
    requires Movable(w0, tree)
    ensures (forall w :: Underway(w0, tree, w) ==> Migrated(w, tree, RootsOf(w, tree)) == Final(w0, tree))
            <==> OneBlockRoots(w0, tree)
  {
    BetweenUnderway(w0, tree);
    BetweenEnds(w0, tree);
    hide Underway, Movable, RootsOf, Migrated, Between, Final;
    if OneBlockRoots(w0, tree) {
      forall w | Underway(w0, tree, w) ensures Migrated(w, tree, RootsOf(w, tree)) == Final(w0, tree) {
        Resumes(w0, tree, w, w);
      }
    }
  }

  /** A process killed when the last source is clean, and the process that takes the migration up. */
  method KilledOnce(w0: Workspace, tree: Name, listing: seq<Name>) returns (disk: Disk)
    requires Movable(w0, tree) && Listing(w0, listing)
    ensures fresh(disk)
    ensures disk.w == Final(w0, tree) <==> OneBlockRoots(w0, tree)
  {
    hide Underway, Final, OneBlockRoots, RootsOf, MigratedPartly, SourcesPartly;
    Starts(w0, tree);
    BetweenUnderway(w0, tree);
    BetweenEnds(w0, tree);
    RootsPresent(w0, tree);
    disk := new Disk(None, w0);
    var d := Detect(w0, listing);
    DetectedAgain(w0, tree, w0, listing, d);
    var alive := disk.MigrateSources(d.tree, d.roots);
    disk.fuse := Some(0);
    alive := disk.MigrateTree(d.tree);
    assert !alive && disk.w == Between(w0, tree);
    disk.fuse := None;
    d, alive := disk.Run(listing);
    DetectedAgain(w0, tree, Between(w0, tree), listing, d);
  }

  /** A run for each entry, killed after so many writes unless it ends before, and a last one that is not killed. */
  method KilledOften(w0: Workspace, tree: Name, listing: seq<Name>, kills: seq<nat>) returns (disk: Disk)
    requires Movable(w0, tree) && OneBlockRoots(w0, tree) && Listing(w0, listing)
    ensures fresh(disk) && disk.w == Final(w0, tree)
  {
    Starts(w0, tree);
    disk := new Disk(None, w0);
    for i := 0 to |kills|
      invariant fresh(disk) && Underway(w0, tree, disk.w) && Listing(disk.w, listing)
    {
      disk.fuse := Some(kills[i]);
      var alive := TakeUp(disk, w0, tree, listing);
      if alive { return; }
    }
    disk.fuse := None;
    var _ := TakeUp(disk, w0, tree, listing);
  }

  /** One of those runs. */
  method TakeUp(disk: Disk, ghost w0: Workspace, ghost tree: Name, listing: seq<Name>) returns (alive: bool)
    requires Movable(w0, tree) && OneBlockRoots(w0, tree) && Underway(w0, tree, disk.w) && Listing(disk.w, listing)
    modifies disk
    ensures old(disk.fuse) == None ==> alive
    ensures if alive then disk.w == Final(w0, tree) else Underway(w0, tree, disk.w) && Listing(disk.w, listing)
  {
    ghost var w := disk.w;
    var d;
    d, alive := disk.Run(listing);
    DetectedAgain(w0, tree, w, listing, d);
    Resumes(w0, tree, w, disk.w);
    assert disk.w.children.Keys == w0.children.Keys == w.children.Keys;
  }

  // ---------------------------------------------------------------- after the marker has gone

  /** Detection takes the workspace for a migrated one. */
  predicate Recognised(w: Workspace) {
    w.manifest.Some? && !w.marker && !SomeBound(w) && !SomeStateful(w)
  }

  /** A finished migration is recognised as one, except when the tree itself has a source.json and its
      bindings do not declare the tree as a source: that file is never removed. */
  lemma RecognisedAfter(w0: Workspace, tree: Name)
    requires Movable(w0, tree)
    ensures Recognised(Final(w0, tree)) <==> !w0.children[tree].sourceState || tree in w0.children[tree].bindings.value
  {
    var w := Final(w0, tree);
    FinalChildren(w0, tree);
    forall n | n in w.children ensures !Bound(w, n) && (n != tree ==> !Stateful(w, n)) {
      assert Bound(w0, n) ==> n == tree;
      assert Stateful(w0, n) && n != tree ==> n in RootsOf(w0, tree);
    }
    assert Stateful(w, tree) <==> w0.children[tree].sourceState && tree !in w0.children[tree].bindings.value;
    assert Stateful(w, tree) ==> SomeStateful(w);
  }

  lemma FinalChildren(w0: Workspace, tree: Name)
    requires Movable(w0, tree)
    ensures var w := Final(w0, tree);
            && w.manifest == Some(Target(w0, tree)) && !w.marker && w.children.Keys == w0.children.Keys
            && (forall n :: n in w0.children ==>
                  w.children[n] == if n == tree then CleanedTree(Sourced(w0, tree, n)) else Sourced(w0, tree, n))
  {
    hide RootsOf, CleanedSource, CleanedTree;
  }

  lemma NobodyBound(w0: Workspace, tree: Name)
    requires Movable(w0, tree)
    ensures forall n :: !Bound(Final(w0, tree), n)
    ensures forall n :: Stateful(Final(w0, tree), n) ==> n == tree
  {
    FinalChildren(w0, tree);
    forall n ensures !Bound(Final(w0, tree), n) && (Stateful(Final(w0, tree), n) ==> n == tree) {
      assert Bound(w0, n) ==> n == tree;
      assert Stateful(w0, n) && n != tree ==> n in RootsOf(w0, tree);
    }
  }

  /** The roots found then are the sources the manifest lists. */
  lemma FinalRoots(w0: Workspace, tree: Name)
    requires Movable(w0, tree)
    ensures RootsOf(Final(w0, tree), tree) == Target(w0, tree).sources
    ensures Listed(Target(w0, tree).sources, tree) == Target(w0, tree).sources
    ensures Target(w0, tree).sources <= RootsOf(w0, tree) - {tree}
  {
    RootsPresent(w0, tree);
    FinalChildren(w0, tree);
    NobodyBound(w0, tree);
    hide Final, Bound, Stateful;
    forall n ensures n in RootsOf(Final(w0, tree), tree) <==> n in Target(w0, tree).sources {
    }
  }

  lemma TreeStill(r0: Repo, r: Repo)
    requires TreePartly(CleanedTree(r0), r)
    ensures r == CleanedTree(r0) && CleanedTree(CleanedTree(r0)) == CleanedTree(r0)
  {
  }

  /** Another pass over them changes nothing. */
  lemma FinalClean(w0: Workspace, tree: Name, w': Workspace)
    requires Movable(w0, tree) && OneBlockRoots(w0, tree)
    requires SourcesPartly(Final(w0, tree), w', Target(w0, tree).sources)
    ensures w' == Final(w0, tree)
  {
    var w := Final(w0, tree);
    RootsPresent(w0, tree);
    FinalChildren(w0, tree);
    FinalRoots(w0, tree);
    hide Final, RootsOf, Target, SourcePartly, CleanedSource, TreePartly, OneBlockFiles;
    forall n | n in w.children ensures w'.children[n] == w.children[n] {
      if n in Target(w0, tree).sources {
        assert n in RootsOf(w0, tree) && n in w0.children && OneBlockFiles(w0.children[n]);
        NothingToClean(w0.children[n], w.children[n], w'.children[n]);
      }
    }
    assert w'.children == w.children;
  }

  /** A workspace to be migrated whose finished migration is not recognised. */
  lemma Unrecognised()
    ensures var bare := Repo(true, true, false, false, false, false, None, None, Some({}), false, false, false);
            var w0 := Workspace(map["context" := bare], None, true);
            Movable(w0, "context") && OneBlockRoots(w0, "context") && !Recognised(Final(w0, "context"))
  {
    var bare := Repo(true, true, false, false, false, false, None, None, Some({}), false, false, false);
    var w0 := Workspace(map["context" := bare], None, true);
    assert Movable(w0, "context");
    RecognisedAfter(w0, "context");
  }

  /** One that is not recognised stays that way: every later run takes it for a legacy workspace with the same
      tree and, killed or not, leaves it as it is. */
  lemma LegacyForGood(w0: Workspace, tree: Name, listing: seq<Name>, d: Detection, w': Workspace)
    requires Movable(w0, tree) && OneBlockRoots(w0, tree) && !Recognised(Final(w0, tree))
    requires var w := Final(w0, tree);
             && Describes(w, listing, d)
             && (d.Legacy? <==> SomeBound(w) || (w.manifest.Some? && (w.marker || SomeStateful(w))))
    ensures d.Legacy? && d.tree == tree && Migrated(Final(w0, tree), tree, d.roots) == Final(w0, tree)
    ensures MigratedPartly(Final(w0, tree), w', tree, d.roots) ==> w' == Final(w0, tree)
  {
    var w := Final(w0, tree);
    FinalChildren(w0, tree);
    RecognisedAfter(w0, tree);
    NobodyBound(w0, tree);
    FinalRoots(w0, tree);
    var roots := Target(w0, tree).sources;
    assert Rewritten(w, tree, roots) == w;
    AllDone(w, roots);
    FinalClean(w0, tree, SourcesDone(w, roots));
    TreeStill(Sourced(w0, tree, tree), w.children[tree]) by {
      TreeEnds(w.children[tree]);
    }
    WithSame(w, tree);
    if SourcesPartly(w, w', roots) {
      FinalClean(w0, tree, w');
    } else if tree in w'.children && TreePartly(w.children[tree], w'.children[tree]) {
      TreeStill(Sourced(w0, tree, tree), w'.children[tree]);
    }
    hide RootsOf, Final, CleanedSource, SourcePartly, TreePartly, CleanedTree, SourcesDone, SourcesPartly, Target;
  }
}
