/**
 The migration of a legacy workspace: detection, and the ordered cleanup.  Every file write and
 removal is one step, and the process may be killed before any of them.
 */
module WorkspaceMigration {
  import opened Options
  import opened WorkspaceState

  // ---------------------------------------------------------------- detection

  ghost predicate Listing(w: Workspace, listing: seq<Name>) {
    forall n :: n in listing <==> n in w.children && !Hidden(n)
  }

  predicate FirstBound(w: Workspace, listing: seq<Name>, k: nat, n: Name) {
    k < |listing| && listing[k] == n && Bound(w, n) && forall j :: 0 <= j < k ==> !Bound(w, listing[j])
  }

  predicate SomeBound(w: Workspace) {
    exists n :: n in w.children && Bound(w, n)
  }

  predicate SomeStateful(w: Workspace) {
    exists n :: n in w.children && Stateful(w, n)
  }

  /** The source roots detection finds once it has settled on a tree. */
  function RootsOf(w: Workspace, tree: Name): set<Name> {
    Roots(w, if Bound(w, tree) then Some(tree) else None, tree)
  }

  /** What d says of w: the first bound child is the tree, or else the one the manifest names. */
  ghost predicate Describes(w: Workspace, listing: seq<Name>, d: Detection) {
    d.Legacy? ==>
      && (if SomeBound(w) then exists k :: FirstBound(w, listing, k, d.tree)
          else w.manifest.Some? && d.tree == w.manifest.value.tree)
      && d.roots == RootsOf(w, d.tree)
      && d.missing == (if Bound(w, d.tree) then w.children[d.tree].bindings.value else {}) - w.children.Keys
  }

  /** detectMigrationState as far as a workspace goes; `listing` are the child directories that are not
      hidden, in the order of the listing. */
  method Detect(w: Workspace, listing: seq<Name>) returns (d: Detection)
    requires Listing(w, listing)
    ensures d.AlreadyMigrated? <==> w.manifest.Some? && !w.marker && !SomeBound(w) && !SomeStateful(w)
    ensures d.NotApplicable? <==> w.manifest.None? && !SomeBound(w)
    ensures d.Legacy? <==> SomeBound(w) || (w.manifest.Some? && (w.marker || SomeStateful(w)))
    ensures Describes(w, listing, d)
  {
    var bound: Option<Name>, stateful := None, false;
    for i := 0 to |listing|
      invariant bound.None? ==> forall k :: 0 <= k < i ==> !Bound(w, listing[k])
      invariant bound.Some? ==> exists k :: FirstBound(w, listing, k, bound.value)
      invariant stateful <==> exists k :: 0 <= k < i && Stateful(w, listing[k])
    {
      if bound.None? && Bound(w, listing[i]) {
        bound := Some(listing[i]);
        assert FirstBound(w, listing, i, listing[i]);
      }
      stateful := stateful || Stateful(w, listing[i]);
    }
    AllListed(w, listing);
    if !w.marker && bound.None? && !stateful {
      return if w.manifest.Some? then AlreadyMigrated else NotApplicable;
    }
    if bound.None? && w.manifest.None? {
      return NotApplicable;
    }
    var tree := if bound.Some? then bound.value else w.manifest.value.tree;
    var declared := if bound.Some? then w.children[bound.value].bindings.value else {};
    var found := FindRoots(w, listing, tree, declared);
    d := Legacy(tree, found, declared - w.children.Keys);
  }

  /** The three sources of source roots. */
  method FindRoots(w: Workspace, listing: seq<Name>, tree: Name, declared: set<Name>) returns (roots: set<Name>)
    requires Listing(w, listing)
    ensures roots == declared * w.children.Keys + (set n | n in w.children && Stateful(w, n) && n != tree)
                     + (if w.manifest.Some? then (w.manifest.value.sources - {"", tree}) * w.children.Keys else {})
  {
    roots := declared * w.children.Keys;
    for i := 0 to |listing|
      invariant roots == declared * w.children.Keys
                         + set k | 0 <= k < i && listing[k] != tree && Stateful(w, listing[k]) :: listing[k]
    {
      if listing[i] != tree && Stateful(w, listing[i]) {
        roots := roots + {listing[i]};
      }
    }
    assert (set k | 0 <= k < |listing| && listing[k] != tree && Stateful(w, listing[k]) :: listing[k])
        == set n | n in w.children && Stateful(w, n) && n != tree;
    if w.manifest.Some? {
      roots := roots + (w.manifest.value.sources - {"", tree}) * w.children.Keys;
    }
  }

  lemma AllListed(w: Workspace, listing: seq<Name>)
    requires Listing(w, listing)
    ensures (exists k :: 0 <= k < |listing| && Bound(w, listing[k])) <==> SomeBound(w)
    ensures (exists k :: 0 <= k < |listing| && Stateful(w, listing[k])) <==> SomeStateful(w)
  {
    if n :| n in w.children && Bound(w, n) {
      assert n in listing;
      var k :| 0 <= k < |listing| && listing[k] == n;
    }
    if n :| n in w.children && Stateful(w, n) {
      assert n in listing;
      var k :| 0 <= k < |listing| && listing[k] == n;
    }
    if k :| 0 <= k < |listing| && Bound(w, listing[k]) {
      assert listing[k] in w.children;
    }
    if k :| 0 <= k < |listing| && Stateful(w, listing[k]) {
      assert listing[k] in w.children;
    }
  }

  // ---------------------------------------------------------------- what a run does

  /** The workspace with one child directory replaced. */
  function With(w: Workspace, n: Name, r: Repo): Workspace {
    w.(children := w.children[n := r])
  }

  function Rewritten(w: Workspace, tree: Name, roots: set<Name>): Workspace {
    w.(manifest := Some(Manifest(tree, Listed(roots, tree))))
  }

  /** All roots are clean. */
  function SourcesDone(w: Workspace, roots: set<Name>): Workspace {
    w.(children := map n | n in w.children :: if n in roots then CleanedSource(w.children[n]) else w.children[n])
  }

  function TreeDone(w: Workspace, tree: Name): Workspace {
    if tree in w.children then With(w, tree, CleanedTree(w.children[tree])) else w
  }

  /** What a run that is not killed makes of w: manifest, sources, tree, marker, in this order. */
  function Migrated(w: Workspace, tree: Name, roots: set<Name>): Workspace {
    TreeDone(SourcesDone(Rewritten(w, tree, roots), roots), tree).(marker := false)
  }

  /** Some of the roots have been cleaned, perhaps in part. */
  ghost predicate SourcesPartly(s: Workspace, w: Workspace, roots: set<Name>) {
    && w == s.(children := w.children) && w.children.Keys == s.children.Keys
    && (forall n :: n in s.children ==>
          if n in roots then SourcePartly(s.children[n], w.children[n]) else w.children[n] == s.children[n])
  }

  /** What a run that is killed can leave. */
  ghost predicate MigratedPartly(s: Workspace, w: Workspace, tree: Name, roots: set<Name>) {
    || w == s
    || SourcesPartly(Rewritten(s, tree, roots), w, roots)
    || (var c := SourcesDone(Rewritten(s, tree, roots), roots);
        tree in c.children && tree in w.children
        && w == With(c, tree, w.children[tree]) && TreePartly(c.children[tree], w.children[tree]))
    || w == TreeDone(SourcesDone(Rewritten(s, tree, roots), roots), tree)
  }

  /** A process that may be killed is never alive afterwards with nothing left to live for, and one that may
      not be killed lives. */
  predicate Lived(before: Option<nat>, after: Option<nat>, alive: bool) {
    (!alive ==> before.Some? && after == Some(0)) && (before == None ==> after == None)
  }

  /** source.json goes, and then the directory it was in if nothing else is there. */
  predicate StatePartly(r0: Repo, r: Repo, alive: bool) {
    && r == r0.(sourceState := r.sourceState, runtime := r.runtime) && (r.sourceState ==> r0.sourceState)
    && (if alive then !r.sourceState && r.runtime == (r0.runtime && !RuntimeEmpty(r0.(sourceState := false)))
        else r.runtime == r0.runtime)
  }

  predicate FilesPartly(r0: Repo, r: Repo, alive: bool) {
    && r == r0.(skills := r.skills, claudeSkills := r.claudeSkills, whitepaper := r.whitepaper,
                agentsMd := r.agentsMd, claudeMd := r.claudeMd)
    && (r.skills ==> r0.skills) && (r.claudeSkills ==> r0.claudeSkills) && (r.whitepaper ==> r0.whitepaper)
    && (r.agentsMd == r0.agentsMd || r.agentsMd == Stripped(r0.agentsMd))
    && (r.claudeMd == r0.claudeMd || r.claudeMd == Stripped(r0.claudeMd))
    && (alive ==> !r.skills && !r.claudeSkills && !r.whitepaper
                  && r.agentsMd == Stripped(r0.agentsMd) && r.claudeMd == Stripped(r0.claudeMd))
  }

  lemma StateThenFiles(r0: Repo, mid: Repo, r: Repo, alive: bool)
    requires StatePartly(r0, mid, true) || (mid == r && !alive && StatePartly(r0, mid, false))
    requires FilesPartly(mid, r, alive) || (mid == r && !alive)
    ensures SourcePartly(r0, r) && (alive ==> r == CleanedSource(r0))
  {
    hide Stripped, RuntimeEmpty;
  }

  class Disk {
    /** How many more writes the process lives to make; None for any number. */
    var fuse: Option<nat>
    var w: Workspace

    constructor (fuse: Option<nat>, w: Workspace)
      ensures this.w == w && this.fuse == fuse
    {
      this.fuse, this.w := fuse, w;
    }

    /** One write or removal, unless the process is killed first. */
    method Step() returns (alive: bool)
      modifies this`fuse
      ensures alive <==> old(fuse) != Some(0)
      ensures Lived(old(fuse), fuse, alive)
    {
      alive := fuse != Some(0);
      if fuse.Some? && alive {
        fuse := Some(fuse.value - 1);
      }
    }

    /** tryRemove: whether the target is left, and whether the process lives on. */
    method TryRemove(there: bool) returns (left: bool, alive: bool)
      modifies this`fuse
      ensures Lived(old(fuse), fuse, alive)
      ensures left <==> there && !alive
      ensures old(fuse) == Some(0) && there ==> !alive
    {
      left, alive := there, true;
      if there {
        alive := Step();
        left := !alive;
      }
    }

    /** cleanSourceRepo, on the state of the child directory; what is returned is what it has come to when the
        process ends or is killed. */
    method CleanSource(r0: Repo) returns (r: Repo, alive: bool)
      modifies this`fuse
      ensures Lived(old(fuse), fuse, alive)
      ensures SourcePartly(r0, r)
      ensures alive ==> r == CleanedSource(r0)
    {
      r, alive := RemoveState(r0);
      ghost var mid := r;
      if alive {
        r, alive := RemoveFiles(r);
        StateThenFiles(r0, mid, r, alive);
      } else {
        StateThenFiles(r0, mid, mid, false);
      }
      hide StatePartly, FilesPartly, SourcePartly, CleanedSource;
    }

    method RemoveState(r0: Repo) returns (r: Repo, alive: bool)
      modifies this`fuse
      ensures Lived(old(fuse), fuse, alive)
      ensures StatePartly(r0, r, alive)
    {
      var sourceState, left;
      sourceState, alive := TryRemove(r0.sourceState);
      r := r0.(sourceState := sourceState);
      if alive {
        // tryRemoveDirIfEmpty
        left, alive := TryRemove(r.runtime && RuntimeEmpty(r));
        r := r.(runtime := if alive then r.runtime && !RuntimeEmpty(r) else r.runtime);
      }
    }

    method RemoveFiles(r0: Repo) returns (r: Repo, alive: bool)
      modifies this`fuse
      ensures Lived(old(fuse), fuse, alive)
      ensures FilesPartly(r0, r, alive)
    {
      hide Stripped;
      r, alive := RemoveSkills(r0);
      if alive {
        r, alive := StripFiles(r);
      }
    }

    method RemoveSkills(r0: Repo) returns (r: Repo, alive: bool)
      modifies this`fuse
      ensures Lived(old(fuse), fuse, alive)
      ensures r == r0.(skills := r.skills, claudeSkills := r.claudeSkills, whitepaper := r.whitepaper)
      ensures (r.skills ==> r0.skills) && (r.claudeSkills ==> r0.claudeSkills) && (r.whitepaper ==> r0.whitepaper)
      ensures alive ==> !r.skills && !r.claudeSkills && !r.whitepaper
    {
      var skills, claudeSkills, whitepaper;
      claudeSkills, whitepaper := r0.claudeSkills, r0.whitepaper;
      skills, alive := TryRemove(r0.skills);
      if alive {
        claudeSkills, alive := TryRemove(r0.claudeSkills);
      }
      if alive {
        whitepaper, alive := TryRemove(r0.whitepaper);
      }
      r := r0.(skills := skills, claudeSkills := claudeSkills, whitepaper := whitepaper);
    }

    /** stripFrameworkBlock; a file without a block is not written. */
    method StripFile(file: Option<string>) returns (after: Option<string>, alive: bool)
      modifies this`fuse
      ensures Lived(old(fuse), fuse, alive)
      ensures after == if alive then Stripped(file) else file
    {
      after, alive := file, true;
      if Stripped(file) != file {
        alive := Step();
        if alive {
          after := Stripped(file);
        }
      }
    }

    /** AGENTS.md and CLAUDE.md. */
    method StripFiles(r0: Repo) returns (r: Repo, alive: bool)
      modifies this`fuse
      ensures Lived(old(fuse), fuse, alive)
      ensures r == r0.(agentsMd := r.agentsMd, claudeMd := r.claudeMd)
      ensures r.agentsMd == r0.agentsMd || r.agentsMd == Stripped(r0.agentsMd)
      ensures r.claudeMd == r0.claudeMd || r.claudeMd == Stripped(r0.claudeMd)
      ensures alive ==> r.agentsMd == Stripped(r0.agentsMd) && r.claudeMd == Stripped(r0.claudeMd)
    {
      var agentsMd, claudeMd;
      claudeMd := r0.claudeMd;
      agentsMd, alive := StripFile(r0.agentsMd);
      if alive {
        claudeMd, alive := StripFile(r0.claudeMd);
      }
      r := r0.(agentsMd := agentsMd, claudeMd := claudeMd);
    }

    /** cleanTreeRepo; rmSync of the bindings directory removes its files one by one, then the directory. */
    method CleanTree(r0: Repo) returns (r: Repo, alive: bool)
      modifies this`fuse
      ensures Lived(old(fuse), fuse, alive)
      ensures TreePartly(r0, r)
      ensures alive ==> r == CleanedTree(r0)
      ensures old(fuse) == Some(0) && r0.bindings.Some? ==> !alive && r == r0
    {
      r, alive := RemoveBindings(r0);
      if alive {
        r, alive := RemoveTreeFiles(r);
      }
    }

    method RemoveTreeFiles(r0: Repo) returns (r: Repo, alive: bool)
      modifies this`fuse
      ensures Lived(old(fuse), fuse, alive)
      ensures r == r0.(bootstrap := r.bootstrap, treeState := r.treeState, sourceRepos := r.sourceRepos)
      ensures (r.bootstrap ==> r0.bootstrap) && (r.treeState ==> r0.treeState) && (r.sourceRepos ==> r0.sourceRepos)
      ensures alive ==> !r.bootstrap && !r.treeState && !r.sourceRepos
    {
      var bootstrap, treeState, sourceRepos;
      treeState, sourceRepos := r0.treeState, r0.sourceRepos;
      bootstrap, alive := TryRemove(r0.bootstrap);
      if alive {
        treeState, alive := TryRemove(r0.treeState);
      }
      if alive {
        sourceRepos, alive := TryRemove(r0.sourceRepos);
      }
      r := r0.(bootstrap := bootstrap, treeState := treeState, sourceRepos := sourceRepos);
    }

    method RemoveBindings(r0: Repo) returns (r: Repo, alive: bool)
      modifies this`fuse
      ensures Lived(old(fuse), fuse, alive)
      ensures r == r0.(bindings := r.bindings)
      ensures r.bindings.Some? ==> r0.bindings.Some? && r.bindings.value <= r0.bindings.value
      ensures alive ==> r.bindings.None?
      ensures old(fuse) == Some(0) && r0.bindings.Some? ==> !alive && r == r0
    {
      r, alive := r0, true;
      if r0.bindings.Some? {
        var left;
        left, alive := RemoveNames(r0.bindings.value);
        if alive {
          alive := Step();
        }
        r := r0.(bindings := if alive then None else Some(left));
      }
    }

    /** The files of the bindings directory, in any order. */
    method RemoveNames(names: set<Name>) returns (left: set<Name>, alive: bool)
      modifies this`fuse
      ensures Lived(old(fuse), fuse, alive)
      ensures left <= names && (alive ==> left == {})
      ensures old(fuse) == Some(0) ==> left == names && fuse == Some(0)
    {
      left, alive := names, true;
      while left != {}
        invariant alive && left <= names && (old(fuse) == None ==> fuse == None)
        invariant old(fuse) == Some(0) ==> fuse == Some(0) && left == names
        decreases |left|
      {
        alive := Step();
        if !alive { return; }
        var name :| name in left;
        left := left - {name};
      }
    }

    /** The loop over the source roots. */
    method CleanSources(roots: set<Name>) returns (alive: bool)
      requires roots <= w.children.Keys
      modifies this
      ensures Lived(old(fuse), fuse, alive)
      ensures SourcesPartly(old(w), w, roots)
      ensures alive ==> w == SourcesDone(old(w), roots)
    {
      hide SourcePartly, CleanedSource;
      ghost var s := w;
      NoneDone(s, roots);
      var todo := roots;
      alive := true;
      while todo != {}
        invariant alive && todo <= roots && (old(fuse) == None ==> fuse == None)
        invariant w == SourcesDone(s, roots - todo)
        decreases |todo|
      {
        var n :| n in todo;
        var r;
        r, alive := CleanSource(w.children[n]);
        w := With(w, n, r);
        if !alive {
          PartlyDone(s, roots, todo, n, r);
          return;
        }
        OneMore(s, roots, todo, n);
        todo := todo - {n};
      }
      assert roots - {} == roots;
      AllDone(s, roots);
    }

    /** Up to the tree: the manifest comes first. */
    method MigrateSources(tree: Name, roots: set<Name>) returns (alive: bool)
      requires roots <= w.children.Keys
      modifies this
      ensures Lived(old(fuse), fuse, alive)
      ensures w == old(w) || SourcesPartly(Rewritten(old(w), tree, roots), w, roots)
      ensures alive ==> w == SourcesDone(Rewritten(old(w), tree, roots), roots)
    {
      alive := Step();
      if !alive { return; }
      w := Rewritten(w, tree, roots);
      alive := CleanSources(roots);
    }

    /** The tree, and last the marker. */
    method MigrateTree(tree: Name) returns (alive: bool)
      modifies this
      ensures Lived(old(fuse), fuse, alive)
      ensures alive ==> w == TreeDone(old(w), tree).(marker := false)
      ensures !alive ==>
                w == TreeDone(old(w), tree)
                || (tree in old(w).children && tree in w.children
                    && w == With(old(w), tree, w.children[tree]) && TreePartly(old(w).children[tree], w.children[tree]))
      ensures old(fuse) == Some(0) && tree in old(w).children && old(w).children[tree].bindings.Some? ==>
                !alive && w == old(w)
    {
      if tree in w.children {
        var r;
        r, alive := CleanTree(w.children[tree]);
        WithSame(w, tree);
        w := With(w, tree, r);
        if !alive { return; }
      }
      var marker;
      marker, alive := TryRemove(w.marker);
      w := w.(marker := marker);
    }

    /** migrateWorkspaceToW1. */
    method Migrate(tree: Name, roots: set<Name>) returns (alive: bool)
      requires roots <= w.children.Keys
      modifies this
      ensures Lived(old(fuse), fuse, alive)
      ensures if alive then w == Migrated(old(w), tree, roots) else MigratedPartly(old(w), w, tree, roots)
    {
      alive := MigrateSources(tree, roots);
      if !alive { return; }
      alive := MigrateTree(tree);
    }

    /** What the command does on a workspace: detect and, if there is legacy state, migrate. */
    method Run(listing: seq<Name>) returns (d: Detection, alive: bool)
      requires Listing(w, listing)
      modifies this
      ensures Lived(old(fuse), fuse, alive)
      ensures d.Legacy? <==> SomeBound(old(w)) || (old(w).manifest.Some? && (old(w).marker || SomeStateful(old(w))))
      ensures Describes(old(w), listing, d)
      ensures match d
              case Legacy(tree, roots, _) =>
                if alive then w == Migrated(old(w), tree, roots) else MigratedPartly(old(w), w, tree, roots)
              case _ => alive && w == old(w)
    {
      d := Detect(w, listing);
      alive := true;
      if d.Legacy? {
        RootsPresent(w, d.tree);
        alive := Migrate(d.tree, d.roots);
      }
    }
  }

  // ---------------------------------------------------------------- the loop over the roots

  lemma RootsPresent(w: Workspace, tree: Name)
    ensures RootsOf(w, tree) <= w.children.Keys
  {
  }

  lemma WithSame(w: Workspace, n: Name)
    requires n in w.children
    ensures With(w, n, w.children[n]) == w
  {
    assert w.children[n := w.children[n]] == w.children;
  }

  lemma PartlySame(r: Repo)
    ensures SourcePartly(r, r) && SourcePartly(r, CleanedSource(r))
  {
  }

  lemma NoneDone(s: Workspace, roots: set<Name>)
    ensures SourcesDone(s, roots - roots) == s
  {
    assert SourcesDone(s, roots - roots).children == s.children;
  }

  lemma OneMore(s: Workspace, roots: set<Name>, todo: set<Name>, n: Name)
    requires n in todo && todo <= roots && n in s.children
    ensures With(SourcesDone(s, roots - todo), n, CleanedSource(s.children[n])) == SourcesDone(s, roots - (todo - {n}))
  {
    hide CleanedSource;
    assert With(SourcesDone(s, roots - todo), n, CleanedSource(s.children[n])).children
        == SourcesDone(s, roots - (todo - {n})).children;
  }

  lemma PartlyDone(s: Workspace, roots: set<Name>, todo: set<Name>, n: Name, r: Repo)
    requires n in todo && todo <= roots && n in s.children && SourcePartly(s.children[n], r)
    ensures SourcesPartly(s, With(SourcesDone(s, roots - todo), n, r), roots)
  {
    var w := With(SourcesDone(s, roots - todo), n, r);
    forall m | m in s.children
      ensures if m in roots then SourcePartly(s.children[m], w.children[m]) else w.children[m] == s.children[m]
    {
      PartlySame(s.children[m]);
      hide SourcePartly, CleanedSource;
    }
    assert w == s.(children := w.children) && w.children.Keys == s.children.Keys;
    hide SourcePartly, CleanedSource, SourcesDone;
  }

  lemma AllDone(s: Workspace, roots: set<Name>)
    ensures SourcesPartly(s, SourcesDone(s, roots), roots)
  {
    forall m | m in s.children ensures SourcePartly(s.children[m], CleanedSource(s.children[m])) {
      PartlySame(s.children[m]);
    }
    hide SourcePartly, CleanedSource;
  }
}
