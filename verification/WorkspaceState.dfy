/**
 What the workspace migration finds on disk and what its cleanup leaves: the legacy state of a
 repository, and the workspace as a whole.
 */
module WorkspaceState {
  import opened Options
  import opened FrameworkBlock

  type Name = string

  // ---------------------------------------------------------------- one repository

  /** A child directory: its legacy state, and its framework files.  `bindings` are the source names
      declared by the files in the bindings directory; `other` is anything else in `.first-tree`. */
  datatype Repo = Repo(
    sourceState: bool, runtime: bool, other: bool, skills: bool, claudeSkills: bool, whitepaper: bool,
    agentsMd: Option<string>, claudeMd: Option<string>,
    bindings: Option<set<Name>>, bootstrap: bool, treeState: bool, sourceRepos: bool)

  predicate RuntimeEmpty(r: Repo) {
    !r.sourceState && r.bindings.None? && !r.bootstrap && !r.treeState && !r.other
  }

  function Stripped(file: Option<string>): Option<string> {
    if file.Some? then Some(Strip(file.value)) else None
  }

  /** cleanSourceRepo, run to its end. */
  function CleanedSource(r: Repo): Repo {
    r.(sourceState := false,
       runtime := r.runtime && !RuntimeEmpty(r.(sourceState := false)),
       skills := false, claudeSkills := false, whitepaper := false,
       agentsMd := Stripped(r.agentsMd), claudeMd := Stripped(r.claudeMd))
  }

  /** cleanTreeRepo, run to its end. */
  function CleanedTree(r: Repo): Repo {
    r.(bindings := None, bootstrap := false, treeState := false, sourceRepos := false)
  }

  predicate OneBlockFile(file: Option<string>) {
    file.Some? ==> OneBlock(file.value)
  }

  predicate OneBlockFiles(r: Repo) {
    OneBlockFile(r.agentsMd) && OneBlockFile(r.claudeMd)
  }

  lemma StrippedTwice(file: Option<string>)
    ensures Stripped(Stripped(file)) == Stripped(file) <==> OneBlockFile(file)
    ensures OneBlockFile(file) ==> OneBlockFile(Stripped(file))
  {
    if file.Some? {
      StripOnce(file.value);
      StripOnce(Strip(file.value));
    }
    hide Strip, OneBlock;
  }

  /** Part of cleanSourceRepo has been done, any number of times. */
  predicate SourcePartly(r0: Repo, r: Repo) {
    var c := CleanedSource(r0);
    && r.other == r0.other && r.bindings == r0.bindings && r.bootstrap == r0.bootstrap
    && r.treeState == r0.treeState && r.sourceRepos == r0.sourceRepos
    && (r.sourceState ==> r0.sourceState)
    && (r.runtime == r0.runtime || (!r.sourceState && r.runtime == c.runtime))
    && (r.skills ==> r0.skills) && (r.claudeSkills ==> r0.claudeSkills) && (r.whitepaper ==> r0.whitepaper)
    && (r.agentsMd == r0.agentsMd || r.agentsMd == c.agentsMd)
      && (r.claudeMd == r0.claudeMd || r.claudeMd == c.claudeMd)
  }

  /** Part of cleanTreeRepo has been done; binding files go one by one. */
  predicate TreePartly(r0: Repo, r: Repo) {
    && r == r0.(bindings := r.bindings, bootstrap := r.bootstrap, treeState := r.treeState,
      sourceRepos := r.sourceRepos)
    && (r.bindings.Some? ==> r0.bindings.Some? && r.bindings.value <= r0.bindings.value)
    && (r.bindings.Some? ==>
          r.bootstrap == r0.bootstrap && r.treeState == r0.treeState && r.sourceRepos == r0.sourceRepos)
    && (r.bootstrap ==> r0.bootstrap) && (r.treeState ==> r0.treeState) && (r.sourceRepos ==> r0.sourceRepos)
  }

  /** Cleaning what has been cleaned in part gives what cleaning it once gives. */
  lemma CleanAbsorbs(r0: Repo, r: Repo)
    requires SourcePartly(r0, r) && OneBlockFiles(r0)
    ensures CleanedSource(r) == CleanedSource(r0)
  {
    StrippedTwice(r0.agentsMd);
    StrippedTwice(r0.claudeMd);
    hide Stripped, OneBlockFile;
  }

  /** Cleaning a clean source changes nothing exactly if its framework files had at most one block each. */
  lemma CleanTwice(r0: Repo)
    ensures CleanedSource(CleanedSource(r0)) == CleanedSource(r0) <==> OneBlockFiles(r0)
    ensures OneBlockFiles(r0) ==> OneBlockFiles(CleanedSource(r0))
  {
    StrippedTwice(r0.agentsMd);
    StrippedTwice(r0.claudeMd);
    hide Stripped, OneBlockFile;
  }

  // ---------------------------------------------------------------- the workspace

  datatype Manifest = Manifest(tree: Name, sources: set<Name>)

  datatype Workspace = Workspace(children: map<Name, Repo>, manifest: Option<Manifest>, marker: bool)

  predicate Hidden(n: Name) {
    n != "" && n[0] == '.'
  }

  /** A listed child directory with bindings. */
  predicate Bound(w: Workspace, n: Name) {
    n in w.children && !Hidden(n) && w.children[n].bindings.Some?
  }

  /** A listed child directory with a source.json. */
  predicate Stateful(w: Workspace, n: Name) {
    n in w.children && !Hidden(n) && w.children[n].sourceState
  }

  /** The source roots detection collects, given the bound tree (if any is left) and the tree's name. */
  function Roots(w: Workspace, bound: Option<Name>, tree: Name): set<Name> {
    (if bound.Some? && bound.value in w.children && w.children[bound.value].bindings.Some?
     then w.children[bound.value].bindings.value * w.children.Keys else {})
    + (set n | n in w.children && Stateful(w, n) && n != tree)
    + (if w.manifest.Some? then (w.manifest.value.sources - {"", tree}) * w.children.Keys else {})
  }

  /** The source names the manifest lists. */
  function Listed(roots: set<Name>, tree: Name): set<Name> {
    set n | n in roots && n != tree && !Hidden(n)
  }

  datatype Detection =
    | AlreadyMigrated
    | Legacy(tree: Name, roots: set<Name>, missing: set<Name>)
    | NotApplicable
}
