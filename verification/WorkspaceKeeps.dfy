/** What a migration leaves of a workspace, entry by entry. */
module WorkspaceKeeps {
  import opened Options
  import opened FrameworkBlock
  import opened FrameworkText
  import opened WorkspaceState
  import opened WorkspaceMigration

  /** A framework file is still there, with all that stood around its block but some line feeds, and unchanged if
      it had none. */
  ghost predicate TextKept(before: Option<string>, after: Option<string>) {
    && (after.Some? <==> before.Some?)
    && (before.Some? ==>
          && (forall pre, mid, post :: Around(Unix(before.value), pre, mid, post) ==>
                Ink(after.value) == Ink(pre) + Ink(post))
          && ((forall pre, mid, post :: !Around(Unix(before.value), pre, mid, post)) ==> after == before))
  }

  lemma StripKeeps(file: Option<string>)
    ensures TextKept(file, Stripped(file))
  {
    hide Unix, Around, Strip, Ink;
    if file.Some? {
      var text := Unix(file.value);
      forall pre, mid, post | Around(text, pre, mid, post) ensures Ink(Stripped(file).value) == Ink(pre) + Ink(post) {
        StripsBlock(file.value, pre, mid, post);
      }
      if forall pre, mid, post :: !Around(text, pre, mid, post) {
        StripsNothing(file.value);
      }
    }
  }

  /** A child directory before and after: a source root loses its state, skills, whitepaper and framework blocks, and
      the state directory only if nothing else is in it; the tree loses its bindings and what belongs to them. */
  ghost predicate ChildKept(r: Repo, m: Repo, root: bool, tree: bool) {
    && m.other == r.other
    && (m.sourceState <==> r.sourceState && !root)
    && (m.runtime <==> r.runtime && (root ==> r.other || r.bindings.Some? || r.bootstrap || r.treeState))
    && (m.skills <==> r.skills && !root) && (m.claudeSkills <==> r.claudeSkills && !root)
    && (m.whitepaper <==> r.whitepaper && !root)
    && (if root then TextKept(r.agentsMd, m.agentsMd) && TextKept(r.claudeMd, m.claudeMd)
        else m.agentsMd == r.agentsMd && m.claudeMd == r.claudeMd)
    && m.bindings == (if tree then None else r.bindings)
    && (m.bootstrap <==> r.bootstrap && !tree) && (m.treeState <==> r.treeState && !tree)
    && (m.sourceRepos <==> r.sourceRepos && !tree)
  }

  lemma CleanKeeps(r: Repo, root: bool, tree: bool)
    ensures var c := if root then CleanedSource(r) else r;
            ChildKept(r, if tree then CleanedTree(c) else c, root, tree)
  {
    StripKeeps(r.agentsMd);
    StripKeeps(r.claudeMd);
    hide TextKept, Stripped;
  }

  /** A migration touches the roots and the tree only, leaves no legacy state in them, and writes a manifest of the
      tree and exactly the roots that are neither the tree nor hidden. */
  lemma MigrationKeeps(w: Workspace, tree: Name, roots: set<Name>)
    requires roots <= w.children.Keys
    ensures var m := Migrated(w, tree, roots);
            && !m.marker && m.children.Keys == w.children.Keys
            && (forall n :: n in w.children ==> ChildKept(w.children[n], m.children[n], n in roots, n == tree))
            && m.manifest.Some? && m.manifest.value.tree == tree
            && (forall n :: n in m.manifest.value.sources <==>
                  n in roots && n != tree && !(n != "" && n[0] == '.'))
  {
    var m := Migrated(w, tree, roots);
    forall n | n in w.children
      ensures n in m.children && ChildKept(w.children[n], m.children[n], n in roots, n == tree)
    {
      CleanKeeps(w.children[n], n in roots, n == tree);
      hide ChildKept, CleanedSource, CleanedTree;
    }
    hide ChildKept, CleanedSource, CleanedTree;
    assert m.children.Keys == w.children.Keys;
  }
}
