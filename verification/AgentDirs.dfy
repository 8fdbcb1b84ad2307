/**
 Reconciliation of the local agent directories with the names the server gives the agents.
 `AgentHome` holds the three directories a start-up may rename in; the environment decides
 which calls throw.
 */
module AgentDirs {
  import opened Options

  type Name = string

  /** What stands under a name in the agents directory: an agent's directory, one whose agent.yaml cannot
      be read, one without agent.yaml, or something that is no directory. */
  datatype Entry = Agent(id: nat, config: nat) | Broken | Bare | Plain

  type Agents = map<Name, Entry>

  /** What stands under a name in the workspaces directory; only directories are ever renamed. */
  datatype Space = Directory(id: nat) | Stray(id: nat)

  type Resolver = nat -> Option<Name>

  datatype Result = Result(scanned: nat, renamed: nat, skipped: nat, errors: nat)

  /** The server has a name for the agent, and it is another one. */
  predicate Mismatch(agents: Agents, resolve: Resolver, n: Name) {
    n in agents && agents[n].Agent? && resolve(agents[n].id).Some? && resolve(agents[n].id).value !in {"", n}
  }

  function Mismatches(agents: Agents, resolve: Resolver): set<Name> {
    set n | n in agents && Mismatch(agents, resolve, n)
  }

  /** A mismatch whose target name is taken. */
  predicate Blocked(agents: Agents, resolve: Resolver, n: Name) {
    Mismatch(agents, resolve, n) && resolve(agents[n].id).value in agents
  }

  function Moved<T>(m: map<Name, T>, from: Name, to: Name): map<Name, T>
    requires from in m
  {
    (m - {from})[to := m[from]]
  }

  /** What one turn of the loop does when nothing throws. */
  function Turn(agents: Agents, resolve: Resolver, n: Name): Agents {
    if Mismatch(agents, resolve, n) && !Blocked(agents, resolve, n)
    then Moved(agents, n, resolve(agents[n].id).value) else agents
  }

  /** What a whole run does when nothing throws. */
  function Pass(agents: Agents, resolve: Resolver, names: seq<Name>): Agents {
    if names == [] then agents else Turn(Pass(agents, resolve, names[..|names| - 1]), resolve, names[|names| - 1])
  }

  /** The listing of the directories among the entries. */
  ghost predicate Lists(agents: Agents, names: seq<Name>) {
    && (forall n :: n in names <==> n in agents && !agents[n].Plain?)
    && (forall i, j :: 0 <= i < j < |names| ==> names[i] != names[j])
  }

  /** Every entry of `after` is an entry of `before`, under the name it had or under the one the server
      gives it; none is lost and none is there twice. */
  ghost predicate Reconciled(before: Agents, after: Agents, origin: map<Name, Name>, resolve: Resolver) {
    && origin.Keys == after.Keys && origin.Values == before.Keys
    && (forall n :: n in after ==> origin[n] in before && after[n] == before[origin[n]])
    && (forall n, m :: n in after && m in after && origin[n] == origin[m] ==> n == m)
    && (forall n :: n in after && origin[n] != n ==> after[n].Agent? && resolve(after[n].id) == Some(n))
  }

  // ---------------------------------------------------------------- one rename

  /** A rename onto a free name settles exactly one mismatch. */
  lemma RenameSettles(agents: Agents, resolve: Resolver, n: Name)
    requires Mismatch(agents, resolve, n) && !Blocked(agents, resolve, n)
    ensures var to := resolve(agents[n].id).value;
            && n in Mismatches(agents, resolve)
            && Mismatches(Moved(agents, n, to), resolve) == Mismatches(agents, resolve) - {n}
  {
    var to := resolve(agents[n].id).value;
    var after := Moved(agents, n, to);
    forall x ensures x in Mismatches(after, resolve) <==> x in Mismatches(agents, resolve) - {n} {
    }
  }

  lemma RenameReconciles(before: Agents, agents: Agents, origin: map<Name, Name>, resolve: Resolver, n: Name)
    requires Reconciled(before, agents, origin, resolve)
    requires Mismatch(agents, resolve, n) && !Blocked(agents, resolve, n) && origin[n] == n
    ensures var to := resolve(agents[n].id).value;
            Reconciled(before, Moved(agents, n, to), Moved(origin, n, to), resolve)
  {
    var to := resolve(agents[n].id).value;
    MoveKeeps(origin, n, to);
  }

  /** The same things, under whatever names. */
  predicate Keeps<T(==)>(m: map<Name, T>, after: map<Name, T>) {
    after.Values == m.Values && |after| == |m|
  }

  /** A rename onto a free name has been made, or nothing has changed. */
  predicate Followed<T(==)>(m: map<Name, T>, after: map<Name, T>, from: Name, to: Name) {
    after == m || (from in m && to !in m && after == Moved(m, from, to))
  }

  /** The rename of what stands under an agent's old name, if it may be renamed and the new name is free. */
  function FollowTo<T>(m: map<Name, T>, movable: set<Name>, from: Name, to: Name): map<Name, T>
    requires movable <= m.Keys
  {
    if from in movable && to !in m then Moved(m, from, to) else m
  }

  /** Only directories among the workspaces are renamed. */
  function Directories(workspaces: map<Name, Space>): (d: set<Name>)
    ensures d <= workspaces.Keys
  {
    set n | n in workspaces && workspaces[n].Directory?
  }

  /** What the agents had is where their names are now: a renamed agent's is under its new name, exactly if it had
      something that may be renamed, wherever that name was free; the others' has stayed. */
  ghost predicate Along<T>(m: map<Name, T>, movable: set<Name>, after: map<Name, T>, agents: Agents,
                               origin: map<Name, Name>)
  {
    && (forall n :: n in agents && n in origin && origin[n] != n && n !in m ==>
          (n in after <==> origin[n] in movable)
          && (n in after ==> origin[n] in m && after[n] == m[origin[n]]))
    && (forall n :: n in agents && n in origin && origin[n] == n ==>
          (n in after <==> n in m) && (n in after ==> n in m && after[n] == m[n]))
    && (forall n :: n !in agents && n !in m ==> n !in after)
  }

  /** A rename, with what follows it, keeps that. */
  lemma FollowAlong<T>(m: map<Name, T>, movable: set<Name>, now: map<Name, T>, nowMovable: set<Name>,
                       agents: Agents, origin: map<Name, Name>, from: Name, to: Name)
    requires Along(m, movable, now, agents, origin) && movable <= m.Keys && nowMovable <= now.Keys
    requires from in agents && to !in agents && origin.Keys == agents.Keys && origin[from] == from
    requires from in movable <==> from in nowMovable
    ensures Along(m, movable, FollowTo(now, nowMovable, from, to), Moved(agents, from, to), Moved(origin, from, to))
  {
  }

  lemma StartAlong(workspaces: map<Name, Space>, sessions: map<Name, nat>, agents: Agents, origin: map<Name, Name>)
    requires origin == Selves(agents)
    ensures Accompanied(workspaces, sessions, workspaces, sessions, agents, origin)
  {
  }

  lemma MoveKeeps<T>(m: map<Name, T>, from: Name, to: Name)
    requires from in m && to !in m
    ensures Keeps(m, Moved(m, from, to))
  {
    var after := Moved(m, from, to);
    forall v ensures v in after.Values <==> v in m.Values {
      if v in m.Values {
        var k :| k in m && m[k] == v;
        assert after[if k == from then to else k] == v;
      }
    }
    assert after.Keys == m.Keys - {from} + {to};
  }

  /** At most the entry of this name has been renamed, and each rename has settled one mismatch. */
  ghost predicate Turned(before: Agents, agents: Agents, origin: map<Name, Name>, after: Agents,
      origin': map<Name, Name>, resolve: Resolver, name: Name, renamed: int) {
    && Reconciled(before, after, origin', resolve) && origin'.Keys == after.Keys
    && |Mismatches(after, resolve)| + renamed == |Mismatches(agents, resolve)|
    && (forall n :: n != name && n in agents && n in origin ==> n in after && n in origin' && origin'[n] == origin[n])
    && (if after == agents then origin' == origin && renamed == 0
        else
          && renamed == 1 && Mismatch(agents, resolve, name) && name in origin
          && (var to := resolve(agents[name].id).value;
              after == Moved(agents, name, to) && origin' == Moved(origin, name, to)))
  }

  lemma TurnedSame(before: Agents, agents: Agents, origin: map<Name, Name>, resolve: Resolver, name: Name)
    requires Reconciled(before, agents, origin, resolve)
    ensures Turned(before, agents, origin, agents, origin, resolve, name, 0)
  {
  }

  lemma TurnedMoved(before: Agents, agents: Agents, origin: map<Name, Name>, resolve: Resolver, name: Name, to: Name)
    requires Reconciled(before, agents, origin, resolve) && name in agents && origin[name] == name
    requires Mismatch(agents, resolve, name) && to == resolve(agents[name].id).value && to !in agents
    ensures name in origin
    ensures Turned(before, agents, origin, Moved(agents, name, to), Moved(origin, name, to), resolve, name, 1)
  {
    RenameSettles(agents, resolve, name);
    RenameReconciles(before, agents, origin, resolve, name);
    hide Reconciled, Mismatches;
  }

  /** Workspaces and session files are where the agents' names are now. */
  ghost predicate Accompanied(spaces: map<Name, Space>, files: map<Name, nat>, workspaces: map<Name, Space>,
                              sessions: map<Name, nat>, agents: Agents, origin: map<Name, Name>)
  {
    && Along(spaces, Directories(spaces), workspaces, agents, origin)
    && Along(files, files.Keys, sessions, agents, origin)
  }

  /** One turn: unless the agent has not been renamed, its workspace and its session file follow. */
  ghost predicate FollowsTurn(agents: Agents, agents': Agents, workspaces: map<Name, Space>,
                              workspaces': map<Name, Space>, sessions: map<Name, nat>, sessions': map<Name, nat>,
                              resolve: Resolver, name: Name)
  {
    if agents' == agents then workspaces' == workspaces && sessions' == sessions
    else
      && name in agents && agents[name].Agent? && resolve(agents[name].id).Some?
      && (var to := resolve(agents[name].id).value;
          && to !in agents
          && workspaces' == FollowTo(workspaces, Directories(workspaces), name, to)
          && sessions' == FollowTo(sessions, sessions.Keys, name, to))
  }

  lemma StaysTurn(agents: Agents, workspaces: map<Name, Space>, sessions: map<Name, nat>, resolve: Resolver, name: Name)
    ensures FollowsTurn(agents, agents, workspaces, workspaces, sessions, sessions, resolve, name)
  {
  }

  lemma MovedTurn(agents: Agents, workspaces: map<Name, Space>, sessions: map<Name, nat>, resolve: Resolver, name: Name)
    requires Mismatch(agents, resolve, name) && resolve(agents[name].id).value !in agents
    ensures var to := resolve(agents[name].id).value;
            FollowsTurn(agents, Moved(agents, name, to),
                        workspaces, FollowTo(workspaces, Directories(workspaces), name, to),
                        sessions, FollowTo(sessions, sessions.Keys, name, to), resolve, name)
  {
    assert resolve(agents[name].id).value in Moved(agents, name, resolve(agents[name].id).value);
  }

  /** The names from the i-th on have not been touched yet. */
  ghost predicate Untouched(names: seq<Name>, i: nat, agents: Agents, origin: map<Name, Name>) {
    forall k :: i <= k < |names| ==> names[k] in agents && names[k] in origin && origin[names[k]] == names[k]
  }

  lemma Front(names: seq<Name>, i: nat, agents: Agents, origin: map<Name, Name>)
    requires i < |names| && Untouched(names, i, agents, origin)
    ensures names[i] in agents && names[i] in origin && origin[names[i]] == names[i]
  {
  }

  lemma UntouchedNext(names: seq<Name>, i: nat, before: Agents, agents: Agents, origin: map<Name, Name>,
                      agents': Agents, origin': map<Name, Name>, resolve: Resolver, renamed: int)
    requires i < |names| && Lists(before, names)
    requires Untouched(names, i, agents, origin)
    requires Turned(before, agents, origin, agents', origin', resolve, names[i], renamed)
    ensures Untouched(names, i + 1, agents', origin') && Reconciled(before, agents', origin', resolve)
    ensures |Mismatches(agents', resolve)| + renamed == |Mismatches(agents, resolve)|
  {
    hide Reconciled, Mismatches, Moved;
  }

  /** The loop has dealt with the first i names. */
  ghost predicate Done(before: Agents, spaces: map<Name, Space>, files: map<Name, nat>,
                       agents: Agents, workspaces: map<Name, Space>, sessions: map<Name, nat>, origin: map<Name, Name>,
                       names: seq<Name>, i: nat, resolve: Resolver, renamed: int, smooth: bool)
  {
    && i <= |names| && Reconciled(before, agents, origin, resolve) && Untouched(names, i, agents, origin)
    && |Mismatches(agents, resolve)| + renamed == |Mismatches(before, resolve)|
    && Keeps(spaces, workspaces) && Keeps(files, sessions)
    && (smooth ==> agents == Pass(before, resolve, names[..i])
                   && Accompanied(spaces, files, workspaces, sessions, agents, origin))
  }

  function Selves(agents: Agents): map<Name, Name> {
    map n | n in agents :: n
  }

  lemma StartDone(agents: Agents, workspaces: map<Name, Space>, sessions: map<Name, nat>, origin: map<Name, Name>,
                  names: seq<Name>, resolve: Resolver, smooth: bool)
    requires origin == Selves(agents) && Lists(agents, names)
    ensures Done(agents, workspaces, sessions, agents, workspaces, sessions, origin, names, 0, resolve, 0, smooth)
  {
    StartReconciled(agents, origin, names, resolve);
    StartKeeps(workspaces, sessions);
    StartAlong(workspaces, sessions, agents, origin);
    assert names[..0] == [] && Pass(agents, resolve, []) == agents;
    hide Reconciled, Untouched, Keeps, Accompanied;
  }

  lemma DoneNext(before: Agents, spaces: map<Name, Space>, files: map<Name, nat>,
                 agents: Agents, workspaces: map<Name, Space>, sessions: map<Name, nat>, origin: map<Name, Name>,
                 agents': Agents, workspaces': map<Name, Space>, sessions': map<Name, nat>, origin': map<Name, Name>,
                 names: seq<Name>, i: nat, resolve: Resolver, renamed: int, more: int, smooth: bool)
    requires i < |names| && Lists(before, names)
    requires Done(before, spaces, files, agents, workspaces, sessions, origin, names, i, resolve, renamed, smooth)
    requires Turned(before, agents, origin, agents', origin', resolve, names[i], more)
    requires Keeps(workspaces, workspaces') && Keeps(sessions, sessions')
    requires smooth ==>
        && agents' == Turn(agents, resolve, names[i])
        && FollowsTurn(agents, agents', workspaces, workspaces', sessions, sessions', resolve, names[i])
    ensures Done(before, spaces, files, agents', workspaces', sessions', origin', names, i + 1, resolve, renamed + more,
                 smooth)
  {
    Front(names, i, agents, origin);
    UntouchedNext(names, i, before, agents, origin, agents', origin', resolve, more);
    KeepsOn(spaces, workspaces, workspaces', files, sessions, sessions');
    PassNext(before, resolve, names, i);
    hide Reconciled, Untouched, Keeps, Accompanied, Turned, FollowsTurn, Mismatches, Pass, Turn, Lists;
    if smooth {
      FollowTurn(spaces, files, before, agents, workspaces, sessions, origin, agents', workspaces', sessions', origin',
                 resolve, names[i], more);
    }
  }

  lemma DoneMeans(before: Agents, spaces: map<Name, Space>, files: map<Name, nat>,
                  agents: Agents, workspaces: map<Name, Space>, sessions: map<Name, nat>, origin: map<Name, Name>,
                  names: seq<Name>, i: nat, resolve: Resolver, renamed: int, smooth: bool)
    requires Done(before, spaces, files, agents, workspaces, sessions, origin, names, i, resolve, renamed, smooth)
    ensures Reconciled(before, agents, origin, resolve)
    ensures |Mismatches(agents, resolve)| + renamed == |Mismatches(before, resolve)|
    ensures Keeps(spaces, workspaces) && Keeps(files, sessions)
    ensures smooth && i == |names| ==>
              && agents == Pass(before, resolve, names)
              && Accompanied(spaces, files, workspaces, sessions, agents, origin)
  {
    assert names[..|names|] == names;
  }

  lemma FollowTurn(spaces: map<Name, Space>, files: map<Name, nat>, before: Agents,
                   agents: Agents, workspaces: map<Name, Space>, sessions: map<Name, nat>, origin: map<Name, Name>,
                   agents': Agents, workspaces': map<Name, Space>, sessions': map<Name, nat>, origin': map<Name, Name>,
                   resolve: Resolver, name: Name, renamed: int)
    requires Reconciled(before, agents, origin, resolve) && name in agents && name in origin && origin[name] == name
    requires Turned(before, agents, origin, agents', origin', resolve, name, renamed)
    requires FollowsTurn(agents, agents', workspaces, workspaces', sessions, sessions', resolve, name)
    requires Accompanied(spaces, files, workspaces, sessions, agents, origin)
    ensures Accompanied(spaces, files, workspaces', sessions', agents', origin')
  {
    if agents' != agents {
      var to := resolve(agents[name].id).value;
      assert origin.Keys == agents.Keys && agents' == Moved(agents, name, to) && origin' == Moved(origin, name, to);
      assert name in Directories(spaces) <==> name in Directories(workspaces);
      hide Reconciled, Along, Directories, Mismatch, Turned;
      FollowAlong(spaces, Directories(spaces), workspaces, Directories(workspaces), agents, origin, name, to);
      FilesAlong(files, sessions, agents, origin, name, to);
    }
  }

  lemma FilesAlong(files: map<Name, nat>, sessions: map<Name, nat>, agents: Agents, origin: map<Name, Name>,
                   name: Name, to: Name)
    requires Along(files, files.Keys, sessions, agents, origin)
    requires name in agents && to !in agents && origin.Keys == agents.Keys && origin[name] == name
    ensures Along(files, files.Keys, FollowTo(sessions, sessions.Keys, name, to),
                  Moved(agents, name, to), Moved(origin, name, to))
  {
    FollowAlong(files, files.Keys, sessions, sessions.Keys, agents, origin, name, to);
  }

  class AgentHome {
    const throws: nat -> bool
    var clock: nat
    var agents: Agents
    var workspaces: map<Name, Space>
    var sessions: map<Name, nat>

    constructor (throws: nat -> bool, agents: Agents, workspaces: map<Name, Space>, sessions: map<Name, nat>)
      ensures this.agents == agents && this.workspaces == workspaces && this.sessions == sessions && clock == 0
      ensures this.throws == throws
    {
      this.throws, this.agents, this.workspaces, this.sessions, clock := throws, agents, workspaces, sessions, 0;
    }

    ghost predicate SmoothFrom(t: nat) {
      forall i :: t <= i ==> !throws(i)
    }

    lemma Later(t: nat, u: nat)
      requires t <= u
      ensures SmoothFrom(t) ==> SmoothFrom(u)
    {
    }

    method Throws() returns (r: bool)
      modifies this`clock
      ensures clock == old(clock) + 1 && r == throws(old(clock))
    {
      r := throws(clock);
      clock := clock + 1;
    }

    /** The renames of a workspace and of a session file that follow an agent's: neither overwrites. */
    method Follow(from: Name, to: Name) returns (errors: nat)
      modifies this`clock, this`workspaces, this`sessions
      ensures old(clock) <= clock
      ensures Followed(old(workspaces), workspaces, from, to) && Followed(old(sessions), sessions, from, to)
      ensures SmoothFrom(old(clock)) ==>
                && errors == 0
                && workspaces == FollowTo(old(workspaces), Directories(old(workspaces)), from, to)
                && sessions == FollowTo(old(sessions), old(sessions).Keys, from, to)
    {
      errors := 0;
      if from in workspaces {
        var failed := Throws();
        if failed {
          errors := errors + 1;
        } else if to !in workspaces && workspaces[from].Directory? {
          workspaces := Moved(workspaces, from, to);
        }
      }
      // migrateWorkspaceRuntimeDir on the new name
      var broken := Throws();
      if broken {
        errors := errors + 1;
      }
      if from in sessions {
        var failed := Throws();
        if failed {
          errors := errors + 1;
        } else if to !in sessions {
          sessions := Moved(sessions, from, to);
        }
      }
    }

    /** The config directory's rename, with what follows it. */
    method Rename(dirName: Name, to: Name, r: Result, ghost before: Agents, ghost origin0: map<Name, Name>,
        resolve: Resolver)
      returns (result: Result, ghost origin: map<Name, Name>)
      requires Reconciled(before, agents, origin0, resolve) && dirName in agents && origin0[dirName] == dirName
      requires Mismatch(agents, resolve, dirName) && to == resolve(agents[dirName].id).value && to !in agents
      modifies this`clock, this`agents, this`workspaces, this`sessions
      ensures old(clock) <= clock
      ensures Turned(before, old(agents), origin0, agents, origin, resolve, dirName, result.renamed - r.renamed)
      ensures Keeps(old(workspaces), workspaces) && Keeps(old(sessions), sessions)
      ensures SmoothFrom(old(clock)) ==>
                && agents == Moved(old(agents), dirName, to) && result.errors == r.errors
                && workspaces == FollowTo(old(workspaces), Directories(old(workspaces)), dirName, to)
                && sessions == FollowTo(old(sessions), old(sessions).Keys, dirName, to)
    {
      hide Reconciled, Mismatches, Mismatch, Blocked, Turned, Keeps, Moved, Followed, FollowTo, Directories;
      TurnedSame(before, agents, origin0, resolve, dirName);
      TurnedMoved(before, agents, origin0, resolve, dirName, to);
      StartKeeps(workspaces, sessions);
      origin, result := origin0, r;
      var broken := Throws();
      if broken {
        result := result.(errors := result.errors + 1);
      }
      var failed := Throws();
      if failed {
        result := result.(errors := result.errors + 1);
        return;
      }
      agents := Moved(agents, dirName, to);
      origin := Moved(origin, dirName, to);
      var errors := Follow(dirName, to);
      FollowKeeps(old(workspaces), workspaces, dirName, to);
      FollowKeeps(old(sessions), sessions, dirName, to);
      result := result.(renamed := result.renamed + 1, errors := result.errors + errors);
    }

    /** One turn of the loop of migrateLocalAgentDirs; `stop` when the server could not be asked. */
    method MigrateOne(dirName: Name, r: Result, ghost before: Agents, ghost origin0: map<Name, Name>, resolve: Resolver)
      returns (result: Result, stop: bool, ghost origin: map<Name, Name>)
      requires Reconciled(before, agents, origin0, resolve) && dirName in agents && origin0[dirName] == dirName
      modifies this`clock, this`agents, this`workspaces, this`sessions
      ensures old(clock) <= clock
      ensures Turned(before, old(agents), origin0, agents, origin, resolve, dirName, result.renamed - r.renamed)
      ensures Keeps(old(workspaces), workspaces) && Keeps(old(sessions), sessions)
      ensures SmoothFrom(old(clock)) ==> !stop && agents == Turn(old(agents), resolve, dirName)
      ensures SmoothFrom(old(clock)) ==>
                FollowsTurn(old(agents), agents, old(workspaces), workspaces, old(sessions), sessions, resolve, dirName)
    {
      StaysTurn(agents, workspaces, sessions, resolve, dirName);
      hide Reconciled, Mismatches, Turned, Keeps, Moved, FollowTo, Directories, FollowsTurn;
      TurnedSame(before, agents, origin0, resolve, dirName);
      StartKeeps(workspaces, sessions);
      result, stop, origin := r, false, origin0;
      var entry := agents[dirName];
      if !entry.Agent? {
        if entry.Broken? {
          result := result.(errors := result.errors + 1);
        }
        return;
      }
      result := result.(scanned := result.scanned + 1);
      stop := Throws();
      if stop {
        result := result.(errors := result.errors + 1);
        return;
      }
      var serverName := resolve(entry.id);
      if serverName == None || serverName.value == "" {
        result := result.(skipped := result.skipped + 1);
      } else if serverName.value == dirName {
        // migrateWorkspaceRuntimeDir
        var broken := Throws();
        if broken {
          result := result.(errors := result.errors + 1);
        }
      } else if serverName.value in agents {
        result := result.(skipped := result.skipped + 1);
      } else {
        MovedTurn(agents, workspaces, sessions, resolve, dirName);
        result, origin := Rename(dirName, serverName.value, result, before, origin, resolve);
      }
    }

    /** That turn, for what there was when the loop began, at time t. */
    method MigrateNext(dirNames: seq<Name>, i: nat, r: Result, ghost origin0: map<Name, Name>, resolve: Resolver,
        ghost before: Agents, ghost spaces: map<Name, Space>, ghost files: map<Name, nat>, ghost smooth: bool,
        ghost t: nat)
      returns (result: Result, stop: bool, ghost origin: map<Name, Name>)
      requires i < |dirNames| && Lists(before, dirNames) && t <= clock && smooth == SmoothFrom(t)
      requires Done(before, spaces, files, agents, workspaces, sessions, origin0, dirNames, i, resolve, r.renamed,
                    smooth)
      modifies this`clock, this`agents, this`workspaces, this`sessions
      ensures old(clock) <= clock && (smooth ==> !stop)
      ensures Done(before, spaces, files, agents, workspaces, sessions, origin, dirNames, i + 1, resolve,
                   result.renamed, smooth)
    {
      Front(dirNames, i, agents, origin0);
      Later(t, clock);
      hide Reconciled, Keeps, Turn, Accompanied, Turned, FollowsTurn, Untouched, Lists, Done, AgentHome.SmoothFrom;
      result, stop, origin := MigrateOne(dirNames[i], r, before, origin0, resolve);
      DoneNext(before, spaces, files, old(agents), old(workspaces), old(sessions), origin0, agents, workspaces,
               sessions, origin, dirNames, i, resolve, r.renamed, result.renamed - r.renamed, smooth);
    }

    /** migrateLocalAgentDirs, given what the directory listing returned: nothing is overwritten or lost, every
        run lowers the number of mismatches by exactly what it reports as renamed, and one in which
        nothing throws does what Pass says. */
    method Migrate(dirNames: seq<Name>, resolve: Resolver) returns (result: Result, ghost origin: map<Name, Name>)
      requires Lists(agents, dirNames)
      modifies this`clock, this`agents, this`workspaces, this`sessions
      ensures Reconciled(old(agents), agents, origin, resolve)
      ensures |Mismatches(agents, resolve)| + result.renamed == |Mismatches(old(agents), resolve)|
      ensures Keeps(old(workspaces), workspaces) && Keeps(old(sessions), sessions)
      ensures SmoothFrom(old(clock)) ==>
                && agents == Pass(old(agents), resolve, dirNames)
                && Accompanied(old(workspaces), old(sessions), workspaces, sessions, agents, origin)
    {
      result := Result(0, 0, 0, 0);
      origin := Selves(agents);
      StartDone(agents, workspaces, sessions, origin, dirNames, resolve, SmoothFrom(clock));
      hide *;
      for i := 0 to |dirNames|
        invariant old(clock) <= clock
        invariant Done(old(agents), old(workspaces), old(sessions), agents, workspaces, sessions, origin, dirNames, i,
                       resolve, result.renamed, SmoothFrom(old(clock)))
      {
        var stop;
        result, stop, origin := MigrateNext(dirNames, i, result, origin, resolve, old(agents), old(workspaces),
                                              old(sessions), SmoothFrom(old(clock)), old(clock));
        if stop {
          DoneMeans(old(agents), old(workspaces), old(sessions), agents, workspaces, sessions, origin, dirNames, i + 1,
                    resolve, result.renamed, SmoothFrom(old(clock)));
          return;
        }
      }
      DoneMeans(old(agents), old(workspaces), old(sessions), agents, workspaces, sessions, origin, dirNames,
                |dirNames|, resolve, result.renamed, SmoothFrom(old(clock)));
    }
  }

  lemma PassNext(agents: Agents, resolve: Resolver, names: seq<Name>, i: nat)
    requires i < |names|
    ensures Pass(agents, resolve, names[..i + 1]) == Turn(Pass(agents, resolve, names[..i]), resolve, names[i])
  {
    assert names[..i + 1][..i] == names[..i];
  }

  lemma StartReconciled(agents: Agents, origin: map<Name, Name>, names: seq<Name>, resolve: Resolver)
    requires origin == Selves(agents) && Lists(agents, names)
    ensures Reconciled(agents, agents, origin, resolve) && Untouched(names, 0, agents, origin)
  {
    forall n ensures n in origin.Values <==> n in agents.Keys {
      if n in agents {
        assert origin[n] == n;
      }
    }
  }

  lemma StartKeeps<T, U>(m: map<Name, T>, n: map<Name, U>)
    ensures Keeps(m, m) && Keeps(n, n)
  {
  }

  lemma KeepsOn<T, U>(m: map<Name, T>, m1: map<Name, T>, m2: map<Name, T>,
                      n: map<Name, U>, n1: map<Name, U>, n2: map<Name, U>)
    requires Keeps(m, m1) && Keeps(m1, m2) && Keeps(n, n1) && Keeps(n1, n2)
    ensures Keeps(m, m2) && Keeps(n, n2)
  {
  }

  lemma FollowKeeps<T>(m: map<Name, T>, after: map<Name, T>, from: Name, to: Name)
    requires Followed(m, after, from, to)
    ensures Keeps(m, after)
  {
    if from in m && to !in m {
      MoveKeeps(m, from, to);
    }
  }

  // ---------------------------------------------------------------- repeated start-ups

  /** Nothing is left to rename: whatever is mismatched is blocked. */
  ghost predicate Settled(agents: Agents, resolve: Resolver) {
    forall n :: Mismatch(agents, resolve, n) ==> Blocked(agents, resolve, n)
  }

  lemma {:induction false} PassDecreases(agents: Agents, resolve: Resolver, names: seq<Name>)
    ensures Mismatches(Pass(agents, resolve, names), resolve) == Mismatches(agents, resolve)
            || |Mismatches(Pass(agents, resolve, names), resolve)| < |Mismatches(agents, resolve)|
    ensures |Mismatches(Pass(agents, resolve, names), resolve)| <= |Mismatches(agents, resolve)|
    ensures Pass(agents, resolve, names) != agents ==>
              |Mismatches(Pass(agents, resolve, names), resolve)| < |Mismatches(agents, resolve)|
    decreases |names|
  {
    if names != [] {
      var n := |names| - 1;
      PassDecreases(agents, resolve, names[..n]);
      var mid := Pass(agents, resolve, names[..n]);
      if Mismatch(mid, resolve, names[n]) && !Blocked(mid, resolve, names[n]) {
        RenameSettles(mid, resolve, names[n]);
      }
    }
  }

  /** A pass over a complete listing changes nothing exactly when every mismatch is blocked. */
  lemma FixedPoint(agents: Agents, resolve: Resolver, names: seq<Name>)
    requires Lists(agents, names)
    ensures Pass(agents, resolve, names) == agents <==> Settled(agents, resolve)
  {
    if Settled(agents, resolve) {
      SettledStays(agents, resolve, names);
    } else {
      var n :| Mismatch(agents, resolve, n) && !Blocked(agents, resolve, n);
      assert n in names;
      var i :| 0 <= i < |names| && names[i] == n;
      UnsettledMoves(agents, resolve, names, i);
    }
  }

  lemma {:induction false} SettledStays(agents: Agents, resolve: Resolver, names: seq<Name>)
    requires Settled(agents, resolve)
    ensures Pass(agents, resolve, names) == agents
    decreases |names|
  {
    if names != [] {
      SettledStays(agents, resolve, names[..|names| - 1]);
    }
  }

  lemma {:induction false} UnsettledMoves(agents: Agents, resolve: Resolver, names: seq<Name>, i: nat)
    requires i < |names| && Mismatch(agents, resolve, names[i]) && !Blocked(agents, resolve, names[i])
    ensures Pass(agents, resolve, names) != agents
    decreases |names|
  {
    var n := |names| - 1;
    var mid := Pass(agents, resolve, names[..n]);
    PassDecreases(agents, resolve, names[..n]);
    if i < n {
      UnsettledMoves(agents, resolve, names[..n], i);
    }
    if Mismatch(mid, resolve, names[n]) && !Blocked(mid, resolve, names[n]) {
      RenameSettles(mid, resolve, names[n]);
    }
  }

  /** The agents directory after k start-ups in which nothing throws; `list` is what each listing returns. */
  function Startups(agents: Agents, resolve: Resolver, list: Agents -> seq<Name>, k: nat): Agents
    decreases k
  {
    if k == 0 then agents else Startups(Pass(agents, resolve, list(agents)), resolve, list, k - 1)
  }

  /** Against fixed server names repeated start-ups reach, within as many as there are mismatches, a
      state where every mismatch is blocked, and stay there. */
  lemma {:induction false} Converges(agents: Agents, resolve: Resolver, list: Agents -> seq<Name>, k: nat)
    requires forall a :: Lists(a, list(a))
    requires k >= |Mismatches(agents, resolve)|
    ensures Settled(Startups(agents, resolve, list, k), resolve)
    decreases k
  {
    FixedPoint(agents, resolve, list(agents));
    var next := Pass(agents, resolve, list(agents));
    if next == agents {
      StartupsStay(agents, resolve, list, k);
    } else {
      PassDecreases(agents, resolve, list(agents));
      Converges(next, resolve, list, k - 1);
    }
  }

  lemma {:induction false} StartupsStay(agents: Agents, resolve: Resolver, list: Agents -> seq<Name>, k: nat)
    requires Pass(agents, resolve, list(agents)) == agents
    ensures Startups(agents, resolve, list, k) == agents
    decreases k
  {
    if k > 0 {
      StartupsStay(agents, resolve, list, k - 1);
    }
  }
}
