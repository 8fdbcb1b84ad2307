/**
 The daemon's capability refresher.  A provider's entry is split into what the server is
 told and the volatile rest (probe times).  Each public method, and each resumption of an
 awaiting handler, is one segment the event loop runs without interruption; awaits in
 progress are the fields `run` and `jobs`.
 */
module CapabilityRefresh {
  import opened Options

  type Provider = nat
  datatype Entry = Entry(ok: bool, told: nat, volatile: nat)
  type Snapshot = map<Provider, Entry>

  /** What stableCapabilitySyncJson keeps of an entry. */
  datatype Told = Told(ok: bool, told: nat)
  type Semantic = map<Provider, Told>

  datatype Trigger = Startup | Reconnect | Poll

  datatype Stage = Probing | Uploading(next: Snapshot) | Uploaded(failed: bool)

  /** The refresh in flight.  `changed` is set once the probe has been merged. */
  datatype Run = Run(trigger: Trigger, previous: Snapshot, startVersion: nat, stage: Stage, changed: bool)

  datatype Purpose = Starting | Publishing

  /** An upload started by start() or setProviderEntry(); Landed once the upload has settled. */
  datatype Job = Sending(why: Purpose, caps: Snapshot) | Landed(why: Purpose)

  function Semantics(s: Snapshot): Semantic {
    map p | p in s :: Told(s[p].ok, s[p].told)
  }

  /** The merge of a probe's result: preserved providers keep the current (or, failing that,
      the previous) entry. */
  function Merged(next: Snapshot, current: Snapshot, previous: Snapshot, preserve: set<Provider>): Snapshot {
    map p | p in next.Keys + preserve * (current.Keys + previous.Keys) ::
      if p in preserve && p in current then current[p]
      else if p in preserve && p in previous then previous[p]
      else next[p]
  }

  /** The providers setProviderEntry has written after this version. */
  function WrittenSince(versions: map<Provider, nat>, version: nat): set<Provider> {
    set p | p in versions && versions[p] > version
  }

  ghost predicate Versioned(versions: map<Provider, nat>, version: nat, written: map<Provider, Entry>) {
    forall p :: p in versions ==> versions[p] <= version && p in written
  }

  function Held(snapshot: Option<Snapshot>): Snapshot {
    if snapshot.Some? then snapshot.value else map[]
  }

  /** Providers written since the run in flight started still hold what was written, and until
      its probe returns none that it started from has gone. */
  ghost predicate WritesKept(run: Run, snapshot: Option<Snapshot>, versions: map<Provider, nat>,
      written: map<Provider, Entry>) {
    && (run.stage.Probing? ==> run.previous.Keys <= Held(snapshot).Keys)
    && (forall p :: p in WrittenSince(versions, run.startVersion) ==>
          p in written && p in Held(snapshot) && Held(snapshot)[p] == written[p])
  }

  /** A write is kept by whatever run is in flight. */
  lemma WriteKept(run: Run, snapshot: Option<Snapshot>, versions: map<Provider, nat>, written: map<Provider, Entry>,
                  p: Provider, version: nat, entry: Entry)
    requires WritesKept(run, snapshot, versions, written)
    ensures WritesKept(run, Some(Held(snapshot)[p := entry]), versions[p := version], written[p := entry])
  {
  }

  /** What a merge is for: a provider written since the probe started keeps the last entry written,
      one in interactive login keeps the entry it had, and every other one takes the probe's. */
  ghost predicate MergeKept(probe: Snapshot, after: Snapshot, before: Snapshot,
                            interactive: set<Provider>, since: set<Provider>, written: map<Provider, Entry>) {
    && (forall p :: p in since ==> p in written && p in after && after[p] == written[p])
    && (forall p :: p in interactive && p in before ==> p in after && after[p] == before[p])
    && (forall p :: p in probe && !(p in interactive && p in before) && p !in since ==>
          p in after && after[p] == probe[p])
    && (forall p :: p in after ==> p in probe || (p in interactive && p in before) || p in since)
  }

  lemma MergedKeeps(probe: Snapshot, snapshot: Option<Snapshot>, run: Run, stage: Stage, changed: bool,
                    interactive: set<Provider>, versions: map<Provider, nat>, written: map<Provider, Entry>)
    requires run.stage.Probing? && !stage.Probing? && WritesKept(run, snapshot, versions, written)
    ensures var since := WrittenSince(versions, run.startVersion);
            var after := Merged(probe, if snapshot.Some? then snapshot.value
                else run.previous, run.previous, interactive + since);
            && MergeKept(probe, after, Held(snapshot), interactive, since, written)
            && WritesKept(run.(stage := stage, changed := changed), Some(after), versions, written)
  {
  }

  lemma MergedAlone(probe: Snapshot, after: Snapshot, before: Snapshot, written: map<Provider, Entry>)
    requires MergeKept(probe, after, before, {}, {}, written)
    ensures after == probe
  {
    assert after.Keys == probe.Keys;
  }

  class Refresher {
    /** The providers that must be ok: the probed runtimes and the lark tool. */
    const probed: set<Provider>

    var snapshot: Option<Snapshot>
    var lastUploaded: Option<Semantic>
    var inFlight: bool
    var writeVersion: nat
    var writeVersions: map<Provider, nat>
    var interactive: set<Provider>
    var pendingReconnect: bool
    /** The armed poll timer's backoff attempt. */
    var timer: Option<nat>
    var idleAttempts: nat
    var stopped: bool
    var paused: bool

    var run: Option<Run>
    var jobs: map<nat, Job>
    var nextJob: nat
    /** History: whether a registration has happened, the last entry setProviderEntry wrote for each
        provider, and what completed uploads carried. */
    var registered: bool
    var written: map<Provider, Entry>
    var accepted: set<Semantic>

    /** needsRefresh. */
    predicate NeedsRefresh()
      reads this
    {
      snapshot.None?
      || (exists p :: p in probed && !(p in snapshot.value && snapshot.value[p].ok))
      || lastUploaded != Some(Semantics(snapshot.value))
    }

    /** There is nothing to poll for: every provider is ok, and the last upload said what the snapshot says. */
    ghost predicate Synced()
      reads this
    {
      && snapshot.Some?
      && (forall p :: p in probed ==> p in snapshot.value && snapshot.value[p].ok)
      && lastUploaded == Some(Semantics(snapshot.value))
    }

    /** Every provider is ok, and the server has accepted a snapshot that says what this one says. */
    predicate Converged()
      reads this
    {
      && snapshot.Some? && Semantics(snapshot.value) in accepted
      && (forall p :: p in probed ==> p in snapshot.value && snapshot.value[p].ok)
    }

    ghost predicate Valid()
      reads this
    {
      && (inFlight <==> run.Some?)
      && (timer.Some? ==> !stopped && !paused)
      && (forall j :: j in jobs ==> j < nextJob)
      && (lastUploaded.Some? ==> lastUploaded.value in accepted)
      // no reconnect is lost
      && (!registered ==> !pendingReconnect)
      && (pendingReconnect && !paused && !stopped ==> run.Some?)
      // polling goes on until converged
      && (registered && !paused && !stopped ==> run.Some? || jobs != map[] || timer.Some? || Synced())
      // and no longer
      && (timer.Some? && run.None? && jobs == map[] ==> !Synced())
      // no provider write is lost
      && Versioned(writeVersions, writeVersion, written)
      && (run.Some? ==> WritesKept(run.value, snapshot, writeVersions, written))
    }

    constructor (probed: set<Provider>, initial: Option<Snapshot>)
      ensures Valid() && this.probed == probed && snapshot == initial && run == None && jobs == map[] && timer == None
      ensures !paused && !stopped && !registered && !pendingReconnect
      ensures lastUploaded == None && accepted == {} && nextJob == 0 && interactive == {} && writeVersions == map[]
    {
      this.probed, snapshot := probed, initial;
      lastUploaded, inFlight, writeVersion, writeVersions, interactive := None, false, 0, map[], {};
      pendingReconnect, timer, idleAttempts, stopped, paused := false, None, 0, false, false;
      run, jobs, nextJob, registered, written, accepted := None, map[], 0, false, map[], {};
    }

    /** The snapshot's upload, or none because the server was last told the same. */
    ghost function Due(why: Purpose): Job
      requires snapshot.Some?
      reads this
    {
      if lastUploaded == Some(Semantics(snapshot.value)) then Landed(why) else Sending(why, snapshot.value)
    }

    /** A refresh that starts now. */
    ghost function Begun(trigger: Trigger): Option<Run>
      reads this
    {
      Some(Run(trigger, Held(snapshot), writeVersion, Probing, false))
    }

    // ---------------------------------------------------------------- shared segments

    /** scheduleNext: afterwards a poll is armed exactly if the refresher may work and is not converged. */
    method ScheduleNext()
      modifies this`timer, this`idleAttempts
      ensures timer == None <==>
                || stopped || paused
                || (&& snapshot.Some? && lastUploaded == Some(Semantics(snapshot.value))
                    && (forall p :: p in probed ==> p in snapshot.value && snapshot.value[p].ok))
      ensures timer.Some? ==> timer == Some(idleAttempts)
      ensures idleAttempts == if !stopped && !paused && Synced() then 0 else old(idleAttempts)
    {
      timer := None;
      if stopped || paused {
        return;
      }
      if !NeedsRefresh() {
        idleAttempts := 0;
        return;
      }
      timer := Some(idleAttempts);
    }

    /** runRefresh up to its probe: at most one refresh is ever in flight, and one that starts takes
        a pending reconnect with it. */
    method RunRefresh(trigger: Trigger)
      requires inFlight <==> run.Some?
      modifies this`inFlight, this`run, this`pendingReconnect
      ensures inFlight <==> run.Some?
      ensures if stopped || paused || old(inFlight) then run == old(run) && pendingReconnect == old(pendingReconnect)
              else run == Some(Run(if old(pendingReconnect) then Reconnect else trigger,
                                   Held(snapshot),
                                   writeVersion, Probing, false)) && !pendingReconnect
    {
      if stopped || paused {
        return;
      }
      if inFlight {
        return;
      }
      inFlight := true;
      var effective := if pendingReconnect then Reconnect else trigger;
      pendingReconnect := false;
      run := Some(Run(effective, Held(snapshot), writeVersion, Probing, false));
    }

    /** uploadIfChanged up to its await, for a job: nothing is sent when the server was last told the same. */
    method Send(why: Purpose, caps: Snapshot)
      requires forall j :: j in jobs ==> j < nextJob
      modifies this`jobs, this`nextJob
      ensures nextJob == old(nextJob) + 1 && old(nextJob) !in old(jobs)
      ensures jobs == old(jobs)[old(nextJob) :=
                if lastUploaded == Some(Semantics(caps)) then Landed(why) else Sending(why, caps)]
      ensures jobs != map[]
    {
      jobs := jobs[nextJob := if lastUploaded == Some(Semantics(caps)) then Landed(why) else Sending(why, caps)];
      assert nextJob in jobs;
      nextJob := nextJob + 1;
    }

    // ---------------------------------------------------------------- what the daemon calls

    /** start(), as a first registration calls it. */
    method Start()
      requires inFlight <==> run.Some?
      requires forall j :: j in jobs ==> j < nextJob
      modifies this`jobs, this`nextJob, this`inFlight, this`run, this`pendingReconnect
      ensures inFlight <==> run.Some?
      ensures forall j :: j in jobs ==> j < nextJob
      ensures old(run).Some? || stopped || paused || snapshot.Some? ==>
                run == old(run) && pendingReconnect == old(pendingReconnect)
      ensures !stopped && !paused ==> run.Some? || jobs != map[]
      ensures jobs == if stopped || paused || snapshot.None? then old(jobs)
                      else old(jobs)[old(nextJob) := Due(Starting)]
      ensures nextJob == if stopped || paused || snapshot.None? then old(nextJob) else old(nextJob) + 1
      ensures !(old(run).Some? || stopped || paused || snapshot.Some?) ==>
                run == Begun(if old(pendingReconnect) then Reconnect else Startup) && !pendingReconnect
    {
      if stopped || paused {
        return;
      }
      if snapshot.Some? {
        Send(Starting, snapshot.value);
      } else {
        RunRefresh(Startup);
      }
    }

    /** onRegistered.  The runtime reports the first registration, and only that one, as not a reconnect; no
        reconnect is pending then. */
    method OnRegistered(isReconnect: bool)
      requires Valid()
      modifies this`paused, this`registered, this`pendingReconnect, this`inFlight, this`run, this`jobs, this`nextJob
      // a reconnect that was recorded is lost exactly by a registration that is none, with a snapshot to upload
      ensures Valid() <==> stopped || isReconnect || !old(pendingReconnect) || old(run).Some? || snapshot.None?
      ensures snapshot == old(snapshot)
      ensures stopped ==> run == old(run) && paused == old(paused) && registered == old(registered)
      ensures !stopped ==> !paused && registered
      ensures jobs == if stopped || isReconnect || snapshot.None? then old(jobs)
                      else old(jobs)[old(nextJob) := Due(Starting)]
      ensures nextJob == if stopped || isReconnect || snapshot.None? then old(nextJob) else old(nextJob) + 1
      ensures !stopped && !isReconnect && (old(run).Some? || snapshot.Some?) ==>
                run == old(run) && pendingReconnect == old(pendingReconnect)
      // a reconnect is honoured by the run that starts now, or recorded for the one after the run in flight
      ensures !stopped && isReconnect ==>
                if old(run).Some? then run == old(run) && pendingReconnect
                else run == Begun(Reconnect) && !pendingReconnect
      // without a snapshot the first registration probes
      ensures !stopped && !isReconnect && old(run).None? && snapshot.None? ==>
                run == Begun(if old(pendingReconnect) then Reconnect else Startup) && !pendingReconnect
    {
      if stopped {
        return;
      }
      paused := false;
      registered := true;
      if isReconnect {
        pendingReconnect := true;
        RunRefresh(Reconnect);
      } else {
        Start();
      }
    }

    method Stop()
      requires Valid()
      modifies this`stopped, this`timer
      ensures Valid() && stopped && timer == None
    {
      stopped := true;
      timer := None;
    }

    method Pause()
      requires Valid()
      modifies this`paused, this`timer
      ensures Valid()
      ensures if stopped then paused == old(paused) && timer == old(timer) else paused && timer == None
    {
      if stopped {
        return;
      }
      paused := true;
      timer := None;
    }

    /** The local bookkeeping of setProviderEntry. */
    method Record(p: Provider, entry: Entry)
      requires Versioned(writeVersions, writeVersion, written)
      requires run.Some? ==> WritesKept(run.value, snapshot, writeVersions, written)
      modifies this`snapshot, this`writeVersion, this`writeVersions, this`written
      ensures Versioned(writeVersions, writeVersion, written)
      ensures run.Some? ==> WritesKept(run.value, snapshot, writeVersions, written)
      ensures snapshot == Some(Held(old(snapshot))[p := entry]) && written == old(written)[p := entry]
    {
      if run.Some? {
        WriteKept(run.value, snapshot, writeVersions, written, p, writeVersion + 1, entry);
      }
      hide WritesKept;
      snapshot := Some(Held(snapshot)[p := entry]);
      writeVersion := writeVersion + 1;
      writeVersions := writeVersions[p := writeVersion];
      written := written[p := entry];
    }

    /** setProviderEntry up to its await. */
    method SetProviderEntry(p: Provider, entry: Entry)
      requires Valid()
      modifies this`snapshot, this`writeVersion, this`writeVersions, this`written, this`jobs, this`nextJob,
          this`timer, this`idleAttempts
      ensures Valid() && run == old(run)
      ensures snapshot == Some(Held(old(snapshot))[p := entry])
      ensures written == old(written)[p := entry]
      ensures jobs == if paused || stopped then old(jobs) else old(jobs)[old(nextJob) := Due(Publishing)]
      ensures nextJob == if paused || stopped then old(nextJob) else old(nextJob) + 1
    {
      Record(p, entry);
      hide Versioned, WritesKept, Semantics, NeedsRefresh, Synced;
      if !paused && !stopped {
        Send(Publishing, snapshot.value);
      } else {
        ScheduleNext();
      }
    }

    method BeginInteractive(p: Provider)
      requires Valid()
      modifies this`interactive
      ensures Valid() && interactive == old(interactive) + {p}
    {
      interactive := interactive + {p};
    }

    method EndInteractive(p: Provider)
      requires Valid()
      modifies this`interactive
      ensures Valid() && interactive == old(interactive) - {p}
    {
      interactive := interactive - {p};
    }

    // ---------------------------------------------------------------- what the event loop resumes

    /** The poll timer fires. */
    method TimerFired()
      requires Valid() && timer.Some?
      modifies this`timer, this`inFlight, this`run, this`pendingReconnect
      ensures Valid() && timer == None
      ensures run == if old(run).Some? then old(run) else Begun(Poll)
      ensures old(run).None? ==> !pendingReconnect
    {
      timer := None;
      RunRefresh(Poll);
    }

    /** A job's upload settles. */
    method JobUploaded(j: nat, ok: bool)
      requires Valid() && j in jobs && jobs[j].Sending?
      modifies this`jobs, this`lastUploaded, this`accepted
      ensures Valid() && jobs == old(jobs)[j := Landed(old(jobs)[j].why)]
      ensures lastUploaded == if ok then Some(Semantics(old(jobs)[j].caps)) else old(lastUploaded)
      ensures accepted == if ok then old(accepted) + {Semantics(old(jobs)[j].caps)} else old(accepted)
    {
      if ok {
        accepted := accepted + {Semantics(jobs[j].caps)};
        lastUploaded := Some(Semantics(jobs[j].caps));
      }
      jobs := jobs[j := Landed(jobs[j].why)];
      assert j in jobs;
    }

    /** start() or setProviderEntry() resumes and ends. */
    method JobDone(j: nat)
      requires Valid() && j in jobs && jobs[j].Landed?
      modifies this`jobs, this`timer, this`idleAttempts
      ensures Valid() && jobs == old(jobs) - {j}
      ensures timer == None <==> stopped || paused || Synced()
      ensures timer.Some? ==> timer == Some(if old(jobs)[j].why.Starting? then 0 else old(idleAttempts))
    {
      if jobs[j].why.Starting? {
        idleAttempts := 0;
      }
      jobs := jobs - {j};
      ScheduleNext();
    }

    /** The end of runRefresh: re-arm, leave, and drain a reconnect that landed meanwhile. */
    method EndRun()
      requires run.Some? && inFlight
      modifies this`timer, this`idleAttempts, this`inFlight, this`run, this`pendingReconnect
      ensures inFlight <==> run.Some?
      ensures timer == None <==> stopped || paused || Synced()
      ensures timer.Some? ==> timer == Some(old(idleAttempts))
      ensures idleAttempts == if !stopped && !paused && Synced() then 0 else old(idleAttempts)
      ensures if old(pendingReconnect) && !stopped && !paused then
                run == Begun(Reconnect) && !pendingReconnect
              else run == None && pendingReconnect == old(pendingReconnect)
    {
      ScheduleNext();
      run := None;
      inFlight := false;
      if pendingReconnect && !stopped && !paused {
        RunRefresh(Reconnect);
      }
    }

    /** The probe's result is merged into the snapshot as it now is, and the upload, if one is due, begins. */
    method MergeProbe(probe: Snapshot)
      requires run.Some? && run.value.stage.Probing? && WritesKept(run.value, snapshot, writeVersions, written)
      modifies this`snapshot, this`run
      ensures run.Some? && !run.value.stage.Probing? && WritesKept(run.value, snapshot, writeVersions, written)
      ensures snapshot.Some? && MergeKept(probe, snapshot.value, Held(old(snapshot)), interactive,
                                          WrittenSince(writeVersions, old(run).value.startVersion), written)
      ensures run == Some(old(run).value.(
                stage := if lastUploaded == Some(Semantics(snapshot.value)) then Uploaded(false)
                  else Uploading(snapshot.value),
                changed := Semantics(snapshot.value) != Semantics(if old(snapshot).Some? then old(snapshot).value
                  else old(run).value.previous)))
    {
      var it := run.value;
      var current := if snapshot.Some? then snapshot.value else it.previous;
      var preserve := interactive + WrittenSince(writeVersions, it.startVersion);
      var next := Merged(probe, current, it.previous, preserve);
      var changed := Semantics(next) != Semantics(current);
      var stage := if lastUploaded == Some(Semantics(next)) then Uploaded(false) else Uploading(next);
      MergedKeeps(probe, snapshot, it, stage, changed, interactive, writeVersions, written);
      snapshot := Some(next);
      run := Some(it.(stage := stage, changed := changed));
    }

    /** The probe returns, or fails (None). */
    method ProbeDone(result: Option<Snapshot>)
      requires Valid() && run.Some? && run.value.stage.Probing?
      modifies this`snapshot, this`timer, this`idleAttempts, this`inFlight, this`run, this`pendingReconnect
      ensures Valid()
      ensures result.None? ==> snapshot == old(snapshot)
      ensures result.Some? ==> snapshot.Some? && MergeKept(
                result.value, snapshot.value, Held(old(snapshot)),
                interactive, WrittenSince(writeVersions, old(run).value.startVersion), written)
      // a completion that is late for a pause or stop neither uploads nor re-arms
      ensures paused || stopped ==> run == None && timer == None && pendingReconnect == old(pendingReconnect)
      ensures (paused || stopped) && result.Some? ==> idleAttempts == 0
      // a failed probe backs off, polls again unless there is nothing to poll for, and drains a reconnect
      ensures !paused && !stopped && result.None? ==>
                && (timer == None <==> Synced())
                && (timer.Some? ==> timer == Some(old(idleAttempts) + 1))
                && run == (if old(pendingReconnect) then Begun(Reconnect) else None) && !pendingReconnect
      // a successful one goes on to upload unless the server knows
      ensures !paused && !stopped && result.Some? ==>
                && timer == old(timer) && pendingReconnect == old(pendingReconnect)
                && run == Some(old(run).value.(
                     stage := if lastUploaded == Some(Semantics(snapshot.value)) then Uploaded(false)
                       else Uploading(snapshot.value),
                     changed := Semantics(snapshot.value) != Semantics(Held(old(snapshot)))))
    {
      if result.Some? {
        MergeProbe(result.value);
      }
      assert old(snapshot).None? ==> old(run).value.previous == map[];
      hide MergeKept, Semantics, WrittenSince, NeedsRefresh, Synced;
      if result.None? {
        idleAttempts := idleAttempts + 1;
        EndRun();
      } else if paused || stopped {
        idleAttempts := 0;
        EndRun();
      }
    }

    /** The run's upload settles. */
    method RunUploaded(ok: bool)
      requires Valid() && run.Some? && run.value.stage.Uploading?
      modifies this`run, this`lastUploaded, this`accepted
      ensures Valid() && run == Some(old(run).value.(stage := Uploaded(!ok)))
      ensures lastUploaded == if ok then Some(Semantics(old(run).value.stage.next)) else old(lastUploaded)
      ensures accepted == if ok then old(accepted) + {Semantics(old(run).value.stage.next)} else old(accepted)
    {
      if ok {
        accepted := accepted + {Semantics(run.value.stage.next)};
        lastUploaded := Some(Semantics(run.value.stage.next));
      }
      run := Some(run.value.(stage := Uploaded(!ok)));
    }

    /** runRefresh resumes after its upload and ends: only an unchanged, synced poll backs off. */
    method RunDone()
      requires Valid() && run.Some? && run.value.stage.Uploaded?
      modifies this`timer, this`idleAttempts, this`inFlight, this`run, this`pendingReconnect
      ensures Valid()
      ensures timer == None <==> stopped || paused || Synced()
      ensures timer.Some? ==> timer == Some(
                var it := old(run).value;
                if it.trigger.Poll? && !it.changed && !it.stage.failed then old(idleAttempts) + 1 else 0)
      ensures if old(pendingReconnect) && !paused && !stopped then run == Begun(Reconnect) && !pendingReconnect
              else run == None && pendingReconnect == old(pendingReconnect)
    {
      var it := run.value;
      idleAttempts := if !it.trigger.Poll? || it.changed || it.stage.failed then 0 else idleAttempts + 1;
      EndRun();
    }
  }

  // ---------------------------------------------------------------- polling comes to an end

  /** A first registration with a snapshot in which every provider is ok, and whose upload succeeds, leaves
      nothing armed. */
  method HealthyStart(probed: set<Provider>, initial: Snapshot) returns (r: Refresher)
    requires forall p :: p in probed ==> p in initial && initial[p].ok
    ensures fresh(r) && r.Valid() && r.registered && r.probed == probed && r.snapshot == Some(initial)
    ensures r.timer == None && r.run == None && r.jobs == map[] && r.accepted == {Semantics(initial)}
  {
    r := new Refresher(probed, Some(initial));
    r.OnRegistered(false);
    r.JobUploaded(0, true);
    r.JobDone(0);
  }

  /** A refresh whose probe has been merged goes on to its end. */
  method Conclude(r: Refresher, ok: bool)
    requires r.Valid() && r.snapshot.Some? && r.run.Some? && !r.paused && !r.stopped && !r.pendingReconnect
    requires r.run.value.stage == if r.lastUploaded == Some(Semantics(r.snapshot.value)) then Uploaded(false)
                                  else Uploading(r.snapshot.value)
    modifies r`run, r`lastUploaded, r`accepted, r`timer, r`idleAttempts, r`inFlight, r`pendingReconnect
    ensures r.Valid() && r.run == None && !r.pendingReconnect
    ensures r.lastUploaded == if ok then Some(Semantics(r.snapshot.value)) else old(r.lastUploaded)
    ensures r.accepted == if ok && old(r.lastUploaded) != r.lastUploaded
                          then old(r.accepted) + {Semantics(r.snapshot.value)} else old(r.accepted)
    ensures r.timer == None <==>
              && (forall p :: p in r.probed ==> p in r.snapshot.value && r.snapshot.value[p].ok)
              && r.lastUploaded == Some(Semantics(r.snapshot.value))
  {
    hide Semantics, WritesKept, Versioned;
    if r.run.value.stage.Uploading? {
      r.RunUploaded(ok);
    }
    r.RunDone();
  }

  /** A first registration without a snapshot, up to the upload. */
  method FirstProbe(probed: set<Provider>, found: Snapshot) returns (r: Refresher)
    ensures fresh(r) && r.Valid() && r.registered && r.probed == probed && r.snapshot == Some(found)
    ensures r.run.Some? && r.run.value.stage == Uploading(found) && !r.paused && !r.stopped && !r.pendingReconnect
    ensures r.jobs == map[] && r.lastUploaded == None && r.accepted == {}
  {
    r := new Refresher(probed, None);
    assert WrittenSince(r.writeVersions, r.writeVersion) == {};
    hide MergeKept, WritesKept, Semantics, Versioned, WrittenSince;
    r.OnRegistered(false);
    r.ProbeDone(Some(found));
    MergedAlone(found, r.snapshot.value, map[], r.written);
  }

  /** Nor does one without a snapshot, whose probe finds every provider ok. */
  method HealthyProbe(probed: set<Provider>, found: Snapshot) returns (r: Refresher)
    requires forall p :: p in probed ==> p in found && found[p].ok
    ensures fresh(r) && r.Valid() && r.registered && r.probed == probed && r.snapshot == Some(found)
    ensures r.timer == None && r.run == None && r.jobs == map[] && r.accepted == {Semantics(found)}
  {
    r := FirstProbe(probed, found);
    Conclude(r, true);
  }

  /** A poll from any state in which one is armed and no refresh is in flight: afterwards nothing is armed
      exactly if every provider is ok and the server knows. */
  method PollRound(r: Refresher, found: Snapshot, ok: bool)
    requires r.Valid() && r.timer.Some? && r.run == None
    modifies r
    ensures r.Valid() && r.run == None && r.jobs == old(r.jobs) && r.interactive == old(r.interactive)
    ensures r.snapshot.Some? && MergeKept(found, r.snapshot.value, Held(old(r.snapshot)), r.interactive, {}, r.written)
    ensures r.lastUploaded == if ok then Some(Semantics(r.snapshot.value)) else old(r.lastUploaded)
    ensures r.timer == None <==>
              && (forall p :: p in r.probed ==> p in r.snapshot.value && r.snapshot.value[p].ok)
              && r.lastUploaded == Some(Semantics(r.snapshot.value))
  {
    r.TimerFired();
    assert WrittenSince(r.writeVersions, r.writeVersion) == {};
    r.ProbeDone(Some(found));
    hide MergeKept, WrittenSince, Semantics, WritesKept;
    Conclude(r, ok);
  }

  /** A poll that finds every provider ok, but for those in interactive login whose entries count, and whose
      upload succeeds is the last one. */
  method HealthyPoll(r: Refresher, found: Snapshot)
    requires r.Valid() && r.timer.Some? && r.run == None
    requires forall p :: p in r.probed ==>
        if p in r.interactive && p in Held(r.snapshot) then Held(r.snapshot)[p].ok else p in found && found[p].ok
    modifies r
    ensures r.Valid() && r.timer == None && r.run == None && r.jobs == old(r.jobs)
    ensures r.snapshot.Some? && r.lastUploaded == Some(Semantics(r.snapshot.value))
  {
    PollRound(r, found, true);
  }

  /** Were a later registration reported as no reconnect, it could leave a reconnect behind: one arrives during
      a refresh, the connection is paused, the probe fails, and the registration only uploads. */
  method Misreported(probed: set<Provider>, initial: Snapshot) returns (r: Refresher)
    ensures fresh(r) && r.registered && r.pendingReconnect && r.run == None && !r.paused && !r.stopped && !r.Valid()
  {
    r := new Refresher(probed, Some(initial));
    r.OnRegistered(false);
    r.OnRegistered(true);
    r.OnRegistered(true);
    r.Pause();
    r.ProbeDone(None);
    r.OnRegistered(false);
  }

  // ---------------------------------------------------------------- what holds between segments

  /** After the first registration a refresher that may work is working, has a poll armed, or has converged. */
  lemma PollsUntilConverged(r: Refresher)
    requires r.Valid() && r.registered && !r.paused && !r.stopped
    requires r.run == None && r.jobs == map[] && r.timer == None
    ensures r.Converged()
  {
  }

  /** With nothing outstanding a poll is armed exactly as long as some provider is not ok or the last upload
      said something else. */
  lemma PollsExactly(r: Refresher)
    requires r.Valid() && r.registered && !r.paused && !r.stopped && r.run == None && r.jobs == map[]
    ensures r.timer == None <==>
              && r.snapshot.Some?
              && (forall p :: p in r.probed ==> p in r.snapshot.value && r.snapshot.value[p].ok)
              && r.lastUploaded == Some(Semantics(r.snapshot.value))
  {
  }

  /** Two snapshots tell the server the same exactly if they have the same providers with the same entries, the
      volatile parts apart. */
  lemma SameMeaning(s: Snapshot, t: Snapshot)
    ensures Semantics(s) == Semantics(t) <==>
              s.Keys == t.Keys && forall p :: p in s ==> s[p].ok == t[p].ok && s[p].told == t[p].told
  {
    if Semantics(s) == Semantics(t) {
      assert Semantics(s).Keys == s.Keys && Semantics(t).Keys == t.Keys;
      forall p | p in s ensures s[p].ok == t[p].ok && s[p].told == t[p].told {
        assert Semantics(s)[p] == Semantics(t)[p];
      }
    }
  }

  /** A reconnect that has not been honoured yet has a refresh in flight to drain it. */
  lemma NoLostReconnect(r: Refresher)
    requires r.Valid() && r.pendingReconnect && !r.paused && !r.stopped
    ensures r.run.Some? && r.inFlight
  {
  }
}
