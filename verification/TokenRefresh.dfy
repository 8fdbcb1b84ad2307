/**
 The single-flight refresh of the access token.  Each method of `Refresher` is one segment
 the event loop runs without interruption: a call up to its first await, the arrival of a
 response, of its body, the settling of a flight, an abort, a caller resuming, or another
 process changing the stored credentials.  Calling the methods in any order gives every
 interleaving.
 */
module TokenRefresh {
  import opened Options

  datatype Credentials = Credentials(access: nat, refresh: nat, server: nat)

  /** The identity a terminal failure is latched for: which home, which server, which refresh token. */
  datatype Authority = Authority(home: nat, server: nat, refresh: nat)

  datatype Failure =
    NoCredentials | Aborted | Rejected | Superseded | RateLimited(retryAfterMs: nat) | HttpError | Transport

  datatype Outcome = Token(access: nat) | Failed(why: Failure)

  /** What reaches performRefresh once the headers are in; an error stands for a rejected fetch. */
  datatype Response = Unauthorized | TooMany(retryAfterMs: Option<nat>) | NotOk | Ok | FetchError

  datatype Body = Body(access: nat, refresh: Option<nat>) | Unreadable

  datatype Stage = Fetching | Reading | Finished(outcome: Outcome)

  /** `epoch` is a history variable: how often the credentials had changed when it started. */
  datatype Flight = Flight(
    home: nat, creds: Credentials, stage: Stage, settled: bool, aborted: bool, waiters: nat, epoch: nat)

  datatype Turn = Waiting | Woken(outcome: Outcome) | Gone(outcome: Outcome)

  /** One call that waits, or waited, for a flight. */
  datatype Caller = Caller(flight: nat, home: nat, creds: Credentials, signal: Option<bool>, turn: Turn)

  /** What a call does before its first await: answer at once, or wait for a flight. */
  datatype Answer = Answered(outcome: Outcome) | Awaiting(flight: nat)

  const DEFAULT_RETRY_AFTER_MS: nat := 30_000

  function AuthorityFor(home: nat, creds: Credentials): Authority {
    Authority(home, creds.server, creds.refresh)
  }

  predicate Live(f: Flight) {
    !f.settled && !f.aborted
  }

  function Waiters(callers: map<nat, Caller>, f: nat): set<nat> {
    set c | c in callers && callers[c].flight == f && !callers[c].turn.Gone?
  }

  /** The credentials file of a home. */
  function StoredIn(home: nat, files: map<nat, Credentials>): Option<Credentials> {
    if home in files then Some(files[home]) else None
  }

  /** Not fenced off: the stored credentials still are the ones the flight started from. */
  predicate Unfenced(home: nat, files: map<nat, Credentials>, f: Flight) {
    f.home == home && StoredIn(home, files) == Some(f.creds)
  }

  /** The flight in the slot carries the stored credentials. */
  predicate Reusable(flights: map<nat, Flight>, slot: Option<nat>, home: nat, files: map<nat, Credentials>) {
    slot.Some? && slot.value in flights && Unfenced(home, files, flights[slot.value])
  }

  /** Only flights that started from the stored credentials belong to the current epoch. */
  ghost predicate Epochal(flights: map<nat, Flight>, epoch: nat, home: nat, files: map<nat, Credentials>) {
    forall f :: f in flights && flights[f].epoch == epoch ==> Unfenced(home, files, flights[f])
  }

  /** The slot holds a live flight, the only live one of this epoch. */
  ghost predicate Slotted(flights: map<nat, Flight>, slot: Option<nat>, next: nat, epoch: nat) {
    && (forall f :: f in flights ==> f < next && flights[f].epoch <= epoch)
    && (slot.Some? ==> slot.value in flights && Live(flights[slot.value]))
    && (forall f :: f in flights && Live(flights[f]) && flights[f].epoch == epoch ==> slot == Some(f))
  }

  /** A flight counts its callers; one that was aborted has none, a live one has some. */
  predicate Counts(it: Flight, waiting: set<nat>) {
    && it.waiters == |waiting|
    && (it.aborted ==> it.waiters == 0)
    && (Live(it) ==> it.waiters > 0)
  }

  ghost predicate Counted(flights: map<nat, Flight>, callers: map<nat, Caller>) {
    forall f :: f in flights ==> Counts(flights[f], Waiters(callers, f))
  }

  /** The same, but for the flight in the slot, which is about to be joined. */
  ghost predicate CountedElsewhere(flights: map<nat, Flight>, callers: map<nat, Caller>, slot: Option<nat>) {
    && (forall f :: f in flights && slot != Some(f) ==> Counts(flights[f], Waiters(callers, f)))
    && (slot.Some? && slot.value in flights ==> flights[slot.value].waiters == |Waiters(callers, slot.value)|)
  }

  /** A caller waits for a refresh of the very credentials it found, and resumes with its
      flight's outcome or with its own abort. */
  predicate HeardBy(flights: map<nat, Flight>, it: Caller) {
    && it.flight in flights && it.home == flights[it.flight].home && it.creds == flights[it.flight].creds
    && (it.turn.Waiting?
        || (flights[it.flight].settled && flights[it.flight].stage == Finished(it.turn.outcome))
        || (it.signal == Some(true) && it.turn.outcome == Failed(Aborted)))
  }

  ghost predicate Heard(flights: map<nat, Flight>, callers: map<nat, Caller>) {
    && (forall f :: f in flights && flights[f].settled ==> flights[f].stage.Finished?)
    && (forall c :: c in callers ==> HeardBy(flights, callers[c]))
  }

  // ---------------------------------------------------------------- waiters

  lemma WaitersSet(callers: map<nat, Caller>, c: nat, it: Caller, f: nat)
    ensures Waiters(callers[c := it], f)
            == if it.flight == f && !it.turn.Gone? then Waiters(callers, f) + {c} else Waiters(callers, f) - {c}
  {
  }

  lemma Joined(callers: map<nat, Caller>, c: nat, it: Caller)
    requires c !in callers && !it.turn.Gone?
    ensures forall f :: |Waiters(callers[c := it], f)| == |Waiters(callers, f)| + (if f == it.flight then 1 else 0)
  {
    forall f ensures |Waiters(callers[c := it], f)| == |Waiters(callers, f)| + (if f == it.flight then 1 else 0) {
      WaitersSet(callers, c, it, f);
      assert c !in Waiters(callers, f);
    }
  }

  lemma Stays(callers: map<nat, Caller>, c: nat, it: Caller)
    requires c in callers && callers[c].flight == it.flight && callers[c].turn.Gone? == it.turn.Gone?
    ensures forall f :: Waiters(callers[c := it], f) == Waiters(callers, f)
  {
  }

  lemma Left(callers: map<nat, Caller>, c: nat, it: Caller)
    requires c in callers && callers[c].flight == it.flight && !callers[c].turn.Gone? && it.turn.Gone?
    ensures forall f :: |Waiters(callers[c := it], f)| == |Waiters(callers, f)| - (if f == it.flight then 1 else 0)
  {
    forall f ensures |Waiters(callers[c := it], f)| == |Waiters(callers, f)| - (if f == it.flight then 1 else 0) {
      WaitersSet(callers, c, it, f);
      assert c in Waiters(callers, f) <==> f == it.flight;
    }
  }

  // ---------------------------------------------------------------- what each segment keeps

  /** A flight that is still under way moves on. */
  lemma StageSet(flights: map<nat, Flight>, callers: map<nat, Caller>, slot: Option<nat>, next: nat, epoch: nat,
                 f: nat, stage: Stage)
    requires Slotted(flights, slot, next, epoch) && Counted(flights, callers) && Heard(flights, callers)
    requires f in flights && !flights[f].stage.Finished?
    ensures var after := flights[f := flights[f].(stage := stage)];
            Slotted(after, slot, next, epoch) && Counted(after, callers) && Heard(after, callers)
  {
    var after := flights[f := flights[f].(stage := stage)];
    forall c | c in callers ensures HeardBy(after, callers[c]) {
      assert HeardBy(flights, callers[c]);
    }
  }

  lemma SettledSet(flights: map<nat, Flight>, callers: map<nat, Caller>, slot: Option<nat>, next: nat, epoch: nat,
      f: nat)
    requires Slotted(flights, slot, next, epoch) && Counted(flights, callers) && Heard(flights, callers)
    requires f in flights && flights[f].stage.Finished?
    ensures var after := flights[f := flights[f].(settled := true)];
            && Slotted(after, if slot == Some(f) then None else slot, next, epoch)
            && Counted(after, callers) && Heard(after, callers)
  {
    var after := flights[f := flights[f].(settled := true)];
    forall c | c in callers ensures HeardBy(after, callers[c]) {
      assert HeardBy(flights, callers[c]);
    }
  }

  lemma TurnSet(flights: map<nat, Flight>, callers: map<nat, Caller>, c: nat, it: Caller)
    requires Counted(flights, callers) && Heard(flights, callers) && HeardBy(flights, it)
    requires c in callers && callers[c].flight == it.flight && callers[c].turn.Gone? == it.turn.Gone?
    ensures Counted(flights, callers[c := it]) && Heard(flights, callers[c := it])
  {
    Stays(callers, c, it);
  }

  /** The last waiter to be aborted takes a flight under way with it. */
  predicate LastOut(it: Flight, caller: Caller) {
    caller.signal == Some(true) && it.waiters == 1 && !it.settled
  }

  function LeftBehind(it: Flight, caller: Caller): Flight
    requires it.waiters > 0
  {
    it.(waiters := it.waiters - 1, aborted := it.aborted || LastOut(it, caller))
  }

  /** The last waiter of a live flight aborts it by leaving on its own abort. */
  lemma LeftSet(flights: map<nat, Flight>, callers: map<nat, Caller>, slot: Option<nat>, next: nat, epoch: nat, c: nat)
    requires Slotted(flights, slot, next, epoch) && Counted(flights, callers) && Heard(flights, callers)
    requires c in callers && callers[c].turn.Woken?
    ensures var it := callers[c];
            && it.flight in flights && flights[it.flight].waiters > 0
            && (var after := flights[it.flight := LeftBehind(flights[it.flight], it)];
                var gone := callers[c := it.(turn := Gone(it.turn.outcome))];
                var left := if LastOut(flights[it.flight], it) && slot == Some(it.flight) then None else slot;
                Slotted(after, left, next, epoch) && Counted(after, gone) && Heard(after, gone))
  {
    var it := callers[c];
    assert HeardBy(flights, it);
    assert c in Waiters(callers, it.flight);
    LeftSlotted(flights, slot, next, epoch, it);
    LeftCounted(flights, callers, c);
    LeftHeard(flights, callers, c);
  }

  lemma LeftSlotted(flights: map<nat, Flight>, slot: Option<nat>, next: nat, epoch: nat, it: Caller)
    requires Slotted(flights, slot, next, epoch) && it.flight in flights && flights[it.flight].waiters > 0
    ensures var after := flights[it.flight := LeftBehind(flights[it.flight], it)];
            var left := if LastOut(flights[it.flight], it) && slot == Some(it.flight) then None else slot;
            Slotted(after, left, next, epoch)
  {
  }

  lemma LeftCounted(flights: map<nat, Flight>, callers: map<nat, Caller>, c: nat)
    requires Counted(flights, callers)
    requires c in callers && callers[c].turn.Woken? && callers[c].flight in flights
    requires HeardBy(flights, callers[c]) && Heard(flights, callers) && flights[callers[c].flight].waiters > 0
    ensures var it := callers[c];
            Counted(flights[it.flight := LeftBehind(flights[it.flight], it)],
                    callers[c := it.(turn := Gone(it.turn.outcome))])
  {
    var it := callers[c];
    Left(callers, c, it.(turn := Gone(it.turn.outcome)));
    hide Waiters;
  }

  lemma LeftHeard(flights: map<nat, Flight>, callers: map<nat, Caller>, c: nat)
    requires Heard(flights, callers)
    requires c in callers && callers[c].turn.Woken? && callers[c].flight in flights
    requires flights[callers[c].flight].waiters > 0
    ensures var it := callers[c];
            Heard(flights[it.flight := LeftBehind(flights[it.flight], it)],
                  callers[c := it.(turn := Gone(it.turn.outcome))])
  {
    var it := callers[c];
    var gone := callers[c := it.(turn := Gone(it.turn.outcome))];
    var after := flights[it.flight := LeftBehind(flights[it.flight], it)];
    forall x | x in gone ensures HeardBy(after, gone[x]) {
      assert HeardBy(flights, callers[x]);
    }
  }

  /** A new caller joins the flight in the slot. */
  lemma JoinedSet(flights: map<nat, Flight>, callers: map<nat, Caller>, slot: Option<nat>, next: nat, epoch: nat,
                  c: nat, it: Caller)
    requires Slotted(flights, slot, next, epoch) && Heard(flights, callers)
    requires CountedElsewhere(flights, callers, slot)
    requires c !in callers && slot == Some(it.flight) && it.turn.Waiting? && HeardBy(flights, it)
    ensures var after := flights[it.flight := flights[it.flight].(waiters := flights[it.flight].waiters + 1)];
            Slotted(after, slot, next, epoch) && Counted(after, callers[c := it]) && Heard(after, callers[c := it])
  {
    Joined(callers, c, it);
    var after := flights[it.flight := flights[it.flight].(waiters := flights[it.flight].waiters + 1)];
    forall f | f in after ensures Counts(after[f], Waiters(callers[c := it], f)) {
      assert f in flights && slot != Some(f) ==> Counts(flights[f], Waiters(callers, f));
    }
    var joined := callers[c := it];
    forall x | x in joined ensures HeardBy(after, joined[x]) {
      assert x in callers ==> HeardBy(flights, callers[x]);
    }
  }

  /** No flight belongs to the epoch that begins when the credentials change. */
  lemma Advanced(flights: map<nat, Flight>, slot: Option<nat>, next: nat, epoch: nat, home: nat,
      files: map<nat, Credentials>)
    requires Slotted(flights, slot, next, epoch)
    ensures Slotted(flights, slot, next, epoch + 1) && Epochal(flights, epoch + 1, home, files)
  {
  }

  lemma EpochalSet(flights: map<nat, Flight>, epoch: nat, home: nat, files: map<nat, Credentials>, f: nat, it: Flight)
    requires Epochal(flights, epoch, home, files) && f in flights
    requires it.home == flights[f].home && it.creds == flights[f].creds && it.epoch == flights[f].epoch
    ensures Epochal(flights[f := it], epoch, home, files)
  {
  }

  /** startRefresh: the slot is free for a flight of this epoch. */
  lemma Launched(flights: map<nat, Flight>, callers: map<nat, Caller>, slot: Option<nat>, next: nat, epoch: nat,
      it: Flight)
    requires Slotted(flights, slot, next, epoch) && Counted(flights, callers) && Heard(flights, callers)
    requires slot.Some? ==> flights[slot.value].epoch != epoch
    requires Live(it) && it.epoch == epoch && it.waiters == 0
    ensures var after := flights[next := it];
            && Slotted(after, Some(next), next + 1, epoch) && Heard(after, callers)
            && CountedElsewhere(after, callers, Some(next))
  {
    var after := flights[next := it];
    forall c | c in callers ensures HeardBy(after, callers[c]) && callers[c].flight != next {
      assert HeardBy(flights, callers[c]);
    }
    assert Waiters(callers, next) == {};
  }

  // ---------------------------------------------------------------- what a request comes to

  /** What the callers of a flight hear of a response.  `gone`: the flight was aborted or timed out; `current`: the
      stored credentials still are the flight's own. */
  ghost predicate Answers(response: Response, gone: bool, current: bool, stage: Stage) {
    && (stage == Finished(Failed(Aborted)) <==> gone)
    && (stage == Finished(Failed(Rejected)) <==> !gone && response == Unauthorized && current)
    && (stage == Finished(Failed(Superseded)) <==> !gone && response == Unauthorized && !current)
    && (forall ms :: stage == Finished(Failed(RateLimited(ms))) <==>
          && !gone && response.TooMany?
          && ms == (if response.retryAfterMs.Some? then response.retryAfterMs.value else 30_000))
    && (stage == Finished(Failed(HttpError)) <==> !gone && response == NotOk)
    && (stage == Finished(Failed(Transport)) <==> !gone && response == FetchError)
    && (stage == Reading <==> !gone && response == Ok)
  }

  /** What they hear of its body. */
  ghost predicate Delivers(body: Body, gone: bool, current: bool, outcome: Outcome) {
    && (outcome == Failed(Aborted) <==> gone)
    && (outcome == Failed(Transport) <==> !gone && body.Unreadable?)
    && (outcome == Failed(Superseded) <==> !gone && body.Body? && !current)
    && (forall access :: outcome == Token(access) <==> !gone && body.Body? && current && access == body.access)
  }

  class Refresher {
    var home: nat
    var files: map<nat, Credentials>
    var flights: map<nat, Flight>
    var slot: Option<nat>
    var latch: Option<Authority>
    var callers: map<nat, Caller>
    var next: nat
    var epoch: nat

    ghost predicate Valid()
      reads this
    {
      && Slotted(flights, slot, next, epoch)
      && Epochal(flights, epoch, home, files)
      && Counted(flights, callers)
      && Heard(flights, callers)
    }

    constructor (home: nat, files: map<nat, Credentials>)
      ensures Valid() && this.home == home && this.files == files && slot == None && latch == None && callers == map[]
    {
      this.home, this.files := home, files;
      flights, slot, latch, callers, next, epoch := map[], None, None, map[], 0, 0;
    }

    /** startRefresh: a request for the stored credentials takes the slot; nobody waits for it yet. */
    method StartRefresh(creds: Credentials)
      requires Valid() && StoredIn(home, files) == Some(creds)
                && (slot.Some? ==> !Unfenced(home, files, flights[slot.value]))
      modifies this`flights, this`slot, this`next
      ensures slot == Some(old(next)) && next == old(next) + 1 && old(next) !in old(flights)
      ensures flights == old(flights)[old(next) := Flight(home, creds, Fetching, false, false, 0, epoch)]
      ensures Slotted(flights, slot, next, epoch) && Heard(flights, callers) && CountedElsewhere(flights, callers, slot)
      ensures Epochal(flights, epoch, home, files)
    {
      var it := Flight(home, creds, Fetching, false, false, 0, epoch);
      Launched(flights, callers, slot, next, epoch, it);
      hide Slotted, Heard, Counted, CountedElsewhere;
      flights := flights[next := it];
      slot := Some(next);
      next := next + 1;
    }

    /** waitForRefresh up to its await. */
    method Join(c: nat, f: nat, waiting: Caller)
      requires Slotted(flights, slot, next, epoch) && Heard(flights, callers)
                && CountedElsewhere(flights, callers, slot)
      requires Epochal(flights, epoch, home, files)
      requires slot == Some(f) && f in flights && Unfenced(home, files, flights[f])
      requires c !in callers && waiting.flight == f && waiting.turn.Waiting?
      requires waiting.home == home && Some(waiting.creds) == StoredIn(home, files)
      modifies this`flights, this`callers
      ensures Valid()
      ensures flights == old(flights)[f := old(flights)[f].(waiters := old(flights)[f].waiters + 1)]
      ensures callers == old(callers)[c := waiting]
    {
      JoinedSet(flights, callers, slot, next, epoch, c, waiting);
      hide Slotted, Heard, Counted, CountedElsewhere;
      flights := flights[f := flights[f].(waiters := flights[f].waiters + 1)];
      callers := callers[c := waiting];
    }

    /** The flight in the slot when it carries this very snapshot, or a new one. */
    method PickFlight(creds: Credentials) returns (f: nat)
      requires Valid() && StoredIn(home, files) == Some(creds)
      modifies this`flights, this`slot, this`next
      ensures Slotted(flights, slot, next, epoch) && Heard(flights, callers) && CountedElsewhere(flights, callers, slot)
      ensures Epochal(flights, epoch, home, files)
      ensures slot == Some(f) && f in flights && Unfenced(home, files, flights[f])
      ensures if Reusable(old(flights), old(slot), home, files) then f == old(slot).value && flights == old(flights)
              else f !in old(flights) &&
                   flights == old(flights)[f := Flight(home, creds, Fetching, false, false, 0, epoch)]
    {
      assert CountedElsewhere(flights, callers, slot);
      assert slot.Some? ==> slot.value in flights && Live(flights[slot.value]);
      hide Heard, Counted, CountedElsewhere, Slotted, Epochal;
      if slot == None || flights[slot.value].settled
         || AuthorityFor(flights[slot.value].home, flights[slot.value].creds) != AuthorityFor(home, creds)
         || flights[slot.value].creds.access != creds.access
      {
        StartRefresh(creds);
      }
      f := slot.value;
    }

    /** Picking a flight and waiting for it. */
    method JoinOrStart(c: nat, creds: Credentials, signal: Option<bool>) returns (f: nat)
      requires Valid() && c !in callers && StoredIn(home, files) == Some(creds)
      modifies this`flights, this`slot, this`next, this`callers
      ensures Valid() && slot == Some(f)
      ensures callers == old(callers)[c := Caller(f, home, creds, signal, Waiting)]
      ensures if Reusable(old(flights), old(slot), home, files) then
                f == old(slot).value && f in old(flights)
                && flights == old(flights)[f := old(flights)[f].(waiters := old(flights)[f].waiters + 1)]
              else
                f !in old(flights)
                && flights == old(flights)[f := Flight(home, creds, Fetching, false, false, 1, epoch)]
    {
      hide Heard, Counted, CountedElsewhere, Slotted, Epochal, Unfenced;
      f := PickFlight(creds);
      Join(c, f, Caller(f, home, creds, signal, Waiting));
    }

    /** ensureFreshAccessToken up to its await.  A request is started exactly when the token is
        stale, its authority is not latched, and no live flight carries this very snapshot. */
    method EnsureFresh(c: nat, signal: Option<bool>, stale: bool) returns (a: Answer)
      requires Valid() && c !in callers
      modifies this`flights, this`slot, this`next, this`callers
      ensures Valid()
      ensures a.Answered? <==>
                signal == Some(true) || StoredIn(home, files) == None || !stale
                  || latch == Some(AuthorityFor(home, StoredIn(home, files).value))
      ensures a.Answered? ==> callers == old(callers) && flights == old(flights) && slot == old(slot)
      // what is answered: an abort first, then missing credentials, a fresh token, and the latched failure
      ensures a == Answered(Failed(Aborted)) <==> signal == Some(true)
      ensures a == Answered(Failed(NoCredentials)) <==> signal != Some(true) && home !in files
      ensures forall access :: a == Answered(Token(access)) <==>
                signal != Some(true) && home in files && !stale && access == files[home].access
      ensures a == Answered(Failed(Rejected)) <==>
                && signal != Some(true) && home in files && stale
                && latch == Some(Authority(home, files[home].server, files[home].refresh))
      ensures a.Awaiting? ==>
                && StoredIn(home, files).Some? && slot == Some(a.flight)
                && callers == old(callers)[c := Caller(a.flight, home, StoredIn(home, files).value, signal, Waiting)]
                && (if Reusable(old(flights), old(slot), home, files) then
                      var f := old(slot).value;
                      a.flight == f
                      && flights == old(flights)[f := old(flights)[f].(waiters := old(flights)[f].waiters + 1)]
                    else
                      && a.flight !in old(flights)
                      && flights == old(flights)[a.flight :=
                           Flight(home, StoredIn(home, files).value, Fetching, false, false, 1, epoch)])
    {
      if signal == Some(true) {
        return Answered(Failed(Aborted));
      }
      if home !in files {
        return Answered(Failed(NoCredentials));
      }
      var creds := files[home];
      if !stale {
        return Answered(Token(creds.access));
      }
      if latch == Some(AuthorityFor(home, creds)) {
        return Answered(Failed(Rejected));
      }
      var f := JoinOrStart(c, creds, signal);
      a := Awaiting(f);
    }

    /** performRefresh once fetch has settled.  A 401 is latched, and reported as terminal, only
        while the stored credentials are still the flight's own. */
    method Responded(f: nat, response: Response, timedOut: bool)
      requires Valid() && f in flights && flights[f].stage.Fetching?
      modifies this`flights, this`latch
      ensures Valid()
      ensures f in flights && flights == old(flights)[f := old(flights)[f].(stage := flights[f].stage)]
      ensures !flights[f].stage.Fetching?
      ensures Answers(response, flights[f].aborted || timedOut,
                      flights[f].home == home && home in files && files[home] == flights[f].creds, flights[f].stage)
      ensures latch == if flights[f].stage == Finished(Failed(Rejected))
                       then Some(Authority(home, files[home].server, files[home].refresh)) else old(latch)
    {
      hide Slotted, Counted, Heard, Counts, HeardBy, Waiters;
      var it := flights[f];
      var stage;
      if response == FetchError {
        stage := Finished(Failed(if it.aborted || timedOut then Aborted else Transport));
      } else if it.aborted || timedOut {
        stage := Finished(Failed(Aborted));
      } else {
        match response
        case Unauthorized =>
          if Unfenced(home, files, it) {
            latch := Some(AuthorityFor(it.home, it.creds));
            stage := Finished(Failed(Rejected));
          } else {
            stage := Finished(Failed(Superseded));
          }
        case TooMany(after) =>
          stage := Finished(Failed(RateLimited(match after case Some(ms) => ms case None => DEFAULT_RETRY_AFTER_MS)));
        case NotOk => stage := Finished(Failed(HttpError));
        case Ok => stage := Reading;
      }
      StageSet(flights, callers, slot, next, epoch, f, stage);
      flights := flights[f := it.(stage := stage)];
    }

    /** performRefresh once the body has been read.  A token is stored, and returned, only while the
        stored credentials are still the flight's own, and never for an aborted flight. */
    method BodyRead(f: nat, body: Body, timedOut: bool)
      requires Valid() && f in flights && flights[f].stage.Reading?
      modifies this`flights, this`files, this`epoch
      ensures Valid()
      ensures f in flights && flights == old(flights)[f := old(flights)[f].(stage := flights[f].stage)]
                && flights[f].stage.Finished?
      ensures Delivers(body, flights[f].aborted || timedOut,
                       flights[f].home == home && home in old(files) && old(files)[home] == flights[f].creds,
                       flights[f].stage.outcome)
      ensures flights[f].stage.outcome.Token? ==>
                && files == old(files)[home := Credentials(
                     body.access, if body.refresh.Some? then body.refresh.value else flights[f].creds.refresh,
                     flights[f].creds.server)]
      ensures !flights[f].stage.outcome.Token? ==> files == old(files) && epoch == old(epoch)
    {
      hide Slotted, Counted, Heard, Counts, HeardBy, Waiters, Epochal;
      var it := flights[f];
      var outcome := Failed(Superseded);
      if body.Unreadable? {
        outcome := Failed(if it.aborted || timedOut then Aborted else Transport);
      } else if it.aborted || timedOut {
        outcome := Failed(Aborted);
      } else if Unfenced(home, files, it) {
        outcome := Token(body.access);
      }
      StageSet(flights, callers, slot, next, epoch, f, Finished(outcome));
      EpochalSet(flights, epoch, home, files, f, it.(stage := Finished(outcome)));
      flights := flights[f := it.(stage := Finished(outcome))];
      if outcome.Token? {
        var refresh := if body.refresh.Some? then body.refresh.value else it.creds.refresh;
        files := files[home := Credentials(body.access, refresh, it.creds.server)];
        Advanced(flights, slot, next, epoch, home, files);
        epoch := epoch + 1;
      }
    }

    /** The `finally` of startRefresh: an old flight settling never clears a newer one. */
    method Settle(f: nat)
      requires Valid() && f in flights && flights[f].stage.Finished? && !flights[f].settled
      modifies this`flights, this`slot
      ensures Valid()
      ensures flights == old(flights)[f := old(flights)[f].(settled := true)]
      ensures slot == if old(slot) == Some(f) then None else old(slot)
    {
      SettledSet(flights, callers, slot, next, epoch, f);
      hide Slotted, Counted, Heard, Counts, HeardBy, Waiters;
      flights := flights[f := flights[f].(settled := true)];
      if slot == Some(f) {
        slot := None;
      }
    }

    /** The flight's promise reaches a waiting caller. */
    method Wake(c: nat)
      requires Valid() && c in callers && callers[c].turn.Waiting? && flights[callers[c].flight].settled
      modifies this`callers
      ensures Valid()
      ensures var f := old(callers)[c].flight;
              && f in flights && flights[f].stage.Finished?
              && callers == old(callers)[c := old(callers)[c].(turn := Woken(flights[f].stage.outcome))]
    {
      var woken := callers[c].(turn := Woken(flights[callers[c].flight].stage.outcome));
      assert HeardBy(flights, callers[c]);
      TurnSet(flights, callers, c, woken);
      callers := callers[c := woken];
    }

    /** A caller's own signal fires; it is ignored by a caller that has resumed already. */
    method Abort(c: nat)
      requires Valid() && c in callers && callers[c].signal == Some(false)
      modifies this`callers
      ensures Valid()
      ensures callers == old(callers)[c := old(callers)[c].(
                signal := Some(true),
                turn := if old(callers)[c].turn.Waiting? then Woken(Failed(Aborted)) else old(callers)[c].turn)]
    {
      var it := callers[c].(signal := Some(true));
      var told := if it.turn.Waiting? then it.(turn := Woken(Failed(Aborted))) else it;
      assert HeardBy(flights, callers[c]);
      TurnSet(flights, callers, c, told);
      callers := callers[c := told];
    }

    /** The `finally` of waitForRefresh: the request is aborted only by its last caller leaving on
        an abort of its own. */
    method Leave(c: nat) returns (outcome: Outcome)
      requires Valid() && c in callers && callers[c].turn.Woken?
      modifies this`callers, this`flights, this`slot
      ensures Valid()
      ensures outcome == old(callers)[c].turn.outcome
      ensures callers == old(callers)[c := old(callers)[c].(turn := Gone(outcome))]
      ensures var f := old(callers)[c].flight;
              f in old(flights) && old(flights)[f].waiters > 0
      ensures var f := old(callers)[c].flight;
              && flights == old(flights)[f := LeftBehind(old(flights)[f], old(callers)[c])]
              && slot == if LastOut(old(flights)[f], old(callers)[c]) && old(slot) == Some(f) then None else old(slot)
    {
      var f := callers[c].flight;
      outcome := callers[c].turn.outcome;
      hide Epochal, Slotted, Counted, Heard, Counts, HeardBy, Waiters;
      LeftSet(flights, callers, slot, next, epoch, c);
      callers := callers[c := callers[c].(turn := Gone(outcome))];
      var it := flights[f].(waiters := flights[f].waiters - 1);
      if callers[c].signal == Some(true) && it.waiters == 0 && !it.settled {
        if slot == Some(f) {
          slot := None;
        }
        it := it.(aborted := true);
      }
      assert it == LeftBehind(flights[f], old(callers)[c]);
      hide LeftBehind, LastOut;
      EpochalSet(flights, epoch, home, files, f, it);
      flights := flights[f := it];
    }

    /** A login, a logout or a switch of homes, here or in another process. */
    method Replace(newHome: nat, newFiles: map<nat, Credentials>)
      requires Valid()
      modifies this`home, this`files, this`epoch
      ensures Valid() && home == newHome && files == newFiles && epoch == old(epoch) + 1
    {
      home, files, epoch := newHome, newFiles, epoch + 1;
    }
  }

  // ---------------------------------------------------------------- what the caller hears

  /** The flight settles, and a caller that waits for it resumes and leaves. */
  method Deliver(r: Refresher, f: nat, c: nat) returns (heard: Outcome)
    requires r.Valid() && f in r.flights && r.flights[f].stage.Finished? && !r.flights[f].settled
    requires c in r.callers && r.callers[c].flight == f && r.callers[c].turn.Waiting?
    modifies r`flights, r`slot, r`callers
    ensures r.Valid() && heard == old(r.flights)[f].stage.outcome
    ensures r.callers == old(r.callers)[c := old(r.callers)[c].(turn := Gone(heard))]
    ensures r.slot == if old(r.slot) == Some(f) then None else old(r.slot)
  {
    hide Slotted, Epochal, Counted, Heard;
    r.Settle(f);
    r.Wake(c);
    heard := r.Leave(c);
  }

  /** What a caller hears of a response that ends its flight. */
  method HearsResponse(r: Refresher, f: nat, c: nat, response: Response, timedOut: bool) returns (heard: Outcome)
    requires r.Valid() && f in r.flights && r.flights[f].stage.Fetching?
    requires c in r.callers && r.callers[c].flight == f && r.callers[c].turn.Waiting?
    requires response == Ok ==> r.flights[f].aborted || timedOut
    modifies r`flights, r`slot, r`callers, r`latch
    ensures r.Valid() && r.callers == old(r.callers)[c := old(r.callers)[c].(turn := Gone(heard))]
    ensures var it := old(r.flights)[f];
            Answers(response, it.aborted || timedOut,
                    it.home == r.home && r.home in r.files && r.files[r.home] == it.creds, Finished(heard))
  {
    assert !r.flights[f].settled;
    hide Slotted, Epochal, Counted, Heard;
    r.Responded(f, response, timedOut);
    heard := Deliver(r, f, c);
  }

  /** What a caller hears of a body, and what is stored then. */
  method HearsBody(r: Refresher, f: nat, c: nat, body: Body, timedOut: bool) returns (heard: Outcome)
    requires r.Valid() && f in r.flights && r.flights[f].stage.Reading?
    requires c in r.callers && r.callers[c].flight == f && r.callers[c].turn.Waiting?
    modifies r`flights, r`slot, r`callers, r`files, r`epoch
    ensures r.Valid() && r.callers == old(r.callers)[c := old(r.callers)[c].(turn := Gone(heard))]
    ensures var it := old(r.flights)[f];
            && Delivers(body, it.aborted || timedOut,
                        it.home == r.home && r.home in old(r.files) && old(r.files)[r.home] == it.creds, heard)
            && r.files == if !heard.Token? then old(r.files) else
                 old(r.files)[r.home := Credentials(heard.access,
                   if body.refresh.Some? then body.refresh.value else it.creds.refresh, it.creds.server)]
  {
    assert !r.flights[f].settled;
    hide Slotted, Epochal, Counted, Heard;
    r.BodyRead(f, body, timedOut);
    heard := Deliver(r, f, c);
  }
}
