/**
 * The serial scenario engine (scenarios.py): write-ahead prepare, read-only grade, restore.
 * The guest of one lab is a map from scenario to state, behind the nondeterministic environment.
 */
module ScenarioEngine {
  import opened Wrappers
  import opened Identifiers
  import opened LabStates
  import opened LabRuns
  import opened LabStore
  import opened Guests
  import LiveGrading

  datatype Definition = Definition(
    scenarioId: string,
    supported: bool,
    targetRole: string,
    recoveryClass: string,
    handlerIdentity: string)

  type Catalog = map<string, Definition>

  /** Left-pad a scenario identifier with zeros to two characters, as the catalog lookup does. */
  function ZFill(s: string): string {
    if |s| == 0 then "00" else if |s| == 1 then "0" + s else s
  }

  /** Every scenario whose guest state is not restored is the one that the durable attempt names. */
  ghost predicate Covered(active: Option<ActiveScenario>, tasks: string -> TaskState) {
    forall t :: tasks(t) != Restored ==> active.Some? && active.value.scenarioId == t
  }

  /** A covered lab: at most one scenario is dirty, and none when the lab is validated. */
  lemma CoveredFacts(s: LabState, tasks: string -> TaskState, t: string, u: string)
    requires LabRuns.Inv(s) && Covered(s.active, tasks)
    requires tasks(t) != Restored
    ensures tasks(u) != Restored ==> u == t
    ensures s.Phase() != Validated && OpenAttempt(s.journal) && s.active.value.scenarioId == t
  {
    hide LabStates.Construct, ValidIdentity, OpenAttempt, ReachedVerified;
    InvJournal(s);
    if s.Phase() == Validated {
      ValidatedFacts(s);
    }
  }

  class Engine {
    const labName: string
    const catalog: Catalog
    const store: LabStateStore
    const guest: Guest<string>

    constructor (labName: string, catalog: Catalog, store: LabStateStore, guest: Guest<string>)
      requires forall id :: id in catalog ==> catalog[id].scenarioId == id
      ensures this.labName == labName && this.catalog == catalog && this.store == store && this.guest == guest
    {
      this.labName := labName;
      this.catalog := catalog;
      this.store := store;
      this.guest := guest;
    }

    ghost function Recorded(): Option<ActiveScenario>
      reads store
    {
      if labName in store.labs then store.labs[labName].active else None
    }

    ghost predicate Safe()
      reads store, guest
    {
      && store.Valid() && !store.writesProhibited
      && (forall id :: id in catalog ==> catalog[id].scenarioId == id)
      && Covered(Recorded(), guest.tasks)
    }

    /** A lab on which a scenario may be prepared: validated, or candidate-ready without an attempt. */
    ghost predicate Ready()
      reads store
    {
      && labName in store.labs && store.labs[labName].journal != []
      && var s := store.labs[labName];
         s.Phase() == Validated || (s.Phase() == CandidateReady && s.active.None?)
    }

    /** The definition and the handler's contracts make a well-formed attempt on any baseline. */
    ghost predicate GoodAttempt(d: Definition, attemptId: string, prepared: string, restored: string) {
      && IsSha256(prepared) && IsSha256(restored)
      && forall baseline :: IsSha256(baseline) ==>
           ValidActive(ActiveScenario(d.scenarioId, attemptId, d.handlerIdentity, d.recoveryClass, d.targetRole,
                                      baseline, prepared, restored))
    }

    /** The state on which an operation works: the stored one. */
    ghost predicate Holds(state: LabState)
      reads store
    {
      labName in store.labs && store.labs[labName] == state
    }

    ghost predicate Live(state: LabState) {
      state.journal != [] && !state.Phase().CleanupPending? && !state.Phase().Destroyed?
    }

    ghost function Degraded(state: LabState): LabState
      requires state.journal != []
    {
      if state.Phase() == LabStates.Degraded then state else state.Append(LabStates.Degraded)
    }

    /** Journal a failure unless the lab is degraded already; `false` means that the process died. */
    method Degrade(state: LabState) returns (alive: bool)
      requires store.Valid() && !store.writesProhibited && Holds(state) && Live(state)
      modifies store`labs, guest`faults
      ensures store.Valid()
      ensures guest.faults >= old(guest.faults) && (!alive ==> guest.faults > old(guest.faults))
      ensures alive ==> store.labs == old(store.labs)[labName := Degraded(state)]
      ensures !alive ==> store.labs == old(store.labs)
    {
      hide LabRuns.Inv, LabStates.Construct, Proposal;
      var dead := guest.Dies();
      if dead {
        return false;
      }
      if state.Phase() != LabStates.Degraded {
        DegradeAccepted(state);
        var advanced := store.Mutate(labName, state.identity.labId, Advance(LabStates.Degraded));
      }
      return true;
    }

    /** A grader under the write guard: it may try any number of mutations, and none succeeds. */
    method Probe(id: string, attempts: nat) returns (o: Outcome<LiveGrading.Inputs>)
      requires store.Valid()
      modifies store, guest`collected, guest`faults
      ensures store.labs == old(store.labs) && store.writesProhibited == old(store.writesProhibited)
      ensures guest.faults >= old(guest.faults)
      ensures guest.faults == old(guest.faults) ==> o.Returned? && LiveGrading.Judge(o.value).Ok?
      ensures o.Returned? ==> guest.collected == old(guest.collected) + [Observed(id, o.value)]
    {
      hide LiveGrading.Judge;
      store.WithoutWrites(attempts);
      o := guest.Collect(id);
    }

    /** Collect the inputs of a grade, and refuse them if the stored state or the live health drifted. */
    method CollectGrade(state: LabState, id: string) returns (o: Outcome<LiveGrading.Inputs>)
      requires store.Valid()
      modifies store, guest`collected, guest`attested, guest`faults
      ensures store.labs == old(store.labs) && store.writesProhibited == old(store.writesProhibited)
      ensures guest.faults >= old(guest.faults)
      ensures guest.faults == old(guest.faults) && old(Holds(state)) && state.health.Some? ==>
                o.Returned? && LiveGrading.Judge(o.value).Ok?
      ensures o.Returned? ==> guest.collected == old(guest.collected) + [Observed(id, o.value)]
      ensures o.Returned? ==> Unmoved(old(guest.attested), guest.attested)
    {
      hide LabRuns.Inv, LiveGrading.Judge;
      var before := store.Load(labName);
      if before.Err? {
        return Raised(before.error);
      }
      if before.value != state {
        return Raised(Lifecycle);
      }
      var healthBefore := guest.Attest(state.health);
      if !healthBefore.Returned? {
        return if healthBefore.Crashed? then Crashed else Raised(healthBefore.error);
      }
      var tries: nat := *;
      o := Probe(id, tries);
      if o.Crashed? {
        return;
      }
      var healthAfter := guest.Attest(state.health);
      if healthAfter.Crashed? {
        return Crashed;
      }
      var after := store.Load(labName);
      if healthAfter.Raised? || after != before || healthAfter.value != healthBefore.value {
        return Raised(Lifecycle);
      }
    }

    /** Collect and evaluate; the grade is that of exactly what was collected of this scenario. */
    method Judged(state: LabState, id: string) returns (o: Outcome<LiveGrading.Grade>)
      requires store.Valid()
      modifies store, guest`collected, guest`attested, guest`faults
      ensures store.labs == old(store.labs) && store.writesProhibited == old(store.writesProhibited)
      ensures guest.faults >= old(guest.faults)
      ensures guest.faults == old(guest.faults) && old(Holds(state)) && state.health.Some? ==> o.Returned?
      ensures o.Returned? ==> Graded(old(guest.collected), guest.collected, id, o.value)
      ensures o.Returned? ==> Unmoved(old(guest.attested), guest.attested)
    {
      hide LabRuns.Inv, LiveGrading.Evaluate, LiveGrading.Weighed, LiveGrading.Listed;
      var inputs := CollectGrade(state, id);
      if !inputs.Returned? {
        return if inputs.Crashed? then Crashed else Raised(inputs.error);
      }
      var grade := LiveGrading.EvaluateLiveGrade(inputs.value.expected, inputs.value.evidence, inputs.value.signals);
      return if grade.Ok? then Returned(grade.value) else Raised(grade.error);
    }

    /** One more observation was made, it was of this scenario, and it deserves this grade. */
    ghost predicate Graded(before: seq<Observed<string>>, after: seq<Observed<string>>, id: string,
                           grade: LiveGrading.Grade) {
      && |after| == |before| + 1 && before <= after
      && after[|before|].task == id && LiveGrading.Judge(after[|before|].inputs) == Ok(grade)
    }

    /** The scenario was graded once more, and as failed. */
    ghost predicate SeenFailing(before: seq<Observed<string>>, after: seq<Observed<string>>, id: string) {
      && |after| == |before| + 1 && before <= after
      && after[|before|].task == id && LiveGrading.Judge(after[|before|].inputs).Ok?
      && LiveGrading.Judge(after[|before|].inputs).value.status.Fail?
    }

    /** Raise an error from an operation on an active attempt, after degrading the lab. */
    method Abandon(state: LabState, error: Error) returns (o: Outcome<LabState>)
      requires Safe() && Holds(state) && Live(state)
      modifies store`labs, guest`faults
      ensures Safe() && guest.faults >= old(guest.faults)
      ensures !o.Returned?
      ensures o.Raised? ==> store.labs == old(store.labs)[labName := Degraded(state)]
      ensures o.Crashed? ==> store.labs == old(store.labs)
    {
      hide LabRuns.Inv;
      var alive := Degrade(state);
      return if alive then Raised(error) else Crashed;
    }

    /** The attempt records this definition, and each contract of the handler in its own place. */
    ghost predicate Claims(a: ActiveScenario, d: Definition, attemptId: string, prepared: string, restored: string) {
      && a.scenarioId == d.scenarioId && a.attemptId == attemptId && a.handlerIdentity == d.handlerIdentity
      && a.recoveryClass == d.recoveryClass && a.targetRole == d.targetRole
      && a.prepared == prepared && a.restore == restored
    }

    /**
     * Prepare a scenario on a validated lab. `attemptId` is the fresh UUID of the call, and the two
     * contracts are what the handler expects to observe once prepared and once restored.
     */
    method Prepare(requested: string, attemptId: string, prepared: Outcome<string>, restored: Outcome<string>)
      returns (o: Outcome<LabState>)
      requires Safe()
      modifies store, guest
      ensures Safe() && guest.faults >= old(guest.faults)
      ensures o.Returned? ==>
                && Holds(o.value) && o.value.journal != [] && o.value.Phase() == ScenarioPrepared
                && guest.tasks(ZFill(requested)) == Prepared
                && SeenFailing(old(guest.collected), guest.collected, ZFill(requested))
                && ZFill(requested) in catalog && catalog[ZFill(requested)].supported
                && o.value.active.Some? && prepared.Returned? && restored.Returned?
                && Claims(o.value.active.value, catalog[ZFill(requested)], attemptId, prepared.value, restored.value)
                && o.value.health == Some(o.value.active.value.baseline)
      // What the catalog does not support is refused with nothing changed.
      ensures ZFill(requested) !in catalog || !catalog[ZFill(requested)].supported ==>
                o.Raised? && store.labs == old(store.labs) && guest.tasks == old(guest.tasks)
      // A refusal claims nothing; a failure after the claim leaves a degraded lab that still names the attempt.
      ensures o.Raised? ==>
                || (Recorded() == old(Recorded()) && guest.tasks == old(guest.tasks))
                || (&& labName in store.labs && store.labs[labName].journal != []
                    && store.labs[labName].Phase() == LabStates.Degraded
                    && Recorded().Some? && Recorded().value.scenarioId == ZFill(requested))
      ensures old(Recorded()).Some? ==> Recorded() == old(Recorded()) && guest.tasks == old(guest.tasks)
      // Without faults, a supported scenario is prepared on a ready lab.
      ensures && guest.faults == old(guest.faults) && old(Ready()) && prepared.Returned? && restored.Returned?
              && ZFill(requested) in catalog && catalog[ZFill(requested)].supported
              && GoodAttempt(catalog[ZFill(requested)], attemptId, prepared.value, restored.value)
              ==> o.Returned?
    {
      hide LabRuns.Inv, LabStates.Construct, Proposal, IsSha256, ValidActive, SeenFailing, GoodAttempt, Covered;
      var id := ZFill(requested);
      if id !in catalog || !catalog[id].supported {
        return Raised(Lifecycle);
      }
      var d := catalog[id];
      var ready := Validate();
      if !ready.Returned? {
        return ready;
      }
      var state := ready.value;
      if !prepared.Returned? || !restored.Returned? {
        return if prepared.Crashed? || restored.Crashed? then Crashed else Raised(Lifecycle);
      }
      var claimed := Claim(state, d, attemptId, prepared.value, restored.value);
      if !claimed.Returned? {
        return claimed;
      }
      o := Reach(claimed.value, id);
    }

    /** Check the two contracts, and journal the attempt ahead of every guest change. */
    method Claim(state: LabState, d: Definition, attemptId: string, prepared: string, restored: string)
      returns (o: Outcome<LabState>)
      requires Safe() && Holds(state) && LabRuns.Inv(state) && state.Phase() == Validated && state.active.None?
      requires state.health.Some? && IsSha256(state.health.value)
      modifies store`labs, guest`faults
      ensures Safe() && guest.faults >= old(guest.faults)
      ensures !o.Returned? ==> store.labs == old(store.labs)
      ensures o.Returned? ==>
                && Holds(o.value) && o.value.journal != [] && o.value.Phase() == ScenarioPrepared
                && o.value.active.Some? && Claims(o.value.active.value, d, attemptId, prepared, restored)
                && o.value.health == Some(o.value.active.value.baseline)
      ensures guest.faults == old(guest.faults) && GoodAttempt(d, attemptId, prepared, restored) ==> o.Returned?
    {
      hide LabRuns.Inv, LabStates.Construct, Proposal, IsSha256, ValidActive;
      if !IsSha256(prepared) || !IsSha256(restored) {
        return Raised(Lifecycle);
      }
      var dead := guest.Dies();
      if dead {
        return Crashed;
      }
      var request := LabStates.Prepare(d.scenarioId, attemptId, d.handlerIdentity, d.recoveryClass, d.targetRole,
                                       prepared, restored);
      PrepareExact(state, state.identity.labId, request);
      var claimed := store.Mutate(labName, state.identity.labId, request);
      return if claimed.Ok? then Returned(claimed.value) else Raised(claimed.error);
    }

    /** Bring the claimed scenario to its unsolved state and check that it grades as failed. */
    method Reach(state: LabState, id: string) returns (o: Outcome<LabState>)
      requires Safe() && Holds(state) && Live(state) && state.Phase() == ScenarioPrepared
      requires state.active.Some? && state.active.value.scenarioId == id
      modifies store, guest`tasks, guest`collected, guest`attested, guest`faults
      ensures Safe() && guest.faults >= old(guest.faults)
      ensures o.Returned? ==>
                && o.value == state && Holds(state) && guest.tasks(id) == Prepared
                && SeenFailing(old(guest.collected), guest.collected, id)
      ensures o.Raised? ==> store.labs == old(store.labs)[labName := Degraded(state)]
      ensures o.Crashed? ==> store.labs == old(store.labs)
      ensures guest.faults == old(guest.faults) && state.health.Some? ==> o.Returned?
    {
      hide LabRuns.Inv, LiveGrading.Judge;
      var observed := guest.Prepare(id);
      if observed.Crashed? {
        return Crashed;
      }
      if observed != Returned(true) {
        o := Abandon(state, if observed.Raised? then observed.error else Lifecycle);
        return;
      }
      var untouched := Judged(state, id);
      if untouched.Crashed? {
        return Crashed;
      }
      if untouched.Raised? {
        o := Abandon(state, untouched.error);
        return;
      }
      guest.Untouched(untouched.value.status.Fail?);
      if !untouched.value.status.Fail? {
        o := Abandon(state, Lifecycle);
        return;
      }
      return Returned(state);
    }

    /** Load the lab and attest its baseline if it is only candidate-ready; demand a validated lab. */
    method Validate() returns (o: Outcome<LabState>)
      requires Safe()
      modifies store`labs, guest`attested, guest`faults
      ensures Safe() && guest.faults >= old(guest.faults)
      ensures Recorded() == old(Recorded())
      ensures o.Returned? ==> Holds(o.value) && LabRuns.Inv(o.value) && o.value.Phase() == Validated
      ensures o.Returned? ==> o.value.active.None? && o.value.health.Some? && IsSha256(o.value.health.value)
      ensures guest.faults == old(guest.faults) && old(Ready()) ==> o.Returned?
    {
      hide LabStates.Construct, Proposal, OpenAttempt, ReachedVerified, ValidIdentity;
      var loaded := store.Load(labName);
      if loaded.Err? {
        return Raised(loaded.error);
      }
      var state := loaded.value;
      InvJournal(state);
      if state.Phase() == CandidateReady || (state.Phase() == Validated && state.health.None?) {
        var observed := guest.Attest(None);
        if !observed.Returned? {
          return if observed.Crashed? then Crashed else Raised(observed.error);
        }
        if state.Phase() == CandidateReady && state.active.None? {
          AttestExact(state, state.identity.labId, observed.value);
        }
        var attested := store.Mutate(labName, state.identity.labId, Attest(observed.value));
        if attested.Err? {
          return Raised(attested.error);
        }
        StepAchieves(state, state.identity.labId, Attest(observed.value));
        AttestKeepsAttempt(state, observed.value);
        state := attested.value;
        assert Holds(state);
      }
      InvJournal(state);
      if state.Phase() != Validated {
        return Raised(Lifecycle);
      }
      ValidatedFacts(state);
      return Returned(state);
    }

    /** The scenario is the active attempt of the prepared lab, made by the handler of the catalog. */
    ghost predicate Gradable(requested: string)
      reads store
    {
      && ZFill(requested) in catalog && labName in store.labs && store.labs[labName].journal != []
      && var s := store.labs[labName];
         && s.Phase() == ScenarioPrepared && s.active.Some?
         && s.active.value.scenarioId == ZFill(requested)
         && s.active.value.handlerIdentity == catalog[ZFill(requested)].handlerIdentity
    }

    /** The scenario is the recorded attempt of a prepared or degraded lab, made by the handler of the catalog. */
    ghost predicate Restorable(requested: string)
      reads store
    {
      && ZFill(requested) in catalog && labName in store.labs && store.labs[labName].journal != []
      && var s := store.labs[labName];
         && (s.Phase() == ScenarioPrepared || s.Phase() == LabStates.Degraded) && s.active.Some?
         && s.active.value.scenarioId == ZFill(requested)
         && s.active.value.handlerIdentity == catalog[ZFill(requested)].handlerIdentity
    }

    /** Grade the active prepared scenario: nothing durable changes except a degrade after an error. */
    method Grade(requested: string) returns (o: Outcome<LiveGrading.Grade>)
      requires Safe()
      modifies store, guest`collected, guest`attested, guest`faults
      ensures Safe()
      // The grade is the one that what was collected of this very scenario deserves, on a lab that did not move.
      ensures o.Returned? ==> Graded(old(guest.collected), guest.collected, ZFill(requested), o.value)
      ensures o.Returned? ==> Unmoved(old(guest.attested), guest.attested)
      ensures o.Returned? ==>
                && store.labs == old(store.labs)
                && Recorded().Some? && Recorded().value.scenarioId == ZFill(requested)
      // An error of an admitted grading degrades the lab; a refusal and a crash leave everything as it was.
      ensures store.labs
           == if o.Raised? && old(Gradable(requested)) then
                old(store.labs)[labName := Degraded(old(store.labs)[labName])]
              else old(store.labs)
      ensures o.Returned? ==> old(Gradable(requested))
      ensures guest.faults == old(guest.faults) && old(Gradable(requested)) ==> o.Returned?
    {
      hide LabRuns.Inv, LabStates.Construct, Proposal, Graded;
      var id := ZFill(requested);
      if id !in catalog {
        return Raised(Lifecycle);
      }
      var loaded := store.Load(labName);
      if loaded.Err? {
        return Raised(loaded.error);
      }
      var state := loaded.value;
      InvJournal(state);
      if !Attempts(state, catalog[id]) || state.Phase() != ScenarioPrepared {
        return Raised(Lifecycle);
      }
      ActiveBaseline(state);
      o := Judged(state, id);
      if o.Raised? {
        var raised := Abandon(state, o.error);
        o := if raised.Crashed? then Crashed else Raised(raised.error);
      }
    }

    predicate Attempts(state: LabState, d: Definition) {
      && state.active.Some?
      && state.active.value.scenarioId == d.scenarioId
      && state.active.value.handlerIdentity == d.handlerIdentity
    }

    /** Restore the active scenario and clear the attempt once the baseline is attested again. */
    method Restore(requested: string) returns (o: Outcome<LabState>)
      requires Safe()
      modifies store`labs, guest
      ensures Safe()
      ensures o.Returned? ==>
                && Holds(o.value) && o.value.journal != [] && o.value.Phase() == Validated && o.value.active.None?
                && (forall t :: guest.tasks(t) == Restored)
                // The baseline of the attempt was found again first.
                && old(Recorded()).Some?
                && Found(old(guest.attested), guest.attested, old(Recorded()).value.baseline)
      // Any failure keeps the attempt, so that the restore can be tried again.
      ensures !o.Returned? ==> Recorded() == old(Recorded())
      // Without faults, exactly the attempt of a prepared or degraded lab is restored; nothing else is touched.
      ensures guest.faults == old(guest.faults) && old(Restorable(requested)) ==> o.Returned?
      ensures !old(Restorable(requested)) ==>
                o.Raised? && store.labs == old(store.labs) && guest.tasks == old(guest.tasks)
    {
      hide LabRuns.Inv, LabStates.Construct, Proposal;
      var id := ZFill(requested);
      if id !in catalog {
        return Raised(Lifecycle);
      }
      var loaded := store.Load(labName);
      if loaded.Err? {
        return Raised(loaded.error);
      }
      var state := loaded.value;
      InvJournal(state);
      if !Attempts(state, catalog[id]) || (state.Phase() != ScenarioPrepared && state.Phase() != LabStates.Degraded) {
        return Raised(Lifecycle);
      }
      var observed := guest.Restore(id);
      if observed.Crashed? {
        return Crashed;
      }
      if observed != Returned(true) {
        o := Abandon(state, if observed.Raised? then observed.error else Lifecycle);
        return;
      }
      o := Clear(state, id);
    }

    /** Attest the baseline and clear the attempt of a restored scenario. */
    method Clear(state: LabState, id: string) returns (o: Outcome<LabState>)
      requires Safe() && Holds(state) && Live(state) && state.active.Some? && state.active.value.scenarioId == id
      requires state.Phase() == ScenarioPrepared || state.Phase() == LabStates.Degraded
      requires guest.tasks(id) == Restored
      modifies store`labs, guest`attested, guest`faults
      ensures Safe() && guest.faults >= old(guest.faults)
      ensures o.Returned? ==>
                && Holds(o.value) && o.value.journal != [] && o.value.Phase() == Validated && o.value.active.None?
                && Found(old(guest.attested), guest.attested, state.active.value.baseline)
      ensures !o.Returned? ==> Recorded() == old(Recorded())
      ensures guest.faults == old(guest.faults) ==> o.Returned?
    {
      hide LabRuns.Inv, LabStates.Construct, Proposal;
      var active := state.active.value;
      ActiveBaseline(state);
      var health := guest.Attest(Some(active.baseline));
      if health.Crashed? {
        return Crashed;
      }
      if health.Raised? {
        o := Abandon(state, health.error);
        return;
      }
      var dead := guest.Dies();
      if dead {
        return Crashed;
      }
      var request := LabStates.Restore(id, active.attemptId, health.value, active.restore);
      RestoreOwn(state);
      var cleared := store.Mutate(labName, state.identity.labId, request);
      if cleared.Err? {
        o := Abandon(state, cleared.error);
        return;
      }
      StepAchieves(state, state.identity.labId, request);
      RestoreExact(state, state.identity.labId, request);
      return Returned(cleared.value);
    }

    /** Any number of operations and of other store mutations, each ending as it may, in any order. */
    method AnyRun(steps: nat)
      requires Safe()
      modifies store, guest
      ensures Safe()
    {
      hide LabRuns.Inv, LabStates.Construct, Proposal;
      for k := 0 to steps
        invariant Safe()
      {
        var id: string, attemptId: string, prepared: Outcome<string>, restored: Outcome<string> := *, *, *, *;
        if * {
          var o := Prepare(id, attemptId, prepared, restored);
        } else if * {
          var o := Grade(id);
        } else if * {
          var o := Restore(id);
        } else if * {
          var request: Request := *;
          if !request.Restore? {
            OtherMutation(id, request);
          }
        } else if labName in store.labs && store.labs[labName].active.Some? {
          var active := store.labs[labName].active.value.scenarioId;
          guest.Work(t => t == active);
        }
      }
    }

    /** Any other mutator call, of provisioning or cleanup say, keeps the recorded attempt. */
    method OtherMutation(expectedId: string, request: Request)
      requires Safe() && !request.Restore?
      modifies store`labs
      ensures Safe()
    {
      hide LabStates.Construct, Proposal, OpenAttempt, ReachedVerified, ValidIdentity;
      ghost var before := store.labs;
      var r := store.Mutate(labName, expectedId, request);
      if r.Ok? && before[labName].active.Some? {
        AttemptFrozen(before[labName], expectedId, request);
      }
    }
  }

  lemma AttestKeepsAttempt(s: LabState, fingerprint: string)
    requires LabRuns.Inv(s) && Next(s, s.identity.labId, Attest(fingerprint)).Ok?
    ensures s.active.None?
  {
    hide LabStates.Construct, OpenAttempt, ReachedVerified, ValidIdentity;
    ConstructedExact(s);
  }

  lemma ActiveBaseline(s: LabState)
    requires LabRuns.Inv(s) && s.active.Some?
    ensures s.health == Some(s.active.value.baseline)
  {
    hide OrderObservations, LegalInventory, WellFormedFields, OpenAttempt, ReachedVerified, ValidIdentity;
    ConstructedExact(s);
  }
}
