/**
 * The combined-exam saga (exam_engine.py). Handlers, attestations and the candidate are an
 * environment that answers as it likes; the process may die between any two atomic steps.
 */
module ExamEngine {
  import opened Wrappers
  import opened Identifiers
  import opened Sequences
  import opened LabStates
  import opened LabRuns
  import opened LabStore
  import opened ExamSessions
  import opened ExamStore
  import opened Guests
  import LiveGrading
  import ExamAggregate

  type TaskStates = int -> TaskState

  /** Every task that is not restored is named by the stored session's write-ahead claims. */
  ghost predicate Covered(stored: Option<Session>, tasks: TaskStates) {
    forall t :: tasks(t) != Restored ==> stored.Some? && t in stored.value.claimed
  }

  predicate Opened(status: Status) {
    status.Active? || status.Submitting? || status.Submitted?
  }

  /** A stored session is a legal one, and every task is prepared before it opens. */
  ghost predicate LegalStored(stored: Option<Session>) {
    stored.Some? ==>
      && ExamSessions.Inv(stored.value)
      && (Opened(stored.value.status) ==> stored.value.claimed == Expected() && stored.value.prepared == Expected())
  }

  /** A lab on which an exam may start: validated, or candidate-ready without a recorded attempt. */
  ghost predicate ReadyLab(lab: LabStateStore, labName: string)
    reads lab
  {
    && labName in lab.labs && lab.labs[labName].journal != []
    && var s := lab.labs[labName];
       s.Phase() == Validated || (s.Phase() == CandidateReady && s.active.None? && !lab.writesProhibited)
  }

  class Engine {
    const labName: string
    const lab: LabStateStore
    const exams: ExamSessionStore
    const guest: Guest<int>

    constructor (labName: string, lab: LabStateStore, exams: ExamSessionStore, guest: Guest<int>)
      ensures this.labName == labName && this.lab == lab && this.exams == exams && this.guest == guest
    {
      this.labName := labName;
      this.lab := lab;
      this.exams := exams;
      this.guest := guest;
    }

    ghost predicate Safe()
      reads lab, exams, guest
    {
      && lab.Valid()
      && Covered(exams.stored, guest.tasks)
      && LegalStored(exams.stored)
    }

    /** Load a validated lab, attesting its baseline first when it is only candidate-ready. */
    method ValidatedLab() returns (o: Outcome<LabState>)
      requires lab.Valid()
      modifies lab`labs, guest`attested, guest`faults
      ensures lab.Valid() && guest.faults >= old(guest.faults) && old(guest.attested) <= guest.attested
      ensures old(ReadyLab(lab, labName)) && guest.faults == old(guest.faults) ==> o.Returned?
      ensures old(labName in lab.labs && lab.labs[labName].journal != [] && lab.labs[labName].Phase() == Validated
                  && lab.labs[labName].health.Some?)
              ==> lab.labs == old(lab.labs)
      ensures o.Returned? ==>
                && labName in lab.labs && o.value == lab.labs[labName]
                && o.value.journal != [] && o.value.Phase() == Validated && o.value.health.Some? && o.value.active.None?
                && labName in old(lab.labs) && o.value.identity == old(lab.labs)[labName].identity
    {
      hide Proposal, LabStates.Construct, ValidIdentity, OpenAttempt, ReachedVerified;
      var loaded := lab.Load(labName);
      if loaded.Err? {
        return Raised(loaded.error);
      }
      var state := loaded.value;
      InvJournal(state);
      if state.Phase() == CandidateReady || (state.Phase() == Validated && state.health.None?) {
        var observed := guest.Attest(None);
        if observed.Crashed? {
          return Crashed;
        } else if observed.Raised? {
          return Raised(observed.error);
        }
        if state.Phase() == CandidateReady && state.active.None? {
          AttestExact(state, state.identity.labId, observed.value);
        }
        var attested := lab.Mutate(labName, state.identity.labId, Attest(observed.value));
        if attested.Err? {
          return Raised(attested.error);
        }
        LabRuns.StepLater(state, state.identity.labId, Attest(observed.value));
        state := attested.value;
        assert lab.labs[labName] == state;
        InvJournal(state);
      }
      if state.Phase() == Validated {
        ValidatedFacts(state);
      }
      if state.Phase() != Validated || state.health.None? || state.active.Some? {
        return Raised(Lifecycle);
      }
      return Returned(state);
    }

    /**
     * The view of the lab that a task's handler gets: as if the task were the active serial
     * scenario. It is built for the handler and never stored.
     */
    function TaskView(state: LabState, attempt: ActiveScenario): Result<LabState>
      requires ValidIdentity(state.identity)
    {
      LabStates.Construct(state.(active := Some(attempt)).Append(LabStates.ScenarioPrepared))
    }

    /** The synthetic view is exactly the state that preparing the task serially would have stored. */
    lemma TaskViewIsPrepared(state: LabState, a: ActiveScenario)
      requires LabRuns.Inv(state) && state.Phase() == Validated && Some(a.baseline) == state.health
      ensures TaskView(state, a)
              == Next(state, state.identity.labId,
                      LabStates.Prepare(a.scenarioId, a.attemptId, a.handlerIdentity, a.recoveryClass, a.targetRole,
                                        a.prepared, a.restore))
    {
      hide LabStates.Construct, ValidIdentity, OpenAttempt, ReachedVerified;
      ConstructedExact(state);
    }

    /** Try one task, and collect a failure instead of raising it. */
    method TryRestore(task: int) returns (o: Outcome<bool>)
      modifies guest`tasks, guest`attempts, guest`faults
      ensures !o.Raised?
      ensures guest.attempts == old(guest.attempts) + [task]
      ensures forall t :: t != task ==> guest.tasks(t) == old(guest.tasks)(t)
      ensures if o == Returned(true) then guest.tasks(task) == Restored && guest.faults == old(guest.faults)
              else guest.faults > old(guest.faults)
    {
      guest.Log(task);
      var looked := guest.Answer(());
      if !looked.Returned? {
        return if looked.Crashed? then Crashed else Returned(false);
      }
      o := guest.Restore(task);
      if o.Raised? {
        o := Returned(false);
      }
    }

    /** Restore every claimed task once, last claim first; `true` means that none of them failed. */
    method RestoreClaimed(session: Session) returns (o: Outcome<bool>)
      modifies guest`tasks, guest`attempts, guest`faults
      ensures forall t :: t !in session.claimed ==> guest.tasks(t) == old(guest.tasks)(t)
      ensures o == Returned(true) ==> forall t :: t in session.claimed ==> guest.tasks(t) == Restored
      ensures !o.Raised?
      ensures if o == Returned(true) then guest.faults == old(guest.faults) else guest.faults > old(guest.faults)
      ensures o.Returned? ==> guest.attempts == old(guest.attempts) + Reverse(session.claimed)
      ensures o.Crashed? ==> guest.attempts <= old(guest.attempts) + Reverse(session.claimed)
    {
      var order := Reverse(session.claimed);
      ReverseMembers(session.claimed);
      var failed := false;
      var i := 0;
      while i < |order|
        invariant 0 <= i <= |order|
        invariant guest.attempts == old(guest.attempts) + order[..i]
        invariant forall t :: t !in order[..i] ==> guest.tasks(t) == old(guest.tasks)(t)
        invariant !failed ==> forall t :: t in order[..i] ==> guest.tasks(t) == Restored
        invariant if failed then guest.faults > old(guest.faults) else guest.faults == old(guest.faults)
      {
        var task := order[i];
        assert order[..i + 1] == order[..i] + [task];
        var restored := TryRestore(task);
        if restored.Crashed? {
          return Crashed;
        }
        failed := failed || restored != Returned(true);
        i := i + 1;
      }
      assert order[..i] == order;
      return Returned(!failed);
    }

    /** Apply one transition to the session the caller holds, and store the result. */
    method Persist(session: Session, event: Event) returns (o: Outcome<Session>)
      modifies exams, guest`faults
      ensures o.Crashed? <==> guest.faults > old(guest.faults)
      ensures guest.faults >= old(guest.faults)
      ensures o.Returned? ==>
                && Step(session, event) == Ok(o.value)
                && old(exams.stored).Some?
                && SaveResult(old(exams.stored), o.value, session.revision).Ok?
                && exams.stored == Some(o.value)
      ensures o.Raised? ==> exams.stored == old(exams.stored)
      ensures o.Raised? && old(exams.stored) == Some(session) && !event.BeginSubmit? ==> Step(session, event).Err?
      ensures o.Crashed? ==> exams.stored == old(exams.stored)
    {
      hide Legal;
      var next := Step(session, event);
      if next.Err? {
        return Raised(next.error);
      }
      var dead := guest.Dies();
      if dead {
        return Crashed;
      }
      StepRaises(session, event);
      var saved := exams.SaveSession(next.value, session.revision);
      if saved.Err? {
        return Raised(saved.error);
      }
      return Returned(next.value);
    }

    /** The tasks before `task` are prepared, the others restored, and the session says so. */
    ghost predicate PreparedUpTo(session: Session, task: int)
      reads exams, guest
    {
      && 1 <= task <= TASKS + 1
      && exams.stored == Some(session) && ExamSessions.Inv(session) && session.status.Preparing?
      && session.claimed == Expected()[..task - 1] && session.prepared == Expected()[..task - 1]
      && (forall t :: guest.tasks(t) == if 1 <= t < task then Prepared else Restored)
    }

    /** What holds when the try block is left: claims cover the guests, and `session` is the stored one. */
    ghost predicate LeftAt(session: Session)
      reads exams, guest
    {
      && exams.stored == Some(session) && ExamSessions.Inv(session) && session.status.Preparing?
      && (forall t :: guest.tasks(t) != Restored ==> t in session.claimed)
    }

    lemma PreparedIsLeft(session: Session, task: int)
      requires PreparedUpTo(session, task)
      ensures LeftAt(session)
    {
      forall t | 1 <= t < task ensures t in session.claimed {
        assert session.claimed[t - 1] == t;
      }
    }

    /** Store the claim of the next task, before its guest is touched. */
    method ClaimNext(before: Session, task: int) returns (o: Outcome<Session>)
      requires IsTask(task) && PreparedUpTo(before, task)
      modifies exams, guest`faults
      ensures !o.Raised?
      ensures if o.Returned? then guest.faults == old(guest.faults) else guest.faults > old(guest.faults)
      ensures o.Crashed? ==> exams.stored == old(exams.stored)
      ensures o.Returned? ==>
                && exams.stored == Some(o.value) && ExamSessions.Inv(o.value) && o.value.status.Preparing?
                && o.value.claimed == Expected()[..task] && o.value.prepared == before.prepared
                && SameExam(before, o.value)
    {
      hide Legal, Step, SaveResult, Covered;
      PreparationExact(before, task);
      o := Persist(before, ClaimTask(task));
      if o.Returned? {
        ExamSessions.StepInv(before, ClaimTask(task));
        StepClaims(before, ClaimTask(task));
      }
    }

    /** The untouched task was graded, and everything in it was failed. */
    ghost predicate SeenFailing(seen: Observed<int>, task: int) {
      && seen.task == task && LiveGrading.Judge(seen.inputs).Ok?
      && LiveGrading.Judge(seen.inputs).value.status.Fail? && LiveGrading.Judge(seen.inputs).value.score == 0.0
    }

    /** Between the two logs, tasks 1 to `count` were each seen failing once, in order. */
    ghost predicate AllSeenFailing(before: seq<Observed<int>>, after: seq<Observed<int>>, count: nat) {
      && |after| == |before| + count && before <= after
      && forall i :: |before| <= i < |after| ==> SeenFailing(after[i], i - |before| + 1)
    }

    /** Prepare the guest of one task, and check that it grades as failed with nothing while it is untouched. */
    method PrepareGuest(task: int) returns (o: Outcome<()>)
      requires lab.Valid()
      modifies lab, guest`tasks, guest`collected, guest`faults
      ensures lab.Valid() && lab.labs == old(lab.labs)
      ensures forall t :: t != task ==> guest.tasks(t) == old(guest.tasks)(t)
      ensures if o.Returned? then guest.faults == old(guest.faults) else guest.faults > old(guest.faults)
      ensures o.Returned? ==>
                && guest.tasks(task) == Prepared
                && |guest.collected| == |old(guest.collected)| + 1 && old(guest.collected) <= guest.collected
                && SeenFailing(guest.collected[|old(guest.collected)|], task)
    {
      hide LiveGrading.Judge;
      var looked := guest.Answer(());
      if !looked.Returned? {
        return if looked.Crashed? then Crashed else Raised(looked.error);
      }
      var observed := guest.Prepare(task);
      if observed != Returned(true) {
        return if observed.Crashed? then Crashed else Raised(if observed.Raised? then observed.error else Lifecycle);
      }
      var tries: nat := *;
      var untouched := CollectTask(task, tries);
      if !untouched.Returned? {
        return if untouched.Crashed? then Crashed else Raised(untouched.error);
      }
      var failed := untouched.value.status.Fail? && untouched.value.score == 0.0;
      guest.Untouched(failed);
      return if failed then Returned(()) else Raised(Lifecycle);
    }

    /** Claim one task, prepare and verify it, and confirm it. */
    method PrepareTask(before: Session, task: int) returns (session: Session, o: Outcome<bool>)
      requires IsTask(task) && PreparedUpTo(before, task) && lab.Valid()
      modifies lab, exams, guest`tasks, guest`collected, guest`faults
      ensures lab.Valid() && lab.labs == old(lab.labs)
      ensures if o.Returned? then guest.faults == old(guest.faults) else guest.faults > old(guest.faults)
      ensures o.Returned? ==>
                && PreparedUpTo(session, task + 1)
                && |guest.collected| == |old(guest.collected)| + 1 && old(guest.collected) <= guest.collected
                && SeenFailing(guest.collected[|old(guest.collected)|], task)
      ensures o.Raised? ==> LeftAt(session)
      ensures Covered(exams.stored, guest.tasks) && LegalStored(exams.stored)
      ensures exams.stored.Some? && SameExam(before, exams.stored.value)
    {
      hide Legal, Step, SaveResult, Expected, SeenFailing;
      session := before;
      PreparedIsLeft(session, task);
      var claimed := ClaimNext(session, task);
      if !claimed.Returned? {
        return session, Crashed;
      }
      ClaimedBefore(task);
      session := claimed.value;
      var ready := PrepareGuest(task);
      if !ready.Returned? {
        return session, if ready.Crashed? then Crashed else Raised(ready.error);
      }
      PreparationExact(session, task);
      var confirmed := Persist(session, ConfirmTask(task));
      if !confirmed.Returned? {
        return session, Crashed;
      }
      ExamSessions.StepInv(session, ConfirmTask(task));
      StepClaims(session, ConfirmTask(task));
      return confirmed.value, Returned(true);
    }

    lemma ClaimedBefore(task: int)
      requires IsTask(task)
      ensures |Expected()| == TASKS
      ensures forall t :: 1 <= t <= task ==> t in Expected()[..task]
      ensures Expected()[..task - 1] + [task] == Expected()[..task]
    {
      forall t | 1 <= t <= task ensures t in Expected()[..task] {
        assert Expected()[..task][t - 1] == t;
      }
    }

    /** The try block of `start`: claim, prepare, verify and confirm each task, then activate. */
    method PrepareAll(baseline: string, created: Session, now: int) returns (session: Session, o: Outcome<Session>)
      requires PreparedUpTo(created, 1) && lab.Valid()
      modifies lab, exams, guest`tasks, guest`collected, guest`attested, guest`faults
      ensures lab.Valid() && lab.labs == old(lab.labs)
      ensures if o.Returned? then guest.faults == old(guest.faults) else guest.faults > old(guest.faults)
      ensures o.Raised? ==> LeftAt(session)
      ensures o.Returned? ==>
                && exams.stored == Some(o.value) && o.value.status.Active? && o.value.startedAt == Some(now)
                && o.value.deadlineAt == Some(now + created.duration * SECOND)
                && o.value.claimed == Expected() && o.value.prepared == Expected()
                && (forall t :: IsTask(t) ==> guest.tasks(t) == Prepared)
                && AllSeenFailing(old(guest.collected), guest.collected, TASKS)
                && Found(old(guest.attested), guest.attested, baseline)
      ensures Covered(exams.stored, guest.tasks) && LegalStored(exams.stored)
      ensures exams.stored.Some? && SameExam(created, exams.stored.value)
    {
      hide Legal, Step, SaveResult, SeenFailing;
      session := created;
      PreparedIsLeft(session, 1);
      var task := 1;
      while task <= TASKS
        invariant 1 <= task <= TASKS + 1
        invariant PreparedUpTo(session, task) && SameExam(created, session)
        invariant lab.Valid() && lab.labs == old(lab.labs)
        invariant AllSeenFailing(old(guest.collected), guest.collected, task - 1)
        invariant guest.attested == old(guest.attested)
        invariant guest.faults == old(guest.faults)
      {
        var done;
        session, done := PrepareTask(session, task);
        if !done.Returned? {
          o := if done.Crashed? then Crashed else Raised(done.error);
          return;
        }
        task := task + 1;
      }
      PreparedIsLeft(session, task);
      assert Expected()[..TASKS] == Expected();
      var health := guest.Attest(Some(baseline));
      if !health.Returned? {
        o := if health.Crashed? then Crashed else Raised(health.error);
        return;
      }
      if health.value != baseline {
        o := Raised(Lifecycle);
        return;
      }
      ActivateExact(session, now);
      o := Persist(session, Activate(now));
      if o.Returned? {
        ExamSessions.StepInv(session, Activate(now));
        StepClaims(session, Activate(now));
      }
    }

    /** The exception branch of `start`: compensate, then record the failure unless its text is blank. */
    method Compensate(session: Session, error: Error, text: string) returns (o: Outcome<Session>, ghost clean: bool)
      requires LeftAt(session)
      modifies exams, guest`tasks, guest`attempts, guest`faults
      ensures !o.Returned? && guest.faults >= old(guest.faults)
      ensures Covered(exams.stored, guest.tasks) && LegalStored(exams.stored)
      ensures exams.stored.Some? && SameExam(session, exams.stored.value)
      ensures o.Raised? ==>
                && exams.stored.Some? && exams.stored.value.claimed == session.claimed
                && guest.attempts == old(guest.attempts) + Reverse(session.claimed)
                && (exams.stored.value.status.Failed? <==> !Blank(text) || !clean)
                && (!exams.stored.value.status.Failed? ==> exams.stored == Some(session))
                && (clean ==> forall t :: guest.tasks(t) == Restored)
                && (!clean ==> guest.faults > old(guest.faults))
    {
      hide Legal, Step, SaveResult;
      var recovered := RestoreClaimed(session);
      clean := recovered == Returned(true);
      if recovered.Crashed? {
        return Crashed, clean;
      }
      var recovery: string := *;
      var detail := if recovered == Returned(true) then text else text + "; recovery: " + recovery;
      NotBlank(text, recovery);
      FailExact(session, detail);
      o := Persist(session, Fail(detail));
      if o.Returned? {
        ExamSessions.StepInv(session, Fail(detail));
        StepClaims(session, Fail(detail));
        o := Raised(error);
      }
    }

    /** Demand a validated lab without a session, and store the record of a new one ahead of everything else. */
    method Open(mode: Mode, catalogSha: string, manifestSha: string, duration: int, sessionId: string,
                attempts: seq<string>)
      returns (o: Outcome<Session>, health: Option<string>)
      requires Safe() && |attempts| == TASKS
      modifies lab`labs, exams, guest`attested, guest`faults
      ensures Safe() && guest.faults >= old(guest.faults) && old(guest.attested) <= guest.attested
      ensures !o.Returned? ==> exams.stored == old(exams.stored)
      ensures o.Returned? ==>
                && old(exams.stored).None? && PreparedUpTo(o.value, 1)
                && labName in old(lab.labs) && labName in lab.labs
                && health.Some? && lab.labs[labName].health == health
                && StartedAs(o.value, old(lab.labs)[labName].identity.labId, sessionId, mode, catalogSha, manifestSha,
                             duration, attempts)
      ensures && guest.faults == old(guest.faults) && old(ReadyLab(lab, labName)) && old(exams.stored).None?
              && IsUuid(sessionId) && (forall i :: 0 <= i < TASKS ==> IsUuid(attempts[i]))
              && |catalogSha| == 64 && |manifestSha| == 64 && MIN_DURATION <= duration <= MAX_DURATION
              ==> o.Returned?
    {
      hide Legal, LabRuns.Inv, LabStates.Construct, Step, SaveResult, IsUuid, ExamSessions.Create;
      health := None;
      var validated := ValidatedLab();
      if !validated.Returned? {
        o := if validated.Crashed? then Crashed else Raised(validated.error);
        return;
      }
      var state := validated.value;
      if exams.stored.Some? {
        o := Raised(Conflict);
        return;
      }
      StoredIdentity(state);
      CreateExact(state.identity.labId, sessionId, mode, catalogSha, manifestSha, duration, attempts);
      var created :=
        ExamSessions.Create(state.identity.labId, sessionId, mode, catalogSha, manifestSha, duration, attempts);
      if created.Err? {
        o := Raised(created.error);
        return;
      }
      CreateInv(state.identity.labId, sessionId, mode, catalogSha, manifestSha, duration, attempts);
      var stored := exams.Create(created.value);
      o, health := Returned(created.value), state.health;
    }

    /**
     * Start a combined exam. `text` is the message of the error that the try block raised, if any, and
     * `clean` says that every restore after it succeeded; the identifiers are the fresh UUIDs of the call
     * and `now` is the clock at activation.
     */
    method Start(mode: Mode, catalogSha: string, manifestSha: string, duration: int, sessionId: string,
                 attempts: seq<string>, now: int)
      returns (o: Outcome<Session>, text: string, ghost clean: bool)
      requires Safe() && |attempts| == TASKS
      modifies lab, exams, guest
      ensures Safe()
      // An active exam has every task claimed, prepared, in its prepared state, and seen failing once, and the
      // health of the lab was found unchanged.
      ensures o.Returned? ==>
                && exams.stored == Some(o.value) && o.value.status.Active? && o.value.startedAt == Some(now)
                && o.value.deadlineAt == Some(now + duration * SECOND)
                && o.value.claimed == Expected() && o.value.prepared == Expected()
                && (forall t :: IsTask(t) ==> guest.tasks(t) == Prepared)
                && AllSeenFailing(old(guest.collected), guest.collected, TASKS)
                && labName in lab.labs && lab.labs[labName].health.Some?
                && Found(old(guest.attested), guest.attested, lab.labs[labName].health.value)
      // However it ends, a session that was not there before is the exam that was asked for.
      ensures old(exams.stored).None? && exams.stored.Some? ==>
                && labName in old(lab.labs)
                && StartedAs(exams.stored.value, old(lab.labs)[labName].identity.labId, sessionId, mode, catalogSha,
                             manifestSha, duration, attempts)
      // An existing session is never touched.
      ensures old(exams.stored).Some? ==>
                !o.Returned? && exams.stored == old(exams.stored) && guest.tasks == old(guest.tasks)
      // A failure after the write-ahead record compensates every claimed task once, in reverse order. The
      // session is then failed exactly if the error or the compensation has something to say; otherwise it
      // is left preparing, with every task restored.
      ensures o.Raised? && old(exams.stored).None? && exams.stored.Some? ==>
                && guest.attempts == old(guest.attempts) + Reverse(exams.stored.value.claimed)
                && (exams.stored.value.status.Failed? <==> !Blank(text) || !clean)
                && (!exams.stored.value.status.Failed? ==> exams.stored.value.status.Preparing?)
                && (clean ==> forall t :: guest.tasks(t) == Restored)
      ensures o.Raised? && exams.stored.None? ==> guest.attempts == old(guest.attempts)
      // Without faults, on a ready lab without a session, the exam starts.
      ensures && guest.faults == old(guest.faults) && old(ReadyLab(lab, labName)) && old(exams.stored).None?
              && IsUuid(sessionId) && (forall i :: 0 <= i < TASKS ==> IsUuid(attempts[i]))
              && |catalogSha| == 64 && |manifestSha| == 64 && MIN_DURATION <= duration <= MAX_DURATION
              ==> o.Returned?
    {
      hide Legal, LabRuns.Inv, LabStates.Construct, Step, SaveResult, IsUuid, AllSeenFailing;
      text, clean := "", true;
      var health;
      o, health := Open(mode, catalogSha, manifestSha, duration, sessionId, attempts);
      if !o.Returned? {
        return;
      }
      var session;
      session, o := PrepareAll(health.value, o.value, now);
      if o.Raised? {
        text := *;
        o, clean := Compensate(session, o.error, text);
      }
    }

    /** Sessions that a failed restore marks as failed; the others already say how they ended. */
    predicate Failable(session: Session) {
      !session.status.Failed? && !session.status.Submitted?
    }

    /** The session keeps its claims; only a failed restore changes it, and only by marking it failed. */
    ghost predicate Kept(session: Session, restored: Option<bool>)
      reads exams
    {
      && exams.stored.Some? && exams.stored.value.claimed == session.claimed
      && if restored == Some(false) && Failable(session) then exams.stored.value.status.Failed?
         else exams.stored == Some(session)
    }

    /**
     * Restore the claimed tasks before a teardown, and mark the session failed if that fails. `restored`
     * is whether all restores succeeded, once they were all tried.
     */
    method RestoreForTeardown(session: Session) returns (o: Outcome<()>, ghost restored: Option<bool>)
      requires exams.stored == Some(session) && Covered(exams.stored, guest.tasks) && LegalStored(exams.stored)
      modifies exams, guest`tasks, guest`attempts, guest`faults
      ensures guest.faults >= old(guest.faults)
      ensures Covered(exams.stored, guest.tasks) && LegalStored(exams.stored)
      ensures o.Returned? ==> restored == Some(true) && guest.faults == old(guest.faults)
      ensures !o.Returned? ==> restored != Some(true) && guest.faults > old(guest.faults)
      ensures o.Raised? ==> restored == Some(false)
      ensures restored == Some(true) ==> forall t :: guest.tasks(t) == Restored
      ensures o.Crashed? ==> exams.stored == Some(session)
      ensures !o.Crashed? ==>
                && Kept(session, restored)
                && guest.attempts == old(guest.attempts) + Reverse(session.claimed)
    {
      hide Legal, Step, SaveResult;
      restored := None;
      var done := RestoreClaimed(session);
      if done.Crashed? {
        o := Crashed;
        return;
      }
      restored := Some(done.value);
      if done.value {
        o := Returned(());
        return;
      }
      o := Raised(Lifecycle);
      if Failable(session) {
        var reason: string := *;
        var detail := "exam task restore operation(s) failed: " + reason;
        assert !IsSpace(detail[0]);
        FailExact(session, detail);
        var failed := Persist(session, Fail(detail));
        if failed.Crashed? {
          o := Crashed;
          return;
        }
        ExamSessions.StepInv(session, Fail(detail));
        StepClaims(session, Fail(detail));
      }
    }

    /**
     * Restore every claimed task and delete the session, or keep it for another attempt. `restored` is
     * whether all restores succeeded, once they were all tried.
     */
    method Teardown(forceActive: bool) returns (o: Outcome<bool>, ghost restored: Option<bool>)
      requires Safe()
      modifies lab`labs, exams, guest
      ensures Safe()
      ensures o.Returned? ==> exams.stored == None && forall t :: guest.tasks(t) == Restored
      ensures o.Returned? ==> old(exams.stored).Some? && restored == Some(true)
      ensures o.Returned? ==>
                && labName in lab.labs && lab.labs[labName].health.Some?
                && Found(old(guest.attested), guest.attested, lab.labs[labName].health.value)
      // Whatever else happens, the session is kept with its claims, as it was or marked failed.
      ensures old(exams.stored).None? ==> o.Raised? && exams.stored.None?
      ensures o.Raised? && old(exams.stored).Some? ==> Kept(old(exams.stored).value, restored)
      ensures o.Crashed? ==> exams.stored == old(exams.stored)
      // Every claimed task is tried once in reverse order, or none is.
      ensures !o.Crashed? ==>
                guest.attempts == old(guest.attempts)
                  + if restored.Some? && old(exams.stored).Some? then Reverse(old(exams.stored).value.claimed) else []
      ensures restored == Some(true) ==> forall t :: guest.tasks(t) == Restored
      // The exam of another lab, and an open one, are refused before anything is tried.
      ensures old(exams.stored).Some?
              && !(labName in old(lab.labs) && old(lab.labs)[labName].identity.labId == old(exams.stored).value.labId)
              ==> o.Raised? && restored.None?
      ensures old(exams.stored).Some? && Opened(old(exams.stored).value.status) && !forceActive
              && !old(exams.stored).value.status.Submitted? ==>
                o.Raised? && restored.None?
      ensures && guest.faults == old(guest.faults) && old(ReadyLab(lab, labName)) && old(exams.stored).Some?
              && old(exams.stored).value.labId == old(lab.labs)[labName].identity.labId
              && (!forceActive ==>
                    !old(exams.stored).value.status.Active? && !old(exams.stored).value.status.Submitting?)
              ==> o.Returned?
    {
      hide Legal, LabRuns.Inv, Step, SaveResult, LabStates.Construct;
      restored := None;
      var loaded := exams.Load();
      if loaded.Err? {
        o := Raised(loaded.error);
        return;
      }
      var session := loaded.value;
      var current := lab.Load(labName);
      if current.Err? {
        o := Raised(current.error);
        return;
      }
      if session.labId != current.value.identity.labId {
        o := Raised(Conflict);
        return;
      }
      if (session.status.Active? || session.status.Submitting?) && !forceActive {
        o := Raised(Conflict);
        return;
      }
      var validated := ValidatedLab();
      if !validated.Returned? {
        o := if validated.Crashed? then Crashed else Raised(validated.error);
        return;
      }
      var done;
      done, restored := RestoreForTeardown(session);
      if !done.Returned? {
        o := if done.Crashed? then Crashed else Raised(done.error);
        return;
      }
      var health := guest.Attest(validated.value.health);
      if !health.Returned? {
        o := if health.Crashed? then Crashed else Raised(health.error);
        return;
      }
      if Some(health.value) != validated.value.health {
        o := Raised(Lifecycle);
        return;
      }
      var deleted := exams.Delete(session.sessionId);
      o := Returned(true);
    }

    /** Collect one task under the read-only guard of the lab store, and grade what was collected. */
    method CollectTask(task: int, attempts: nat) returns (o: Outcome<LiveGrading.Grade>)
      requires lab.Valid()
      modifies lab, guest`collected, guest`faults
      ensures lab.Valid()
      ensures lab.labs == old(lab.labs) && lab.writesProhibited == old(lab.writesProhibited)
      ensures if o.Returned? then guest.faults == old(guest.faults) else guest.faults > old(guest.faults)
      ensures o.Returned? ==>
                && |guest.collected| == |old(guest.collected)| + 1 && old(guest.collected) <= guest.collected
                && Earns(guest.collected[|old(guest.collected)|], task, o.value)
    {
      hide LiveGrading.Evaluate, LiveGrading.Weighed, LiveGrading.Listed;
      lab.WithoutWrites(attempts);
      var inputs := guest.Collect(task);
      if !inputs.Returned? {
        return if inputs.Crashed? then Crashed else Raised(inputs.error);
      }
      var grade := LiveGrading.EvaluateLiveGrade(inputs.value.expected, inputs.value.evidence, inputs.value.signals);
      return if grade.Ok? then Returned(grade.value) else Raised(grade.error);
    }

    /** The observation is of this task and deserves this grade. */
    ghost predicate Earns(seen: Observed<int>, task: int, grade: LiveGrading.Grade) {
      seen.task == task && LiveGrading.Judge(seen.inputs) == Ok(grade)
    }

    /** Between the two logs, tasks 1 to `count` were collected in order, and `grades` are what they deserve. */
    ghost predicate Graded(before: seq<Observed<int>>, after: seq<Observed<int>>, count: nat,
                           grades: map<int, LiveGrading.Grade>) {
      && |after| == |before| + count && before <= after
      && (forall t :: t in grades <==> 1 <= t <= count)
      && (forall t :: 1 <= t <= count ==> Earns(after[|before| + t - 1], t, grades[t]))
    }

    /** Collect and grade the tasks one after another. */
    method CollectAll() returns (o: Outcome<map<int, LiveGrading.Grade>>)
      requires lab.Valid()
      modifies lab, guest`collected, guest`faults
      ensures lab.Valid()
      ensures lab.labs == old(lab.labs) && lab.writesProhibited == old(lab.writesProhibited)
      ensures if o.Returned? then guest.faults == old(guest.faults) else guest.faults > old(guest.faults)
      ensures o.Returned? ==> Graded(old(guest.collected), guest.collected, TASKS, o.value)
    {
      hide LabStateStore.Valid, Earns;
      var grades: map<int, LiveGrading.Grade> := map[];
      var i := 0;
      while i < TASKS
        invariant 0 <= i <= TASKS
        invariant lab.Valid() && lab.labs == old(lab.labs) && lab.writesProhibited == old(lab.writesProhibited)
        invariant guest.faults == old(guest.faults)
        invariant Graded(old(guest.collected), guest.collected, i, grades)
      {
        var attempts: nat := *;
        var grade := CollectTask(i + 1, attempts);
        if !grade.Returned? {
          return if grade.Crashed? then Crashed else Raised(grade.error);
        }
        grades := grades[i + 1 := grade.value];
        i := i + 1;
      }
      return Returned(grades);
    }

    /** The stored session is being submitted, and the lab is ready for its final grading. */
    ghost predicate Gradable()
      reads lab, exams
    {
      && ReadyLab(lab, labName) && exams.stored.Some? && exams.stored.value.status.Submitting?
      && exams.stored.value.labId == lab.labs[labName].identity.labId
    }

    /** Grade every task of a submitting session; a lab that changed meanwhile makes the grades worthless. */
    method GradeAll() returns (o: Outcome<map<int, LiveGrading.Grade>>)
      requires Safe()
      modifies lab, guest`collected, guest`attested, guest`faults
      ensures Safe() && guest.faults >= old(guest.faults)
      ensures o.Returned? ==>
                && Graded(old(guest.collected), guest.collected, TASKS, o.value)
                && Unmoved(old(guest.attested), guest.attested)
                && exams.stored.Some? && exams.stored.value.status.Submitting?
                && labName in lab.labs && lab.labs[labName].journal != [] && lab.labs[labName].Phase() == Validated
                && lab.labs[labName].identity.labId == exams.stored.value.labId
      // The most that grading ever journals is the attestation of a candidate-ready lab.
      ensures old(labName in lab.labs && lab.labs[labName].journal != [] && lab.labs[labName].Phase() == Validated
                  && lab.labs[labName].health.Some?)
              ==> lab.labs == old(lab.labs)
      ensures guest.faults == old(guest.faults) && old(Gradable()) ==> o.Returned?
    {
      hide Legal, LabRuns.Inv, LabStates.Construct, Proposal, Graded;
      var loaded := exams.Load();
      if loaded.Err? {
        return Raised(loaded.error);
      }
      var session := loaded.value;
      var current := lab.Load(labName);
      if current.Err? {
        return Raised(current.error);
      }
      if session.labId != current.value.identity.labId || !session.status.Submitting? {
        return Raised(Conflict);
      }
      var validated := ValidatedLab();
      if !validated.Returned? {
        return if validated.Crashed? then Crashed else Raised(validated.error);
      }
      var state := validated.value;
      var before := guest.Attest(state.health);
      if !before.Returned? {
        return if before.Crashed? then Crashed else Raised(before.error);
      }
      var grades := CollectAll();
      if !grades.Returned? {
        return if grades.Crashed? then Crashed else Raised(grades.error);
      }
      var after := lab.Load(labName);
      var health := guest.Attest(state.health);
      if health.Crashed? {
        return Crashed;
      }
      if after != Ok(state) || health != before {
        return Raised(Lifecycle);
      }
      return grades;
    }

    /**
     * The final receipt: the grades of everything that was just collected, under the weights of the
     * manifest. It is always built, undisturbed, for a session that was started under this manifest.
     */
    method FinalReceipt(manifest: ExamAggregate.Manifest)
      returns (o: Outcome<Receipt>, ghost grades: map<int, LiveGrading.Grade>)
      requires Safe() && ExamAggregate.ValidManifest(manifest)
      modifies lab, guest`collected, guest`attested, guest`faults
      ensures Safe() && guest.faults >= old(guest.faults)
      ensures o.Returned? ==>
                && exams.stored.Some? && exams.stored.value.status.Submitting?
                && Graded(old(guest.collected), guest.collected, TASKS, grades)
                && Unmoved(old(guest.attested), guest.attested) && ExamAggregate.Scored(grades)
                && ExamAggregate.IsReceipt(o.value, exams.stored.value, manifest, grades)
      ensures && guest.faults == old(guest.faults) && old(Gradable())
              && exams.stored.value.catalogSha == manifest.catalogSha
              && exams.stored.value.manifestSha == manifest.manifestSha
              ==> o.Returned?
    {
      hide Legal, LabRuns.Inv, ExamAggregate.ValidManifest, ExamAggregate.IsReceipt, Earns;
      grades := map[];
      var loaded := exams.Load();
      if loaded.Err? {
        o := Raised(loaded.error);
        return;
      }
      var graded := GradeAll();
      if !graded.Returned? {
        o := if graded.Crashed? then Crashed else Raised(graded.error);
        return;
      }
      grades := graded.value;
      assert ExamAggregate.Scored(grades);
      var receipt := ExamAggregate.Aggregate(loaded.value, manifest, graded.value);
      o := if receipt.Ok? then Returned(receipt.value) else Raised(receipt.error);
    }

    /** A controller request changes the stored session by one transition of its own. */
    method Control(event: Event)
      requires Safe()
      requires event.Update? || event.BeginSubmit? || event.CompleteSubmit? || event.Fail?
      modifies exams, guest`faults
      ensures Safe()
    {
      hide Legal;
      var loaded := exams.Load();
      if loaded.Ok? {
        var stored := Persist(loaded.value, event);
        if stored.Returned? {
          ExamSessions.StepInv(loaded.value, event);
          StepClaims(loaded.value, event);
        }
      }
    }

    /** Any number of operations, each ending in success, an error or a crash, in any order. */
    method AnyRun(steps: nat)
      requires Safe()
      modifies lab, exams, guest
      ensures Safe()
    {
      hide Legal, LabRuns.Inv;
      for k := 0 to steps
        invariant Safe()
      {
        if * {
          var mode: Mode, catalogSha: string, manifestSha: string, duration: int, sessionId: string, now: int
            := *, *, *, *, *, *;
          var attempts: seq<string> := *;
          if |attempts| == TASKS {
            var o, text, clean := Start(mode, catalogSha, manifestSha, duration, sessionId, attempts, now);
          }
        } else if * {
          var force: bool := *;
          var o, restored := Teardown(force);
        } else if * {
          var weights: seq<int>, catalogSha: string, manifestSha: string := *, *, *;
          var manifest := ExamAggregate.Manifest(weights, catalogSha, manifestSha);
          if ExamAggregate.ValidManifest(manifest) {
            var o, grades := FinalReceipt(manifest);
          }
        } else if * {
          var event: Event := *;
          if event.Update? || event.BeginSubmit? || event.CompleteSubmit? || event.Fail? {
            Control(event);
          }
        } else if exams.stored.Some? {
          var claimed := exams.stored.value.claimed;
          guest.Work(t => t in claimed);
        }
      }
    }
  }

  lemma StoredIdentity(state: LabState)
    requires LabRuns.Inv(state)
    ensures IsUuid(state.identity.labId)
  {
    hide LabStates.Construct, IsUuid;
  }

  lemma StepRaises(s: Session, e: Event)
    requires Step(s, e).Ok?
    ensures Step(s, e).value.sessionId == s.sessionId
    ensures !e.BeginSubmit? ==> Step(s, e).value.revision == s.revision + 1
  {
  }

  /** What the transitions the engine uses do to the claims and the status. */
  lemma StepClaims(s: Session, e: Event)
    requires Step(s, e).Ok?
    ensures var t := Step(s, e).value;
            match e
            case ClaimTask(task) => t.claimed == s.claimed + [task] && t.prepared == s.prepared && t.status == s.status
            case ConfirmTask(task) =>
              t.claimed == s.claimed && t.prepared == s.prepared + [task] && t.status == s.status
            case Activate(now) =>
              && t.claimed == s.claimed && t.prepared == s.prepared && t.status.Active?
              && t.startedAt == Some(now) && t.deadlineAt == Some(now + s.duration * SECOND)
            case Fail(_) => t.claimed == s.claimed && t.prepared == s.prepared && t.status.Failed?
            case _ => t.claimed == s.claimed && t.prepared == s.prepared && (Opened(t.status) ==> Opened(s.status))
    ensures !e.Update? ==> SameExam(s, Step(s, e).value)
  {
  }

  lemma NotBlank(text: string, recovery: string)
    ensures !Blank(text + "; recovery: " + recovery)
  {
    var detail := text + "; recovery: " + recovery;
    assert detail[|text|] == ';' && !IsSpace(detail[|text|]);
  }
}
