/** The exam session record, its constructor checks and its transitions (exam.py). */
module ExamSessions {
  import opened Wrappers
  import opened Identifiers

  const TASKS: int := 17
  // The task identifiers "01" to "17" are the numbers 1 to 17, and a timestamp counts microseconds.
  const SECOND: int := 1_000_000
  const MIN_DURATION: int := 60
  const MAX_DURATION: int := 6 * 60 * 60
  const MAX_FAILURE: int := 2048

  function Expected(): (ids: seq<int>)
    ensures |ids| == TASKS && forall i :: 0 <= i < TASKS ==> ids[i] == i + 1
  {
    seq(TASKS, i => i + 1)
  }

  datatype Mode = Practice | Exam
  datatype Status = Preparing | Active | Submitting | Submitted | Failed
  datatype EndReason = Manual | Expired

  datatype TaskProgress = TaskProgress(taskId: int, attemptId: string, visited: bool, flagged: bool, completed: bool)

  datatype ReceiptStatus = PassReceipt | FailReceipt | TamperedReceipt | BrokenReceipt

  datatype Receipt = Receipt(
    sessionId: string,
    endReason: Option<EndReason>,
    score: real,
    passed: bool,
    status: ReceiptStatus)

  datatype Session = Session(
    labId: string,
    sessionId: string,
    mode: Mode,
    status: Status,
    catalogSha: string,
    manifestSha: string,
    duration: int,
    startedAt: Option<int>,
    deadlineAt: Option<int>,
    submittedAt: Option<int>,
    endReason: Option<EndReason>,
    selected: int,
    tasks: seq<TaskProgress>,
    claimed: seq<int>,
    prepared: seq<int>,
    receipt: Option<Receipt>,
    failure: Option<string>,
    revision: int)

  predicate IsTask(id: int) {
    1 <= id <= TASKS
  }

  predicate CanonicalPrefix(ids: seq<int>) {
    |ids| <= TASKS && forall i :: 0 <= i < |ids| ==> ids[i] == i + 1
  }

  predicate LegalTasks(tasks: seq<TaskProgress>) {
    |tasks| == TASKS && forall i :: 0 <= i < TASKS ==> tasks[i].taskId == i + 1 && IsUuid(tasks[i].attemptId)
  }

  predicate LegalTimer(s: Session) {
    if s.status.Preparing? || (s.status.Failed? && s.startedAt.None? && s.deadlineAt.None?) then
      s.startedAt.None? && s.deadlineAt.None? && s.submittedAt.None? && s.endReason.None? && s.receipt.None?
    else
      && s.startedAt.Some? && s.deadlineAt.Some?
      && s.deadlineAt.value == s.startedAt.value + s.duration * SECOND
  }

  predicate LegalEnd(s: Session) {
    if s.status.Submitted? then s.submittedAt.Some? && s.endReason.Some? && s.receipt.Some?
    else s.receipt.None?
  }

  /** Everything the session constructor demands. */
  predicate Legal(s: Session) {
    && IsUuid(s.labId) && IsUuid(s.sessionId)
    && s.revision >= 0
    && MIN_DURATION <= s.duration <= MAX_DURATION
    && LegalTasks(s.tasks)
    && CanonicalPrefix(s.claimed) && CanonicalPrefix(s.prepared)
    && |s.prepared| <= |s.claimed|
    && IsTask(s.selected)
    && |s.catalogSha| == 64 && |s.manifestSha| == 64
    && LegalTimer(s)
    && LegalEnd(s)
    && (s.failure.Some? ==> |s.failure.value| <= MAX_FAILURE)
  }

  function Construct(s: Session): Result<Session> {
    if Legal(s) then Ok(s) else Err(ExamState)
  }

  /** A new session; the identifiers are the fresh UUIDs of the call. */
  function Create(labId: string, sessionId: string, mode: Mode, catalogSha: string, manifestSha: string,
                  duration: int, attempts: seq<string>): Result<Session>
    requires |attempts| == TASKS
  {
    var tasks := seq(TASKS, i requires 0 <= i < TASKS => TaskProgress(i + 1, attempts[i], false, false, false));
    Construct(Session(labId, sessionId, mode, Preparing, catalogSha, manifestSha, duration, None, None, None, None,
                      Expected()[0], tasks, [], [], None, None, 0))
  }

  predicate IsSpace(c: char) {
    var n := c as int;
    9 <= n <= 13 || 28 <= n <= 32 || n == 0x85 || n == 0xa0 || n == 0x1680 || 0x2000 <= n <= 0x200a
    || n == 0x2028 || n == 0x2029 || n == 0x202f || n == 0x205f || n == 0x3000
  }

  predicate Blank(text: string) {
    forall i :: 0 <= i < |text| ==> IsSpace(text[i])
  }

  predicate IsExpired(s: Session, now: int) {
    s.deadlineAt.Some? && now >= s.deadlineAt.value
  }

  datatype Flags = Flags(visited: Option<bool>, flagged: Option<bool>, completed: Option<bool>)

  function Choose(update: Option<bool>, current: bool): bool {
    if update.Some? then update.value else current
  }

  function UpdateTask(t: TaskProgress, flags: Flags): TaskProgress {
    t.(visited := Choose(flags.visited, t.visited),
       flagged := Choose(flags.flagged, t.flagged),
       completed := Choose(flags.completed, t.completed))
  }

  datatype Event =
    | ClaimTask(claim: int)
    | ConfirmTask(confirm: int)
    | Activate(at: int)
    | Update(task: int, select: bool, flags: Flags, when: int)
    | BeginSubmit(reason: EndReason, now: int)
    | CompleteSubmit(result: Option<Receipt>, finished: int)
    | Fail(detail: string)

  /** One session transition: the record it proposes, passed through the constructor. */
  function Step(s: Session, e: Event): Result<Session> {
    match e
    case ClaimTask(task) =>
      if !s.status.Preparing? then Err(Conflict)
      else if |s.claimed| >= TASKS || task != |s.claimed| + 1 then Err(Conflict)
      else if |s.claimed| != |s.prepared| then Err(Conflict)
      else Construct(s.(claimed := s.claimed + [task], revision := s.revision + 1))
    case ConfirmTask(task) =>
      if !s.status.Preparing? then Err(Conflict)
      else if s.claimed == [] || s.claimed[|s.claimed| - 1] != task then Err(Conflict)
      else if |s.claimed| != |s.prepared| + 1 then Err(Conflict)
      else Construct(s.(prepared := s.prepared + [task], revision := s.revision + 1))
    case Activate(now) =>
      if !s.status.Preparing? then Err(Conflict)
      else Construct(s.(status := Active, startedAt := Some(now), deadlineAt := Some(now + s.duration * SECOND),
                        revision := s.revision + 1))
    case Update(task, select, flags, now) =>
      if !s.status.Active? || IsExpired(s, now) then Err(Conflict)
      else if !IsTask(task) then Err(ExamState)
      else
        var changed := seq(|s.tasks|, i requires 0 <= i < |s.tasks| =>
          if s.tasks[i].taskId == task then UpdateTask(s.tasks[i], flags) else s.tasks[i]);
        Construct(s.(selected := if select then task else s.selected, tasks := changed, revision := s.revision + 1))
    case BeginSubmit(reason, now) =>
      if s.status.Submitting? || s.status.Submitted? then Ok(s)
      else if !s.status.Active? then Err(Conflict)
      else
        var ended := if reason.Manual? && IsExpired(s, now) then Expired else reason;
        Construct(s.(status := Submitting, endReason := Some(ended), revision := s.revision + 1))
    case CompleteSubmit(receipt, now) =>
      if !s.status.Submitting? || s.endReason.None? then Err(Conflict)
      else if receipt.None? then Err(ExamState)
      else Construct(s.(status := Submitted, submittedAt := Some(now), receipt := receipt, revision := s.revision + 1))
    case Fail(detail) =>
      if Blank(detail) then Err(ExamState)
      else
        var kept := if |detail| <= MAX_FAILURE then detail else detail[..MAX_FAILURE];
        Construct(s.(status := Failed, failure := Some(kept), revision := s.revision + 1))
  }

  /** A sequence of transitions; a refused one leaves the session as it was. */
  function Run(s: Session, events: seq<Event>): Session
    decreases |events|
  {
    if events == [] then s
    else
      var before := Run(s, events[..|events| - 1]);
      var after := Step(before, events[|events| - 1]);
      if after.Ok? then after.value else before
  }

  ghost predicate Inv(s: Session) {
    && Legal(s)
    && |s.claimed| <= |s.prepared| + 1
    && (s.status.Active? ==> s.endReason.None?)
    && (s.status.Submitting? ==> s.endReason.Some?)
  }

  lemma StepInv(s: Session, e: Event)
    requires Inv(s) && Step(s, e).Ok?
    ensures Inv(Step(s, e).value)
  {
  }

  /** Claimed and prepared tasks are canonical prefixes whose lengths differ by at most one. */
  lemma {:induction false} RunInv(s: Session, events: seq<Event>)
    requires Inv(s)
    ensures Inv(Run(s, events))
  {
    if events != [] {
      RunInv(s, events[..|events| - 1]);
      var before := Run(s, events[..|events| - 1]);
      if Step(before, events[|events| - 1]).Ok? {
        StepInv(before, events[|events| - 1]);
      }
    }
  }

  function Rank(status: Status): int {
    match status
    case Preparing => 0
    case Active => 1
    case Submitting => 2
    case Submitted => 3
    case Failed => 3
  }

  /** Everything that a later session of a run owes to an earlier one. */
  ghost predicate Later(s: Session, t: Session) {
    && t.labId == s.labId && t.sessionId == s.sessionId && t.mode == s.mode
    && t.catalogSha == s.catalogSha && t.manifestSha == s.manifestSha && t.duration == s.duration
    && |t.tasks| == |s.tasks|
    && (forall i :: 0 <= i < |s.tasks| ==> t.tasks[i].attemptId == s.tasks[i].attemptId)
    && s.claimed <= t.claimed && s.prepared <= t.prepared
    && (s.startedAt.Some? ==> t.startedAt == s.startedAt && t.deadlineAt == s.deadlineAt)
    && (s.endReason.Some? ==> t.endReason == s.endReason)
    && t.revision >= s.revision && (t != s ==> t.revision > s.revision)
    && (t.status == s.status || Rank(s.status) < Rank(t.status))
    && (s.status.Submitted? ==> t == s)
  }

  lemma StepLater(s: Session, e: Event)
    requires Inv(s) && Step(s, e).Ok?
    ensures Inv(Step(s, e).value) && Later(s, Step(s, e).value)
  {
  }

  lemma LaterTransitive(a: Session, b: Session, c: Session)
    requires Inv(a) && Inv(b) && Inv(c) && Later(a, b) && Later(b, c)
    ensures Later(a, c)
  {
    hide Legal;
  }

  /**
   * Over every run: identities, attempts and the duration never change, the deadline stays the start
   * plus the duration, each change raises the revision, and a submitted session is final.
   */
  lemma {:induction false} RunLater(s: Session, events: seq<Event>, more: seq<Event>)
    requires Inv(s)
    ensures Later(Run(s, events), Run(s, events + more))
  {
    hide Step, Legal;
    RunInv(s, events);
    if more == [] {
      assert events + more == events;
    } else {
      var init, last := more[..|more| - 1], more[|more| - 1];
      RunLater(s, events, init);
      RunInv(s, events + init);
      assert (events + more)[..|events + more| - 1] == events + init;
      var before := Run(s, events + init);
      if Step(before, last).Ok? {
        StepLater(before, last);
        LaterTransitive(Run(s, events), before, Step(before, last).value);
      }
    }
  }

  /** The flags that an update gives are set, and the others are left as they were. */
  predicate FlagsSet(before: TaskProgress, after: TaskProgress, flags: Flags) {
    && after.taskId == before.taskId && after.attemptId == before.attemptId
    && after.visited == (match flags.visited case Some(given) => given case None => before.visited)
    && after.flagged == (match flags.flagged case Some(given) => given case None => before.flagged)
    && after.completed == (match flags.completed case Some(given) => given case None => before.completed)
  }

  /** Progress changes exactly while the session is active and its deadline lies ahead. */
  lemma UpdateExact(s: Session, task: int, select: bool, flags: Flags, now: int)
    requires Inv(s)
    ensures Step(s, Update(task, select, flags, now)).Ok?
       <==> s.status.Active? && now < s.deadlineAt.value && IsTask(task)
    ensures Step(s, Update(task, select, flags, now)).Ok? ==>
              var t := Step(s, Update(task, select, flags, now)).value;
              && |t.tasks| == TASKS && FlagsSet(s.tasks[task - 1], t.tasks[task - 1], flags)
              && t.tasks == s.tasks[task - 1 := t.tasks[task - 1]]
              && t.selected == (if select then task else s.selected)
              && t == s.(tasks := t.tasks, selected := t.selected, revision := s.revision + 1)
  {
  }

  /** A session ends as expired exactly when the request says so or the deadline has passed. */
  lemma BeginSubmitExact(s: Session, reason: EndReason, now: int)
    requires Inv(s) && s.status.Active?
    ensures Step(s, BeginSubmit(reason, now)).Ok?
    ensures Step(s, BeginSubmit(reason, now)).value
            == s.(status := Submitting,
                  endReason := Some(if reason.Expired? || now >= s.deadlineAt.value then Expired else Manual),
                  revision := s.revision + 1)
  {
  }

  /** Failing is refused exactly for a blank detail and, by the constructor alone, once submitted. */
  lemma FailExact(s: Session, detail: string)
    requires Inv(s)
    ensures Step(s, Fail(detail)).Ok? <==> !Blank(detail) && !s.status.Submitted?
    ensures Step(s, Fail(detail)).Ok? ==>
              var t := Step(s, Fail(detail)).value;
              && t == s.(status := Failed, failure := t.failure, revision := s.revision + 1)
              && t.failure.Some? && t.failure.value <= detail && |t.failure.value| <= MAX_FAILURE
              && (|detail| <= MAX_FAILURE ==> t.failure.value == detail)
  {
  }

  /** Activation never asks whether the tasks are prepared: preparing is the whole condition. */
  lemma ActivateExact(s: Session, now: int)
    requires Inv(s)
    ensures Step(s, Activate(now)).Ok? <==> s.status.Preparing?
    ensures Step(s, Activate(now)).Ok? ==>
              Step(s, Activate(now)).value
              == s.(status := Active, startedAt := Some(now), deadlineAt := Some(now + s.duration * SECOND),
                    revision := s.revision + 1)
  {
  }

  /** A concrete session that activation accepts although no task was ever claimed. */
  lemma ActivateUnprepared(labId: string, sha: string, now: int)
    requires IsUuid(labId) && |sha| == 64
    ensures var s := Create(labId, labId, Exam, sha, sha, MIN_DURATION, seq(TASKS, _ => labId));
            s.Ok? && Step(s.value, Activate(now)).Ok? && Step(s.value, Activate(now)).value.prepared == []
  {
  }

  /** Exactly the next task can be claimed, and only after the last claim is confirmed; and so on. */
  lemma PreparationExact(s: Session, task: int)
    requires Inv(s)
    ensures Step(s, ClaimTask(task)).Ok?
       <==> s.status.Preparing? && s.claimed == s.prepared && task == |s.claimed| + 1 && IsTask(task)
    ensures Step(s, ConfirmTask(task)).Ok?
       <==> s.status.Preparing? && s.claimed == s.prepared + [task]
    ensures Step(s, ClaimTask(task)).Ok? ==>
              Step(s, ClaimTask(task)).value == s.(claimed := s.prepared + [task], revision := s.revision + 1)
    ensures Step(s, ConfirmTask(task)).Ok? ==>
              Step(s, ConfirmTask(task)).value == s.(prepared := s.claimed, revision := s.revision + 1)
  {
    if s.claimed != [] {
      assert s.claimed[..|s.claimed| - 1] + [s.claimed[|s.claimed| - 1]] == s.claimed;
    }
    if |s.claimed| == |s.prepared| + 1 {
      assert s.prepared == s.claimed[..|s.prepared|];
    }
  }

  /** A receipt is stored exactly while submitting, and ends the session. */
  lemma CompleteSubmitExact(s: Session, receipt: Option<Receipt>, now: int)
    requires Inv(s)
    ensures Step(s, CompleteSubmit(receipt, now)).Ok? <==> s.status.Submitting? && receipt.Some?
    ensures Step(s, CompleteSubmit(receipt, now)).Ok? ==>
              Step(s, CompleteSubmit(receipt, now)).value
              == s.(status := Submitted, submittedAt := Some(now), receipt := receipt, revision := s.revision + 1)
  {
  }

  /** Two stages of one exam with the same progress. */
  predicate SameExam(s: Session, t: Session) {
    && t.labId == s.labId && t.sessionId == s.sessionId && t.mode == s.mode && t.duration == s.duration
    && t.catalogSha == s.catalogSha && t.manifestSha == s.manifestSha
    && t.selected == s.selected && t.tasks == s.tasks
  }

  /** The session is the exam that was asked for, with nothing visited, flagged or completed yet. */
  predicate StartedAs(s: Session, labId: string, sessionId: string, mode: Mode, catalogSha: string,
                      manifestSha: string, duration: int, attempts: seq<string>) {
    && s.labId == labId && s.sessionId == sessionId && s.mode == mode && s.duration == duration
    && s.catalogSha == catalogSha && s.manifestSha == manifestSha
    && s.selected == 1 && |s.tasks| == |attempts| == TASKS
    && forall i :: 0 <= i < TASKS ==>
         && s.tasks[i].taskId == i + 1 && s.tasks[i].attemptId == attempts[i]
         && !s.tasks[i].visited && !s.tasks[i].flagged && !s.tasks[i].completed
  }

  /** An exam is created exactly for well-formed identifiers and digests and a duration within its limits. */
  lemma CreateExact(labId: string, sessionId: string, mode: Mode, catalogSha: string, manifestSha: string,
                    duration: int, attempts: seq<string>)
    requires |attempts| == TASKS
    ensures var created := Create(labId, sessionId, mode, catalogSha, manifestSha, duration, attempts);
            && (created.Ok? <==>
                  && IsUuid(labId) && IsUuid(sessionId) && (forall i :: 0 <= i < TASKS ==> IsUuid(attempts[i]))
                  && |catalogSha| == 64 && |manifestSha| == 64 && MIN_DURATION <= duration <= MAX_DURATION)
            && (created.Ok? ==>
                  StartedAs(created.value, labId, sessionId, mode, catalogSha, manifestSha, duration, attempts))
  {
    hide IsUuid;
    var tasks := seq(TASKS, i requires 0 <= i < TASKS => TaskProgress(i + 1, attempts[i], false, false, false));
    assert forall i :: 0 <= i < TASKS ==> tasks[i].attemptId == attempts[i];
    assert LegalTasks(tasks) <==> forall i :: 0 <= i < TASKS ==> IsUuid(attempts[i]);
  }

  lemma CreateInv(labId: string, sessionId: string, mode: Mode, catalogSha: string, manifestSha: string,
                  duration: int, attempts: seq<string>)
    requires |attempts| == TASKS
    requires Create(labId, sessionId, mode, catalogSha, manifestSha, duration, attempts).Ok?
    ensures var s := Create(labId, sessionId, mode, catalogSha, manifestSha, duration, attempts).value;
            Inv(s) && s.claimed == [] && s.prepared == [] && s.status.Preparing? && s.revision == 0
  {
  }
}
