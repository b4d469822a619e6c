/**
 * Browser requests on one exam session (exam_server.py): several controllers, serialized by the
 * session lock, each step of a request interleaved with the others, and crashes at any step.
 */
module ExamController {
  import opened Wrappers
  import opened ExamSessions
  import opened ExamStore

  datatype Request =
    | Snapshot
    | SetProgress(task: int, select: bool, flags: Flags)
    | Check(checked: int)
    | Submit(reason: EndReason)

  /** Where a controller stands in its request. Only the first three do not hold the session lock. */
  datatype Pc =
    | Idle
    | Waiting(request: Request)
    | Looked(seen: Session)
    | Holding(held: Request)
    | Saving(loaded: Session, event: Event)
    | Notifying(begun: Session)
    | InCallback(notified: Session)
    | Grading(graded: Session)
    | Failing(detail: string)

  predicate InLock(pc: Pc) {
    !pc.Idle? && !pc.Waiting? && !pc.Looked?
  }

  // What happened in order: committed transitions, the submission-start callback, and final gradings.
  datatype Mark = Committed(event: Event) | CallbackStarted | CallbackReturned | GradingStarted

  datatype State = State(stored: Session, holder: Option<nat>, pcs: seq<Pc>, now: int, trace: seq<Mark>)

  /** What the environment decides during a step: a callback or grading result, and an error text. */
  datatype Choice = Choice(raises: bool, receipt: Option<Receipt>, text: string)

  datatype Action =
    | Begin(starter: nat, request: Request)
    | Advance(p: nat, choice: Choice)
    | Crash(victim: nat)
    | Tick(elapsed: nat)

  function Goto(s: State, p: nat, pc: Pc): State
    requires p < |s.pcs|
  {
    s.(pcs := s.pcs[p := pc])
  }

  function Release(s: State, p: nat, pc: Pc): State
    requires p < |s.pcs|
  {
    Goto(s, p, pc).(holder := None)
  }

  function Note(s: State, m: Mark): State {
    s.(trace := s.trace + [m])
  }

  /** Try a transition on the loaded session; a refused one goes to `otherwise`. */
  function Attempt(s: State, p: nat, loaded: Session, e: Event, otherwise: State): State
    requires p < |s.pcs|
  {
    if Step(loaded, e).Ok? then Goto(s, p, Saving(loaded, e)) else otherwise
  }

  /** The first step under the lock: load the session and branch on the request. */
  function Enter(s: State, p: nat, request: Request): State
    requires p < |s.pcs|
  {
    var session := s.stored;
    match request
    case Snapshot => Release(s, p, Looked(session))
    case SetProgress(task, select, flags) =>
      Attempt(s, p, session, Update(task, select, flags, s.now), Release(s, p, Idle))
    case Check(task) => Release(s, p, Idle)
    case Submit(reason) =>
      if session.status.Active? then Attempt(s, p, session, BeginSubmit(reason, s.now), Release(s, p, Idle))
      else if session.status.Submitting? then Goto(s, p, Grading(session))
      else Release(s, p, Idle)
  }

  /** Save the transition computed from the loaded session, by compare-and-swap. */
  function Commit(s: State, p: nat, loaded: Session, e: Event): State
    requires p < |s.pcs| && Step(loaded, e).Ok?
  {
    var changed := Step(loaded, e).value;
    var saved := SaveResult(Some(s.stored), changed, loaded.revision);
    if saved.Err? then
      if e.CompleteSubmit? then Goto(s, p, Failing("exam session revision changed")) else Release(s, p, Idle)
    else
      var t := Note(s.(stored := changed), Committed(e));
      if e.BeginSubmit? then Goto(t, p, Notifying(changed)) else Release(t, p, Idle)
  }

  /** Final grading: a receipt to store, or an error that fails the session. */
  function Grade(s: State, p: nat, session: Session, c: Choice): State
    requires p < |s.pcs|
  {
    var t := Note(s, GradingStarted);
    if c.raises then Goto(t, p, Failing(c.text))
    else Attempt(t, p, session, CompleteSubmit(c.receipt, s.now), Goto(t, p, Failing(c.text)))
  }

  function Work(s: State, p: nat, c: Choice): State
    requires p < |s.pcs|
  {
    match s.pcs[p]
    case Idle => s
    case Waiting(request) => if s.holder.None? then Goto(s, p, Holding(request)).(holder := Some(p)) else s
    case Looked(session) =>
      if session.status.Active? && IsExpired(session, s.now) then Goto(s, p, Waiting(Submit(Expired)))
      else Goto(s, p, Idle)
    case Holding(request) => Enter(s, p, request)
    case Saving(loaded, e) => if Step(loaded, e).Ok? then Commit(s, p, loaded, e) else Release(s, p, Idle)
    case Notifying(session) => Goto(Note(s, CallbackStarted), p, InCallback(session))
    case InCallback(session) =>
      if c.raises then Release(s, p, Idle) else Goto(Note(s, CallbackReturned), p, Grading(session))
    case Grading(session) => Grade(s, p, session, c)
    case Failing(detail) =>
      if s.stored.status.Submitting? then Attempt(s, p, s.stored, Fail(detail), Release(s, p, Idle))
      else Release(s, p, Idle)
  }

  /** One step of the system; an action that is not possible changes nothing. */
  function Act(s: State, a: Action): State {
    match a
    case Begin(p, request) =>
      // Only a snapshot that saw an expired session submits as expired.
      if p < |s.pcs| && s.pcs[p].Idle? && request != Submit(Expired) then Goto(s, p, Waiting(request)) else s
    case Advance(p, choice) => if p < |s.pcs| then Work(s, p, choice) else s
    case Crash(p) =>
      // The lock of a dead process is free, and its stored session stays.
      if p < |s.pcs| then Goto(s, p, Idle).(holder := if s.holder == Some(p) then None else s.holder) else s
    case Tick(elapsed) => s.(now := s.now + elapsed)
  }

  function Play(s: State, actions: seq<Action>): State
    decreases |actions|
  {
    if actions == [] then s else Act(Play(s, actions[..|actions| - 1]), actions[|actions| - 1])
  }

  predicate Initial(s: State) {
    s.holder.None? && s.trace == [] && forall p :: 0 <= p < |s.pcs| ==> s.pcs[p].Idle?
  }

  function Commits(trace: seq<Mark>): seq<Event> {
    if trace == [] then []
    else
      var last := trace[|trace| - 1];
      Commits(trace[..|trace| - 1]) + if last.Committed? then [last.event] else []
  }

  function Callbacks(trace: seq<Mark>): nat {
    if trace == [] then 0
    else Callbacks(trace[..|trace| - 1]) + if trace[|trace| - 1].CallbackStarted? then 1 else 0
  }

  function Receipts(trace: seq<Mark>): nat {
    if trace == [] then 0
    else
      var last := trace[|trace| - 1];
      Receipts(trace[..|trace| - 1]) + if last.Committed? && last.event.CompleteSubmit? then 1 else 0
  }

  /** Every committed transition was accepted by the session that the earlier ones had left. */
  ghost predicate Accepted(first: Session, events: seq<Event>) {
    forall i :: 0 <= i < |events| ==> Step(Run(first, events[..i]), events[i]).Ok?
  }

  lemma TraceAppend(trace: seq<Mark>, m: Mark)
    ensures Commits(trace + [m]) == Commits(trace) + if m.Committed? then [m.event] else []
    ensures Callbacks(trace + [m]) == Callbacks(trace) + if m.CallbackStarted? then 1 else 0
    ensures Receipts(trace + [m]) == Receipts(trace) + if m.Committed? && m.event.CompleteSubmit? then 1 else 0
  {
    assert (trace + [m])[..|trace + [m]| - 1] == trace;
  }

  lemma AcceptedAppend(first: Session, events: seq<Event>, e: Event)
    requires Accepted(first, events) && Step(Run(first, events), e).Ok?
    ensures Accepted(first, events + [e]) && Run(first, events + [e]) == Step(Run(first, events), e).value
  {
    var longer := events + [e];
    assert longer[..|longer| - 1] == events;
    forall i | 0 <= i < |longer| ensures Step(Run(first, longer[..i]), longer[i]).Ok? {
      assert longer[..i] == if i < |events| then events[..i] else events;
    }
  }

  // ---------------------------------------------------------------------------------------------
  // The invariant

  predicate Ended(s: Session) {
    Rank(s.status) >= 2
  }

  /** The deadline of the stored session, if it has one, has passed. */
  predicate Late(s: State) {
    s.stored.deadlineAt.Some? && s.now >= s.stored.deadlineAt.value
  }

  /** What a controller under the lock knows about the stored session. */
  ghost predicate Knows(s: State, pc: Pc) {
    match pc
    case Holding(request) => request == Submit(Expired) ==> Late(s)
    case Saving(loaded, e) =>
      && s.stored == loaded && Step(loaded, e).Ok?
      && (e.Update? || e.Fail? || e.CompleteSubmit? || e.BeginSubmit?)
      && (e.Update? ==> e.when <= s.now)
      && (e.BeginSubmit? ==>
            && loaded.status.Active? && e.now <= s.now
            && (e.reason.Expired? ==> loaded.deadlineAt.Some? && e.now >= loaded.deadlineAt.value))
      && (e.CompleteSubmit? || e.Fail? ==> loaded.status.Submitting?)
    case Notifying(session) =>
      s.stored == session && session.status.Submitting? && Callbacks(s.trace) == 0 && GradingStarted !in s.trace
    case InCallback(session) => s.stored == session && session.status.Submitting? && GradingStarted !in s.trace
    case Grading(session) => s.stored == session && session.status.Submitting?
    case Failing(_) => s.stored.status.Submitting?
    case Waiting(request) => request == Submit(Expired) ==> Late(s)
    case Looked(seen) => seen.status.Active? ==> seen.deadlineAt.Some? && s.stored.deadlineAt == seen.deadlineAt
    case Idle => true
  }

  /** The stored session is the serial run of everything committed, in the order of the commits. */
  ghost predicate Linear(first: Session, s: State) {
    && ExamSessions.Inv(s.stored)
    && Accepted(first, Commits(s.trace))
    && s.stored == Run(first, Commits(s.trace))
  }

  ghost predicate Exclusive(s: State) {
    forall p :: 0 <= p < |s.pcs| ==> (InLock(s.pcs[p]) <==> s.holder == Some(p))
  }

  /** A submission was committed at a time that decides its end reason against the deadline. */
  ghost predicate Decided(s: State, e: Event) {
    e.BeginSubmit? ==>
      && s.stored.deadlineAt.Some? && e.now <= s.now
      && s.stored.endReason == Some(if e.now >= s.stored.deadlineAt.value then Expired else Manual)
  }

  /** The callback never starts or returns once a grading has started. */
  ghost predicate CallbackFirst(trace: seq<Mark>) {
    forall i, j :: 0 <= i < j < |trace| && trace[i].GradingStarted? ==>
      !trace[j].CallbackStarted? && !trace[j].CallbackReturned?
  }

  ghost predicate Marked(s: State) {
    && Callbacks(s.trace) <= (if Ended(s.stored) then 1 else 0)
    && Receipts(s.trace) <= (if s.stored.status.Submitted? then 1 else 0)
    && (!Ended(s.stored) ==> GradingStarted !in s.trace)
    && CallbackFirst(s.trace)
    && (forall m :: m in s.trace && m.Committed? ==> Decided(s, m.event))
  }

  ghost predicate Inv(first: Session, s: State) {
    && Linear(first, s)
    && Exclusive(s)
    && (forall p :: 0 <= p < |s.pcs| ==> Knows(s, s.pcs[p]))
    && Marked(s)
  }

  // ---------------------------------------------------------------------------------------------
  // Each step keeps it

  lemma InitialInv(s: State)
    requires Initial(s) && ExamSessions.Inv(s.stored)
    ensures Inv(s.stored, s)
  {
  }

  /** What a controller outside the lock knows survives every change of the stored session. */
  lemma OutsideKnows(s: State, t: State, pc: Pc)
    requires ExamSessions.Inv(s.stored) && Later(s.stored, t.stored) && s.now <= t.now && !InLock(pc) && Knows(s, pc)
    ensures Knows(t, pc)
  {
  }

  /** One controller moves on, and nothing else changes except perhaps who holds the lock. */
  lemma Moved(first: Session, s: State, t: State, p: nat)
    requires Inv(first, s) && p < |s.pcs| && |t.pcs| == |s.pcs|
    requires t == s.(pcs := s.pcs[p := t.pcs[p]], holder := t.holder)
    requires InLock(t.pcs[p]) <==> t.holder == Some(p)
    requires t.holder == s.holder || (s.holder.None? && t.holder == Some(p)) || (s.holder == Some(p) && t.holder.None?)
    requires Knows(t, t.pcs[p])
    ensures Inv(first, t)
  {
    hide Legal, Step, Accepted, Decided;
    forall q | 0 <= q < |t.pcs| && q != p ensures Knows(t, t.pcs[q]) {
      assert t.pcs[q] == s.pcs[q];
    }
    assert Linear(first, t);
    assert Exclusive(t);
    assert Marked(t) by {
      forall m | m in t.trace && m.Committed? ensures Decided(t, m.event) {
        DecidedLater(s, t, m.event);
      }
    }
  }

  lemma DecidedLater(s: State, t: State, e: Event)
    requires ExamSessions.Inv(s.stored) && Later(s.stored, t.stored) && s.now <= t.now && Decided(s, e)
    ensures Decided(t, e)
  {
  }

  /** A callback or grading mark is noted by the controller under the lock. */
  lemma Noted(first: Session, s: State, m: Mark, p: nat, pc: Pc)
    requires Inv(first, s) && p < |s.pcs| && s.holder == Some(p) && InLock(pc) && Ended(s.stored) && !m.Committed?
    requires m.GradingStarted? || GradingStarted !in s.trace
    requires m.CallbackStarted? ==> Callbacks(s.trace) == 0
    requires Knows(Goto(Note(s, m), p, pc), pc)
    ensures Inv(first, Goto(Note(s, m), p, pc))
  {
    hide Legal, Step, Accepted;
    var t := Goto(Note(s, m), p, pc);
    TraceAppend(s.trace, m);
    forall q | 0 <= q < |t.pcs| && q != p ensures Knows(t, t.pcs[q]) {
      assert t.pcs[q] == s.pcs[q] && !InLock(s.pcs[q]);
      OutsideKnows(s, t, t.pcs[q]);
    }
    assert Commits(t.trace) == Commits(s.trace);
    forall n | n in t.trace && n.Committed? ensures Decided(t, n.event) {
      assert n in s.trace;
    }
    assert CallbackFirst(t.trace) by {
      forall i, j | 0 <= i < j < |t.trace| && t.trace[i].GradingStarted?
        ensures !t.trace[j].CallbackStarted? && !t.trace[j].CallbackReturned?
      {
        assert t.trace[i] in s.trace;
      }
    }
  }

  /** What the commit of each kind of transition does to the facts that the marks depend on. */
  lemma CommitEffects(s: State, e: Event)
    requires ExamSessions.Inv(s.stored) && Knows(s, Saving(s.stored, e))
    ensures var after := Step(s.stored, e).value;
            && SaveResult(Some(s.stored), after, s.stored.revision) == Ok(after)
            && (e.BeginSubmit? ==> !Ended(s.stored) && after.status.Submitting?)
            && (e.CompleteSubmit? ==> !s.stored.status.Submitted? && after.status.Submitted?)
            && (e.Update? ==> after.status == s.stored.status && s.stored.status.Active?)
            && (e.Fail? ==> after.status.Failed? && s.stored.status.Submitting?)
            && (e.BeginSubmit? ==>
                  && after.deadlineAt.Some? && e.now <= s.now
                  && after.endReason == Some(if e.now >= after.deadlineAt.value then Expired else Manual))
  {
  }

  lemma CommitDecided(s: State, t: State, e: Event)
    requires ExamSessions.Inv(s.stored) && Later(s.stored, t.stored) && s.now <= t.now
    requires t.trace == s.trace + [Committed(e)] && Decided(t, e)
    requires forall m :: m in s.trace && m.Committed? ==> Decided(s, m.event)
    ensures forall m :: m in t.trace && m.Committed? ==> Decided(t, m.event)
  {
    hide Legal, Later, ExamSessions.Inv, Decided;
    forall m | m in t.trace && m.Committed? ensures Decided(t, m.event) {
      if m in s.trace {
        DecidedLater(s, t, m.event);
      }
    }
  }

  lemma CommitMarked(s: State, t: State, e: Event)
    requires Marked(s) && ExamSessions.Inv(s.stored) && Knows(s, Saving(s.stored, e))
    requires t == s.(stored := Step(s.stored, e).value, trace := s.trace + [Committed(e)],
                     pcs := t.pcs, holder := t.holder)
    ensures Marked(t)
  {
    hide Legal, Step, CallbackFirst, SaveResult, Later, ExamSessions.Inv;
    StepLater(s.stored, e);
    CommitEffects(s, e);
    TraceAppend(s.trace, Committed(e));
    CallbackFirstAppend(s.trace, Committed(e));
    RankLater(s.stored, t.stored);
    CommitDecided(s, t, e);
  }

  lemma RankLater(s: Session, t: Session)
    requires ExamSessions.Inv(s) && Later(s, t)
    ensures Ended(s) ==> Ended(t)
    ensures s.status.Submitted? ==> t == s
  {
  }

  lemma CommitLinear(first: Session, s: State, t: State, e: Event)
    requires Linear(first, s) && Step(s.stored, e).Ok?
    requires t.stored == Step(s.stored, e).value && t.trace == s.trace + [Committed(e)]
    ensures Linear(first, t)
  {
    hide Legal, Step, Accepted;
    StepLater(s.stored, e);
    TraceAppend(s.trace, Committed(e));
    AcceptedAppend(first, Commits(s.trace), e);
  }

  /** A computed transition is always saved: under the lock, the revision is the loaded one. */
  lemma Committing(first: Session, s: State, p: nat, e: Event)
    requires Inv(first, s) && p < |s.pcs| && s.pcs[p] == Saving(s.stored, e)
    ensures Inv(first, Commit(s, p, s.stored, e))
    ensures Commit(s, p, s.stored, e).trace == s.trace + [Committed(e)]
  {
    hide Legal, Step, Linear, Marked, SaveResult;
    assert s.holder == Some(p) && Knows(s, Saving(s.stored, e));
    LinearStored(first, s);
    CommitEffects(s, e);
    var t := Commit(s, p, s.stored, e);
    CommitLinear(first, s, t, e);
    CommitMarked(s, t, e);
    StepLater(s.stored, e);
    forall q | 0 <= q < |t.pcs| ensures Knows(t, t.pcs[q]) {
      if q != p {
        assert t.pcs[q] == s.pcs[q] && !InLock(s.pcs[q]);
        OutsideKnows(s, t, t.pcs[q]);
      } else {
        CommitterKnows(s, t, e, t.pcs[p]);
      }
    }
  }

  lemma LinearStored(first: Session, s: State)
    requires Linear(first, s)
    ensures ExamSessions.Inv(s.stored)
  {
  }

  lemma CommitterKnows(s: State, t: State, e: Event, pc: Pc)
    requires Marked(s) && ExamSessions.Inv(s.stored) && Knows(s, Saving(s.stored, e))
    requires t.stored == Step(s.stored, e).value && t.trace == s.trace + [Committed(e)]
    requires pc == if e.BeginSubmit? then Notifying(t.stored) else Idle
    ensures Knows(t, pc)
  {
    hide Legal, Step, SaveResult;
    CommitEffects(s, e);
    TraceAppend(s.trace, Committed(e));
  }

  lemma CallbackFirstAppend(trace: seq<Mark>, m: Mark)
    requires CallbackFirst(trace) && (m.Committed? || m.GradingStarted?)
    ensures CallbackFirst(trace + [m])
  {
  }

  /** Loading and trying a transition keeps the invariant, whether it is accepted or refused. */
  lemma Attempting(first: Session, s: State, p: nat, e: Event, otherwise: State)
    requires Inv(first, s) && p < |s.pcs| && s.holder == Some(p) && Inv(first, otherwise)
    requires Step(s.stored, e).Ok? ==> Knows(s, Saving(s.stored, e))
    ensures Inv(first, Attempt(s, p, s.stored, e, otherwise))
  {
    hide Legal, Step, Linear, Marked;
    if Step(s.stored, e).Ok? {
      Moved(first, s, Goto(s, p, Saving(s.stored, e)), p);
    }
  }

  lemma Released(first: Session, s: State, p: nat)
    requires Inv(first, s) && p < |s.pcs| && s.holder == Some(p)
    ensures Inv(first, Release(s, p, Idle))
  {
    Moved(first, s, Release(s, p, Idle), p);
  }

  lemma Entering(first: Session, s: State, p: nat, request: Request)
    requires Inv(first, s) && p < |s.pcs| && s.pcs[p] == Holding(request)
    ensures Inv(first, Enter(s, p, request))
  {
    hide Linear, Marked, Step;
    assert s.holder == Some(p) && Knows(s, Holding(request));
    StoredFacts(first, s);
    Released(first, s, p);
    match request
    case Snapshot => Moved(first, s, Release(s, p, Looked(s.stored)), p);
    case SetProgress(task, select, flags) =>
      Attempting(first, s, p, Update(task, select, flags, s.now), Release(s, p, Idle));
    case Check(task) =>
    case Submit(reason) =>
      if s.stored.status.Active? {
        Attempting(first, s, p, BeginSubmit(reason, s.now), Release(s, p, Idle));
      } else if s.stored.status.Submitting? {
        Moved(first, s, Goto(s, p, Grading(s.stored)), p);
      }
  }

  lemma StoredFacts(first: Session, s: State)
    requires Linear(first, s)
    ensures s.stored.status.Active? ==> s.stored.deadlineAt.Some?
  {
  }

  lemma GradingStep(first: Session, s: State, p: nat, c: Choice)
    requires Inv(first, s) && p < |s.pcs| && s.pcs[p] == Grading(s.stored)
    ensures Inv(first, Grade(s, p, s.stored, c))
  {
    hide Linear, Marked, Step;
    assert s.holder == Some(p) && Knows(s, Grading(s.stored));
    Noted(first, s, GradingStarted, p, Grading(s.stored));
    var t := Goto(Note(s, GradingStarted), p, Grading(s.stored));
    Moved(first, t, Goto(t, p, Failing(c.text)), p);
    assert Goto(t, p, Failing(c.text)) == Goto(Note(s, GradingStarted), p, Failing(c.text));
    if !c.raises {
      Attempting(first, t, p, CompleteSubmit(c.receipt, s.now), Goto(t, p, Failing(c.text)));
      assert Attempt(t, p, s.stored, CompleteSubmit(c.receipt, s.now), Goto(t, p, Failing(c.text)))
          == Grade(s, p, s.stored, c);
    }
  }

  lemma WorkInv(first: Session, s: State, p: nat, c: Choice)
    requires Inv(first, s) && p < |s.pcs|
    ensures Inv(first, Work(s, p, c))
  {
    hide Linear, Marked, Step, Commit, Grade, Enter;
    var pc := s.pcs[p];
    assert Knows(s, pc) && (InLock(pc) <==> s.holder == Some(p));
    match pc
    case Idle =>
    case Waiting(request) =>
      if s.holder.None? {
        Moved(first, s, Goto(s, p, Holding(request)).(holder := Some(p)), p);
      }
    case Looked(session) => Moved(first, s, Work(s, p, c), p);
    case Holding(request) => Entering(first, s, p, request);
    case Saving(loaded, e) => Committing(first, s, p, e);
    case Notifying(session) =>
      TraceAppend(s.trace, CallbackStarted);
      Noted(first, s, CallbackStarted, p, InCallback(session));
    case InCallback(session) =>
      Released(first, s, p);
      TraceAppend(s.trace, CallbackReturned);
      Noted(first, s, CallbackReturned, p, Grading(session));
    case Grading(session) => GradingStep(first, s, p, c);
    case Failing(detail) =>
      Released(first, s, p);
      Attempting(first, s, p, Fail(detail), Release(s, p, Idle));
  }

  lemma ActInv(first: Session, s: State, a: Action)
    requires Inv(first, s)
    ensures Inv(first, Act(s, a))
  {
    hide Linear, Marked, Step, Work;
    match a
    case Begin(p, request) =>
      if p < |s.pcs| && s.pcs[p].Idle? && request != Submit(Expired) {
        Moved(first, s, Goto(s, p, Waiting(request)), p);
      }
    case Advance(p, choice) =>
      if p < |s.pcs| {
        WorkInv(first, s, p, choice);
      }
    case Crash(p) =>
      if p < |s.pcs| {
        Moved(first, s, Act(s, a), p);
      }
    case Tick(elapsed) => TickInv(first, s, elapsed);
  }

  lemma TickInv(first: Session, s: State, elapsed: nat)
    requires Inv(first, s)
    ensures Inv(first, s.(now := s.now + elapsed))
  {
    hide Legal, Step, Accepted;
    var t := s.(now := s.now + elapsed);
    forall m | m in t.trace && m.Committed? ensures Decided(t, m.event) {
      DecidedLater(s, t, m.event);
    }
    forall q | 0 <= q < |t.pcs| ensures Knows(t, t.pcs[q]) {
      assert Knows(s, s.pcs[q]);
    }
  }

  /** Every interleaving of requests, crashes and clock ticks keeps the invariant. */
  lemma {:induction false} PlayInv(s: State, actions: seq<Action>)
    requires Initial(s) && ExamSessions.Inv(s.stored)
    ensures Inv(s.stored, Play(s, actions))
  {
    hide Act, Inv;
    if actions == [] {
      InitialInv(s);
    } else {
      PlayInv(s, actions[..|actions| - 1]);
      ActInv(s.stored, Play(s, actions[..|actions| - 1]), actions[|actions| - 1]);
    }
  }

  // ---------------------------------------------------------------------------------------------
  // What a candidate can rely on

  /**
   * Whatever the interleaving, the stored session is the serial run of the committed transitions in
   * lock order; the callback starts once at most and never after a grading; one receipt is stored at
   * most; and the end reason is decided by the clock at the commit of the submission.
   */
  lemma Linearization(s: State, actions: seq<Action>)
    requires Initial(s) && ExamSessions.Inv(s.stored)
    ensures var t := Play(s, actions);
            && Accepted(s.stored, Commits(t.trace))
            && t.stored == Run(s.stored, Commits(t.trace))
            && Callbacks(t.trace) <= 1 && Receipts(t.trace) <= 1 && CallbackFirst(t.trace)
            && (forall m :: m in t.trace && m.Committed? && m.event.BeginSubmit? ==>
                  && t.stored.deadlineAt.Some?
                  && (t.stored.endReason == Some(Expired) <==> m.event.now >= t.stored.deadlineAt.value)
                  && (t.stored.endReason == Some(Manual) <==> m.event.now < t.stored.deadlineAt.value))
            && (forall p, q :: 0 <= p < q < |t.pcs| ==> !(InLock(t.pcs[p]) && InLock(t.pcs[q])))
  {
    hide Act, Linear, Knows;
    PlayInv(s, actions);
    var t := Play(s, actions);
    assert Linear(s.stored, t);
    LinearFacts(s.stored, t);
  }

  lemma LinearFacts(first: Session, s: State)
    requires Linear(first, s)
    ensures Accepted(first, Commits(s.trace)) && s.stored == Run(first, Commits(s.trace))
  {
  }

  /** The progress part of a session: the selected task and the flags of every task. */
  datatype Progress = Progress(selected: int, tasks: seq<TaskProgress>)

  function ProgressOf(s: Session): Progress {
    Progress(s.selected, s.tasks)
  }

  function Fold(p: Progress, events: seq<Event>): Progress
    decreases |events|
  {
    if events == [] then p
    else
      var before, e := Fold(p, events[..|events| - 1]), events[|events| - 1];
      if e.Update? && 1 <= e.task <= |before.tasks| then
        Progress(if e.select then e.task else before.selected,
                 before.tasks[e.task - 1 := UpdateTask(before.tasks[e.task - 1], e.flags)])
      else before
  }

  /** No update is lost: the stored progress is the fold of the committed updates, in commit order. */
  lemma {:induction false} ProgressIsFold(first: Session, events: seq<Event>)
    requires ExamSessions.Inv(first) && Accepted(first, events)
    ensures ProgressOf(Run(first, events)) == Fold(ProgressOf(first), events)
  {
    hide Legal, Step;
    if events != [] {
      var init, e := events[..|events| - 1], events[|events| - 1];
      assert forall i :: 0 <= i < |init| ==> init[..i] == events[..i] && init[i] == events[i];
      assert Accepted(first, init);
      ProgressIsFold(first, init);
      RunInv(first, init);
      var before := Run(first, init);
      assert events[..|init|] == init;
      if e.Update? {
        UpdateExact(before, e.task, e.select, e.flags, e.when);
        TaskCount(before);
      } else {
        OthersKeepProgress(before, e);
      }
    }
  }

  lemma TaskCount(s: Session)
    requires ExamSessions.Inv(s)
    ensures |s.tasks| == TASKS
  {
  }

  lemma OthersKeepProgress(s: Session, e: Event)
    requires Step(s, e).Ok? && !e.Update?
    ensures ProgressOf(Step(s, e).value) == ProgressOf(s)
  {
  }

  /** Every committed update was made before the deadline of the session. */
  lemma UpdatesInTime(first: Session, events: seq<Event>, i: nat)
    requires ExamSessions.Inv(first) && Accepted(first, events) && i < |events| && events[i].Update?
    ensures Run(first, events).deadlineAt.Some? && events[i].when < Run(first, events).deadlineAt.value
  {
    hide Legal, Step;
    var before, e := Run(first, events[..i]), events[i];
    assert Step(before, e).Ok?;
    RunInv(first, events[..i]);
    UpdateExact(before, e.task, e.select, e.flags, e.when);
    RunLater(first, events[..i], events[i..]);
    assert events[..i] + events[i..] == events;
    ActiveTimer(before);
  }

  lemma ActiveTimer(s: Session)
    requires ExamSessions.Inv(s) && s.status.Active?
    ensures s.startedAt.Some? && s.deadlineAt.Some?
  {
  }

  /**
   * A failed final grading is recorded exactly when the error has a text: an interruption with a blank
   * message leaves the session submitting, from where another submit grades it again.
   */
  lemma FailureRecorded(first: Session, s: State, p: nat, detail: string, c: Choice)
    requires Inv(first, s) && p < |s.pcs| && s.pcs[p] == Failing(detail)
    ensures var t := Work(Work(s, p, c), p, c);
            && t.pcs[p] == Idle && t.holder.None?
            && (t.stored.status.Failed? <==> !Blank(detail))
            && (Blank(detail) ==> t.stored == s.stored && t.stored.status.Submitting?)
  {
    hide Legal, Linear, Marked, Step, SaveResult;
    assert Knows(s, s.pcs[p]) && s.holder == Some(p);
    LinearStored(first, s);
    FailExact(s.stored, detail);
    var mid := Work(s, p, c);
    if !Blank(detail) {
      WorkInv(first, s, p, c);
      assert Knows(mid, mid.pcs[p]);
      CommitEffects(mid, Fail(detail));
    }
  }

  // ---------------------------------------------------------------------------------------------
  // What a request achieves

  /**
   * A progress update is stored exactly if the session is active, the deadline lies ahead and the task
   * exists: then each given flag is set on this task alone. Either way the lock is given back.
   */
  lemma UpdateStored(first: Session, s: State, p: nat, task: int, select: bool, flags: Flags, c: Choice, d: Choice)
    requires Inv(first, s) && p < |s.pcs| && s.pcs[p] == Holding(SetProgress(task, select, flags))
    ensures var t := Work(Work(s, p, c), p, d);
            && t.pcs == s.pcs[p := Idle] && t.holder.None?
            && if s.stored.status.Active? && s.now < s.stored.deadlineAt.value && IsTask(task) then
                 && |t.stored.tasks| == |s.stored.tasks| == TASKS
                 && FlagsSet(s.stored.tasks[task - 1], t.stored.tasks[task - 1], flags)
                 && (forall i :: 0 <= i < TASKS && i != task - 1 ==> t.stored.tasks[i] == s.stored.tasks[i])
                 && t.stored.selected == (if select then task else s.stored.selected)
                 && t.stored == s.stored.(tasks := t.stored.tasks, selected := t.stored.selected,
                                          revision := s.stored.revision + 1)
               else t.stored == s.stored
  {
    hide Legal, Linear, Marked, Step, SaveResult;
    assert Knows(s, s.pcs[p]) && s.holder == Some(p);
    LinearStored(first, s);
    StoredFacts(first, s);
    TaskCount(s.stored);
    var e := Update(task, select, flags, s.now);
    UpdateExact(s.stored, task, select, flags, s.now);
    if Step(s.stored, e).Ok? {
      WorkInv(first, s, p, c);
      CommitEffects(Work(s, p, c), e);
    }
  }

  /** A request begun while the lock is free is under the lock two steps later. */
  lemma Granted(s: State, p: nat, request: Request, c: Choice)
    requires p < |s.pcs| && s.pcs[p].Idle? && s.holder.None? && request != Submit(Expired)
    ensures Work(Act(s, Begin(p, request)), p, c) == s.(pcs := s.pcs[p := Holding(request)], holder := Some(p))
  {
  }

  /** A progress request on a free lock is served in four steps, from nothing but the stored session. */
  lemma UpdateServed(first: Session, s: State, p: nat, task: int, select: bool, flags: Flags, c: Choice)
    requires Inv(first, s) && p < |s.pcs| && s.pcs[p].Idle? && s.holder.None?
    requires s.stored.status.Active? && s.now < s.stored.deadlineAt.value && IsTask(task)
    ensures var t := Work(Work(Work(Act(s, Begin(p, SetProgress(task, select, flags))), p, c), p, c), p, c);
            && t.pcs == s.pcs && t.holder.None?
            && |t.stored.tasks| == |s.stored.tasks| == TASKS
            && FlagsSet(s.stored.tasks[task - 1], t.stored.tasks[task - 1], flags)
            && (select ==> t.stored.selected == task)
  {
    hide Inv, Act, Work, ExamSessions.Inv;
    var request := SetProgress(task, select, flags);
    Granted(s, p, request, c);
    ActInv(first, s, Begin(p, request));
    BeginKeeps(s, p, request);
    WorkInv(first, Act(s, Begin(p, request)), p, c);
    var held := Work(Act(s, Begin(p, request)), p, c);
    UpdateStored(first, held, p, task, select, flags, c, c);
  }

  lemma BeginKeeps(s: State, p: nat, request: Request)
    ensures |Act(s, Begin(p, request)).pcs| == |s.pcs|
  {
  }

  /**
   * Submitting an active session stores it as submitting, with its end reason and its progress as it is;
   * a submitting one is graded again, and any other is left alone.
   */
  lemma SubmitStored(first: Session, s: State, p: nat, reason: EndReason, c: Choice, d: Choice)
    requires Inv(first, s) && p < |s.pcs| && s.pcs[p] == Holding(Submit(reason))
    ensures var t := Work(Work(s, p, c), p, d);
            && (s.stored.status.Active? ==>
                  && t.pcs[p] == Notifying(t.stored) && t.holder == Some(p) && t.now == s.now
                  && t.stored == s.stored.(
                       status := Submitting,
                       endReason := Some(if s.now >= s.stored.deadlineAt.value then Expired else Manual),
                       revision := s.stored.revision + 1))
            && (s.stored.status.Submitting? ==> Work(s, p, c) == Goto(s, p, Grading(s.stored)))
            && (!s.stored.status.Active? && !s.stored.status.Submitting? ==>
                  t.stored == s.stored && t.pcs == s.pcs[p := Idle] && t.holder.None?)
  {
    hide Legal, Linear, Marked, Step, SaveResult;
    assert Knows(s, s.pcs[p]) && s.holder == Some(p);
    LinearStored(first, s);
    StoredFacts(first, s);
    var e := BeginSubmit(reason, s.now);
    if s.stored.status.Active? {
      BeginSubmitExact(s.stored, reason, s.now);
      WorkInv(first, s, p, c);
      CommitEffects(Work(s, p, c), e);
    }
  }

  /** After the submission is stored, the callback runs once; if it returns, grading begins. */
  lemma SubmitNotified(s: State, p: nat, c: Choice, d: Choice)
    requires p < |s.pcs| && s.pcs[p].Notifying?
    ensures var t := Work(Work(s, p, c), p, d);
            && t.stored == s.stored && Callbacks(t.trace) == Callbacks(s.trace) + 1
            && t.pcs[p] == (if d.raises then Idle else Grading(s.pcs[p].begun))
            && t.holder == (if d.raises then None else s.holder)
  {
    TraceAppend(s.trace, CallbackStarted);
    TraceAppend(s.trace + [CallbackStarted], CallbackReturned);
  }

  /** A grading that returns a receipt stores it and ends the session; any other is turned into a failure. */
  lemma GradingStored(first: Session, s: State, p: nat, c: Choice, d: Choice)
    requires Inv(first, s) && p < |s.pcs| && s.pcs[p].Grading?
    ensures var t := Work(Work(s, p, c), p, d);
            if !c.raises && c.receipt.Some? then
              && t.pcs == s.pcs[p := Idle] && t.holder.None?
              && t.stored == s.stored.(status := Submitted, submittedAt := Some(s.now), receipt := c.receipt,
                                       revision := s.stored.revision + 1)
            else Work(s, p, c) == Goto(Note(s, GradingStarted), p, Failing(c.text))
  {
    hide Legal, Linear, Marked, Step, SaveResult;
    assert Knows(s, s.pcs[p]) && s.holder == Some(p);
    LinearStored(first, s);
    CompleteSubmitExact(s.stored, c.receipt, s.now);
    if !c.raises && c.receipt.Some? {
      WorkInv(first, s, p, c);
      CommitEffects(Work(s, p, c), CompleteSubmit(c.receipt, s.now));
    }
  }

  /** Looking at an active session past its deadline submits it as expired, if no other request comes first. */
  lemma SnapshotExpires(first: Session, s: State, p: nat, c: Choice)
    requires Inv(first, s) && p < |s.pcs| && s.pcs[p] == Holding(Snapshot)
    ensures var seen := Work(Work(s, p, c), p, c);
            && seen.stored == s.stored && seen.holder.None?
            && (s.stored.status.Active? && s.now >= s.stored.deadlineAt.value ==>
                  var t := Work(Work(Work(seen, p, c), p, c), p, c);
                  && seen.pcs[p] == Waiting(Submit(Expired))
                  && t.pcs[p] == Notifying(t.stored)
                  && t.stored == s.stored.(status := Submitting, endReason := Some(Expired),
                                           revision := s.stored.revision + 1))
            && (!(s.stored.status.Active? && s.now >= s.stored.deadlineAt.value) ==> seen.pcs[p] == Idle)
  {
    hide Legal, Linear, Marked, Step, SaveResult;
    StoredFacts(first, s);
    WorkInv(first, s, p, c);
    WorkInv(first, Work(s, p, c), p, c);
    var seen := Work(Work(s, p, c), p, c);
    if s.stored.status.Active? && s.now >= s.stored.deadlineAt.value {
      WorkInv(first, seen, p, c);
      SubmitStored(first, Work(seen, p, c), p, Expired, c, c);
    }
  }

  predicate By(a: Action, p: nat) {
    (a.Advance? && a.p == p) || (a.Crash? && a.victim == p)
  }

  /** While a controller holds the lock, nothing that the others do or suffer gets between its steps. */
  lemma {:induction false} Undisturbed(first: Session, s: State, p: nat, actions: seq<Action>)
    requires Inv(first, s) && p < |s.pcs| && s.holder == Some(p)
    requires forall a :: a in actions ==> !By(a, p)
    ensures var t := Play(s, actions);
            && Inv(first, t) && |t.pcs| == |s.pcs|
            && t.stored == s.stored && t.pcs[p] == s.pcs[p] && t.holder == Some(p) && t.trace == s.trace
  {
    hide Linear, Marked, Knows, Act;
    if actions != [] {
      var init, a := actions[..|actions| - 1], actions[|actions| - 1];
      Undisturbed(first, s, p, init);
      ActInv(first, Play(s, init), a);
      OthersWait(first, Play(s, init), p, a);
    }
  }

  lemma OthersWait(first: Session, s: State, p: nat, a: Action)
    requires Inv(first, s) && p < |s.pcs| && s.holder == Some(p) && !By(a, p)
    ensures var t := Act(s, a);
            && |t.pcs| == |s.pcs| && t.stored == s.stored && t.pcs[p] == s.pcs[p] && t.holder == Some(p)
            && t.trace == s.trace
  {
    hide Linear, Marked, Knows;
  }

  /**
   * No request changes a session that is still being prepared, so the engine may save such a session
   * without the session lock: whatever a controller then does, it commits nothing.
   */
  lemma PreparingUntouched(s: State, p: nat, request: Request, c: Choice)
    requires p < |s.pcs| && s.stored.status.Preparing? && s.pcs[p] == Holding(request)
    ensures var t := Work(s, p, c);
            && t == s.(pcs := t.pcs, holder := None) && t.pcs == s.pcs[p := t.pcs[p]]
            && (t.pcs[p] == Idle || t.pcs[p] == Looked(s.stored))
            && (t.pcs[p].Looked? ==> Work(t, p, c) == Goto(t, p, Idle))
  {
  }
}
