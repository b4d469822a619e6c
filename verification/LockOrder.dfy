/**
 * The nesting of the locks that controllers, engines, lifecycles and the provider take, as programs
 * of lock operations run by any number of threads; no reachable state is a deadlock.
 */
module LockOrder {
  import opened Wrappers

  // A controller's lock is one object per browser server; the others are locks on files.
  datatype Lock =
    | Controller(server: nat)
    | ExamFile(exam: nat)
    | LabRoot
    | LabFile(lab: nat)
    | ProviderRoot
    | ProviderFile

  function Rank(l: Lock): nat {
    match l
    case Controller(_) => 0
    case ExamFile(_) => 1
    case LabRoot => 2
    case LabFile(_) => 3
    case ProviderRoot => 4
    case ProviderFile => 5
  }

  datatype Op = Take(lock: Lock) | Drop(dropped: Lock) | Work

  // ---------------------------------------------------------------------------------------------
  // The programs

  function With(l: Lock, body: seq<Op>): seq<Op> {
    [Take(l)] + body + [Drop(l)]
  }

  /** A mutator lock is two file locks, the one of its root directory first. */
  function WithLab(lab: nat, body: seq<Op>): seq<Op> {
    With(LabRoot, With(LabFile(lab), body))
  }

  function WithProvider(body: seq<Op>): seq<Op> {
    With(ProviderRoot, With(ProviderFile, body))
  }

  /** What an operation does under the lab lock: steps of its own, and calls into the provider. */
  datatype Call = Own | Provider

  function Calls(calls: seq<Call>): seq<Op> {
    if calls == [] then []
    else (if calls[0].Own? then [Work] else WithProvider([Work])) + Calls(calls[1..])
  }

  /** Gradings, each under the lab lock: one for all tasks, or one per task. */
  function Gradings(lab: nat, gradings: seq<seq<Call>>): seq<Op> {
    if gradings == [] then [] else WithLab(lab, Calls(gradings[0])) + Gradings(lab, gradings[1..])
  }

  datatype Operation =
    | SnapshotCurrent
    | SnapshotExpired(final: seq<seq<Call>>)
    | UpdateProgress
    | CheckTask(check: seq<Call>)
    | Submit(submission: seq<seq<Call>>)
    | StartExam(start: seq<Call>)
    | GradeExam(grading: seq<Call>)
    | TeardownExam(teardown: seq<Call>)
    | ApplyReference(reference: seq<Call>)
    | SerialScenario(scenario: seq<Call>)
    | LabLifecycle(lifecycle: seq<Call>)

  function SubmitProgram(server: nat, lab: nat, gradings: seq<seq<Call>>): seq<Op> {
    With(Controller(server), With(ExamFile(lab), [Work] + Gradings(lab, gradings) + [Work]))
  }

  /** The lock operations of one call, on a lab and, for browser requests, through a controller. */
  function Program(o: Operation, server: nat, lab: nat): seq<Op> {
    match o
    case SnapshotCurrent => With(Controller(server), With(ExamFile(lab), [Work]) + [Work])
    // An expired snapshot submits while it still holds the controller's re-entrant lock.
    case SnapshotExpired(gradings) =>
      With(Controller(server), With(ExamFile(lab), [Work]) + SubmitProgram(server, lab, gradings))
    case UpdateProgress => With(Controller(server), With(ExamFile(lab), [Work]))
    case CheckTask(calls) =>
      With(Controller(server), With(ExamFile(lab), [Work] + Gradings(lab, [calls])))
    case Submit(gradings) => SubmitProgram(server, lab, gradings)
    case StartExam(calls) => WithLab(lab, Calls(calls))
    case GradeExam(calls) => WithLab(lab, Calls(calls))
    case TeardownExam(calls) => With(ExamFile(lab), WithLab(lab, Calls(calls)))
    case ApplyReference(calls) => With(ExamFile(lab), WithLab(lab, Calls(calls)))
    case SerialScenario(calls) => WithLab(lab, Calls(calls))
    case LabLifecycle(calls) => WithLab(lab, Calls(calls))
  }

  // ---------------------------------------------------------------------------------------------
  // Discipline: ranks rise, drops match, and only a controller's lock is ever re-entered

  predicate Fits(held: seq<Lock>, l: Lock) {
    forall h :: h in held ==> Rank(h) < Rank(l) || (l.Controller? && h == l)
  }

  /** The locks held after a program, or None if it breaks the discipline on the way. */
  function After(ops: seq<Op>, held: seq<Lock>): Option<seq<Lock>> {
    if ops == [] then Some(held)
    else
      match ops[0]
      case Work => After(ops[1..], held)
      case Take(l) => if Fits(held, l) then After(ops[1..], held + [l]) else None
      case Drop(l) =>
        if held != [] && held[|held| - 1] == l then After(ops[1..], held[..|held| - 1]) else None
  }

  lemma {:induction false} AfterBoth(a: seq<Op>, b: seq<Op>, held: seq<Lock>)
    requires After(a, held).Some?
    ensures After(a + b, held) == After(b, After(a, held).value)
  {
    if a == [] {
      assert a + b == b;
    } else {
      assert (a + b)[1..] == a[1..] + b;
      match a[0]
      case Work => AfterBoth(a[1..], b, held);
      case Take(l) => AfterBoth(a[1..], b, held + [l]);
      case Drop(l) => AfterBoth(a[1..], b, held[..|held| - 1]);
    }
  }

  /** A program that leaves the held locks as they were. */
  predicate Balanced(ops: seq<Op>, held: seq<Lock>) {
    After(ops, held) == Some(held)
  }

  lemma WithBalanced(l: Lock, body: seq<Op>, held: seq<Lock>)
    requires Fits(held, l) && Balanced(body, held + [l])
    ensures Balanced(With(l, body), held)
  {
    AfterBoth(body, [Drop(l)], held + [l]);
    assert With(l, body)[1..] == body + [Drop(l)];
    assert (held + [l])[..|held|] == held;
    assert After([Drop(l)], held + [l]) == After([], held);
  }

  lemma JoinBalanced(a: seq<Op>, b: seq<Op>, held: seq<Lock>)
    requires Balanced(a, held) && Balanced(b, held)
    ensures Balanced(a + b, held)
  {
    AfterBoth(a, b, held);
  }

  lemma WorkBalanced(held: seq<Lock>)
    ensures Balanced([Work], held)
  {
    assert After([Work], held) == After([], held);
  }

  lemma WithLabBalanced(lab: nat, body: seq<Op>, held: seq<Lock>)
    requires Fits(held, LabRoot) && Balanced(body, held + [LabRoot] + [LabFile(lab)])
    ensures Balanced(WithLab(lab, body), held)
  {
    WithBalanced(LabFile(lab), body, held + [LabRoot]);
    WithBalanced(LabRoot, With(LabFile(lab), body), held);
  }

  lemma {:induction false} CallsBalanced(calls: seq<Call>, held: seq<Lock>)
    requires forall h :: h in held ==> Rank(h) < Rank(ProviderRoot)
    ensures Balanced(Calls(calls), held)
  {
    if calls != [] {
      CallsBalanced(calls[1..], held);
      WorkBalanced(held);
      WorkBalanced(held + [ProviderRoot] + [ProviderFile]);
      WithBalanced(ProviderFile, [Work], held + [ProviderRoot]);
      WithBalanced(ProviderRoot, With(ProviderFile, [Work]), held);
      JoinBalanced(if calls[0].Own? then [Work] else WithProvider([Work]), Calls(calls[1..]), held);
    }
  }

  lemma {:induction false} GradingsBalanced(lab: nat, gradings: seq<seq<Call>>, held: seq<Lock>)
    requires forall h :: h in held ==> Rank(h) < Rank(LabRoot)
    ensures Balanced(Gradings(lab, gradings), held)
  {
    if gradings != [] {
      GradingsBalanced(lab, gradings[1..], held);
      CallsBalanced(gradings[0], held + [LabRoot] + [LabFile(lab)]);
      WithLabBalanced(lab, Calls(gradings[0]), held);
      JoinBalanced(WithLab(lab, Calls(gradings[0])), Gradings(lab, gradings[1..]), held);
    }
  }

  /** Submitting is disciplined whether or not the controller's lock is held already. */
  lemma SubmitBalanced(server: nat, lab: nat, gradings: seq<seq<Call>>, held: seq<Lock>)
    requires forall h :: h in held ==> h == Controller(server)
    ensures Balanced(SubmitProgram(server, lab, gradings), held)
  {
    var inner := held + [Controller(server)] + [ExamFile(lab)];
    WorkBalanced(inner);
    GradingsBalanced(lab, gradings, inner);
    JoinBalanced([Work], Gradings(lab, gradings), inner);
    JoinBalanced([Work] + Gradings(lab, gradings), [Work], inner);
    WithBalanced(ExamFile(lab), [Work] + Gradings(lab, gradings) + [Work], held + [Controller(server)]);
    WithBalanced(Controller(server), With(ExamFile(lab), [Work] + Gradings(lab, gradings) + [Work]), held);
  }

  lemma ExamBalanced(lab: nat, body: seq<Op>, held: seq<Lock>)
    requires forall h :: h in held ==> h.Controller?
    requires Balanced(body, held + [ExamFile(lab)])
    ensures Balanced(With(ExamFile(lab), body), held)
  {
    WithBalanced(ExamFile(lab), body, held);
  }

  /** Every operation takes its locks in rising rank and gives all of them back. */
  lemma ProgramBalanced(o: Operation, server: nat, lab: nat)
    ensures Balanced(Program(o, server, lab), [])
  {
    var c, e := Controller(server), ExamFile(lab);
    WorkBalanced([c]);
    WorkBalanced([] + [c] + [e]);
    ExamBalanced(lab, [Work], [] + [c]);
    match o
    case SnapshotCurrent =>
      JoinBalanced(With(e, [Work]), [Work], [] + [c]);
      WithBalanced(c, With(e, [Work]) + [Work], []);
    case SnapshotExpired(gradings) =>
      SubmitBalanced(server, lab, gradings, [] + [c]);
      JoinBalanced(With(e, [Work]), SubmitProgram(server, lab, gradings), [] + [c]);
      WithBalanced(c, With(e, [Work]) + SubmitProgram(server, lab, gradings), []);
    case UpdateProgress => WithBalanced(c, With(e, [Work]), []);
    case CheckTask(calls) =>
      GradingsBalanced(lab, [calls], [] + [c] + [e]);
      JoinBalanced([Work], Gradings(lab, [calls]), [] + [c] + [e]);
      ExamBalanced(lab, [Work] + Gradings(lab, [calls]), [] + [c]);
      WithBalanced(c, With(e, [Work] + Gradings(lab, [calls])), []);
    case Submit(gradings) => SubmitBalanced(server, lab, gradings, []);
    case TeardownExam(calls) => ExamThenLab(lab, calls);
    case ApplyReference(calls) => ExamThenLab(lab, calls);
    case StartExam(calls) => LabOnly(lab, calls);
    case GradeExam(calls) => LabOnly(lab, calls);
    case SerialScenario(calls) => LabOnly(lab, calls);
    case LabLifecycle(calls) => LabOnly(lab, calls);
  }

  lemma LabOnly(lab: nat, calls: seq<Call>)
    ensures Balanced(WithLab(lab, Calls(calls)), [])
  {
    CallsBalanced(calls, [] + [LabRoot] + [LabFile(lab)]);
    WithLabBalanced(lab, Calls(calls), []);
  }

  lemma ExamThenLab(lab: nat, calls: seq<Call>)
    ensures Balanced(With(ExamFile(lab), WithLab(lab, Calls(calls))), [])
  {
    CallsBalanced(calls, [] + [ExamFile(lab)] + [LabRoot] + [LabFile(lab)]);
    WithLabBalanced(lab, Calls(calls), [] + [ExamFile(lab)]);
    ExamBalanced(lab, WithLab(lab, Calls(calls)), []);
  }

  // ---------------------------------------------------------------------------------------------
  // Threads

  datatype Thread = Thread(rest: seq<Op>, held: seq<Lock>)

  type System = seq<Thread>

  /** A controller's lock may be re-entered by its holder; a file lock may not, not even by itself. */
  predicate CanStep(s: System, t: nat)
    requires t < |s|
  {
    && s[t].rest != []
    && (s[t].rest[0].Take? ==>
          var l := s[t].rest[0].lock;
          && (forall u :: 0 <= u < |s| && u != t ==> l !in s[u].held)
          && (l.Controller? || l !in s[t].held))
  }

  function Stepped(thread: Thread): Thread
    requires thread.rest != []
  {
    match thread.rest[0]
    case Work => Thread(thread.rest[1..], thread.held)
    case Take(l) => Thread(thread.rest[1..], thread.held + [l])
    case Drop(l) => Thread(thread.rest[1..], if thread.held == [] then [] else thread.held[..|thread.held| - 1])
  }

  /** The drops by which an exception leaves the enclosing `with` blocks. */
  function Unwind(held: seq<Lock>): seq<Op> {
    if held == [] then [] else [Drop(held[|held| - 1])] + Unwind(held[..|held| - 1])
  }

  datatype Action =
    | Step(t: nat)
    | Raise(raising: nat)
    | Kill(victim: nat)
    | Call(caller: nat, operation: Operation, server: nat, lab: nat)

  function Act(s: System, a: Action): System {
    match a
    case Step(t) => if t < |s| && CanStep(s, t) then s[t := Stepped(s[t])] else s
    case Raise(t) => if t < |s| then s[t := s[t].(rest := Unwind(s[t].held))] else s
    case Kill(t) => if t < |s| then s[t := Thread([], [])] else s
    case Call(t, o, server, lab) =>
      if t < |s| && s[t].rest == [] then s[t := s[t].(rest := Program(o, server, lab))] else s
  }

  function Play(s: System, actions: seq<Action>): System
    decreases |actions|
  {
    if actions == [] then s else Act(Play(s, actions[..|actions| - 1]), actions[|actions| - 1])
  }

  predicate Quiet(s: System) {
    forall t :: 0 <= t < |s| ==> s[t] == Thread([], [])
  }

  ghost predicate Inv(s: System) {
    && (forall t :: 0 <= t < |s| ==> After(s[t].rest, s[t].held) == Some([]))
    && (forall t, u, l :: 0 <= t < |s| && 0 <= u < |s| && t != u && l in s[t].held ==> l !in s[u].held)
  }

  lemma {:induction false} UnwindAfter(held: seq<Lock>)
    ensures After(Unwind(held), held) == Some([])
  {
    if held != [] {
      UnwindAfter(held[..|held| - 1]);
      assert Unwind(held)[1..] == Unwind(held[..|held| - 1]);
    }
  }

  lemma StepInv(s: System, t: nat)
    requires Inv(s) && t < |s| && CanStep(s, t)
    ensures Inv(s[t := Stepped(s[t])])
  {
    var after := Stepped(s[t]);
    assert After(after.rest, after.held) == Some([]);
    assert forall l :: l in after.held ==> l in s[t].held || s[t].rest[0] == Take(l);
  }

  lemma ActInv(s: System, a: Action)
    requires Inv(s)
    ensures Inv(Act(s, a))
  {
    hide Program;
    match a
    case Step(t) =>
      if t < |s| && CanStep(s, t) {
        StepInv(s, t);
      }
    case Raise(t) =>
      if t < |s| {
        UnwindAfter(s[t].held);
      }
    case Kill(t) =>
    case Call(t, o, server, lab) =>
      if t < |s| && s[t].rest == [] {
        assert s[t].held == [];
        ProgramBalanced(o, server, lab);
      }
  }

  /** In every reachable state each lock has one holder, and each thread keeps the discipline. */
  lemma {:induction false} PlayInv(s: System, actions: seq<Action>)
    requires Quiet(s)
    ensures Inv(Play(s, actions))
  {
    hide Act;
    if actions != [] {
      PlayInv(s, actions[..|actions| - 1]);
      ActInv(Play(s, actions[..|actions| - 1]), actions[|actions| - 1]);
    }
  }

  /** Following who waits for whom climbs the ranks, so it ends at a thread that can step. */
  lemma {:induction false} Unblocked(s: System, t: nat) returns (u: nat)
    requires Inv(s) && t < |s| && s[t].rest != []
    ensures u < |s| && s[u].rest != [] && CanStep(s, u)
    decreases if s[t].rest[0].Take? then 6 - Rank(s[t].rest[0].lock) else 0
  {
    if CanStep(s, t) {
      return t;
    }
    var l := s[t].rest[0].lock;
    assert Fits(s[t].held, l);
    assert l.Controller? || l !in s[t].held;
    var v :| 0 <= v < |s| && v != t && l in s[v].held;
    HolderIsLater(s[v], l);
    if CanStep(s, v) {
      return v;
    }
    u := Unblocked(s, v);
  }

  /** A holder is unfinished, and if it takes next what it can be blocked on, that ranks higher. */
  lemma HolderIsLater(thread: Thread, l: Lock)
    requires After(thread.rest, thread.held) == Some([]) && l in thread.held
    ensures thread.rest != []
    ensures thread.rest[0].Take? ==>
              var next := thread.rest[0].lock;
              Rank(next) > Rank(l) || (next.Controller? && next == l)
  {
  }

  /** No deadlock: whatever has happened, if any thread is unfinished then some thread can step. */
  lemma NoDeadlock(s: System, actions: seq<Action>, t: nat)
    requires Quiet(s) && t < |Play(s, actions)| && Play(s, actions)[t].rest != []
    ensures exists u :: 0 <= u < |Play(s, actions)| && CanStep(Play(s, actions), u)
  {
    PlayInv(s, actions);
    var u := Unblocked(Play(s, actions), t);
  }

  /** A lock is taken only above everything held, and a file lock never while it is held. */
  lemma TakesInOrder(s: System, actions: seq<Action>, t: nat)
    requires Quiet(s) && t < |Play(s, actions)|
    requires var thread := Play(s, actions)[t]; thread.rest != [] && thread.rest[0].Take?
    ensures var thread := Play(s, actions)[t];
            var l := thread.rest[0].lock;
            forall h :: h in thread.held ==> Rank(h) < Rank(l) || (h == l && l.Controller?)
  {
    PlayInv(s, actions);
  }

  // ---------------------------------------------------------------------------------------------
  // Re-taking a held lock

  /** The locks that a program takes while it holds them already. */
  function ReTaken(ops: seq<Op>, held: seq<Lock>): set<Lock> {
    if ops == [] then {}
    else
      match ops[0]
      case Work => ReTaken(ops[1..], held)
      case Take(l) => (if l in held then {l} else {}) + ReTaken(ops[1..], held + [l])
      case Drop(_) => ReTaken(ops[1..], if held == [] then [] else held[..|held| - 1])
  }

  predicate NoController(ops: seq<Op>) {
    forall i :: 0 <= i < |ops| && ops[i].Take? ==> !ops[i].lock.Controller?
  }

  lemma {:induction false} ReTakenBoth(a: seq<Op>, b: seq<Op>, held: seq<Lock>)
    requires After(a, held).Some?
    ensures ReTaken(a + b, held) == ReTaken(a, held) + ReTaken(b, After(a, held).value)
  {
    if a == [] {
      assert a + b == b;
    } else {
      assert (a + b)[1..] == a[1..] + b;
      match a[0]
      case Work => ReTakenBoth(a[1..], b, held);
      case Take(l) => ReTakenBoth(a[1..], b, held + [l]);
      case Drop(l) => ReTakenBoth(a[1..], b, held[..|held| - 1]);
    }
  }

  /** A disciplined program without controllers re-takes nothing. */
  lemma {:induction false} NothingReTaken(ops: seq<Op>, held: seq<Lock>)
    requires After(ops, held).Some? && NoController(ops)
    ensures ReTaken(ops, held) == {}
  {
    if ops != [] {
      assert forall i :: 0 <= i < |ops[1..]| ==> ops[1..][i] == ops[i + 1];
      match ops[0]
      case Work => NothingReTaken(ops[1..], held);
      case Take(l) => NothingReTaken(ops[1..], held + [l]);
      case Drop(l) => NothingReTaken(ops[1..], held[..|held| - 1]);
    }
  }

  lemma {:induction false} CallsNoController(calls: seq<Call>)
    ensures NoController(Calls(calls))
  {
    if calls != [] {
      CallsNoController(calls[1..]);
    }
  }

  lemma {:induction false} GradingsNoController(lab: nat, gradings: seq<seq<Call>>)
    ensures NoController(Gradings(lab, gradings))
  {
    if gradings != [] {
      CallsNoController(gradings[0]);
      GradingsNoController(lab, gradings[1..]);
    }
  }

  /** Under a controller's lock, a body without controllers re-takes that lock exactly if it is held. */
  lemma WithReTaken(server: nat, body: seq<Op>, held: seq<Lock>)
    requires Balanced(body, held + [Controller(server)]) && NoController(body)
    ensures ReTaken(With(Controller(server), body), held)
         == if Controller(server) in held then {Controller(server)} else {}
  {
    var inner := held + [Controller(server)];
    assert With(Controller(server), body)[1..] == body + [Drop(Controller(server))];
    AfterBoth(body, [Drop(Controller(server))], inner);
    assert inner[..|held|] == held;
    assert After([Drop(Controller(server))], inner) == After([], held);
    NothingReTaken(body + [Drop(Controller(server))], inner);
  }

  /** Submitting re-takes the controller's lock exactly when it is held. */
  lemma SubmitReTaken(server: nat, lab: nat, gradings: seq<seq<Call>>, held: seq<Lock>)
    requires forall h :: h in held ==> h == Controller(server)
    ensures ReTaken(SubmitProgram(server, lab, gradings), held) == if held == [] then {} else {Controller(server)}
  {
    var inner := held + [Controller(server)];
    var body := [Work] + Gradings(lab, gradings) + [Work];
    WorkBalanced(inner + [ExamFile(lab)]);
    GradingsBalanced(lab, gradings, inner + [ExamFile(lab)]);
    JoinBalanced([Work], Gradings(lab, gradings), inner + [ExamFile(lab)]);
    JoinBalanced([Work] + Gradings(lab, gradings), [Work], inner + [ExamFile(lab)]);
    ExamBalanced(lab, body, inner);
    GradingsNoController(lab, gradings);
    WithReTaken(server, With(ExamFile(lab), body), held);
    assert held != [] ==> held[0] in held;
  }

  /**
   * The exact extent of re-entrance: only an expired snapshot re-takes a lock that it holds, whatever it
   * then grades, and that lock is the controller's own.
   */
  lemma ReTakenExact(o: Operation, server: nat, lab: nat)
    ensures ReTaken(Program(o, server, lab), []) == if o.SnapshotExpired? then {Controller(server)} else {}
  {
    hide Fits, After;
    var c, e := Controller(server), ExamFile(lab);
    assert [] + [c] == [c];
    WorkBalanced([c]);
    WorkBalanced([c] + [e]);
    ExamBalanced(lab, [Work], [c]);
    match o
    case SnapshotCurrent =>
      JoinBalanced(With(e, [Work]), [Work], [c]);
      WithReTaken(server, With(e, [Work]) + [Work], []);
    case SnapshotExpired(gradings) => ExpiredReTaken(server, lab, gradings);
    case UpdateProgress => WithReTaken(server, With(e, [Work]), []);
    case CheckTask(calls) =>
      GradingsBalanced(lab, [calls], [c] + [e]);
      GradingsNoController(lab, [calls]);
      JoinBalanced([Work], Gradings(lab, [calls]), [c] + [e]);
      ExamBalanced(lab, [Work] + Gradings(lab, [calls]), [c]);
      WithReTaken(server, With(e, [Work] + Gradings(lab, [calls])), []);
    case Submit(gradings) => SubmitReTaken(server, lab, gradings, []);
    case _ => LabReTaken(o, server, lab);
  }

  /** The operations without a controller re-take nothing. */
  lemma LabReTaken(o: Operation, server: nat, lab: nat)
    requires || o.StartExam? || o.GradeExam? || o.TeardownExam? || o.ApplyReference?
             || o.SerialScenario? || o.LabLifecycle?
    ensures ReTaken(Program(o, server, lab), []) == {}
  {
    hide After, Fits, ReTaken, Calls;
    ProgramBalanced(o, server, lab);
    var calls :=
      match o
      case StartExam(calls) => calls
      case GradeExam(calls) => calls
      case TeardownExam(calls) => calls
      case ApplyReference(calls) => calls
      case SerialScenario(calls) => calls
      case LabLifecycle(calls) => calls;
    CallsNoController(calls);
    NothingReTaken(Program(o, server, lab), []);
  }

  lemma ExpiredReTaken(server: nat, lab: nat, gradings: seq<seq<Call>>)
    ensures ReTaken(Program(SnapshotExpired(gradings), server, lab), []) == {Controller(server)}
  {
    hide Fits, SubmitProgram;
    var c, e := Controller(server), ExamFile(lab);
    var look, submit := With(e, [Work]), SubmitProgram(server, lab, gradings);
    assert [] + [c] == [c];
    WorkBalanced([c] + [e]);
    ExamBalanced(lab, [Work], [c]);
    NothingReTaken(look, [c]);
    SubmitBalanced(server, lab, gradings, [c]);
    SubmitReTaken(server, lab, gradings, [c]);
    assert With(c, look + submit)[1..] == look + (submit + [Drop(c)]);
    ReTakenBoth(look, submit + [Drop(c)], [c]);
    ReTakenBoth(submit, [Drop(c)], [c]);
    assert ReTaken([Drop(c)], [c]) == ReTaken([], []) == {};
  }

  /** Where it happens: the fifth operation of an expired snapshot, whatever it then grades. */
  lemma SnapshotReenters(server: nat, lab: nat, gradings: seq<seq<Call>>)
    ensures var ops := Program(SnapshotExpired(gradings), server, lab);
            && |ops| > 4 && ops[0] == Take(Controller(server)) == ops[4]
            && After(ops[..4], []) == Some([Controller(server)])
  {
    var ops := Program(SnapshotExpired(gradings), server, lab);
    var c, e := Controller(server), ExamFile(lab);
    assert ops[..4] == [Take(c), Take(e), Work, Drop(e)];
    assert ops[..4][1..] == [Take(e), Work, Drop(e)];
    assert [Take(e), Work, Drop(e)][1..] == [Work, Drop(e)] && [Work, Drop(e)][1..] == [Drop(e)];
    assert After([Drop(e)], [c] + [e]) == After([], [c]) by {
      assert ([c] + [e])[..1] == [c];
    }
    assert After([Work, Drop(e)], [c] + [e]) == Some([c]);
    assert After([Take(e), Work, Drop(e)], [c]) == Some([c]);
    assert [] + [c] == [c];
  }
}
