/**
 * The environment of the sagas: scenario handlers, probes, attestations and the guests behind them.
 * Every answer is nondeterministic, a call may leave its task half-changed, and the calling process
 * may die during it. `faults` counts the answers that were not the ones a flawless run would get.
 */
module Guests {
  import opened Wrappers
  import opened Identifiers
  import LiveGrading

  // `Altered` stands for every state that is neither the restored nor the prepared contract.
  datatype TaskState = Restored | Prepared | Altered

  datatype Observed<K> = Observed(task: K, inputs: LiveGrading.Inputs)

  /** The last two attestations were made since `before`, and they agree. */
  predicate Unmoved(before: seq<string>, after: seq<string>) {
    && |after| >= |before| + 2 && before <= after
    && after[|after| - 1] == after[|after| - 2]
  }

  /** The last attestation was made since `before`, and it found this health. */
  predicate Found(before: seq<string>, after: seq<string>, health: string) {
    |after| > |before| && before <= after && after[|after| - 1] == health
  }

  class Guest<K(==,!new)> {
    var tasks: K -> TaskState
    // The tasks that a compensation or teardown tried to restore, what graders collected, and the lab's health.
    var attempts: seq<K>
    var collected: seq<Observed<K>>
    var attested: seq<string>
    var faults: nat

    constructor ()
      ensures forall t :: tasks(t) == Restored
      ensures attempts == [] && collected == [] && attested == [] && faults == 0
    {
      tasks := _ => Restored;
      attempts := [];
      collected := [];
      attested := [];
      faults := 0;
    }

    /** Prepare a task. The expected fingerprint, `Returned(true)`, means that it reached its contract. */
    method Prepare(task: K) returns (o: Outcome<bool>)
      modifies this`tasks, this`faults
      ensures forall t :: t != task ==> tasks(t) == old(tasks)(t)
      ensures if o == Returned(true) then tasks(task) == Prepared && faults == old(faults) else faults > old(faults)
    {
      o := Change(task, Prepared);
    }

    /** Restore a task. The expected fingerprint, `Returned(true)`, means that it reached its contract. */
    method Restore(task: K) returns (o: Outcome<bool>)
      modifies this`tasks, this`faults
      ensures forall t :: t != task ==> tasks(t) == old(tasks)(t)
      ensures if o == Returned(true) then tasks(task) == Restored && faults == old(faults) else faults > old(faults)
    {
      o := Change(task, Restored);
    }

    method Change(task: K, goal: TaskState) returns (o: Outcome<bool>)
      modifies this`tasks, this`faults
      ensures forall t :: t != task ==> tasks(t) == old(tasks)(t)
      ensures if o == Returned(true) then tasks(task) == goal && faults == old(faults) else faults > old(faults)
    {
      var before, after: TaskState := tasks, *;
      o := *;
      if o == Returned(true) {
        after := goal;
      } else {
        faults := faults + 1;
      }
      tasks := t => if t == task then after else before(t);
    }

    /** The candidate works on any task that the given test admits. */
    method Work(allowed: K -> bool)
      modifies this`tasks
      ensures forall t :: !allowed(t) ==> tasks(t) == old(tasks)(t)
    {
      var before, after: K -> TaskState := tasks, *;
      tasks := t => if allowed(t) then after(t) else before(t);
    }

    method Log(task: K)
      modifies this`attempts
      ensures attempts == old(attempts) + [task]
    {
      attempts := attempts + [task];
    }

    /** A lookup or a read-only probe: the given answer, or any failure. */
    method Answer<T>(value: T) returns (o: Outcome<T>)
      modifies this`faults
      ensures if o == Returned(value) then faults == old(faults) else faults > old(faults) && !o.Returned?
    {
      o := Returned(value);
      if * {
        o := Crashed;
        faults := faults + 1;
      } else if * {
        var e: Error := *;
        o := Raised(e);
        faults := faults + 1;
      }
    }

    /** Collect what one task is graded by. A flawless run collects admissible evidence. */
    method Collect(task: K) returns (o: Outcome<LiveGrading.Inputs>)
      modifies this`collected, this`faults
      ensures collected == old(collected) + if o.Returned? then [Observed(task, o.value)] else []
      ensures if o.Returned? && LiveGrading.Judge(o.value).Ok? then faults == old(faults) else faults > old(faults)
    {
      o := *;
      if o.Returned? {
        collected := collected + [Observed(task, o.value)];
      }
      if !o.Returned? || LiveGrading.Judge(o.value).Err? {
        faults := faults + 1;
      }
    }

    /** Attest the lab's health. A flawless run reports the trusted baseline, or a canonical first one. */
    method Attest(trusted: Option<string>) returns (o: Outcome<string>)
      modifies this`attested, this`faults
      ensures attested == old(attested) + if o.Returned? then [o.value] else []
      ensures faults >= old(faults)
      ensures o.Returned? && trusted.None? ==> IsSha256(o.value)
      ensures faults == old(faults) ==> o.Returned? && (trusted.Some? ==> o.value == trusted.value)
      ensures o.Returned? && trusted.Some? && o.value == trusted.value ==> faults == old(faults)
    {
      o := *;
      if o.Returned? && trusted.None? && IsSha256(o.value) {
      } else if o.Returned? && trusted.Some? && o.value == trusted.value {
      } else {
        faults := faults + 1;
        if o.Returned? && trusted.None? {
          o := Crashed;
        }
      }
      if o.Returned? {
        attested := attested + [o.value];
      }
    }

    /** Note the verdict on an untouched task; a flawless run sees it graded as failed. */
    method Untouched(failed: bool)
      modifies this`faults
      ensures if failed then faults == old(faults) else faults > old(faults)
    {
      if !failed {
        faults := faults + 1;
      }
    }

    /** Whether the calling process dies here, between two atomic steps. */
    method Dies() returns (dead: bool)
      modifies this`faults
      ensures if dead then faults > old(faults) else faults == old(faults)
    {
      dead := *;
      if dead {
        faults := faults + 1;
      }
    }
  }
}
