/** The lab state store: one atomic cell per lab name, changed only through the mutators. */
module LabStore {
  import opened Wrappers
  import opened LabStates
  import opened LabRuns

  ghost predicate ValidLabs(namespace: string, labs: map<string, LabState>) {
    forall name :: name in labs ==>
      && Inv(labs[name])
      && labs[name].identity.labName == name
      && labs[name].identity.namespace == namespace
  }

  class LabStateStore {
    const namespace: string
    var labs: map<string, LabState>
    // The read-only grading guard: while it is set, nothing may be written.
    var writesProhibited: bool

    ghost predicate Valid()
      reads this
    {
      ValidLabs(namespace, labs)
    }

    constructor (namespace: string)
      ensures Valid() && this.namespace == namespace && labs == map[] && !writesProhibited
    {
      this.namespace := namespace;
      labs := map[];
      writesProhibited := false;
    }

    /** Create the write-ahead identity. `labId` is the fresh UUID of the call. */
    method Claim(labName: string, labId: string, provider: string) returns (r: Result<LabState>)
      requires Valid()
      modifies this`labs
      ensures Valid()
      ensures r.Ok? <==> && !writesProhibited && labName !in old(labs)
                         && LabStates.Claim(labName, labId, provider, namespace).Ok?
      ensures r.Ok? ==> r == LabStates.Claim(labName, labId, provider, namespace)
      ensures labs == if r.Ok? then old(labs)[labName := r.value] else old(labs)
    {
      if writesProhibited {
        return Err(Validation);
      }
      var state := LabStates.Claim(labName, labId, provider, namespace);
      if state.Err? {
        return state;
      }
      if labName in labs {
        return Err(Error.Exists);
      }
      ClaimInv(labName, labId, provider, namespace);
      labs := labs[labName := state.value];
      return state;
    }

    method Load(labName: string) returns (r: Result<LabState>)
      requires Valid()
      ensures r == if labName in labs then Ok(labs[labName]) else Err(Missing)
    {
      if labName !in labs {
        return Err(Missing);
      }
      return Ok(labs[labName]);
    }

    /** Any mutator: load, check, and replace the stored state, or leave it exactly as it was. */
    method Mutate(labName: string, expectedId: string, request: Request) returns (r: Result<LabState>)
      requires Valid()
      modifies this`labs
      ensures Valid()
      ensures labName !in old(labs) ==> r == Err(Missing)
      ensures labName in old(labs) ==>
                var s, t := old(labs)[labName], Next(old(labs)[labName], expectedId, request);
                r == if t.Ok? && writesProhibited && t.value != s then Err(Validation) else t
      ensures labs == if r.Ok? then old(labs)[labName := r.value] else old(labs)
    {
      hide Proposal, Construct, ValidIdentity, OpenAttempt, ReachedVerified;
      if labName !in labs {
        return Err(Missing);
      }
      var state := labs[labName];
      var updated := Next(state, expectedId, request);
      if updated.Err? {
        return updated;
      }
      StepInv(state, expectedId, request);
      StepLater(state, expectedId, request);
      if updated.value != state {
        if writesProhibited {
          return Err(Validation);
        }
        labs := labs[labName := updated.value];
      }
      return updated;
    }

    /** Code under the read-only guard: it may try any number of writes, and none succeeds. */
    method WithoutWrites(attempts: nat)
      requires Valid()
      modifies this
      ensures labs == old(labs) && writesProhibited == old(writesProhibited)
    {
      hide LabRuns.Inv, LabStates.Construct, Proposal;
      var guarded := writesProhibited;
      writesProhibited := true;
      for k := 0 to attempts
        invariant Valid() && labs == old(labs) && writesProhibited
      {
        var name: string, expectedId: string, provider: string, request: Request := *, *, *, *;
        if * {
          var claimed := Claim(name, expectedId, provider);
        } else {
          var changed := Mutate(name, expectedId, request);
        }
      }
      writesProhibited := guarded;
    }
  }
}
