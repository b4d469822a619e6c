/** Coordinated exact deletion (state.py) and the destroy protocol around it (lab.py). */
module LabDestroy {
  import opened Wrappers
  import opened Providers
  import opened Sequences
  import opened LabStates
  import opened LabRuns
  import opened LabStore

  datatype ProofMode = Ordinary | BreakGlass

  datatype Event = Discovered(seen: Discovery) | Proved(owner: Handle, granted: bool) | Deleted(handle: Handle)

  // ---------------------------------------------------------------------------------------------
  // Deletion order

  function DestroyRank(r: Role): int {
    match r
    case Worker2 => 0
    case Worker1 => 1
    case ControlPlane => 2
    case Candidate => 3
    case Other(_) => -1
  }

  function Insert(m: Machine, sorted: seq<Machine>): seq<Machine> {
    if sorted == [] || DestroyRank(m.role) <= DestroyRank(sorted[0].role) then [m] + sorted
    else [sorted[0]] + Insert(m, sorted[1..])
  }

  /** The machines sorted by destroy rank, equal ranks in their given order. */
  function DeletionOrder(machines: seq<Machine>): seq<Machine> {
    if machines == [] then [] else Insert(machines[0], DeletionOrder(machines[1..]))
  }

  predicate Ascending(machines: seq<Machine>) {
    |machines| > 1 ==> DestroyRank(machines[0].role) <= DestroyRank(machines[1].role) && Ascending(machines[1..])
  }

  lemma {:induction false} InsertAscending(m: Machine, sorted: seq<Machine>)
    requires Ascending(sorted)
    ensures Ascending(Insert(m, sorted)) && Insert(m, sorted) != []
    ensures Insert(m, sorted)[0] == m || (sorted != [] && Insert(m, sorted)[0] == sorted[0])
  {
    if sorted != [] && DestroyRank(m.role) > DestroyRank(sorted[0].role) {
      InsertAscending(m, sorted[1..]);
      assert Insert(m, sorted)[1..] == Insert(m, sorted[1..]);
    } else {
      assert Insert(m, sorted)[1..] == sorted;
    }
  }

  lemma {:induction false} InsertPermutes(m: Machine, sorted: seq<Machine>)
    ensures multiset(Insert(m, sorted)) == multiset{m} + multiset(sorted)
  {
    if sorted != [] && DestroyRank(m.role) > DestroyRank(sorted[0].role) {
      InsertPermutes(m, sorted[1..]);
      assert sorted == [sorted[0]] + sorted[1..];
    }
  }

  /** Deletion visits the machines as a permutation of ascending destroy rank. */
  lemma {:induction false} DeletionOrdered(machines: seq<Machine>)
    ensures Ascending(DeletionOrder(machines)) && multiset(DeletionOrder(machines)) == multiset(machines)
  {
    if machines != [] {
      DeletionOrdered(machines[1..]);
      InsertAscending(machines[0], DeletionOrder(machines[1..]));
      InsertPermutes(machines[0], DeletionOrder(machines[1..]));
      assert machines == [machines[0]] + machines[1..];
    }
  }

  /** The full lab is deleted worker2, worker1, control-plane, candidate. */
  lemma FullLabOrder(machines: seq<Machine>)
    requires multiset(Roles(machines)) == multiset(FULL_ROLES)
    ensures Roles(DeletionOrder(machines)) == [Worker2, Worker1, ControlPlane, Candidate]
  {
    OrderRoles(machines);
    DeletionOrdered(machines);
    AscendingRoles(DeletionOrder(machines));
  }

  lemma AscendingRoles(order: seq<Machine>)
    requires Ascending(order) && multiset(Roles(order)) == multiset(FULL_ROLES)
    ensures Roles(order) == [Worker2, Worker1, ControlPlane, Candidate]
  {
    var roles := Roles(order);
    assert |roles| == |multiset(roles)|;
    assert Ascending(order[1..]) && Ascending(order[1..][1..]);
    assert roles == [roles[0], roles[1], roles[2], roles[3]];
    FourRoles(roles[0], roles[1], roles[2], roles[3]);
  }

  lemma FourRoles(a: Role, b: Role, c: Role, d: Role)
    requires multiset{a, b, c, d} == multiset{Candidate, ControlPlane, Worker1, Worker2}
    requires DestroyRank(a) <= DestroyRank(b) <= DestroyRank(c) <= DestroyRank(d)
    ensures a == Worker2 && b == Worker1 && c == ControlPlane && d == Candidate
  {
    var bag := multiset{Candidate, ControlPlane, Worker1, Worker2};
    assert a in bag && b in bag && c in bag && d in bag;
    assert bag[a] == 1 && bag[b] == 1 && bag[c] == 1 && bag[d] == 1;
  }

  lemma {:induction false} OrderRoles(machines: seq<Machine>)
    ensures multiset(Roles(DeletionOrder(machines))) == multiset(Roles(machines))
  {
    if machines != [] {
      OrderRoles(machines[1..]);
      InsertRoles(machines[0], DeletionOrder(machines[1..]));
      assert Roles(machines) == [machines[0].role] + Roles(machines[1..]);
    }
  }

  lemma {:induction false} InsertRoles(m: Machine, sorted: seq<Machine>)
    ensures multiset(Roles(Insert(m, sorted))) == multiset{m.role} + multiset(Roles(sorted))
  {
    if sorted != [] && DestroyRank(m.role) > DestroyRank(sorted[0].role) {
      InsertRoles(m, sorted[1..]);
      assert Roles(Insert(m, sorted)) == [sorted[0].role] + Roles(Insert(m, sorted[1..]));
      assert Roles(sorted) == [sorted[0].role] + Roles(sorted[1..]);
    } else {
      assert Roles([m] + sorted) == [m.role] + Roles(sorted);
    }
  }

  function Handles(machines: seq<Machine>): seq<Handle> {
    seq(|machines|, i requires 0 <= i < |machines| => machines[i].handle)
  }

  /** The recorded machines whose handle was discovered, in inventory order. */
  function Chosen(inventory: seq<Machine>, handles: seq<Handle>): seq<Machine> {
    if inventory == [] then []
    else (if inventory[0].handle in handles then [inventory[0]] else []) + Chosen(inventory[1..], handles)
  }

  function AsSet(handles: seq<Handle>): (s: set<Handle>)
    ensures s == {} <==> handles == []
  {
    var s := set h | h in handles;
    assert handles != [] ==> handles[0] in s;
    s
  }

  lemma {:induction false} ChosenAll(inventory: seq<Machine>, handles: seq<Handle>)
    requires forall m :: m in inventory ==> m.handle in handles
    ensures Chosen(inventory, handles) == inventory
  {
    if inventory != [] {
      ChosenAll(inventory[1..], handles);
    }
  }

  lemma {:induction false} ChosenMembers(inventory: seq<Machine>, handles: seq<Handle>)
    ensures forall m :: m in Chosen(inventory, handles) <==> m in inventory && m.handle in handles
  {
    if inventory != [] {
      ChosenMembers(inventory[1..], handles);
      assert inventory == [inventory[0]] + inventory[1..];
    }
  }

  // ---------------------------------------------------------------------------------------------
  // A reference monitor over the provider log

  /** The last discovery, the handles proved since, and the handles deleted since. */
  datatype Watch = Watch(seen: Option<Discovery>, proved: set<Handle>, deleted: seq<Handle>)

  function Observe(log: seq<Event>): Watch {
    if log == [] then Watch(None, {}, [])
    else
      var w := Observe(log[..|log| - 1]);
      match log[|log| - 1]
      case Discovered(d) => Watch(Some(d), {}, [])
      case Proved(h, granted) => if granted then w.(proved := w.proved + {h}) else w
      case Deleted(h) => w.(deleted := w.deleted + [h])
  }

  /**
   * A deletion is permitted when the last discovery shows only recorded handles, all of them for an
   * ordinary cleanup; when every discovered handle was proved since; and when it is next in order.
   */
  predicate Permits(w: Watch, inventory: seq<Machine>, mode: ProofMode, h: Handle) {
    && w.seen.Some? && w.seen.value.presence.Present?
    && var found := w.seen.value.handles;
       && AsSet(found) <= AsSet(Handles(inventory))
       && (mode.Ordinary? ==> AsSet(found) == AsSet(Handles(inventory)))
       && AsSet(found) <= w.proved
       && w.deleted + [h] <= Handles(DeletionOrder(Chosen(inventory, found)))
  }

  /** Every deletion logged from `start` on was permitted when it was issued. */
  predicate Guarded(log: seq<Event>, start: nat, inventory: seq<Machine>, mode: ProofMode) {
    forall i :: start <= i < |log| && log[i].Deleted? ==> Permits(Observe(log[..i]), inventory, mode, log[i].handle)
  }

  /**
   * A finished cleanup: the last discovery was definite and within what its mode allows, and since then
   * each discovered machine was deleted once, in destroy order, and nothing else.
   */
  predicate Completed(w: Watch, inventory: seq<Machine>, mode: ProofMode) {
    && w.seen.Some? && !w.seen.value.presence.Unknown?
    && var found := w.seen.value.handles;
       && AsSet(found) <= AsSet(Handles(inventory))
       && (mode.Ordinary? ==> found == [] || AsSet(found) == AsSet(Handles(inventory)))
       && w.deleted == Handles(DeletionOrder(Chosen(inventory, found)))
  }

  lemma {:induction false} ChosenNone(inventory: seq<Machine>)
    ensures Chosen(inventory, []) == []
  {
    if inventory != [] {
      ChosenNone(inventory[1..]);
    }
  }

  predicate NoDeletes(log: seq<Event>, start: nat) {
    forall i :: start <= i < |log| ==> !log[i].Deleted?
  }

  lemma GuardedAppend(log: seq<Event>, e: Event, start: nat, inventory: seq<Machine>, mode: ProofMode)
    requires Guarded(log, start, inventory, mode) && start <= |log|
    requires e.Deleted? ==> Permits(Observe(log), inventory, mode, e.handle)
    ensures Guarded(log + [e], start, inventory, mode)
  {
    var longer := log + [e];
    forall i | start <= i < |longer| && longer[i].Deleted?
      ensures Permits(Observe(longer[..i]), inventory, mode, longer[i].handle)
    {
      assert longer[..i] == if i < |log| then log[..i] else log;
    }
  }

  lemma ObserveAppend(log: seq<Event>, e: Event)
    ensures Observe(log + [e])
         == match e
            case Discovered(d) => Watch(Some(d), {}, [])
            case Proved(h, granted) =>
              if granted then Observe(log).(proved := Observe(log).proved + {h}) else Observe(log)
            case Deleted(h) => Observe(log).(deleted := Observe(log).deleted + [h])
  {
    assert (log + [e])[..|log + [e]| - 1] == log;
  }

  /**
   * A provider behind its protocol: any answer, and a log of what was asked of it. `faults` counts the
   * answers that an undisturbed provider, whose instances nobody else touches, would not have given.
   */
  class Provider {
    const name: string
    var log: seq<Event>
    // The deletions that the provider reported as failed.
    var failures: nat
    var present: set<Handle>
    var faults: nat

    constructor (name: string)
      ensures this.name == name && log == [] && failures == 0 && faults == 0
    {
      this.name := name;
      log := [];
      failures := 0;
      present := {};
      faults := 0;
    }

    method Discover() returns (o: Outcome<Discovery>)
      modifies this`log, this`faults
      ensures o.Returned? ==> ValidDiscovery(o.value) && log == old(log) + [Discovered(o.value)]
      ensures !o.Returned? ==> log == old(log)
      ensures faults >= old(faults)
      ensures faults == old(faults) ==>
                && o.Returned? && o.value.presence == (if present == {} then Absent else Present)
                && AsSet(o.value.handles) == present
    {
      o := *;
      if o.Returned? && !ValidDiscovery(o.value) {
        o := Crashed;
      }
      if o.Returned? {
        log := log + [Discovered(o.value)];
      }
      if !o.Returned? || o.value.presence.Unknown? || AsSet(o.value.handles) != present {
        faults := faults + 1;
      }
    }

    method Prove(owner: Handle) returns (o: Outcome<bool>)
      modifies this`log, this`faults
      ensures o.Returned? ==> log == old(log) + [Proved(owner, o.value)]
      ensures !o.Returned? ==> log == old(log)
      ensures if o == Returned(true) then faults == old(faults) else faults > old(faults)
    {
      o := *;
      if o.Returned? {
        log := log + [Proved(owner, o.value)];
      }
      if o != Returned(true) {
        faults := faults + 1;
      }
    }

    /** Issue one exact deletion; the boolean says whether the provider reports success. */
    method DeleteExact(handle: Handle) returns (o: Outcome<bool>)
      modifies this
      ensures log == old(log) + [Deleted(handle)]
      ensures failures == old(failures) + if o == Returned(false) then 1 else 0
      ensures faults >= old(faults)
      ensures faults == old(faults) ==> o == Returned(true) && present == old(present) - {handle}
    {
      log := log + [Deleted(handle)];
      o := *;
      if o == Returned(true) {
        present := present - {handle};
      } else {
        present := *;
        faults := faults + 1;
      }
      if o == Returned(false) {
        failures := failures + 1;
      }
    }
  }

  // ---------------------------------------------------------------------------------------------
  // The coordinator

  /** Authorize a mutation only when state, provider and guests name exactly the same machines. */
  function MutationAuthority(state: LabState, d: Discovery, guests: seq<GuestIdentity>): Result<LabState> {
    if d.presence.Unknown? then Err(Ownership)
    else if d.presence.Absent? then (if guests != [] then Err(Ownership) else Ok(state))
    else if state.inventory == [] then Err(Ownership)
    else if AsSet(d.handles) != AsSet(Handles(state.inventory)) || |d.handles| != |state.inventory| then Err(Ownership)
    else if |guests| != |state.inventory| then Err(Ownership)
    else if exists i, j :: 0 <= i < j < |guests| && guests[i].handle == guests[j].handle then Err(Ownership)
    else if exists m :: m in state.inventory && Identify(state, m) !in guests then Err(Ownership)
    else Ok(state)
  }

  function Identify(state: LabState, m: Machine): GuestIdentity {
    GuestIdentity(state.identity.labId, m.machineId, m.role, m.handle)
  }

  /** The recorded machine that owns a handle. */
  function Owner(inventory: seq<Machine>, h: Handle): Option<Machine> {
    if inventory == [] then None
    else if inventory[0].handle == h then Some(inventory[0])
    else Owner(inventory[1..], h)
  }

  lemma {:induction false} OwnerExact(inventory: seq<Machine>, h: Handle)
    ensures Owner(inventory, h).Some? <==> h in Handles(inventory)
    ensures Owner(inventory, h).Some? ==>
              Owner(inventory, h).value in inventory && Owner(inventory, h).value.handle == h
  {
    if inventory != [] {
      assert Handles(inventory) == [inventory[0].handle] + Handles(inventory[1..]);
      OwnerExact(inventory[1..], h);
    }
  }

  /** Prove the ownership of every discovered handle, stopping at the first one that is not proved. */
  method ProveAll(state: LabState, d: Discovery, provider: Provider) returns (o: Outcome<seq<GuestIdentity>>)
    requires Observe(provider.log).seen == Some(d)
    modifies provider`log, provider`faults
    ensures old(provider.log) <= provider.log && NoDeletes(provider.log, |old(provider.log)|)
    ensures provider.faults >= old(provider.faults)
    ensures provider.faults == old(provider.faults) && AsSet(d.handles) <= AsSet(Handles(state.inventory)) ==>
              o.Returned?
    ensures o.Returned? ==>
              && AsSet(d.handles) <= AsSet(Handles(state.inventory))
              && Observe(provider.log).seen == Some(d)
              && AsSet(d.handles) <= Observe(provider.log).proved
              && Observe(provider.log).deleted == old(Observe(provider.log).deleted)
              && |o.value| == |d.handles|
              && forall i :: 0 <= i < |d.handles| ==>
                   && Owner(state.inventory, d.handles[i]).Some?
                   && o.value[i] == Identify(state, Owner(state.inventory, d.handles[i]).value)
  {
    var guests := [];
    var i := 0;
    while i < |d.handles|
      invariant 0 <= i <= |d.handles| && |guests| == i && provider.faults == old(provider.faults)
      invariant old(provider.log) <= provider.log && NoDeletes(provider.log, |old(provider.log)|)
      invariant Observe(provider.log).seen == Some(d)
      invariant Observe(provider.log).deleted == old(Observe(provider.log).deleted)
      invariant forall k :: 0 <= k < i ==>
                  && d.handles[k] in Observe(provider.log).proved
                  && d.handles[k] in Handles(state.inventory)
                  && Owner(state.inventory, d.handles[k]).Some?
                  && guests[k] == Identify(state, Owner(state.inventory, d.handles[k]).value)
    {
      var handle := d.handles[i];
      var machine := Owner(state.inventory, handle);
      OwnerExact(state.inventory, handle);
      assert handle in AsSet(d.handles);
      if machine.None? {
        return Raised(Ownership);
      }
      ghost var before := provider.log;
      var proof := provider.Prove(handle);
      if !proof.Returned? {
        return if proof.Crashed? then Crashed else Raised(proof.error);
      }
      if !proof.value {
        return Raised(Ownership);
      }
      ObserveAppend(before, Proved(handle, true));
      guests := guests + [Identify(state, machine.value)];
      i := i + 1;
    }
    return Returned(guests);
  }

  predicate Failures(results: seq<bool>) {
    exists i :: 0 <= i < |results| && !results[i]
  }

  lemma FailuresAppend(results: seq<bool>, ok: bool)
    ensures Failures(results + [ok]) <==> Failures(results) || !ok
  {
    var longer := results + [ok];
    assert longer[|results|] == ok;
    if i :| 0 <= i < |results| && !results[i] {
      assert !longer[i];
    }
  }

  /** Issue one deletion per machine in the given order; an exception stops the rest. */
  method DeleteAll(inventory: seq<Machine>, mode: ProofMode, d: Discovery, provider: Provider, ghost start: nat)
    returns (o: Outcome<seq<bool>>)
    requires start <= |provider.log| && Guarded(provider.log, start, inventory, mode)
    requires d.presence.Present? && Observe(provider.log).seen == Some(d) && Observe(provider.log).deleted == []
    requires AsSet(d.handles) <= Observe(provider.log).proved
    requires AsSet(d.handles) <= AsSet(Handles(inventory))
    requires mode.Ordinary? ==> AsSet(d.handles) == AsSet(Handles(inventory))
    modifies provider
    ensures old(provider.log) <= provider.log && Guarded(provider.log, start, inventory, mode)
    ensures o.Returned? ==>
              && Observe(provider.log).seen == Some(d) && Completed(Observe(provider.log), inventory, mode)
              && Observe(provider.log).deleted == Handles(DeletionOrder(Chosen(inventory, d.handles)))
    ensures provider.failures >= old(provider.failures) && provider.faults >= old(provider.faults)
    ensures o.Returned? ==> (Failures(o.value) <==> provider.failures > old(provider.failures))
    ensures provider.faults == old(provider.faults) ==>
              && o.Returned? && !Failures(o.value)
              && provider.present == old(provider.present) - AsSet(Handles(DeletionOrder(Chosen(inventory, d.handles))))
  {
    hide Permits, Guarded, Completed;
    var order := DeletionOrder(Chosen(inventory, d.handles));
    ghost var handles := Handles(order);
    var results := [];
    var i := 0;
    while i < |order|
      invariant 0 <= i <= |order| && |results| == i
      invariant old(provider.log) <= provider.log && Guarded(provider.log, start, inventory, mode)
      invariant Observe(provider.log).seen == Some(d) && AsSet(d.handles) <= Observe(provider.log).proved
      invariant Observe(provider.log).deleted == handles[..i]
      invariant provider.failures >= old(provider.failures)
      invariant Failures(results) <==> provider.failures > old(provider.failures)
      invariant provider.faults >= old(provider.faults)
      invariant provider.faults == old(provider.faults) ==>
                  && !Failures(results) && provider.present == old(provider.present) - AsSet(handles[..i])
    {
      ghost var before := provider.log;
      assert handles[..i] + [handles[i]] == handles[..i + 1];
      NextPermitted(Observe(before), inventory, mode, d, i);
      GuardedAppend(before, Deleted(order[i].handle), start, inventory, mode);
      ObserveAppend(before, Deleted(order[i].handle));
      var deleted := provider.DeleteExact(order[i].handle);
      if !deleted.Returned? {
        return if deleted.Crashed? then Crashed else Raised(deleted.error);
      }
      FailuresAppend(results, deleted.value);
      results := results + [deleted.value];
      i := i + 1;
    }
    assert handles[..i] == handles;
    AllCompleted(Observe(provider.log), inventory, mode, d);
    return Returned(results);
  }

  lemma NextPermitted(w: Watch, inventory: seq<Machine>, mode: ProofMode, d: Discovery, i: nat)
    requires w.seen == Some(d) && d.presence.Present? && AsSet(d.handles) <= w.proved
    requires AsSet(d.handles) <= AsSet(Handles(inventory))
    requires mode.Ordinary? ==> AsSet(d.handles) == AsSet(Handles(inventory))
    requires i < |DeletionOrder(Chosen(inventory, d.handles))|
    requires w.deleted == Handles(DeletionOrder(Chosen(inventory, d.handles)))[..i]
    ensures Permits(w, inventory, mode, DeletionOrder(Chosen(inventory, d.handles))[i].handle)
  {
    var handles := Handles(DeletionOrder(Chosen(inventory, d.handles)));
    assert handles[..i] + [handles[i]] == handles[..i + 1];
  }

  lemma AllCompleted(w: Watch, inventory: seq<Machine>, mode: ProofMode, d: Discovery)
    requires w.seen == Some(d) && !d.presence.Unknown?
    requires AsSet(d.handles) <= AsSet(Handles(inventory))
    requires mode.Ordinary? ==> AsSet(d.handles) == AsSet(Handles(inventory))
    requires w.deleted == Handles(DeletionOrder(Chosen(inventory, d.handles)))
    ensures Completed(w, inventory, mode)
  {
  }

  lemma NoDeletesGuarded(log: seq<Event>, start: nat, inventory: seq<Machine>, mode: ProofMode)
    requires NoDeletes(log, start)
    ensures Guarded(log, start, inventory, mode)
  {
  }

  /** Ordinary cleanup: reconcile state, provider and guests, then delete every recorded machine. */
  method DestroyOwned(state: LabState, provider: Provider) returns (o: Outcome<seq<bool>>)
    modifies provider
    ensures provider.faults >= old(provider.faults)
    ensures && provider.faults == old(provider.faults) && provider.name == state.identity.provider
            && Intact(state.inventory)
            && (old(provider.present) == AsSet(Handles(state.inventory)) || old(provider.present) == {}) ==>
              o.Returned? && !Failures(o.value) && provider.present == {}
    ensures provider.name != state.identity.provider ==> o.Raised? && provider.log == old(provider.log)
    ensures old(provider.log) <= provider.log
    ensures Guarded(provider.log, |old(provider.log)|, state.inventory, Ordinary)
    ensures o.Returned? ==> Completed(Observe(provider.log), state.inventory, Ordinary)
    ensures o.Returned? && o.value != [] ==> Observe(provider.log).deleted == Handles(DeletionOrder(state.inventory))
    ensures provider.failures >= old(provider.failures)
    ensures o.Returned? ==> (Failures(o.value) <==> provider.failures > old(provider.failures))
  {
    ghost var start := |provider.log|;
    if provider.name != state.identity.provider {
      return Raised(Ownership);
    }
    ghost var before := provider.log;
    var discovery := provider.Discover();
    if !discovery.Returned? {
      return if discovery.Crashed? then Crashed else Raised(discovery.error);
    }
    var d := discovery.value;
    ObserveAppend(before, Discovered(d));
    var guests: seq<GuestIdentity> := [];
    if d.presence.Present? {
      var proved := ProveAll(state, d, provider);
      NoDeletesGuarded(provider.log, start, state.inventory, Ordinary);
      if !proved.Returned? {
        return if proved.Crashed? then Crashed else Raised(proved.error);
      }
      guests := proved.value;
    }
    NoDeletesGuarded(provider.log, start, state.inventory, Ordinary);
    if d.presence.Present? && Intact(state.inventory) && AsSet(d.handles) == AsSet(Handles(state.inventory)) {
      AuthorityGranted(state, d, guests);
    }
    var authorized := MutationAuthority(state, d, guests);
    if authorized.Err? {
      return Raised(authorized.error);
    }
    ChosenNone(state.inventory);
    if !d.presence.Present? {
      return Returned([]);
    }
    AllChosen(state.inventory, d.handles);
    DeletionHandles(state.inventory);
    o := DeleteAll(state.inventory, Ordinary, d, provider, start);
  }

  /** The handles of an inventory name its machines: no two machines share one. */
  predicate Intact(inventory: seq<Machine>) {
    inventory != [] && NoDuplicates(Handles(inventory))
  }

  lemma OwnerOfMachine(inventory: seq<Machine>, m: Machine)
    requires NoDuplicates(Handles(inventory)) && m in inventory
    ensures Owner(inventory, m.handle) == Some(m)
  {
    OwnerExact(inventory, m.handle);
    var i :| 0 <= i < |inventory| && inventory[i] == m;
    assert Handles(inventory)[i] == m.handle;
    var n := Owner(inventory, m.handle).value;
    var j :| 0 <= j < |inventory| && inventory[j] == n;
    assert Handles(inventory)[j] == m.handle;
  }

  lemma {:induction false} SizeOfSet(handles: seq<Handle>)
    requires NoDuplicates(handles)
    ensures |AsSet(handles)| == |handles|
  {
    if handles != [] {
      var init, last := handles[..|handles| - 1], handles[|handles| - 1];
      SizeOfSet(init);
      assert AsSet(handles) == AsSet(init) + {last};
    }
  }

  /** Exactly proved guests of exactly the recorded machines authorize the mutation. */
  lemma AuthorityGranted(state: LabState, d: Discovery, guests: seq<GuestIdentity>)
    requires Intact(state.inventory) && ValidDiscovery(d) && d.presence.Present?
    requires AsSet(d.handles) == AsSet(Handles(state.inventory)) && |guests| == |d.handles|
    requires forall i :: 0 <= i < |d.handles| ==>
               && Owner(state.inventory, d.handles[i]).Some?
               && guests[i] == Identify(state, Owner(state.inventory, d.handles[i]).value)
    ensures MutationAuthority(state, d, guests).Ok?
  {
    SizeOfSet(d.handles);
    SizeOfSet(Handles(state.inventory));
    forall i | 0 <= i < |guests| ensures guests[i].handle == d.handles[i] {
      OwnerExact(state.inventory, d.handles[i]);
    }
    forall m | m in state.inventory ensures Identify(state, m) in guests {
      OwnerOfMachine(state.inventory, m);
      var i :| 0 <= i < |state.inventory| && state.inventory[i] == m;
      assert Handles(state.inventory)[i] == m.handle;
      assert m.handle in AsSet(d.handles);
      var k :| 0 <= k < |d.handles| && d.handles[k] == m.handle;
      assert guests[k] == Identify(state, m);
    }
  }

  lemma DeletionHandles(machines: seq<Machine>)
    ensures AsSet(Handles(DeletionOrder(machines))) == AsSet(Handles(machines))
  {
    var order := DeletionOrder(machines);
    DeletionOrdered(machines);
    SameHandles(machines, order);
    SameHandles(order, machines);
  }

  lemma SameHandles(a: seq<Machine>, b: seq<Machine>)
    requires multiset(a) == multiset(b)
    ensures AsSet(Handles(a)) <= AsSet(Handles(b))
  {
    forall h | h in AsSet(Handles(a)) ensures h in AsSet(Handles(b)) {
      var i :| 0 <= i < |a| && Handles(a)[i] == h;
      assert a[i] in multiset(b);
      var j :| 0 <= j < |b| && b[j] == a[i];
      assert Handles(b)[j] == h;
    }
  }

  lemma ChosenHandles(inventory: seq<Machine>, handles: seq<Handle>)
    requires AsSet(handles) <= AsSet(Handles(inventory))
    ensures AsSet(Handles(Chosen(inventory, handles))) == AsSet(handles)
  {
    var chosen := Chosen(inventory, handles);
    ChosenMembers(inventory, handles);
    forall h | h in AsSet(handles) ensures h in AsSet(Handles(chosen)) {
      var i :| 0 <= i < |inventory| && Handles(inventory)[i] == h;
      assert inventory[i] in chosen;
      var j :| 0 <= j < |chosen| && chosen[j] == inventory[i];
      assert Handles(chosen)[j] == h;
    }
    forall h | h in AsSet(Handles(chosen)) ensures h in AsSet(handles) {
      var j :| 0 <= j < |chosen| && Handles(chosen)[j] == h;
      assert chosen[j] in chosen;
    }
  }

  lemma AllChosen(inventory: seq<Machine>, handles: seq<Handle>)
    requires AsSet(handles) == AsSet(Handles(inventory))
    ensures Chosen(inventory, handles) == inventory
  {
    forall m | m in inventory ensures m.handle in handles {
      var i :| 0 <= i < |inventory| && inventory[i] == m;
      assert Handles(inventory)[i] == m.handle;
      assert m.handle in AsSet(handles);
    }
    ChosenAll(inventory, handles);
  }

  /** Break-glass cleanup: delete only the discovered recorded machines of a degraded or pending lab. */
  method BreakGlassDestroyOwned(state: LabState, expectedId: string, provider: Provider)
    returns (o: Outcome<seq<bool>>)
    requires state.journal != []
    modifies provider
    ensures provider.faults >= old(provider.faults)
    ensures && provider.faults == old(provider.faults) && provider.name == state.identity.provider
            && state.identity.labId == expectedId && (state.Phase().Degraded? || state.Phase().CleanupPending?)
            && Intact(state.inventory) && old(provider.present) <= AsSet(Handles(state.inventory)) ==>
              o.Returned? && !Failures(o.value) && provider.present == {}
    // Any other lab, phase or provider is refused before the provider is asked for anything.
    ensures state.identity.labId != expectedId || !(state.Phase().Degraded? || state.Phase().CleanupPending?)
            || state.inventory == [] || provider.name != state.identity.provider ==>
              o.Raised? && provider.log == old(provider.log)
    ensures old(provider.log) <= provider.log
    ensures Guarded(provider.log, |old(provider.log)|, state.inventory, BreakGlass)
    ensures o.Returned? ==> Completed(Observe(provider.log), state.inventory, BreakGlass)
    ensures provider.failures >= old(provider.failures)
    ensures o.Returned? ==> (Failures(o.value) <==> provider.failures > old(provider.failures))
  {
    ghost var start := |provider.log|;
    if state.identity.labId != expectedId {
      return Raised(Ownership);
    }
    if !state.Phase().Degraded? && !state.Phase().CleanupPending? {
      return Raised(Ownership);
    }
    if state.inventory == [] || provider.name != state.identity.provider {
      return Raised(Ownership);
    }
    ghost var before := provider.log;
    var discovery := provider.Discover();
    if !discovery.Returned? {
      return if discovery.Crashed? then Crashed else Raised(discovery.error);
    }
    var d := discovery.value;
    ObserveAppend(before, Discovered(d));
    if d.presence.Unknown? {
      return Raised(Ownership);
    }
    ChosenNone(state.inventory);
    if d.presence.Absent? {
      return Returned([]);
    }
    if !(AsSet(d.handles) <= AsSet(Handles(state.inventory))) {
      return Raised(Ownership);
    }
    var proved := ProveAll(state, d, provider);
    NoDeletesGuarded(provider.log, start, state.inventory, BreakGlass);
    if !proved.Returned? {
      return if proved.Crashed? then Crashed else Raised(proved.error);
    }
    ChosenHandles(state.inventory, d.handles);
    DeletionHandles(Chosen(state.inventory, d.handles));
    o := DeleteAll(state.inventory, BreakGlass, d, provider, start);
  }

  // ---------------------------------------------------------------------------------------------
  // The destroy operation

  lemma GuardedEarlier(log: seq<Event>, start: nat, middle: nat, inventory: seq<Machine>, mode: ProofMode)
    requires start <= middle <= |log|
    requires NoDeletes(log[..middle], start) && Guarded(log, middle, inventory, mode)
    ensures Guarded(log, start, inventory, mode)
  {
    assert forall i :: start <= i < middle ==> log[i] == log[..middle][i];
  }

  lemma SubsetSize(a: set<Handle>, b: set<Handle>)
    requires a <= b
    ensures |a| <= |b|
  {
    assert b == a + (b - a);
  }

  /** A legal inventory names its machines by distinct handles. */
  lemma LegalIsIntact(s: LabState)
    requires LabRuns.Inv(s) && s.inventory != []
    ensures Intact(s.inventory)
  {
    hide DeriveHandle, OrderObservations, WellFormedFields, OpenAttempt, ReachedVerified, ValidMachine;
    ConstructedExact(s);
  }

  class Lifecycle {
    const store: LabStateStore
    const provider: Provider

    constructor (store: LabStateStore, provider: Provider)
      ensures this.store == store && this.provider == provider
    {
      this.store := store;
      this.provider := provider;
    }

    ghost predicate LastSawAbsence()
      reads provider
    {
      && provider.log != []
      && provider.log[|provider.log| - 1].Discovered?
      && provider.log[|provider.log| - 1].seen.presence.Absent?
    }

    /** The look that saw absence came after a finished cleanup. */
    ghost predicate CleanedUp(inventory: seq<Machine>, breakGlass: bool)
      reads provider
    {
      && LastSawAbsence()
      && Completed(Observe(provider.log[..|provider.log| - 1]), inventory, Mode(breakGlass))
    }

    function Mode(breakGlass: bool): ProofMode {
      if breakGlass then BreakGlass else Ordinary
    }

    /** The state that the write-ahead cleanup entry leaves behind. */
    ghost function Pending(s: LabState): LabState
      requires s.journal != []
    {
      if s.Phase() == CleanupPending then s else s.Append(CleanupPending)
    }

    /** The callers, modes and machines for which a cleanup can succeed. */
    ghost predicate Permitted(s: LabState, breakGlass: bool, expectedId: Option<string>)
      requires s.journal != []
      reads provider
    {
      && s.inventory != [] && provider.name == s.identity.provider
      && expectedId == (if breakGlass then Some(s.identity.labId) else None)
      && if s.Phase() == Destroyed then provider.present == {} else Destroyable(s, breakGlass)
    }

    /** Delete the machines of a lab and journal its destruction, in ordinary or break-glass mode. */
    method Destroy(labName: string, breakGlass: bool, expectedId: Option<string>) returns (o: Outcome<LabState>)
      requires store.Valid() && !store.writesProhibited
      modifies store`labs, provider
      ensures store.Valid() && old(provider.log) <= provider.log
      ensures labName !in old(store.labs) ==> !o.Returned? && store.labs == old(store.labs)
                                              && NoDeletes(provider.log, |old(provider.log)|)
      ensures labName in old(store.labs) && old(store.labs)[labName].journal != [] ==>
                var s := old(store.labs)[labName];
                && Guarded(provider.log, |old(provider.log)|, s.inventory, Mode(breakGlass))
                // A lab is only cleaned up on its own terms: break-glass names this very lab, and nothing else does.
                && (expectedId != (if breakGlass then Some(s.identity.labId) else None) || s.inventory == [] ==>
                      o.Raised? && store.labs == old(store.labs) && provider.log == old(provider.log))
                // A tombstone is only verified again.
                && (s.Phase() == Destroyed ==>
                      store.labs == old(store.labs) && NoDeletes(provider.log, |old(provider.log)|))
                // Nothing is deleted before the cleanup is journaled.
                && (|| NoDeletes(provider.log, |old(provider.log)|)
                    || (labName in store.labs && Pending(s).journal <= store.labs[labName].journal))
                // Without success, the journal gains the cleanup entry at most.
                && (!o.Returned? ==>
                      store.labs == old(store.labs) || store.labs == old(store.labs)[labName := Pending(s)])
                // Success means that the last look at the provider found none of the machines, and that
                // everything discovered before it was deleted in order.
                && (o.Returned? ==>
                      && LastSawAbsence() && provider.failures == old(provider.failures)
                      && (s.Phase() != Destroyed ==> CleanedUp(s.inventory, breakGlass))
                      && store.labs == old(store.labs)[labName := o.value]
                      && o.value == if s.Phase() == Destroyed then s else Pending(s).Append(Destroyed))
      // An undisturbed provider lets a permitted cleanup succeed.
      ensures && provider.faults == old(provider.faults)
              && labName in old(store.labs) && old(store.labs)[labName].journal != []
              && old(Permitted(store.labs[labName], breakGlass, expectedId))
              ==> o.Returned?
    {
      hide LabRuns.Inv, LabStates.Construct, Proposal, Observe, Permits, Guarded;
      ghost var start := |provider.log|;
      var loaded := store.Load(labName);
      if loaded.Err? {
        return Raised(loaded.error);
      }
      var state := loaded.value;
      InvJournal(state);
      ghost var mode := Mode(breakGlass);
      NoDeletesGuarded(provider.log, start, state.inventory, mode);
      if expectedId.Some? && !breakGlass {
        return Raised(Lifecycle);
      }
      if breakGlass && expectedId != Some(state.identity.labId) {
        return Raised(Lifecycle);
      }
      if state.inventory == [] {
        return Raised(Lifecycle);
      }
      LegalIsIntact(state);
      if state.Phase() == Destroyed {
        o := Reverify(state);
        NoDeletesGuarded(provider.log, start, state.inventory, mode);
        assert store.labs == old(store.labs)[labName := state];
        return;
      }
      o := Proceed(labName, state, breakGlass);
    }

    /** Journal the cleanup ahead of it, delete the machines, and journal their absence. */
    method Proceed(labName: string, state: LabState, breakGlass: bool) returns (o: Outcome<LabState>)
      requires store.Valid() && !store.writesProhibited && labName in store.labs && store.labs[labName] == state
      requires state.journal != [] && state.Phase() != Destroyed
      modifies store`labs, provider
      ensures store.Valid() && old(provider.log) <= provider.log && provider.faults >= old(provider.faults)
      ensures Guarded(provider.log, |old(provider.log)|, state.inventory, Mode(breakGlass))
      ensures if o.Returned? then
                && CleanedUp(state.inventory, breakGlass) && provider.failures == old(provider.failures)
                && o.value == Pending(state).Append(Destroyed)
                && store.labs == old(store.labs)[labName := o.value]
              else store.labs == old(store.labs)[labName := Pending(state)]
      ensures && provider.faults == old(provider.faults) && provider.name == state.identity.provider
              && Intact(state.inventory) && old(Destroyable(state, breakGlass))
              ==> o.Returned?
    {
      hide LabRuns.Inv, LabStates.Construct, Proposal, Observe, Permits, Guarded;
      var pending := state;
      if state.Phase() != CleanupPending {
        CleanupAccepted(state, CleanupPending);
        var advanced := store.Mutate(labName, state.identity.labId, Advance(CleanupPending));
        pending := advanced.value;
      }
      var cleaned := CleanUp(pending, breakGlass);
      if !cleaned.Returned? {
        return if cleaned.Crashed? then Crashed else Raised(cleaned.error);
      }
      CleanupAccepted(pending, Destroyed);
      var destroyed := store.Mutate(labName, state.identity.labId, Advance(Destroyed));
      return Returned(destroyed.value);
    }

    /** Delete the machines, then look once more: only reported absence without failures will do. */
    method CleanUp(state: LabState, breakGlass: bool) returns (o: Outcome<()>)
      requires state.journal != [] && state.Phase() == CleanupPending
      modifies provider
      ensures old(provider.log) <= provider.log && provider.faults >= old(provider.faults)
      ensures && provider.faults == old(provider.faults) && provider.name == state.identity.provider
              && Intact(state.inventory) && old(Destroyable(state, breakGlass))
              ==> o.Returned?
      ensures Guarded(provider.log, |old(provider.log)|, state.inventory, Mode(breakGlass))
      ensures o.Returned? ==> CleanedUp(state.inventory, breakGlass) && provider.failures == old(provider.failures)
    {
      hide Completed, Observe, Permits, Guarded;
      ghost var start, mode := |provider.log|, Mode(breakGlass);
      var results;
      if breakGlass {
        var allowed := BreakGlassAllowed(state);
        NoDeletesGuarded(provider.log, start, state.inventory, BreakGlass);
        if !allowed.Returned? {
          return allowed;
        }
        ghost var middle := provider.log;
        results := BreakGlassDestroyOwned(state, state.identity.labId, provider);
        assert provider.log[..|middle|] == middle;
        GuardedEarlier(provider.log, start, |middle|, state.inventory, BreakGlass);
      } else {
        results := DestroyOwned(state, provider);
      }
      if !results.Returned? {
        return if results.Crashed? then Crashed
               else Raised(if !breakGlass && results.error == Ownership then Lifecycle else results.error);
      }
      ghost var before := provider.log;
      var discovery := provider.Discover();
      if !discovery.Returned? {
        return if discovery.Crashed? then Crashed else Raised(discovery.error);
      }
      GuardedAppend(before, Discovered(discovery.value), start, state.inventory, mode);
      assert provider.log[..|provider.log| - 1] == before;
      if discovery.value.presence.Unknown? || Failures(results.value) || !discovery.value.presence.Absent? {
        return Raised(Lifecycle);
      }
      return Returned(());
    }

    /** Ordinary cleanup takes the whole lab or nothing; break-glass cleanup takes any part of it. */
    ghost predicate Destroyable(state: LabState, breakGlass: bool)
      reads provider
    {
      if breakGlass then provider.present != {} && provider.present <= AsSet(Handles(state.inventory))
      else provider.present == AsSet(Handles(state.inventory)) || provider.present == {}
    }

    /** Break-glass cleanup goes on only with a non-empty part of the recorded machines in sight. */
    method BreakGlassAllowed(state: LabState) returns (o: Outcome<()>)
      modifies provider`log, provider`faults
      ensures old(provider.log) <= provider.log && NoDeletes(provider.log, |old(provider.log)|)
      ensures provider.faults >= old(provider.faults)
      ensures provider.faults == old(provider.faults) && Intact(state.inventory) && Destroyable(state, true) ==>
                o.Returned?
      ensures o.Returned? ==>
                && provider.log != [] && provider.log[|provider.log| - 1].Discovered?
                && var found := provider.log[|provider.log| - 1].seen;
                   found.presence.Present? && AsSet(found.handles) <= AsSet(Handles(state.inventory))
    {
      var discovery := provider.Discover();
      if !discovery.Returned? {
        return if discovery.Crashed? then Crashed else Raised(discovery.error);
      }
      var d := discovery.value;
      if Intact(state.inventory) && AsSet(d.handles) <= AsSet(Handles(state.inventory)) {
        SizeOfSet(d.handles);
        SizeOfSet(Handles(state.inventory));
        SubsetSize(AsSet(d.handles), AsSet(Handles(state.inventory)));
      }
      if d.presence.Unknown? || !d.presence.Present? || !(0 < |d.handles| <= |state.inventory|)
         || !(AsSet(d.handles) <= AsSet(Handles(state.inventory))) {
        return Raised(Lifecycle);
      }
      return Returned(());
    }

    /** A tombstone must still be absent; looking changes nothing. */
    method Reverify(state: LabState) returns (o: Outcome<LabState>)
      modifies provider`log, provider`faults
      ensures old(provider.log) <= provider.log && NoDeletes(provider.log, |old(provider.log)|)
      ensures provider.faults >= old(provider.faults)
      ensures provider.faults == old(provider.faults) && provider.present == {} ==> o.Returned?
      ensures o.Returned? ==> o.value == state && LastSawAbsence()
    {
      var discovery := provider.Discover();
      if !discovery.Returned? {
        return if discovery.Crashed? then Crashed else Raised(discovery.error);
      }
      if !discovery.value.presence.Absent? {
        return Raised(Lifecycle);
      }
      return Returned(state);
    }
  }
}
