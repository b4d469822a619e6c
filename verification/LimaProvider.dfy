/**
 * The Lima provider (lima.py): every mutation goes by name only, so a fingerprint is observed again
 * before each of them. Instances may be replaced, restarted or removed between any two commands.
 */
module LimaProvider {
  import opened Wrappers
  import opened Identifiers
  import opened Providers

  // SHA-256 is modelled as an injective constructor; `Foreign` is every other canonical digest.
  datatype Digest = Sha(identity: GuestIdentity) | Foreign(text: string)

  datatype Fingerprint = Fingerprint(identity: Digest, data: string)

  datatype Status = Running | Stopped | Unclear

  /** An instance as the inventory shows it: status, identity parameter, digest of its fixed fields. */
  datatype Instance = Instance(status: Status, identity: Option<Digest>, data: string) {
    function Generation(): Option<Fingerprint> {
      if identity.None? then None else Some(Fingerprint(identity.value, data))
    }
  }

  datatype Sight = Unknowable | Nothing | Seen(instance: Instance)

  datatype Mode = Ordinary | BreakGlass

  datatype Event =
    | Saw(at: Handle, sight: Sight)
    | Read(reader: Handle, marker: Option<GuestIdentity>)
    | Proved(expected: GuestIdentity, mode: Mode, fp: Fingerprint)
    | Created(created: Handle, digest: Digest)
    | Wrote(written: Handle, content: GuestIdentity)
    | Restarted(restarted: Handle, was: Fingerprint)
    | StoppedForDelete(stopped: Handle)
    | StoppedForRollback(undone: Handle)
    | Deleted(deleted: Handle)

  // ---------------------------------------------------------------------------------------------
  // A reference monitor over the trace of commands

  /** The proven fingerprint of a handle that no deletion has used up. */
  function Held(trace: seq<Event>, h: Handle): Option<Fingerprint> {
    if trace == [] then None
    else
      var before := Held(trace[..|trace| - 1], h);
      match trace[|trace| - 1]
      case Proved(expected, _, fp) => if expected.handle == h then Some(fp) else before
      case Deleted(handle) => if handle == h then None else before
      case _ => before
  }

  /** The fingerprint of the instance that a restart of the handle started last. */
  function Started(trace: seq<Event>, h: Handle): Option<Fingerprint> {
    if trace == [] then None
    else
      var before := Started(trace[..|trace| - 1], h);
      match trace[|trace| - 1]
      case Restarted(handle, fp) => if handle == h then Some(fp) else before
      case _ => before
  }

  /** The newest event is an inventory listing that shows the instance of `h` with this fingerprint. */
  predicate Shows(trace: seq<Event>, h: Handle, fp: Fingerprint) {
    && trace != []
    && var last := trace[|trace| - 1];
       && last.Saw? && last.at == h && last.sight.Seen? && last.sight.instance.Generation() == Some(fp)
  }

  function Shown(trace: seq<Event>, h: Handle, fp: Fingerprint): Status
    requires Shows(trace, h, fp)
  {
    trace[|trace| - 1].sight.instance.status
  }

  predicate StoppedWithDigest(trace: seq<Event>, h: Handle, fp: Fingerprint) {
    Shows(trace, h, fp) && Shown(trace, h, fp).Stopped?
  }

  /** Seen running, and then its marker was read: the expected one, or none where that is excused. */
  predicate RunningWithMarker(trace: seq<Event>, expected: GuestIdentity, mode: Mode, fp: Fingerprint) {
    && trace != []
    && var before, last := trace[..|trace| - 1], trace[|trace| - 1];
       && Shows(before, expected.handle, fp) && Shown(before, expected.handle, fp).Running?
       && last.Read? && last.reader == expected.handle
       && if last.marker.None? then mode.BreakGlass? else last.marker == Some(expected)
  }

  /** What the trace must show for the next command to be issued. */
  predicate Permitted(trace: seq<Event>, e: Event) {
    match e
    case Proved(expected, mode, fp) =>
      && fp.identity == Sha(expected)
      && (StoppedWithDigest(trace, expected.handle, fp) || RunningWithMarker(trace, expected, mode, fp))
    case Restarted(h, fp) => Shows(trace, h, fp) && Shown(trace, h, fp).Stopped?
    case StoppedForDelete(h) =>
      && Held(trace, h).Some? && Shows(trace, h, Held(trace, h).value)
      && !Shown(trace, h, Held(trace, h).value).Unclear?
    case StoppedForRollback(h) =>
      && Started(trace, h).Some? && Shows(trace, h, Started(trace, h).value)
      && !Shown(trace, h, Started(trace, h).value).Unclear?
    case Deleted(h) =>
      && Held(trace, h).Some? && Shows(trace, h, Held(trace, h).value)
      && Shown(trace, h, Held(trace, h).value).Stopped?
    case Created(h, _) => trace != [] && trace[|trace| - 1] == Saw(h, Nothing)
    case _ => true
  }

  predicate Guarded(trace: seq<Event>) {
    forall i :: 0 <= i < |trace| ==> Permitted(trace[..i], trace[i])
  }

  lemma GuardedAppend(trace: seq<Event>, e: Event)
    requires Guarded(trace) && Permitted(trace, e)
    ensures Guarded(trace + [e])
  {
    var longer := trace + [e];
    forall i | 0 <= i < |longer| ensures Permitted(longer[..i], longer[i]) {
      assert longer[..i] == if i < |trace| then trace[..i] else trace;
    }
  }

  lemma MonitorAppend(trace: seq<Event>, e: Event, h: Handle)
    ensures Held(trace + [e], h)
         == if e.Proved? && e.expected.handle == h then Some(e.fp)
            else if e == Deleted(h) then None
            else Held(trace, h)
    ensures Started(trace + [e], h) == if e.Restarted? && e.restarted == h then Some(e.was) else Started(trace, h)
  {
    assert (trace + [e])[..|trace + [e]| - 1] == trace;
  }

  function Proofs(trace: seq<Event>, h: Handle): nat {
    if trace == [] then 0
    else
      var last := trace[|trace| - 1];
      Proofs(trace[..|trace| - 1], h) + if last.Proved? && last.expected.handle == h then 1 else 0
  }

  function Deletes(trace: seq<Event>, h: Handle): nat {
    if trace == [] then 0
    else Deletes(trace[..|trace| - 1], h) + if trace[|trace| - 1] == Deleted(h) then 1 else 0
  }

  /** In every guarded trace, the deletions of a handle never outnumber its successful proofs. */
  lemma {:induction false} DeletesBounded(trace: seq<Event>, h: Handle)
    requires Guarded(trace)
    ensures Deletes(trace, h) + (if Held(trace, h).Some? then 1 else 0) <= Proofs(trace, h)
  {
    hide Permitted;
    if trace != [] {
      var init, last := trace[..|trace| - 1], trace[|trace| - 1];
      assert forall i :: 0 <= i < |init| ==> init[..i] == trace[..i] && init[i] == trace[i];
      assert Guarded(init);
      DeletesBounded(init, h);
      assert Permitted(init, last);
      if last == Deleted(h) {
        DeleteNeedsProof(init, h);
      }
    }
  }

  lemma DeleteNeedsProof(trace: seq<Event>, h: Handle)
    requires Permitted(trace, Deleted(h))
    ensures Held(trace, h).Some?
  {
  }

  /** A held proof was granted for an identity of that very handle, whose digest the fingerprint carries. */
  lemma {:induction false} HeldIsProved(trace: seq<Event>, h: Handle)
    requires Guarded(trace) && Held(trace, h).Some?
    ensures Held(trace, h).value.identity.Sha? && Held(trace, h).value.identity.identity.handle == h
  {
    var init, last := trace[..|trace| - 1], trace[|trace| - 1];
    assert Permitted(init, last);
    if !(last.Proved? && last.expected.handle == h) {
      assert forall i :: 0 <= i < |init| ==> init[..i] == trace[..i] && init[i] == trace[i];
      assert Guarded(init);
      HeldIsProved(init, h);
    }
  }

  /**
   * Each deletion follows a listing that shows the handle stopped and with the digest of an identity
   * that was proved for this handle and not used by an earlier deletion.
   */
  lemma DeleteFollowsProof(trace: seq<Event>, i: nat)
    requires Guarded(trace) && i < |trace| && trace[i].Deleted?
    ensures var h := trace[i].deleted;
            && i > 0 && trace[i - 1].Saw? && trace[i - 1].at == h && trace[i - 1].sight.Seen?
            && var seen := trace[i - 1].sight.instance;
               && seen.status.Stopped? && seen.Generation() == Held(trace[..i], h)
               && seen.identity.Some? && seen.identity.value.Sha?
               && seen.identity.value.identity.handle == h
  {
    var h := trace[i].deleted;
    assert Permitted(trace[..i], trace[i]);
    assert Guarded(trace[..i]) by {
      forall k | 0 <= k < i ensures Permitted(trace[..i][..k], trace[..i][k]) {
        assert trace[..i][..k] == trace[..k];
      }
    }
    HeldIsProved(trace[..i], h);
  }

  // ---------------------------------------------------------------------------------------------
  // The environment

  datatype Marker = Unmarked | Garbled | Marked(identity: GuestIdentity)

  datatype Vm = Vm(instance: Instance, marker: Marker)

  type World = map<Handle, Vm>

  function Look(world: World, h: Handle): Sight {
    if h in world then Seen(world[h].instance) else Nothing
  }

  function WithStatus(m: Vm, status: Status): Vm {
    m.(instance := m.instance.(status := status))
  }

  /** The world after a forced stop. */
  function Halt(world: World, h: Handle): World {
    if h in world then world[h := WithStatus(world[h], Stopped)] else world
  }

  /** What a restart shows: the marker of the started guest, if it can be read. */
  datatype Boot = NotBooted | Unreadable | Booted(identity: GuestIdentity)

  function BootOf(world: World, h: Handle): Boot {
    if h !in world then NotBooted
    else match world[h].marker
         case Unmarked => NotBooted
         case Garbled => Unreadable
         case Marked(identity) => if identity.handle == h then Booted(identity) else Unreadable
  }

  /**
   * The Lima commands of one process, and everything else that happens to the instances. `faults`
   * counts interference, failures and untrue answers; a command may also die with the process.
   */
  class Lima {
    var world: World
    var trace: seq<Event>
    var faults: nat

    constructor (world: World)
      ensures this.world == world && trace == [] && faults == 0
    {
      this.world := world;
      trace := [];
      faults := 0;
    }

    method List(h: Handle) returns (o: Outcome<Sight>)
      requires Guarded(trace)
      modifies this
      ensures Guarded(trace) && faults >= old(faults) && !o.Raised?
      ensures trace == if o.Returned? then old(trace) + [Saw(h, o.value)] else old(trace)
      ensures faults == old(faults) ==> world == old(world) && o == Returned(Look(world, h))
    {
      var sight: Sight := *;
      if * {
        Disturb();
        if * {
          return Crashed;
        }
      } else {
        sight := Look(world, h);
      }
      GuardedAppend(trace, Saw(h, sight));
      trace := trace + [Saw(h, sight)];
      return Returned(sight);
    }

    method Disturb()
      modifies this`world, this`faults
      ensures faults > old(faults)
    {
      world := *;
      faults := faults + 1;
    }

    /** The marker of a running guest; unreadable and garbled markers raise. */
    method ReadMarker(h: Handle) returns (o: Outcome<Option<GuestIdentity>>)
      requires Guarded(trace)
      modifies this
      ensures Guarded(trace) && faults >= old(faults)
      ensures trace == if o.Returned? then old(trace) + [Read(h, o.value)] else old(trace)
      ensures faults == old(faults) && h in old(world) ==>
                && world == old(world)
                && o == match world[h].marker
                        case Unmarked => Returned(None)
                        case Garbled => Raised(Error.Provider)
                        case Marked(i) => if i.handle == h then Returned(Some(i)) else Raised(Error.Provider)
    {
      o := *;
      if * {
        Disturb();
      } else if h in world {
        o := match world[h].marker
          case Unmarked => Returned(None)
          case Garbled => Raised(Error.Provider)
          case Marked(i) => if i.handle == h then Returned(Some(i)) else Raised(Error.Provider);
      }
      if o.Returned? {
        GuardedAppend(trace, Read(h, o.value));
        trace := trace + [Read(h, o.value)];
      }
    }

    /** Issue a permitted command; `after` is the world it makes if nothing disturbs it. */
    method Issue(e: Event, after: World) returns (o: Outcome<bool>)
      requires Guarded(trace) && Permitted(trace, e)
      modifies this
      ensures Guarded(trace) && faults >= old(faults) && !o.Raised?
      ensures trace == old(trace) + [e]
      ensures faults == old(faults) ==> world == after && o == Returned(true)
    {
      GuardedAppend(trace, e);
      trace := trace + [e];
      if * {
        Disturb();
        var ok: bool := *;
        o := Returned(ok);
        if * {
          o := Crashed;
        }
      } else {
        world := after;
        o := Returned(true);
      }
    }

    method Restart(h: Handle, was: Fingerprint) returns (o: Outcome<Boot>)
      requires Guarded(trace) && Permitted(trace, Restarted(h, was))
      modifies this
      ensures Guarded(trace) && faults >= old(faults) && !o.Raised?
      ensures trace == old(trace) + [Restarted(h, was)]
                       + if o.Returned? && o.value.Booted? then [Read(h, Some(o.value.identity))] else []
      ensures faults == old(faults) && h in old(world) ==>
                && world == old(world)[h := WithStatus(old(world)[h], Running)]
                && o == Returned(BootOf(world, h))
    {
      GuardedAppend(trace, Restarted(h, was));
      trace := trace + [Restarted(h, was)];
      var boot: Boot := *;
      if * {
        Disturb();
        if * {
          return Crashed;
        }
      } else {
        if h in world {
          world := world[h := WithStatus(world[h], Running)];
        }
        boot := BootOf(world, h);
      }
      if boot.Booted? {
        GuardedAppend(trace, Read(h, Some(boot.identity)));
        trace := trace + [Read(h, Some(boot.identity))];
      }
      return Returned(boot);
    }
  }

  // ---------------------------------------------------------------------------------------------
  // The provider

  /** The handle that the identity's lab and role derive, and nothing else. */
  predicate OwnHandle(identity: GuestIdentity) {
    IsUuid(identity.labId) && DeriveHandle("lima", identity.labId, identity.role) == Some(identity.handle)
  }

  /** The instance carries the digest of the identity, and its marker does not speak against it. */
  predicate Owns(world: World, expected: GuestIdentity, mode: Mode) {
    && expected.handle in world
    && var m := world[expected.handle];
       && m.instance.identity == Some(Sha(expected))
       && match m.instance.status
          case Stopped => true
          case Running => m.marker == Marked(expected) || (m.marker.Unmarked? && mode.BreakGlass?)
          case Unclear => false
  }

  /** The machine that `Ensure` promises: running, with the digest and the marker of its identity. */
  predicate Reconciled(m: Vm, identity: GuestIdentity) {
    m.instance.status.Running? && m.instance.identity == Some(Sha(identity)) && m.marker == Marked(identity)
  }

  /** An absent instance, or one of this identity that is running or stopped. */
  predicate Reconcilable(world: World, identity: GuestIdentity) {
    identity.handle in world ==>
      && !world[identity.handle].instance.status.Unclear?
      && Reconciled(WithStatus(world[identity.handle], Running), identity)
  }

  /** From `start` on, the instance was seen running with the digest, and the exact marker was read. */
  ghost predicate Verified(trace: seq<Event>, start: nat, identity: GuestIdentity) {
    && (exists i :: && start <= i < |trace| && trace[i].Saw? && trace[i].at == identity.handle && trace[i].sight.Seen?
                    && trace[i].sight.instance.status.Running?
                    && trace[i].sight.instance.identity == Some(Sha(identity)))
    && (exists j :: start <= j < |trace| && trace[j] == Read(identity.handle, Some(identity)))
  }

  class Provider {
    const lima: Lima
    const templates: set<Role>
    var fingerprints: map<Handle, Fingerprint>

    constructor (lima: Lima, templates: set<Role>)
      requires Guarded(lima.trace)
      ensures Valid() && this.lima == lima && this.templates == templates && fingerprints == map[]
    {
      this.lima := lima;
      this.templates := templates;
      fingerprints := map[];
    }

    /** Every kept fingerprint is backed by a proof that no deletion has used. */
    ghost predicate Valid()
      reads this, lima
    {
      Guarded(lima.trace) && forall h :: h in fingerprints ==> Held(lima.trace, h) == Some(fingerprints[h])
    }

    /** One listing, which touches nothing that the trace holds. */
    method ListAndKeep(h: Handle) returns (o: Outcome<Sight>)
      requires Guarded(lima.trace)
      modifies lima
      ensures Guarded(lima.trace) && lima.faults >= old(lima.faults) && !o.Raised?
      ensures lima.trace == if o.Returned? then old(lima.trace) + [Saw(h, o.value)] else old(lima.trace)
      ensures forall g :: Held(lima.trace, g) == old(Held(lima.trace, g))
      ensures forall g :: Started(lima.trace, g) == old(Started(lima.trace, g))
      ensures lima.faults == old(lima.faults) ==> lima.world == old(lima.world) && o == Returned(Look(lima.world, h))
    {
      hide Permitted, Guarded;
      ghost var before := lima.trace;
      o := lima.List(h);
      if o.Returned? {
        forall g ensures Held(lima.trace, g) == Held(before, g) && Started(lima.trace, g) == Started(before, g) {
          MonitorAppend(before, Saw(h, o.value), g);
        }
      }
    }

    /** The newest listing of an instance that must be there. */
    method Rediscover(h: Handle) returns (o: Outcome<Instance>)
      requires Guarded(lima.trace)
      modifies lima
      ensures Guarded(lima.trace) && lima.faults >= old(lima.faults) && old(lima.trace) <= lima.trace
      ensures forall g :: Held(lima.trace, g) == old(Held(lima.trace, g))
      ensures forall g :: Started(lima.trace, g) == old(Started(lima.trace, g))
      ensures o.Returned? ==> lima.trace == old(lima.trace) + [Saw(h, Seen(o.value))]
      ensures lima.faults == old(lima.faults) ==>
                && lima.world == old(lima.world)
                && o == if h in lima.world then Returned(lima.world[h].instance) else Raised(Error.Provider)
    {
      hide Permitted, Guarded, Held, Started;
      var sight := ListAndKeep(h);
      if sight.Crashed? {
        return Crashed;
      }
      if !sight.value.Seen? {
        return Raised(Error.Provider);
      }
      return Returned(sight.value.instance);
    }

    /** Issue a command; only a deletion of a handle touches what the trace holds for it. */
    method IssueAndKeep(e: Event, after: World) returns (o: Outcome<bool>)
      requires Guarded(lima.trace) && Permitted(lima.trace, e) && !e.Proved? && !e.Restarted?
      modifies lima
      ensures Guarded(lima.trace) && lima.faults >= old(lima.faults) && !o.Raised?
      ensures lima.trace == old(lima.trace) + [e]
      ensures forall g :: e != Deleted(g) ==> Held(lima.trace, g) == old(Held(lima.trace, g))
      ensures forall g :: Started(lima.trace, g) == old(Started(lima.trace, g))
      ensures lima.faults == old(lima.faults) ==> lima.world == after && o == Returned(true)
    {
      hide Permitted, Guarded;
      ghost var before := lima.trace;
      o := lima.Issue(e, after);
      forall g
        ensures e != Deleted(g) ==> Held(lima.trace, g) == Held(before, g)
        ensures Started(lima.trace, g) == Started(before, g)
      {
        MonitorAppend(before, e, g);
      }
    }

    /** Delete the exact instance that a proof was granted for; the proof is used up in any case. */
    method DeleteExact(h: Handle) returns (o: Outcome<bool>)
      requires Valid()
      modifies this`fingerprints, lima
      ensures Valid() && old(lima.trace) <= lima.trace && lima.faults >= old(lima.faults)
      ensures fingerprints == if h.provider == "lima" then old(fingerprints) - {h} else old(fingerprints)
      // Without a proof, nothing is done at all.
      ensures h !in old(fingerprints) ==> o.Raised? && lima.trace == old(lima.trace) && lima.world == old(lima.world)
      // Undisturbed, exactly the proven instance is deleted.
      ensures && lima.faults == old(lima.faults) && h.provider == "lima"
              && h in old(fingerprints) && h in old(lima.world)
              && old(lima.world)[h].instance.Generation() == Some(old(fingerprints)[h])
              && !old(lima.world)[h].instance.status.Unclear?
              ==> o == Returned(true) && lima.world == old(lima.world) - {h}
      ensures && lima.faults == old(lima.faults) && h in old(fingerprints)
              && (h in old(lima.world) ==> old(lima.world)[h].instance.Generation() != Some(old(fingerprints)[h]))
              ==> o.Raised? && lima.world == old(lima.world)
    {
      hide Guarded, Held, Started;
      if h.provider != "lima" {
        return Raised(Validation);
      }
      if h !in fingerprints {
        return Raised(Error.Provider);
      }
      var fp := fingerprints[h];
      fingerprints := fingerprints - {h};
      var beforeStop := Rediscover(h);
      if !beforeStop.Returned? {
        return if beforeStop.Crashed? then Crashed else Raised(beforeStop.error);
      }
      if beforeStop.value.Generation() != Some(fp) || beforeStop.value.status.Unclear? {
        return Raised(Error.Provider);
      }
      var stopped := IssueAndKeep(StoppedForDelete(h), Halt(lima.world, h));
      if stopped != Returned(true) {
        return stopped;
      }
      var afterStop := Rediscover(h);
      if !afterStop.Returned? {
        return if afterStop.Crashed? then Crashed else Raised(afterStop.error);
      }
      if afterStop.value.Generation() != Some(fp) || !afterStop.value.status.Stopped? {
        return Raised(Error.Provider);
      }
      var beforeDelete := Rediscover(h);
      if !beforeDelete.Returned? {
        return if beforeDelete.Crashed? then Crashed else Raised(beforeDelete.error);
      }
      if beforeDelete.value.Generation() != Some(fp) || !beforeDelete.value.status.Stopped? {
        return Raised(Error.Provider);
      }
      o := IssueAndKeep(Deleted(h), lima.world - {h});
    }

    /** Read the marker; reading touches nothing that the trace holds. */
    method ReadAndKeep(h: Handle) returns (o: Outcome<Option<GuestIdentity>>)
      requires Guarded(lima.trace)
      modifies lima
      ensures Guarded(lima.trace) && lima.faults >= old(lima.faults)
      ensures lima.trace == if o.Returned? then old(lima.trace) + [Read(h, o.value)] else old(lima.trace)
      ensures forall g :: Held(lima.trace, g) == old(Held(lima.trace, g))
      ensures forall g :: Started(lima.trace, g) == old(Started(lima.trace, g))
      ensures lima.faults == old(lima.faults) && h in old(lima.world) ==>
                && lima.world == old(lima.world)
                && o == match lima.world[h].marker
                        case Unmarked => Returned(None)
                        case Garbled => Raised(Error.Provider)
                        case Marked(i) => if i.handle == h then Returned(Some(i)) else Raised(Error.Provider)
    {
      hide Permitted, Guarded;
      ghost var before := lima.trace;
      o := lima.ReadMarker(h);
      if o.Returned? {
        forall g ensures Held(lima.trace, g) == Held(before, g) && Started(lima.trace, g) == Started(before, g) {
          MonitorAppend(before, Read(h, o.value), g);
        }
      }
    }

    /** Grant a proof: bind the fingerprint to the handle until one deletion uses it. */
    method Grant(expected: GuestIdentity, mode: Mode, fp: Fingerprint)
      requires Valid() && Permitted(lima.trace, Proved(expected, mode, fp))
      modifies this`fingerprints, lima`trace
      ensures Valid() && lima.trace == old(lima.trace) + [Proved(expected, mode, fp)]
      ensures fingerprints == old(fingerprints)[expected.handle := fp]
    {
      hide Permitted, Guarded;
      ghost var before := lima.trace;
      var e := Proved(expected, mode, fp);
      GuardedAppend(before, e);
      lima.trace := lima.trace + [e];
      fingerprints := fingerprints[expected.handle := fp];
      forall h ensures Held(lima.trace, h) == if h == expected.handle then Some(fp) else Held(before, h) {
        MonitorAppend(before, e, h);
      }
    }

    /** Authorize one cleanup of a machine from its digest and, while it runs, its marker. */
    method ProveOwnership(expected: GuestIdentity, mode: Mode) returns (o: Outcome<bool>)
      requires Valid()
      modifies this`fingerprints, lima
      ensures Valid() && old(lima.trace) <= lima.trace && lima.faults >= old(lima.faults)
      ensures !OwnHandle(expected) ==> o.Raised? && fingerprints == old(fingerprints) && lima.trace == old(lima.trace)
      // A fingerprint is kept for the handle exactly when the proof succeeds.
      ensures OwnHandle(expected) ==>
                && (expected.handle in fingerprints <==> o == Returned(true))
                && fingerprints - {expected.handle} == old(fingerprints) - {expected.handle}
      ensures o == Returned(true) ==>
                && lima.trace != old(lima.trace)
                && lima.trace[|lima.trace| - 1] == Proved(expected, mode, fingerprints[expected.handle])
      // Undisturbed, the proof succeeds exactly for an owned machine, and changes no machine.
      ensures lima.faults == old(lima.faults) && OwnHandle(expected) ==>
                && lima.world == old(lima.world)
                && (o == Returned(true) <==> Owns(lima.world, expected, mode))
                && (o == Returned(true) ==>
                      Some(fingerprints[expected.handle]) == lima.world[expected.handle].instance.Generation())
    {
      hide Guarded, Held, Started, OwnHandle;
      if !OwnHandle(expected) {
        return Raised(Validation);
      }
      var h := expected.handle;
      fingerprints := fingerprints - {h};
      var sight := ListAndKeep(h);
      if sight.Crashed? {
        return Crashed;
      }
      if sight.value.Unknowable? {
        return Raised(Error.Provider);
      }
      if sight.value.Nothing? {
        return Returned(false);
      }
      var instance := sight.value.instance;
      if instance.identity != Some(Sha(expected)) {
        return Returned(false);
      }
      var fp := instance.Generation().value;
      if instance.status.Stopped? {
        Grant(expected, mode, fp);
        return Returned(true);
      }
      if instance.status.Unclear? {
        return Raised(Error.Provider);
      }
      ghost var seen := lima.trace;
      var marker := ReadAndKeep(h);
      if !marker.Returned? {
        return if marker.Crashed? then Crashed else Raised(marker.error);
      }
      assert lima.trace[..|lima.trace| - 1] == seen;
      var owned := if marker.value.None? then mode.BreakGlass? else marker.value == Some(expected);
      if owned {
        Grant(expected, mode, fp);
      }
      return Returned(owned);
    }

    /** Create an instance that was just seen absent, mark it, and verify both. */
    method CreateAbsent(identity: GuestIdentity) returns (o: Outcome<bool>)
      requires Guarded(lima.trace) && lima.trace != [] && lima.trace[|lima.trace| - 1] == Saw(identity.handle, Nothing)
      modifies lima
      ensures Guarded(lima.trace) && old(lima.trace) <= lima.trace && lima.faults >= old(lima.faults)
      ensures forall g :: Held(lima.trace, g) == old(Held(lima.trace, g))
      ensures o == Returned(true) ==> Verified(lima.trace, |old(lima.trace)|, identity)
      ensures lima.faults == old(lima.faults) ==>
                && o == Returned(true) && identity.handle in lima.world
                && lima.world == old(lima.world)[identity.handle := lima.world[identity.handle]]
                && Reconciled(lima.world[identity.handle], identity)
    {
      hide Guarded, Held, Started, Verified;
      var h, data: string := identity.handle, *;
      var created := Vm(Instance(Running, Some(Sha(identity)), data), Unmarked);
      o := IssueAndKeep(Created(h, Sha(identity)), lima.world[h := created]);
      if o != Returned(true) {
        return;
      }
      o := IssueAndKeep(Wrote(h, identity), Mark(lima.world, h, identity));
      if o != Returned(true) {
        return;
      }
      var seen := Rediscover(h);
      if !seen.Returned? {
        return if seen.Crashed? then Crashed else Raised(seen.error);
      }
      if seen.value.identity != Some(Sha(identity)) || !seen.value.status.Running? {
        return Raised(Error.Provider);
      }
      var marker := ReadAndKeep(h);
      if !marker.Returned? {
        return if marker.Crashed? then Crashed else Raised(marker.error);
      }
      if marker.value != Some(identity) {
        return Raised(Error.Provider);
      }
      IsVerified(lima.trace, |old(lima.trace)|, |lima.trace| - 2, |lima.trace| - 1, identity);
      return Returned(true);
    }

    /** Reuse an instance that was just seen running: its digest and its marker must be the exact ones. */
    method ReuseRunning(identity: GuestIdentity, instance: Instance) returns (o: Outcome<bool>)
      requires Guarded(lima.trace) && instance.status.Running?
      requires lima.trace != [] && lima.trace[|lima.trace| - 1] == Saw(identity.handle, Seen(instance))
      modifies lima
      ensures Guarded(lima.trace) && old(lima.trace) <= lima.trace && lima.faults >= old(lima.faults)
      ensures forall g :: Held(lima.trace, g) == old(Held(lima.trace, g))
      ensures o == Returned(true) ==> Verified(lima.trace, |old(lima.trace)| - 1, identity)
      ensures lima.faults == old(lima.faults) && Look(old(lima.world), identity.handle) == Seen(instance) ==>
                && lima.world == old(lima.world)
                && (o == Returned(true) <==> Reconciled(lima.world[identity.handle], identity))
    {
      hide Guarded, Held, Started, Verified;
      if instance.identity != Some(Sha(identity)) {
        return Raised(Error.Provider);
      }
      var marker := ReadAndKeep(identity.handle);
      if !marker.Returned? {
        return if marker.Crashed? then Crashed else Raised(marker.error);
      }
      if marker.value != Some(identity) {
        return Raised(Error.Provider);
      }
      IsVerified(lima.trace, |old(lima.trace)| - 1, |old(lima.trace)| - 1, |lima.trace| - 1, identity);
      return Returned(true);
    }

    /** Undo a restart: stop the instance only while its fingerprint is still the started one. */
    method RollbackRestart(h: Handle, fp: Fingerprint) returns (o: Outcome<()>)
      requires Guarded(lima.trace) && Started(lima.trace, h) == Some(fp)
      modifies lima
      ensures Guarded(lima.trace) && old(lima.trace) <= lima.trace && lima.faults >= old(lima.faults) && !o.Raised?
      ensures forall g :: Held(lima.trace, g) == old(Held(lima.trace, g))
      ensures && lima.faults == old(lima.faults) && h in old(lima.world)
              && old(lima.world)[h].instance.Generation() == Some(fp) && !old(lima.world)[h].instance.status.Unclear?
              ==> lima.world == Halt(old(lima.world), h)
    {
      hide Guarded, Held, Started;
      var current := Rediscover(h);
      if current.Crashed? {
        return Crashed;
      }
      if current.Raised? || current.value.Generation() != Some(fp) || current.value.status.Unclear? {
        return Returned(());
      }
      var stopped := IssueAndKeep(StoppedForRollback(h), Halt(lima.world, h));
      if stopped == Returned(true) {
        var restored := Rediscover(h);
        if restored.Crashed? {
          return Crashed;
        }
      }
      return if stopped.Crashed? then Crashed else Returned(());
    }

    /** Start an instance that was just seen stopped, and roll the start back unless everything verifies. */
    method RestartStopped(identity: GuestIdentity, instance: Instance) returns (o: Outcome<bool>)
      requires Guarded(lima.trace) && instance.status.Stopped?
      requires lima.trace != [] && lima.trace[|lima.trace| - 1] == Saw(identity.handle, Seen(instance))
      modifies lima
      ensures Guarded(lima.trace) && old(lima.trace) <= lima.trace && lima.faults >= old(lima.faults)
      ensures forall g :: Held(lima.trace, g) == old(Held(lima.trace, g))
      ensures o == Returned(true) ==> Verified(lima.trace, |old(lima.trace)| - 1, identity)
      ensures lima.faults == old(lima.faults) && Look(old(lima.world), identity.handle) == Seen(instance) ==>
                var m := old(lima.world)[identity.handle];
                if Reconciled(WithStatus(m, Running), identity) then
                  o == Returned(true) && lima.world == old(lima.world)[identity.handle := WithStatus(m, Running)]
                else
                  o != Returned(true) && lima.world == old(lima.world)
    {
      hide Guarded, Held, Started, Verified;
      var h := identity.handle;
      if instance.identity != Some(Sha(identity)) {
        return Raised(Error.Provider);
      }
      var fp := instance.Generation().value;
      var boot := RestartAndKeep(h, fp);
      if boot.Crashed? {
        return Crashed;
      }
      if boot.value != Booted(identity) {
        var undone := RollbackRestart(h, fp);
        return if undone.Crashed? then Crashed
               else if boot.value.NotBooted? then Returned(false) else Raised(Error.Provider);
      }
      ghost var booted := |lima.trace| - 1;
      var verified := Rediscover(h);
      if verified.Crashed? {
        return Crashed;
      }
      if verified.Raised? || verified.value.Generation() != Some(fp) || !verified.value.status.Running? {
        var undone := RollbackRestart(h, fp);
        return if undone.Crashed? then Crashed else Raised(Error.Provider);
      }
      IsVerified(lima.trace, |old(lima.trace)| - 1, |lima.trace| - 1, booted, identity);
      return Returned(true);
    }

    /** The restart command, which remembers what it started and touches no proof. */
    method RestartAndKeep(h: Handle, fp: Fingerprint) returns (o: Outcome<Boot>)
      requires Guarded(lima.trace) && Permitted(lima.trace, Restarted(h, fp))
      modifies lima
      ensures Guarded(lima.trace) && old(lima.trace) <= lima.trace && lima.faults >= old(lima.faults) && !o.Raised?
      ensures forall g :: Held(lima.trace, g) == old(Held(lima.trace, g))
      ensures Started(lima.trace, h) == Some(fp)
      ensures o.Returned? && o.value.Booted? ==>
                |lima.trace| > |old(lima.trace)| && lima.trace[|lima.trace| - 1] == Read(h, Some(o.value.identity))
      ensures lima.faults == old(lima.faults) && h in old(lima.world) ==>
                && lima.world == old(lima.world)[h := WithStatus(old(lima.world)[h], Running)]
                && o == Returned(BootOf(lima.world, h))
    {
      hide Permitted, Guarded;
      ghost var before := lima.trace;
      o := lima.Restart(h, fp);
      ghost var started := before + [Restarted(h, fp)];
      forall g ensures Held(lima.trace, g) == Held(before, g) && Started(lima.trace, h) == Some(fp) {
        MonitorAppend(before, Restarted(h, fp), g);
        MonitorAppend(before, Restarted(h, fp), h);
        if o.Returned? && o.value.Booted? {
          MonitorAppend(started, Read(h, Some(o.value.identity)), g);
          MonitorAppend(started, Read(h, Some(o.value.identity)), h);
        } else {
          assert lima.trace == started;
        }
      }
    }

    /** Create, reuse or restart the one machine of an identity, and adopt nothing else. */
    method Ensure(identity: GuestIdentity) returns (o: Outcome<bool>)
      requires Valid()
      modifies this`fingerprints, lima
      ensures Valid() && old(lima.trace) <= lima.trace && lima.faults >= old(lima.faults)
      ensures fingerprints
           == if OwnHandle(identity) && identity.role in templates then old(fingerprints) - {identity.handle}
              else old(fingerprints)
      ensures o == Returned(true) ==> Verified(lima.trace, |old(lima.trace)|, identity)
      // Undisturbed, it succeeds exactly on an absent machine or one of this identity, and changes no other.
      ensures lima.faults == old(lima.faults) && OwnHandle(identity) && identity.role in templates ==>
                if Reconcilable(old(lima.world), identity) then
                  && o == Returned(true) && identity.handle in lima.world
                  && Reconciled(lima.world[identity.handle], identity)
                  && lima.world == old(lima.world)[identity.handle := lima.world[identity.handle]]
                else
                  o != Returned(true) && lima.world == old(lima.world)
    {
      hide Guarded, Held, Started, Verified, OwnHandle;
      if !OwnHandle(identity) || identity.role !in templates {
        return Raised(Validation);
      }
      var h := identity.handle;
      fingerprints := fingerprints - {h};
      var sight := ListAndKeep(h);
      if sight.Crashed? {
        return Crashed;
      }
      if sight.value.Unknowable? {
        return Raised(Error.Provider);
      }
      ghost var start := |lima.trace| - 1;
      if sight.value.Nothing? {
        o := CreateAbsent(identity);
        VerifiedEarlier(lima.trace, start, start + 1, identity);
        return;
      }
      var instance := sight.value.instance;
      match instance.status
      case Running => o := ReuseRunning(identity, instance);
      case Stopped => o := RestartStopped(identity, instance);
      case Unclear => o := Raised(Error.Provider);
    }

    /** One cleanup of a machine. Undisturbed, an owned machine is deleted, and any other is left alone. */
    method Remove(expected: GuestIdentity, mode: Mode) returns (o: Outcome<bool>)
      requires Valid()
      modifies this`fingerprints, lima
      ensures Valid() && old(lima.trace) <= lima.trace && lima.faults >= old(lima.faults)
      ensures lima.faults == old(lima.faults) && OwnHandle(expected) ==>
                && (o == Returned(true) <==> Owns(old(lima.world), expected, mode))
                && lima.world == if o == Returned(true) then old(lima.world) - {expected.handle} else old(lima.world)
    {
      hide Guarded, Held, Started;
      o := ProveOwnership(expected, mode);
      if o == Returned(true) {
        LimaOwned(expected);
        o := DeleteExact(expected.handle);
      }
    }

    /** Any operations in any order, disturbed in any way: deletions never outnumber proofs. */
    method AnyRun(steps: nat)
      requires Valid()
      modifies this`fingerprints, lima
      ensures Valid() && old(lima.trace) <= lima.trace
      ensures forall h :: Deletes(lima.trace, h) <= Proofs(lima.trace, h)
    {
      hide Held, Started, Permitted;
      for k := 0 to steps
        invariant Valid() && old(lima.trace) <= lima.trace
      {
        var identity: GuestIdentity, mode: Mode, h: Handle := *, *, *;
        if * {
          var o := Ensure(identity);
        } else if * {
          var o := ProveOwnership(identity, mode);
        } else if * {
          var o := DeleteExact(h);
        } else {
          lima.Disturb();
        }
      }
      forall h ensures Deletes(lima.trace, h) <= Proofs(lima.trace, h) {
        DeletesBounded(lima.trace, h);
      }
    }
  }

  lemma LimaOwned(identity: GuestIdentity)
    requires OwnHandle(identity)
    ensures identity.handle.provider == "lima"
  {
    assert "lima" != "kind" by {
      assert "lima"[0] == 'l' && "kind"[0] == 'k';
    }
  }

  function Mark(world: World, h: Handle, identity: GuestIdentity): World {
    if h in world then world[h := world[h].(marker := Marked(identity))] else world
  }

  lemma IsVerified(trace: seq<Event>, start: nat, i: nat, j: nat, identity: GuestIdentity)
    requires start <= i < |trace| && start <= j < |trace|
    requires trace[i].Saw? && trace[i].at == identity.handle && trace[i].sight.Seen?
    requires trace[i].sight.instance.status.Running? && trace[i].sight.instance.identity == Some(Sha(identity))
    requires trace[j] == Read(identity.handle, Some(identity))
    ensures Verified(trace, start, identity)
  {
  }

  lemma VerifiedEarlier(trace: seq<Event>, earlier: nat, start: nat, identity: GuestIdentity)
    requires earlier <= start
    ensures Verified(trace, start, identity) ==> Verified(trace, earlier, identity)
  {
  }
}
