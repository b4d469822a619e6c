/** The provision ladder (lab.py): declare once, reconcile, and climb the verified phases. */
module LabProvision {
  import opened Wrappers
  import opened Identifiers
  import opened Providers
  import opened Sequences
  import opened LabStates
  import opened LabRuns
  import opened LabStore

  /** The pinned inputs of one lifecycle object. */
  datatype Config = Config(profile: string, specSha: string, bundleSha: string, u5: bool)

  predicate ValidConfig(c: Config) {
    IsIdentifier(c.profile) && IsSha256(c.specSha)
  }

  // The ranks of the verified phases are their positions here.
  const LADDER: seq<Phase> := [Declared, VmsCreated, OsReady, ClusterReady, AddonsReady, CandidateReady, Validated]

  function VerifiedRank(p: Phase): (r: Option<nat>)
    ensures r.Some? <==> p in LADDER
    ensures r.Some? ==> r.value < |LADDER| && LADDER[r.value] == p
  {
    match p
    case Declared => Some(0)
    case VmsCreated => Some(1)
    case OsReady => Some(2)
    case ClusterReady => Some(3)
    case AddonsReady => Some(4)
    case CandidateReady => Some(5)
    case Validated => Some(6)
    case _ => None
  }

  function Top(c: Config): nat {
    if c.u5 then 5 else 4
  }

  function Floor(start: Phase): nat {
    if VerifiedRank(start).Some? then VerifiedRank(start).value else 0
  }

  /** The contiguous phases above the start, up to rank `k`; a degraded lab starts from the bottom. */
  function Rungs(start: Phase, k: nat): seq<Phase>
    requires k < |LADDER|
  {
    if Floor(start) >= k then [] else LADDER[Floor(start) + 1..k + 1]
  }

  lemma RungsNext(start: Phase, k: nat)
    requires k + 1 < |LADDER|
    ensures Rungs(start, k + 1)
         == Rungs(start, k) + if Floor(start) < k + 1 then [LADDER[k + 1]] else []
    ensures Rungs(start, k) <= Rungs(start, k + 1)
  {
    if Floor(start) < k + 1 {
      SliceNext(LADDER, Floor(start) + 1, k + 1);
    }
  }

  lemma SliceNext<T>(s: seq<T>, from: nat, to: nat)
    requires from <= to < |s|
    ensures s[from..to + 1] == s[from..to] + [s[to]]
  {
  }

  function Phases(journal: seq<Entry>): seq<Phase> {
    seq(|journal|, i requires 0 <= i < |journal| => journal[i].phase)
  }

  predicate Startable(p: Phase) {
    VerifiedRank(p).Some? || p == Degraded
  }

  // ---------------------------------------------------------------------------------------------
  // The guests

  datatype MachineFacts = MachineFacts(ipv4: string, mac: string, productUuid: string)

  /**
   * The machines behind the provider, and every script that reconciles them. `faults` counts the
   * answers a flawless run would not get, `drifts` the observations that were not the true ones, and
   * `touched` the calls that reach a machine at all.
   */
  class Fleet {
    const facts: Handle -> MachineFacts
    var faults: nat
    var drifts: nat
    var touched: nat

    constructor (facts: Handle -> MachineFacts)
      ensures this.facts == facts && faults == 0 && drifts == 0 && touched == 0
    {
      this.facts := facts;
      faults := 0;
      drifts := 0;
      touched := 0;
    }

    /** The process lives on, or dies before its next store call. */
    method Survive() returns (alive: bool)
      modifies this`faults
      ensures if alive then faults == old(faults) else faults > old(faults)
    {
      alive := *;
      if !alive {
        faults := faults + 1;
      }
    }

    /** One reconciling step: it succeeds, raises, or dies with the process. */
    method Work() returns (o: Outcome<()>)
      modifies this`faults, this`touched
      ensures touched > old(touched)
      ensures if o.Returned? then faults == old(faults) else faults > old(faults)
    {
      touched := touched + 1;
      o := *;
      if !o.Returned? {
        faults := faults + 1;
      }
    }

    method Observe(handle: Handle) returns (o: Outcome<MachineFacts>)
      modifies this
      ensures faults >= old(faults) && drifts >= old(drifts) && touched > old(touched)
      ensures o == Returned(facts(handle)) ==> faults == old(faults)
      ensures o != Returned(facts(handle)) ==> faults > old(faults)
      ensures o.Returned? && o.value != facts(handle) ==> drifts > old(drifts)
    {
      touched := touched + 1;
      o := *;
      if o != Returned(facts(handle)) {
        faults := faults + 1;
        drifts := drifts + 1;
      }
    }
  }

  /** No two machines share an address, a MAC or a product identifier. */
  ghost predicate Separate(facts: Handle -> MachineFacts) {
    forall g, h :: g != h ==>
      && facts(g).ipv4 != facts(h).ipv4
      && facts(g).mac != facts(h).mac
      && facts(g).productUuid != facts(h).productUuid
  }

  function Observed(m: Machine, f: MachineFacts, c: Config): Observation {
    Observation(m.role, m.machineId, m.handle, f.ipv4, f.mac, f.productUuid, c.bundleSha, c.specSha)
  }

  function TrueObservations(inventory: seq<Machine>, facts: Handle -> MachineFacts, c: Config): seq<Observation> {
    seq(|inventory|, i requires 0 <= i < |inventory| => Observed(inventory[i], facts(inventory[i].handle), c))
  }

  /** The observation reports this machine's own identity and addresses, under the pinned inputs. */
  predicate Reports(o: Observation, m: Machine, f: MachineFacts, c: Config) {
    && OfMachine(o, m)
    && o.ipv4 == f.ipv4 && o.mac == f.mac && o.productUuid == f.productUuid
    && o.bundleSha == c.bundleSha && o.specSha == c.specSha
  }

  predicate FullInventory(inventory: seq<Machine>) {
    |inventory| == |FULL_ROLES| && MachineRoles(inventory) == set r | r in FULL_ROLES
  }

  lemma FullRoles(inventory: seq<Machine>)
    requires FullInventory(inventory) && NoDuplicates(Roles(inventory))
    ensures multiset(Roles(inventory)) == multiset(FULL_ROLES)
  {
    forall r ensures r in Roles(inventory) <==> r in FULL_ROLES {
      RoleInInventory(inventory, r);
      assert r in MachineRoles(inventory) <==> r in FULL_ROLES;
    }
    SameElements(Roles(inventory), FULL_ROLES);
  }

  lemma LegalRoles(s: LabState)
    requires LabRuns.Inv(s)
    ensures NoDuplicates(Roles(s.inventory))
    ensures forall i, j :: 0 <= i < j < |s.inventory| ==>
              && s.inventory[i].role != s.inventory[j].role
              && s.inventory[i].machineId != s.inventory[j].machineId
              && s.inventory[i].handle != s.inventory[j].handle
  {
    hide DeriveHandle, OrderObservations, WellFormedFields, OpenAttempt, ReachedVerified, ValidMachine;
    ConstructedExact(s);
  }

  lemma TruthDistinct(inventory: seq<Machine>, facts: Handle -> MachineFacts, c: Config)
    requires Separate(facts)
    requires forall i, j :: 0 <= i < j < |inventory| ==>
               && inventory[i].role != inventory[j].role
               && inventory[i].machineId != inventory[j].machineId
               && inventory[i].handle != inventory[j].handle
    ensures DistinctFields(TrueObservations(inventory, facts, c))
  {
  }

  lemma TruthRoles(inventory: seq<Machine>, facts: Handle -> MachineFacts, c: Config)
    ensures ObservedRoles(TrueObservations(inventory, facts, c)) == MachineRoles(inventory)
    ensures forall o :: o in TrueObservations(inventory, facts, c) ==> exists m :: m in inventory && OfMachine(o, m)
  {
    var observations := TrueObservations(inventory, facts, c);
    assert forall i :: 0 <= i < |inventory| ==> OfMachine(observations[i], inventory[i]) && inventory[i] in inventory;
    forall r ensures r in ObservedRoles(observations) <==> r in MachineRoles(inventory) {
      if r in MachineRoles(inventory) {
        var i :| 0 <= i < |inventory| && inventory[i].role == r;
        assert observations[i] in observations;
      }
      if r in ObservedRoles(observations) {
        var i :| 0 <= i < |observations| && observations[i].role == r;
        assert inventory[i] in inventory;
      }
    }
  }

  /** What separate machines truthfully report is always an acceptable observation set. */
  lemma TruthAccepted(s: LabState, facts: Handle -> MachineFacts, c: Config)
    requires LabRuns.Inv(s) && s.identity.provider == "lima" && FullInventory(s.inventory) && Separate(facts)
    ensures OrderObservations("lima", s.inventory, TrueObservations(s.inventory, facts, c)).Ok?
  {
    hide LabRuns.Inv, Separate, DistinctFields, ObservedRoles, MachineRoles, FullInventory;
    LegalRoles(s);
    FullRoles(s.inventory);
    TruthDistinct(s.inventory, facts, c);
    TruthRoles(s.inventory, facts, c);
    FullSize(s.inventory);
    var observations := TrueObservations(s.inventory, facts, c);
    forall m, o | m in s.inventory && o in observations && o.role == m.role ensures OfMachine(o, m) {
      var n :| n in s.inventory && OfMachine(o, n);
      assert n == m;
    }
  }

  lemma FullSize(inventory: seq<Machine>)
    requires FullInventory(inventory)
    ensures |inventory| == |FULL_ROLES|
  {
  }

  // ---------------------------------------------------------------------------------------------
  // Which labs can be provisioned

  /** The recorded observations, if any, are the ones that the machines report today. */
  ghost predicate Agrees(s: LabState, facts: Handle -> MachineFacts, c: Config) {
    s.observations == []
    || OrderObservations("lima", s.inventory, TrueObservations(s.inventory, facts, c)) == Ok(s.observations)
  }

  /** Nothing is left to bind or declare, whichever specification is recorded. */
  ghost predicate Complete(s: LabState, c: Config) {
    && s.spec.Some?
    && (s.profile == Some(c.profile) || (s.profile.None? && c.profile == "standard"))
    && FullInventory(s.inventory)
  }

  /** Another profile is recorded, or none by a lab that was declared as a standard one. */
  ghost predicate ForeignProfile(s: LabState, c: Config) {
    match s.profile
    case Some(profile) => profile != c.profile
    case None => s.spec.Some? && c.profile != "standard"
  }

  /** Another specification is recorded, or an observation made with another one or another bundle. */
  ghost predicate ForeignInputs(s: LabState, c: Config) {
    s.spec.Some? &&
      (|| s.spec.value != c.specSha
       || exists o :: o in s.observations && (o.bundleSha != c.bundleSha || o.specSha != c.specSha))
  }

  /** Everything recorded was made with the pinned inputs. */
  ghost predicate Pinned(s: LabState, c: Config) {
    s.spec == Some(c.specSha) && Made(s.observations, c)
  }

  ghost predicate Made(observations: seq<Observation>, c: Config) {
    forall o :: o in observations ==> o.bundleSha == c.bundleSha && o.specSha == c.specSha
  }

  lemma MadePermuted(a: seq<Observation>, b: seq<Observation>, c: Config)
    requires multiset(a) == multiset(b) && Made(a, c)
    ensures Made(b, c)
  {
    SameMembers(a, b);
  }

  ghost predicate Bound(s: LabState, c: Config) {
    Complete(s, c) && s.spec == Some(c.specSha)
  }

  /** A lab whose declaration stopped part-way, always before any guest was touched. */
  ghost predicate Declaring(s: LabState, c: Config) {
    && s.journal != [] && s.Phase() == Declared && s.inventory == [] && s.observations == []
    && match s.profile
       case None => s.spec.None? || (s.spec == Some(c.specSha) && c.profile == "standard")
       case Some(profile) => profile == c.profile && (s.spec.None? || s.spec == Some(c.specSha))
  }

  /** The labs that a clean run of `Provision` brings to the top of the ladder. */
  ghost predicate Provisionable(s: LabState, facts: Handle -> MachineFacts, c: Config) {
    && LabRuns.Inv(s) && s.identity.provider == "lima" && Startable(s.Phase())
    && (Bound(s, c) || Declaring(s, c))
    && Agrees(s, facts, c)
  }

  // ---------------------------------------------------------------------------------------------
  // Declaring

  /** A part of an identifier between hyphens, or several parts already joined. */
  predicate Word(w: string) {
    && w != [] && w[0] != '-' && w[|w| - 1] != '-'
    && (forall i :: 0 <= i < |w| ==> IsLowerOrDigit(w[i]) || w[i] == '-')
    && (forall i :: 0 <= i < |w| - 1 ==> !(w[i] == '-' && w[i + 1] == '-'))
  }

  lemma JoinWords(a: string, b: string)
    requires Word(a) && Word(b)
    ensures Word(a + "-" + b)
  {
    var w := a + "-" + b;
    assert w[..|a|] == a && w[|a|] == '-' && w[|a| + 1..] == b;
    forall i | 0 <= i < |w| - 1 ensures !(w[i] == '-' && w[i + 1] == '-') {
      if i > |a| {
        assert w[i] == b[i - |a| - 1] && w[i + 1] == b[i - |a|];
      }
    }
  }

  lemma LimaHandle(labId: string, role: Role)
    requires IsUuid(labId) && role in FULL_ROLES
    ensures DeriveHandle("lima", labId, role).Some?
    ensures DeriveHandle("lima", labId, role).value.provider == "lima"
  {
    hide IsIdentifier;
    var prefix := labId[..8] + labId[9..13] + labId[14..18];
    PrefixWord(labId);
    RoleWord(role);
    JoinWords("cks", prefix);
    JoinWords("cks" + "-" + prefix, RoleName(role));
    var value := "cks" + "-" + prefix + "-" + RoleName(role);
    assert value == "cks-" + prefix + "-" + RoleName(role);
    WordIdentifier(value);
    WordIdentifier("lima");
  }

  lemma PrefixWord(labId: string)
    requires IsUuid(labId)
    ensures Word(labId[..8] + labId[9..13] + labId[14..18])
  {
    var prefix := labId[..8] + labId[9..13] + labId[14..18];
    assert forall i :: 0 <= i < 16 ==> IsHex(prefix[i]);
  }

  lemma RoleWord(role: Role)
    requires role in FULL_ROLES
    ensures Word(RoleName(role)) && |RoleName(role)| <= 13
  {
  }

  lemma WordIdentifier(w: string)
    requires Word(w) && |w| <= 63 && 'a' <= w[0] <= 'z'
    ensures IsIdentifier(w)
  {
  }

  /** The inventory of a new lab: one machine per role, under its derived handle. */
  function NewInventory(labId: string, ids: seq<string>): seq<Machine>
    requires IsUuid(labId) && |ids| == |FULL_ROLES|
  {
    seq(|FULL_ROLES|, i requires 0 <= i < |FULL_ROLES| =>
      LimaHandle(labId, FULL_ROLES[i]);
      Machine(FULL_ROLES[i], ids[i], DeriveHandle("lima", labId, FULL_ROLES[i]).value))
  }

  lemma NewInventoryLegal(identity: LabIdentity, ids: seq<string>)
    requires ValidIdentity(identity) && identity.provider == "lima"
    requires |ids| == |FULL_ROLES| && NoDuplicates(ids) && forall i :: 0 <= i < |ids| ==> IsUuid(ids[i])
    ensures LegalInventory(identity, NewInventory(identity.labId, ids))
    ensures FullInventory(NewInventory(identity.labId, ids))
    ensures forall i :: 0 <= i < |FULL_ROLES| ==>
              && NewInventory(identity.labId, ids)[i].role == FULL_ROLES[i]
              && NewInventory(identity.labId, ids)[i].machineId == ids[i]
  {
    hide IsUuid, IsIdentifier, DeriveHandle;
    var inventory := NewInventory(identity.labId, ids);
    forall m | m in inventory
      ensures ValidMachine(m) && m.handle.provider == "lima"
      ensures DeriveHandle("lima", identity.labId, m.role) == Some(m.handle)
    {
      var i :| 0 <= i < 4 && inventory[i] == m;
      LimaHandle(identity.labId, FULL_ROLES[i]);
    }
    forall i, j | 0 <= i < j < 4 ensures inventory[i].handle != inventory[j].handle {
      if inventory[i].handle == inventory[j].handle {
        LimaHandle(identity.labId, FULL_ROLES[i]);
        LimaHandle(identity.labId, FULL_ROLES[j]);
        DeriveInjective("lima", identity.labId, FULL_ROLES[i], FULL_ROLES[j]);
      }
    }
    forall r ensures r in MachineRoles(inventory) <==> r in FULL_ROLES {
      if r in FULL_ROLES {
        var i :| 0 <= i < 4 && FULL_ROLES[i] == r;
        assert inventory[i] in inventory;
      }
    }
  }

  /** Declaring the new inventory is accepted by a declared lab that has none. */
  lemma DeclareAccepted(s: LabState, ids: seq<string>)
    requires LabRuns.Inv(s) && s.identity.provider == "lima" && s.Phase() == Declared
    requires s.inventory == [] && s.observations == []
    requires |ids| == |FULL_ROLES| && NoDuplicates(ids) && forall i :: 0 <= i < |ids| ==> IsUuid(ids[i])
    ensures var machines := NewInventory(s.identity.labId, ids);
            Next(s, s.identity.labId, DeclareInventory(machines)) == Ok(s.(inventory := machines))
  {
    hide LegalInventory, FullInventory, OpenAttempt, ReachedVerified, DeriveHandle, IsUuid, IsIdentifier, IsSha256,
      ValidActive;
    ConstructedExact(s);
    NewInventoryLegal(s.identity, ids);
    ConstructedExact(s.(inventory := NewInventory(s.identity.labId, ids)));
  }

  /** Binding the profile and then the specification is accepted before anything is declared. */
  lemma BindAccepted(s: LabState, c: Config)
    requires LabRuns.Inv(s) && ValidConfig(c) && s.inventory == [] && s.observations == []
    ensures s.profile.None? && s.spec.None? ==>
              Next(s, s.identity.labId, BindProfile(c.profile)) == Ok(s.(profile := Some(c.profile)))
    ensures s.spec.None? ==>
              Next(s, s.identity.labId, BindSpec(c.specSha)) == Ok(s.(spec := Some(c.specSha)))
  {
    hide LegalInventory, OpenAttempt, ReachedVerified, ValidIdentity, DeriveHandle, ValidActive, OrderObservations,
      IsSha256, IsIdentifier;
    ConstructedExact(s);
    ConstructedExact(s.(profile := Some(c.profile)));
    ConstructedExact(s.(spec := Some(c.specSha)));
  }

  /** Recording the true observations is accepted, and stores exactly them. */
  lemma RecordAccepted(s: LabState, facts: Handle -> MachineFacts, c: Config)
    requires LabRuns.Inv(s) && s.identity.provider == "lima" && FullInventory(s.inventory) && Separate(facts)
    requires Agrees(s, facts, c) && Startable(s.Phase())
    ensures var truth := TrueObservations(s.inventory, facts, c);
            var ordered := OrderObservations("lima", s.inventory, truth);
            ordered.Ok? && Next(s, s.identity.labId, RecordObservations(truth)) == Ok(s.(observations := ordered.value))
  {
    hide LegalInventory, OpenAttempt, ReachedVerified, ValidIdentity, DeriveHandle, WellFormedFields, OrderObservations,
      FullInventory, TrueObservations, Construct, LegalJournal;
    TruthAccepted(s, facts, c);
    ConstructedExact(s);
    var truth := TrueObservations(s.inventory, facts, c);
    OrderIdempotent(s, truth);
    ObservationsKept(s, OrderObservations("lima", s.inventory, truth).value);
  }

  /** The constructor accepts a constructed record with one ordered observation set put into it. */
  lemma ObservationsKept(s: LabState, ordered: seq<Observation>)
    requires Constructed(s) && s.identity.provider == "lima"
    requires OrderObservations("lima", s.inventory, ordered) == Ok(ordered)
    ensures Construct(s.(observations := ordered)) == Ok(s.(observations := ordered))
  {
    hide LegalInventory, ValidIdentity, DeriveHandle, OrderObservations, ValidActive, IsSha256, IsIdentifier;
    ConstructedExact(s);
    ConstructedExact(s.(observations := ordered));
  }

  /** Every rung of the ladder is accepted: the next one up, or any infrastructure rung of a degraded lab. */
  lemma RungAccepted(s: LabState, phase: Phase, facts: seq<Observation>)
    requires LabRuns.Inv(s) && s.observations != []
    requires OrderObservations(s.identity.provider, s.inventory, facts) == Ok(s.observations)
    requires U4Verified(phase) || phase == CandidateReady
    ensures s.Phase() == Degraded && U4Verified(phase) ==>
              Next(s, s.identity.labId, Recover(phase, facts)) == Ok(s.Append(phase))
    ensures s.Phase() != Degraded && Allowed(s.Phase(), phase) ==>
              Next(s, s.identity.labId, Advance(phase)) == Ok(s.Append(phase))
  {
    hide Construct, LegalInventory, OpenAttempt, ReachedVerified, ValidIdentity, DeriveHandle, ValidActive,
      OrderObservations;
    ConstructedExact(s);
    if Allowed(s.Phase(), phase) {
      AppendAccepted(s, s.Append(phase));
    }
  }

  predicate FreshIds(ids: seq<string>) {
    |ids| == |FULL_ROLES| && NoDuplicates(ids) && forall i :: 0 <= i < |ids| ==> IsUuid(ids[i])
  }

  /** Declaring only adds facts to a lab, and never journals anything. */
  ghost predicate Grown(s: LabState, t: LabState) {
    t == s.(profile := t.profile, spec := t.spec, inventory := t.inventory)
  }

  /** A reconciliation of `s` that recorded the phases up to rank `k` and touched nothing else but facts. */
  ghost predicate Climbed(s: LabState, t: LabState, k: nat)
    requires s.journal != [] && k < |LADDER|
  {
    && t == s.(observations := t.observations, journal := t.journal)
    && Phases(t.journal) == Phases(s.journal) + Rungs(s.Phase(), k)
  }

  lemma ClimbedPhase(s: LabState, t: LabState, k: nat)
    requires s.journal != [] && t.journal != [] && k < |LADDER| && Climbed(s, t, k)
    ensures t.Phase() == if Rungs(s.Phase(), k) == [] then s.Phase() else LADDER[k]
  {
    assert t.Phase() == Phases(t.journal)[|t.journal| - 1];
    assert s.Phase() == Phases(s.journal)[|s.journal| - 1];
  }

  lemma PhasesAppend(s: LabState, phase: Phase)
    ensures Phases(s.Append(phase).journal) == Phases(s.journal) + [phase]
  {
  }

  lemma ClimbedNext(s: LabState, t: LabState, k: nat)
    requires s.journal != [] && t.journal != [] && k + 1 < |LADDER| && Climbed(s, t, k)
    ensures Floor(s.Phase()) < k + 1 ==> Climbed(s, t.Append(LADDER[k + 1]), k + 1)
    ensures Floor(s.Phase()) >= k + 1 ==> Climbed(s, t, k + 1)
  {
    RungsNext(s.Phase(), k);
    PhasesAppend(t, LADDER[k + 1]);
  }

  class Lifecycle {
    const store: LabStateStore
    const fleet: Fleet
    const config: Config

    constructor (store: LabStateStore, fleet: Fleet, config: Config)
      ensures this.store == store && this.fleet == fleet && this.config == config
    {
      this.store := store;
      this.fleet := fleet;
      this.config := config;
    }

    ghost predicate Usable()
      reads store
    {
      store.Valid() && !store.writesProhibited && ValidConfig(config) && Separate(fleet.facts)
    }

    ghost predicate CleanRunClimbs(s: LabState) {
      Provisionable(s, fleet.facts, config)
    }

    /** The lab that a call of `Provision` works on: the stored one, or the one it claims. */
    ghost function Initial(labs: map<string, LabState>, labName: string, labId: string): Option<LabState> {
      if labName in labs then Some(labs[labName])
      else
        var claimed := Claim(labName, labId, "lima", store.namespace);
        if claimed.Ok? then Some(claimed.value) else None
    }

    ghost predicate Holds(labName: string, state: LabState)
      reads store
    {
      labName in store.labs && store.labs[labName] == state
    }

    /** One store call on the lab, before which the process may die. */
    method Apply(labName: string, state: LabState, request: Request) returns (o: Outcome<LabState>)
      requires Usable() && Holds(labName, state)
      modifies store`labs, fleet`faults
      ensures Usable() && fleet.faults >= old(fleet.faults)
      ensures o.Crashed? <==> fleet.faults > old(fleet.faults)
      ensures o.Raised? ==> Next(state, state.identity.labId, request).Err?
      ensures o.Returned? ==> Next(state, state.identity.labId, request) == Ok(o.value)
      ensures store.labs == if o.Returned? then old(store.labs)[labName := o.value] else old(store.labs)
    {
      hide LabRuns.Inv, Proposal, LabStates.Construct, Separate;
      var alive := fleet.Survive();
      if !alive {
        return Crashed;
      }
      var r := store.Mutate(labName, state.identity.labId, request);
      return if r.Ok? then Returned(r.value) else Raised(r.error);
    }

    /** Bind a fact that is not bound yet. */
    method Bind(labName: string, state: LabState, request: Request) returns (o: Outcome<LabState>)
      requires Usable() && Holds(labName, state) && state.spec.None?
      requires || (request == BindSpec(config.specSha) && state.profile.Some?)
               || (request == BindProfile(config.profile) && state.profile.None?)
      modifies store`labs, fleet`faults
      ensures Usable() && fleet.faults >= old(fleet.faults)
      ensures o.Crashed? ==> fleet.faults > old(fleet.faults)
      ensures o.Raised? ==> !CleanRunClimbs(state)
      ensures o.Returned? ==>
                && o.value == (if request.BindSpec? then state.(spec := Some(config.specSha))
                               else state.(profile := Some(config.profile)))
                && (CleanRunClimbs(state) ==> CleanRunClimbs(o.value))
      ensures store.labs == if o.Returned? then old(store.labs)[labName := o.value] else old(store.labs)
    {
      hide LabRuns.Inv, Proposal, LabStates.Construct, Separate, FullInventory;
      if CleanRunClimbs(state) {
        BindAccepted(state, config);
      }
      o := Apply(labName, state, request);
      if o.Returned? {
        StepAchieves(state, state.identity.labId, request);
        assert store.labs[labName] == o.value && LabRuns.Inv(o.value);
      }
    }

    method LoadOrClaim(labName: string, labId: string) returns (o: Outcome<LabState>)
      requires Usable()
      modifies store`labs, fleet`faults
      ensures Usable() && fleet.faults >= old(fleet.faults)
      ensures o.Crashed? ==> fleet.faults > old(fleet.faults)
      ensures o.Raised? ==> Initial(old(store.labs), labName, labId).None?
      ensures o.Returned? ==> Initial(old(store.labs), labName, labId) == Some(o.value) && Holds(labName, o.value)
      ensures store.labs == if o.Returned? then old(store.labs)[labName := o.value] else old(store.labs)
    {
      hide LabRuns.Inv, LabStates.Claim, Separate;
      var alive := fleet.Survive();
      if !alive {
        return Crashed;
      }
      var loaded := store.Load(labName);
      if loaded.Err? {
        loaded := store.Claim(labName, labId, "lima");
      }
      return if loaded.Ok? then Returned(loaded.value) else Raised(loaded.error);
    }

    /** Bind the immutable profile and specification of the loaded lab, unless they are bound. */
    method BindFacts(labName: string, loaded: LabState) returns (o: Outcome<LabState>)
      requires Usable() && Holds(labName, loaded)
      modifies store`labs, fleet`faults
      ensures Usable() && fleet.faults >= old(fleet.faults)
      ensures o.Crashed? ==> fleet.faults > old(fleet.faults)
      ensures o.Raised? ==> !CleanRunClimbs(loaded)
      ensures o.Returned? ==> Holds(labName, o.value)
      ensures labName in store.labs && store.labs == old(store.labs)[labName := store.labs[labName]]
      ensures Grown(loaded, store.labs[labName]) && store.labs[labName].inventory == loaded.inventory
      ensures CleanRunClimbs(loaded) ==> CleanRunClimbs(store.labs[labName])
      ensures o.Returned? ==> o.value.spec.Some?
      ensures loaded.spec.Some? ==> store.labs[labName].spec == loaded.spec
      ensures o.Returned? && loaded.spec.None? ==> o.value.spec == Some(config.specSha)
      ensures o.Returned? ==>
                o.value.profile == Some(config.profile) || (o.value.profile.None? && config.profile == "standard")
      ensures ForeignProfile(loaded, config) ==> o.Raised? && store.labs == old(store.labs)
      ensures Complete(loaded, config) ==> !o.Raised? && store.labs == old(store.labs)
    {
      hide LabRuns.Inv, Proposal, LabStates.Construct, Separate, FullInventory, Agrees;
      var state := loaded;
      if state.profile.None? {
        if state.spec.None? {
          var bound := Bind(labName, state, BindProfile(config.profile));
          if !bound.Returned? {
            return bound;
          }
          state := bound.value;
        } else if config.profile != "standard" {
          return Raised(Lifecycle);
        }
      } else if state.profile.value != config.profile {
        return Raised(Lifecycle);
      }
      if state.spec.None? {
        o := Bind(labName, state, BindSpec(config.specSha));
        return;
      }
      return Returned(state);
    }

    /** Declare the four machines of a lab that has none. */
    method Declare(labName: string, state: LabState, ids: seq<string>) returns (o: Outcome<LabState>)
      requires Usable() && Holds(labName, state) && FreshIds(ids)
      requires CleanRunClimbs(state) ==> state.spec.Some?
      modifies store`labs, fleet`faults
      ensures Usable() && fleet.faults >= old(fleet.faults)
      ensures o.Crashed? ==> fleet.faults > old(fleet.faults)
      ensures o.Raised? ==> !CleanRunClimbs(state)
      ensures o.Returned? ==> Holds(labName, o.value) && FullInventory(o.value.inventory)
      ensures labName in store.labs && store.labs == old(store.labs)[labName := store.labs[labName]]
      ensures Grown(state, store.labs[labName])
      ensures CleanRunClimbs(state) ==> CleanRunClimbs(store.labs[labName])
      ensures store.labs[labName].spec == state.spec && store.labs[labName].profile == state.profile
      ensures FullInventory(state.inventory) ==> !o.Raised? && store.labs == old(store.labs)
    {
      hide LabRuns.Inv, Proposal, LabStates.Construct, Separate, FullInventory;
      var current := state;
      NotFull(state.inventory);
      if state.inventory == [] {
        InvIdentity(state);
        var machines := NewInventory(state.identity.labId, ids);
        if CleanRunClimbs(state) {
          NotFull(state.inventory);
          DeclareAccepted(state, ids);
          NewInventoryLegal(state.identity, ids);
        }
        var declared := Apply(labName, state, DeclareInventory(machines));
        if !declared.Returned? {
          return declared;
        }
        StepAchieves(state, state.identity.labId, DeclareInventory(machines));
        current := declared.value;
        assert store.labs[labName] == current && LabRuns.Inv(current);
      }
      if !FullInventory(current.inventory) {
        return Raised(Validation);
      }
      return Returned(current);
    }

    /** Observe the four machines; without drift, they report the truth. */
    method ObserveAll(state: LabState) returns (o: Outcome<seq<Observation>>)
      modifies fleet
      ensures fleet.faults >= old(fleet.faults) && fleet.drifts >= old(fleet.drifts)
      ensures o != Returned(TrueObservations(state.inventory, fleet.facts, config)) ==> fleet.faults > old(fleet.faults)
      ensures o.Returned? ==> Made(o.value, config)
      ensures o.Returned? && fleet.drifts == old(fleet.drifts) ==>
                && o.value == TrueObservations(state.inventory, fleet.facts, config)
                && |o.value| == |state.inventory|
                && forall i :: 0 <= i < |o.value| ==>
                     Reports(o.value[i], state.inventory[i], fleet.facts(state.inventory[i].handle), config)
    {
      var observations: seq<Observation> := [];
      ghost var truth := TrueObservations(state.inventory, fleet.facts, config);
      var i := 0;
      while i < |state.inventory|
        invariant 0 <= i <= |state.inventory| && |observations| == i && Made(observations, config)
        invariant fleet.faults >= old(fleet.faults) && fleet.drifts >= old(fleet.drifts)
        invariant fleet.faults == old(fleet.faults) ==> observations == truth[..i]
        invariant fleet.drifts == old(fleet.drifts) ==> observations == truth[..i]
      {
        var machine := state.inventory[i];
        var observed := fleet.Observe(machine.handle);
        if !observed.Returned? {
          return if observed.Crashed? then Crashed else Raised(observed.error);
        }
        assert truth[..i + 1] == truth[..i] + [truth[i]];
        observations := observations + [Observed(machine, observed.value, config)];
        i := i + 1;
      }
      assert truth[..i] == truth;
      return Returned(observations);
    }

    /** Reconcile the guests in a number of steps, up to the first one that fails. */
    method WorkSteps(steps: nat) returns (o: Outcome<()>)
      modifies fleet`faults, fleet`touched
      ensures if o.Returned? then fleet.faults == old(fleet.faults) else fleet.faults > old(fleet.faults)
    {
      for step := 0 to steps
        invariant fleet.faults == old(fleet.faults)
      {
        var done := fleet.Work();
        if !done.Returned? {
          return done;
        }
      }
      return Returned(());
    }

    /** One rung: reconcile the guests in some steps, then journal the phase unless it is reached. */
    method Rung(labName: string, s: LabState, t: LabState, k: nat, observations: seq<Observation>, work: nat)
      returns (o: Outcome<LabState>)
      requires Usable() && Holds(labName, t) && k < 5
      requires LabRuns.Inv(s) && Startable(s.Phase()) && Climbed(s, t, k)
      requires t.observations != []
      requires OrderObservations(t.identity.provider, t.inventory, observations) == Ok(t.observations)
      modifies store`labs, fleet`faults, fleet`touched
      ensures Usable() && fleet.faults >= old(fleet.faults)
      ensures if o.Returned? then fleet.faults == old(fleet.faults) else fleet.faults > old(fleet.faults)
      ensures o.Returned? ==>
                && store.labs == old(store.labs)[labName := o.value]
                && o.value == t.(journal := o.value.journal) && Climbed(s, o.value, k + 1)
      ensures !o.Returned? ==> store.labs == old(store.labs)
    {
      hide LabRuns.Inv, Proposal, LabStates.Construct, Separate, FullInventory, OrderObservations, Climbed, Rungs;
      InvJournal(s);
      InvJournal(t);
      var done := WorkSteps(work);
      if !done.Returned? {
        return if done.Crashed? then Crashed else Raised(done.error);
      }
      ClimbedPhase(s, t, k);
      ClimbedNext(s, t, k);
      PhaseAt(s.Phase(), k);
      RungAccepted(t, LADDER[k + 1], observations);
      if t.Phase() == Degraded {
        o := Apply(labName, t, Recover(LADDER[k + 1], observations));
      } else if VerifiedRank(t.Phase()).None? {
        return Raised(Validation);
      } else if VerifiedRank(t.Phase()).value >= k + 1 {
        return Returned(t);
      } else {
        o := Apply(labName, t, Advance(LADDER[k + 1]));
      }
    }

    /** The first two rungs: verified machines with the bundle installed, and their common systems. */
    method ClimbMachines(labName: string, s: LabState, observations: seq<Observation>)
      returns (o: Outcome<LabState>, ghost k: nat)
      requires Usable() && Holds(labName, s) && Startable(s.Phase()) && s.observations != []
      requires OrderObservations(s.identity.provider, s.inventory, observations) == Ok(s.observations)
      modifies store`labs, fleet`faults, fleet`touched
      ensures Usable() && fleet.faults >= old(fleet.faults)
      ensures fleet.faults == old(fleet.faults) ==> o.Returned?
      ensures labName in store.labs && store.labs == old(store.labs)[labName := store.labs[labName]]
      ensures store.labs[labName] == s.(journal := store.labs[labName].journal)
      ensures k <= 2 && Climbed(s, store.labs[labName], k)
      ensures o.Returned? ==> Holds(labName, o.value) && k == 2
    {
      hide LabRuns.Inv, Separate, OrderObservations, Climbed, Rungs;
      InvJournal(s);
      ClimbedNothing(s);
      k := 0;
      o := Rung(labName, s, s, 0, observations, 3);
      if !o.Returned? {
        return;
      }
      k := 1;
      o := Rung(labName, s, o.value, 1, observations, 1);
      if !o.Returned? {
        return;
      }
      k := 2;
    }

    /** The next two rungs: the joined cluster, and its verified health. */
    method ClimbCluster(labName: string, s: LabState, t: LabState, observations: seq<Observation>)
      returns (o: Outcome<LabState>, ghost k: nat)
      requires Usable() && Holds(labName, t)
      requires LabRuns.Inv(s) && Startable(s.Phase()) && Climbed(s, t, 2) && t.observations != []
      requires OrderObservations(t.identity.provider, t.inventory, observations) == Ok(t.observations)
      modifies store`labs, fleet`faults, fleet`touched
      ensures Usable() && fleet.faults >= old(fleet.faults)
      ensures fleet.faults == old(fleet.faults) ==> o.Returned?
      ensures labName in store.labs && store.labs == old(store.labs)[labName := store.labs[labName]]
      ensures store.labs[labName] == t.(journal := store.labs[labName].journal)
      ensures k <= 4 && Climbed(s, store.labs[labName], k)
      ensures o.Returned? ==> Holds(labName, o.value) && k == 4
    {
      hide LabRuns.Inv, Separate, OrderObservations, Climbed, Rungs, Startable;
      InvJournal(s);
      k := 2;
      o := Rung(labName, s, t, 2, observations, 2);
      if !o.Returned? {
        return;
      }
      k := 3;
      o := Rung(labName, s, o.value, 3, observations, 1);
      if !o.Returned? {
        return;
      }
      k := 4;
    }

    /** Every rung of one reconciliation: machines, systems, cluster, health, and the workstation if enabled. */
    method Climb(labName: string, s: LabState, observations: seq<Observation>)
      returns (o: Outcome<LabState>, ghost k: nat)
      requires Usable() && Holds(labName, s) && Startable(s.Phase()) && s.observations != []
      requires OrderObservations(s.identity.provider, s.inventory, observations) == Ok(s.observations)
      modifies store`labs, fleet`faults, fleet`touched
      ensures Usable() && fleet.faults >= old(fleet.faults)
      ensures fleet.faults == old(fleet.faults) ==> o.Returned?
      ensures labName in store.labs && store.labs == old(store.labs)[labName := store.labs[labName]]
      ensures store.labs[labName] == s.(journal := store.labs[labName].journal)
      ensures k <= Top(config) && Climbed(s, store.labs[labName], k)
      ensures o.Returned? ==> Holds(labName, o.value) && k == Top(config)
    {
      hide LabRuns.Inv, Separate, OrderObservations, Climbed, Rungs, Startable;
      InvJournal(s);
      o, k := ClimbMachines(labName, s, observations);
      if !o.Returned? {
        return;
      }
      o, k := ClimbCluster(labName, s, o.value, observations);
      if !o.Returned? || !config.u5 {
        return;
      }
      o := Rung(labName, s, o.value, 4, observations, 2);
      if o.Returned? {
        k := 5;
      }
    }

    predicate Compatible(state: LabState)
      ensures state.spec.Some? ==> (Compatible(state) <==> !ForeignInputs(state, config))
    {
      && (forall o :: o in state.observations ==> o.bundleSha == config.bundleSha)
      && state.spec == Some(config.specSha)
      && (forall o :: o in state.observations ==> Some(o.specSha) == state.spec)
    }

    /** The guarded block of `Provision`: ensure, observe and record the machines, then climb. */
    method Reconcile(labName: string, state: LabState) returns (o: Outcome<LabState>, ghost k: nat)
      requires Usable() && Holds(labName, state) && FullInventory(state.inventory) && Startable(state.Phase())
      modifies store`labs, fleet
      ensures Usable() && fleet.faults >= old(fleet.faults) && fleet.drifts >= old(fleet.drifts)
      ensures labName in store.labs && store.labs == old(store.labs)[labName := store.labs[labName]]
      ensures k <= Top(config) && Climbed(state, store.labs[labName], k)
      ensures o.Returned? ==> Holds(labName, o.value) && k == Top(config) && o.value.observations != []
      ensures o.Returned? ==> Pinned(o.value, config) && o.value.profile == state.profile
      ensures CleanRunClimbs(state) && fleet.drifts == old(fleet.drifts) ==>
                Agrees(store.labs[labName], fleet.facts, config)
      ensures CleanRunClimbs(state) && fleet.faults == old(fleet.faults) ==> o.Returned?
      ensures !Compatible(state) ==> o.Raised? && fleet.touched == old(fleet.touched)
    {
      hide LabRuns.Inv, Separate, OrderObservations, Climbed, Rungs, FullInventory, Made;
      InvJournal(state);
      ClimbedNothing(state);
      k := 0;
      if CleanRunClimbs(state) {
        NotFull(state.inventory);
        TruthIsCompatible(state, fleet.facts, config);
      }
      if !Compatible(state) {
        o := Raised(Lifecycle);
        return;
      }
      var observations;
      o, observations := EnsureAndRecord(labName, state);
      if !o.Returned? {
        return;
      }
      ghost var recorded := o.value;
      o, k := Climb(labName, o.value, observations);
      ClimbedBase(state, recorded, store.labs[labName], k);
    }

    /** The start of `Reconcile`: the machines are there, and what they report is recorded. */
    method EnsureAndRecord(labName: string, state: LabState)
      returns (o: Outcome<LabState>, observations: seq<Observation>)
      requires Usable() && Holds(labName, state) && FullInventory(state.inventory) && Startable(state.Phase())
      modifies store`labs, fleet
      ensures Usable() && fleet.faults >= old(fleet.faults) && fleet.drifts >= old(fleet.drifts)
      ensures store.labs == if o.Returned? then old(store.labs)[labName := o.value] else old(store.labs)
      ensures o.Returned? ==>
                && o.value == state.(observations := o.value.observations) && o.value.observations != []
                && OrderObservations(state.identity.provider, state.inventory, observations)
                   == Ok(o.value.observations)
                && Made(o.value.observations, config)
      ensures CleanRunClimbs(state) && o.Returned? && fleet.drifts == old(fleet.drifts) ==>
                Agrees(o.value, fleet.facts, config)
      ensures CleanRunClimbs(state) && fleet.faults == old(fleet.faults) ==> o.Returned?
    {
      hide LabRuns.Inv, Proposal, LabStates.Construct, Separate, OrderObservations, FullInventory, Made;
      observations := [];
      if CleanRunClimbs(state) {
        NotFull(state.inventory);
        RecordAccepted(state, fleet.facts, config);
      }
      var ensured := WorkSteps(|FULL_ROLES|);
      if !ensured.Returned? {
        o := if ensured.Crashed? then Crashed else Raised(ensured.error);
        return;
      }
      var observed := ObserveAll(state);
      if !observed.Returned? {
        o := if observed.Crashed? then Crashed else Raised(observed.error);
        return;
      }
      observations := observed.value;
      o := Apply(labName, state, RecordObservations(observations));
      if o.Returned? {
        StepAchieves(state, state.identity.labId, RecordObservations(observations));
        Recorded(state, observations);
        MadePermuted(observations, o.value.observations, config);
      }
    }

    /** Degrade the lab after a failed reconciliation; `false` means that the process died first. */
    method MarkDegraded(labName: string) returns (alive: bool)
      requires Usable() && labName in store.labs && store.labs[labName].journal != []
      modifies store`labs, fleet`faults
      ensures Usable() && (!alive ==> fleet.faults > old(fleet.faults)) && fleet.faults >= old(fleet.faults)
      ensures var s := old(store.labs)[labName];
              store.labs == old(store.labs)[labName :=
                if !alive || s.Phase().Degraded? || s.Phase().CleanupPending? || s.Phase().Destroyed? then s
                else s.Append(Degraded)]
    {
      hide LabRuns.Inv, Proposal, LabStates.Construct, Separate;
      alive := fleet.Survive();
      if !alive {
        return;
      }
      var loaded := store.Load(labName);
      var state := loaded.value;
      if !state.Phase().Degraded? && !state.Phase().CleanupPending? && !state.Phase().Destroyed? {
        DegradeAccepted(state);
        var degraded := store.Mutate(labName, state.identity.labId, Advance(Degraded));
      }
    }

    /** What one call of `Provision` may leave behind of the lab it started from. */
    ghost predicate Provisioned(s: LabState, t: LabState, o: Outcome<LabState>, k: nat)
      requires s.journal != [] && k < |LADDER|
    {
      var climbed := Phases(s.journal) + Rungs(s.Phase(), k);
      && t == s.(profile := t.profile, spec := t.spec, inventory := t.inventory, observations := t.observations,
                 journal := t.journal)
      && (o.Returned? ==>
            && o.value == t && k == Top(config) && Phases(t.journal) == climbed
            && FullInventory(t.inventory) && t.observations != [])
      && (o.Crashed? ==> Phases(t.journal) == climbed)
      && (o.Raised? ==>
            || t.journal == s.journal
            || (Phases(t.journal) == climbed && t.journal != [] && t.Phase() == Degraded)
            || Phases(t.journal) == climbed + [Degraded])
    }

    /**
     * Provision a lab, new or known. `labId` and `ids` are the fresh UUIDs of the call, and `k` is the
     * rank up to which the ladder was climbed.
     */
    method Provision(labName: string, labId: string, ids: seq<string>) returns (o: Outcome<LabState>, ghost k: nat)
      requires Usable() && FreshIds(ids)
      modifies store`labs, fleet
      ensures Usable() && fleet.faults >= old(fleet.faults) && fleet.drifts >= old(fleet.drifts)
      ensures labName !in store.labs ==> store.labs == old(store.labs) && !o.Returned?
      ensures labName in store.labs ==>
                var s, t := Initial(old(store.labs), labName, labId), store.labs[labName];
                && s.Some? && s.value.journal != [] && k < |LADDER|
                && store.labs == old(store.labs)[labName := t]
                && Provisioned(s.value, t, o, k)
                // A cleaned-up lab or one with a scenario is refused.
                && (!Startable(s.value.Phase()) ==> !o.Returned? && t.journal == s.value.journal)
                // A lab that a clean run climbs stays one.
                && (CleanRunClimbs(s.value) && fleet.drifts == old(fleet.drifts) ==> CleanRunClimbs(t))
                // A failed reconciliation leaves the lab degraded.
                // Another profile is refused with nothing changed.
                && (ForeignProfile(s.value, config) ==> !o.Returned? && t == s.value)
                && (o.Raised? && Startable(s.value.Phase())
                    && (CleanRunClimbs(s.value) || Complete(s.value, config))
                    ==> t.journal != [] && t.Phase() == Degraded)
                // Whatever is refused for its phase, profile, specification or bundle is refused untouched.
                && (!Startable(s.value.Phase()) || ForeignProfile(s.value, config) || ForeignInputs(s.value, config)
                    ==> !o.Returned? && fleet.touched == old(fleet.touched))
      // Success leaves nothing recorded but what was made with the pinned inputs.
      ensures o.Returned? ==>
                && Pinned(o.value, config)
                && (o.value.profile == Some(config.profile) || (o.value.profile.None? && config.profile == "standard"))
      // A clean run is never refused.
      ensures && fleet.faults == old(fleet.faults) && Initial(old(store.labs), labName, labId).Some?
              && CleanRunClimbs(Initial(old(store.labs), labName, labId).value)
              ==> o.Returned?
    {
      hide LabRuns.Inv, Proposal, LabStates.Construct, Separate, CleanRunClimbs, Provisioned, Startable, Complete,
        Compatible, Initial, Pinned, ForeignProfile, ForeignInputs;
      k := 0;
      StoredIsInitial(store.labs, labName, labId);
      if labName in store.labs {
        InvJournal(store.labs[labName]);
        LeftUndone(store.labs[labName], store.labs[labName], Crashed);
      }
      o := LoadOrClaim(labName, labId);
      if o.Returned? {
        var loaded := o.value;
        InvJournal(loaded);
        o, k := ProvisionLoaded(labName, loaded, ids);
      }
    }

    lemma StoredIsInitial(labs: map<string, LabState>, labName: string, labId: string)
      ensures labName in labs ==> Initial(labs, labName, labId) == Some(labs[labName])
    {
    }

    /** The rest of `Provision`, once the lab is loaded or claimed. */
    method ProvisionLoaded(labName: string, s: LabState, ids: seq<string>) returns (o: Outcome<LabState>, ghost k: nat)
      requires Usable() && Holds(labName, s) && FreshIds(ids) && s.journal != []
      modifies store`labs, fleet
      ensures Usable() && fleet.faults >= old(fleet.faults) && fleet.drifts >= old(fleet.drifts)
      ensures labName in store.labs && store.labs == old(store.labs)[labName := store.labs[labName]] && k < |LADDER|
      ensures Provisioned(s, store.labs[labName], o, k)
      ensures !Startable(s.Phase()) ==> !o.Returned? && store.labs[labName].journal == s.journal
      ensures CleanRunClimbs(s) && fleet.drifts == old(fleet.drifts) ==> CleanRunClimbs(store.labs[labName])
      ensures CleanRunClimbs(s) && o.Raised? ==>
                store.labs[labName].journal != [] && store.labs[labName].Phase() == Degraded
      ensures fleet.faults == old(fleet.faults) && CleanRunClimbs(s) ==> o.Returned?
      ensures Complete(s, config) && Startable(s.Phase()) && o.Raised? ==>
                store.labs[labName].journal != [] && store.labs[labName].Phase() == Degraded
      ensures !Startable(s.Phase()) || ForeignInputs(s, config) ==>
                !o.Returned? && fleet.touched == old(fleet.touched)
      ensures ForeignProfile(s, config) ==>
                o.Raised? && store.labs[labName] == s && fleet.touched == old(fleet.touched)
      ensures o.Returned? ==>
                && Pinned(o.value, config)
                && (o.value.profile == Some(config.profile) || (o.value.profile.None? && config.profile == "standard"))
    {
      hide LabRuns.Inv, Separate, FullInventory, CleanRunClimbs, Provisioned, Pinned, ForeignProfile;
      k := 0;
      o := DeclareAll(labName, s, ids);
      LeftUndone(s, store.labs[labName], o);
      ClimbsStart(s);
      if !o.Returned? {
        return;
      }
      var state := o.value;
      if !Startable(state.Phase()) {
        o := Raised(Lifecycle);
        LeftUndone(s, state, o);
        return;
      }
      o, k := Guard(labName, state);
      FromGrown(s, state, store.labs[labName], o, k);
    }

    /** Reconcile, and degrade the lab if that raises. */
    method Guard(labName: string, state: LabState) returns (o: Outcome<LabState>, ghost k: nat)
      requires Usable() && Holds(labName, state) && state.journal != []
      requires FullInventory(state.inventory) && Startable(state.Phase())
      modifies store`labs, fleet
      ensures Usable() && fleet.faults >= old(fleet.faults) && fleet.drifts >= old(fleet.drifts)
      ensures labName in store.labs && store.labs == old(store.labs)[labName := store.labs[labName]] && k < |LADDER|
      ensures Provisioned(state, store.labs[labName], o, k)
      ensures CleanRunClimbs(state) && fleet.drifts == old(fleet.drifts) ==> CleanRunClimbs(store.labs[labName])
      ensures o.Raised? ==> store.labs[labName].journal != [] && store.labs[labName].Phase() == Degraded
      ensures fleet.faults == old(fleet.faults) && CleanRunClimbs(state) ==> o.Returned?
      ensures !Compatible(state) ==> !o.Returned? && fleet.touched == old(fleet.touched)
      ensures o.Returned? ==> Pinned(o.value, config) && o.value.profile == state.profile
    {
      hide LabRuns.Inv, Separate, FullInventory, CleanRunClimbs, Agrees, Climbed, Provisioned, Compatible, Pinned;
      o, k := Reconcile(labName, state);
      ghost var t := store.labs[labName];
      InvJournal(t);
      LeftBehind(state, t, o, k);
      if CleanRunClimbs(state) && Agrees(t, fleet.facts, config) {
        StillClimbs(state, t, k);
      }
      if o.Raised? {
        var alive := MarkDegraded(labName);
        o := if alive then Raised(Lifecycle) else Crashed;
      }
    }

    lemma LeftBehind(state: LabState, t: LabState, o: Outcome<LabState>, k: nat)
      requires t.journal != [] && k < |LADDER|
      requires FullInventory(state.inventory) && state.journal != [] && Startable(state.Phase())
      requires Climbed(state, t, k)
      requires o.Returned? ==> o.value == t && k == Top(config) && t.observations != []
      ensures Startable(t.Phase())
      ensures !o.Raised? ==> Provisioned(state, t, o, k)
      ensures Provisioned(state, t, Crashed, k)
      ensures o.Raised? ==>
                Provisioned(state, if t.Phase() == Degraded then t else t.Append(Degraded), Raised(Lifecycle), k)
    {
      hide Rungs, FullInventory;
      PhasesAppend(t, Degraded);
      ClimbedPhase(state, t, k);
      assert LADDER[k] in LADDER;
    }

    lemma FromGrown(s: LabState, state: LabState, t: LabState, o: Outcome<LabState>, k: nat)
      requires s.journal != [] && Grown(s, state) && k < |LADDER| && Provisioned(state, t, o, k)
      ensures Provisioned(s, t, o, k)
    {
      hide Rungs, FullInventory;
    }

    lemma ClimbsStart(s: LabState)
      requires s.journal != []
      ensures CleanRunClimbs(s) ==> Startable(s.Phase())
    {
    }

    lemma StillClimbs(s: LabState, t: LabState, k: nat)
      requires CleanRunClimbs(s) && FullInventory(s.inventory) && LabRuns.Inv(t) && Agrees(t, fleet.facts, config)
      requires k < |LADDER| && Climbed(s, t, k)
      ensures CleanRunClimbs(t)
      ensures LabRuns.Inv(t.Append(Degraded)) ==> CleanRunClimbs(t.Append(Degraded))
    {
      hide LabRuns.Inv, Rungs, OrderObservations, FullInventory;
      InvJournal(s);
      InvJournal(t);
      NotFull(s.inventory);
      ClimbedPhase(s, t, k);
      assert LADDER[k] in LADDER;
    }

    lemma LeftUndone(s: LabState, t: LabState, o: Outcome<LabState>)
      requires s.journal != [] && Grown(s, t)
      ensures !o.Returned? ==> Provisioned(s, t, o, 0)
    {
      ClimbedNothing(s);
    }

    /** Every newly claimed lab is one that a clean run climbs. */
    lemma ClaimClimbs(labName: string, labId: string)
      requires LabStates.Claim(labName, labId, "lima", store.namespace).Ok?
      ensures CleanRunClimbs(LabStates.Claim(labName, labId, "lima", store.namespace).value)
    {
      ClaimInv(labName, labId, "lima", store.namespace);
    }

    /** A successful run ends at the top of the ladder or above it, and a further one journals nothing. */
    lemma SecondRunUnchanged(s: LabState, t: LabState, k: nat, u: LabState, j: nat)
      requires s.journal != [] && Startable(s.Phase()) && LabRuns.Inv(t) && LabRuns.Inv(u)
      requires k < |LADDER| && j < |LADDER|
      requires Provisioned(s, t, Returned(t), k) && Provisioned(t, u, Returned(u), j)
      ensures VerifiedRank(t.Phase()).Some? && VerifiedRank(t.Phase()).value >= Top(config)
      ensures u.journal == t.journal
    {
      hide LabRuns.Inv, FullInventory, LegalJournal;
      InvJournal(t);
      InvJournal(u);
      LegalSome(t);
      LegalSome(u);
      assert t.Phase() == Phases(t.journal)[|t.journal| - 1];
      assert s.Phase() == Phases(s.journal)[|s.journal| - 1];
      assert Rungs(t.Phase(), j) == [];
      assert Phases(t.journal) + [] == Phases(t.journal);
      SamePhases(u.journal, t.journal);
    }

    /**
     * A run that fails in any way, and is then repeated without a failure, reaches the top all the same.
     * `between` is the number of faults before the second run.
     */
    method Retry(labName: string, labId: string, ids: seq<string>, others: seq<string>)
      returns (o: Outcome<LabState>, ghost between: nat)
      requires Usable() && FreshIds(ids) && FreshIds(others)
      modifies store`labs, fleet
      ensures Usable()
      ensures && fleet.drifts == old(fleet.drifts) && fleet.faults == between
              && Initial(old(store.labs), labName, labId).Some?
              && CleanRunClimbs(Initial(old(store.labs), labName, labId).value)
              ==> o.Returned?
    {
      hide LabRuns.Inv, Separate, CleanRunClimbs, Provisioned;
      var first, k := Provision(labName, labId, ids);
      between := fleet.faults;
      var second, j := Provision(labName, labId, others);
      return second, between;
    }

    /** Bind and declare what is missing; nothing is journaled. */
    method DeclareAll(labName: string, s: LabState, ids: seq<string>) returns (o: Outcome<LabState>)
      requires Usable() && Holds(labName, s) && FreshIds(ids) && s.journal != []
      modifies store`labs, fleet`faults
      ensures Usable() && fleet.faults >= old(fleet.faults)
      ensures labName in store.labs && store.labs == old(store.labs)[labName := store.labs[labName]]
      ensures Grown(s, store.labs[labName])
      ensures o.Returned? ==> Holds(labName, o.value) && FullInventory(o.value.inventory)
      ensures o.Crashed? ==> fleet.faults > old(fleet.faults)
      ensures o.Raised? ==> !CleanRunClimbs(s)
      ensures CleanRunClimbs(s) ==> CleanRunClimbs(store.labs[labName])
      ensures s.spec.Some? ==> store.labs[labName].spec == s.spec
      ensures o.Returned? ==>
                o.value.profile == Some(config.profile) || (o.value.profile.None? && config.profile == "standard")
      ensures ForeignProfile(s, config) ==> o.Raised? && store.labs[labName] == s
      ensures Complete(s, config) ==> !o.Raised? && store.labs[labName] == s
    {
      hide LabRuns.Inv, Separate, CleanRunClimbs, FullInventory;
      o := BindFacts(labName, s);
      if o.Returned? {
        o := Declare(labName, o.value, ids);
      }
    }
  }

  /** Observations that agree with the machines were made with today's bundle and specification. */
  lemma TruthIsCompatible(s: LabState, facts: Handle -> MachineFacts, c: Config)
    requires LabRuns.Inv(s) && Agrees(s, facts, c)
    ensures forall o :: o in s.observations ==> o.bundleSha == c.bundleSha && o.specSha == c.specSha
  {
    hide LabRuns.Inv, OrderObservations, Canonical;
    LegalRoles(s);
    if s.observations != [] {
      var truth := TrueObservations(s.inventory, facts, c);
      OrderObservationsExact("lima", s.inventory, truth, s.observations);
      SameMembers(s.observations, truth);
      forall o | o in s.observations ensures o.bundleSha == c.bundleSha && o.specSha == c.specSha {
        assert o in truth;
        var i :| 0 <= i < |truth| && truth[i] == o;
        assert o == Observed(s.inventory[i], facts(s.inventory[i].handle), c);
      }
    }
  }

  lemma Recorded(s: LabState, facts: seq<Observation>)
    requires LabRuns.Inv(s) && Next(s, s.identity.labId, RecordObservations(facts)).Ok?
    ensures var t := Next(s, s.identity.labId, RecordObservations(facts)).value;
            && OrderObservations(s.identity.provider, s.inventory, facts) == Ok(t.observations)
            && t.observations != []
  {
    hide LegalInventory, WellFormedFields, OpenAttempt, ReachedVerified, OrderObservations, LegalJournal, LegalAttempt;
    ConstructedExact(s);
    NextIsProposal(s, s.identity.labId, RecordObservations(facts));
    OrderIdempotent(s, facts);
  }

  /** Recording observations is no rung: what climbs from the recorded state climbs from before it. */
  lemma ClimbedBase(s: LabState, recorded: LabState, t: LabState, k: nat)
    requires s.journal != [] && k < |LADDER| && recorded == s.(observations := recorded.observations)
    requires Climbed(recorded, t, k)
    ensures Climbed(s, t, k)
  {
  }

  lemma ClimbedNothing(s: LabState)
    requires s.journal != []
    ensures Climbed(s, s, 0)
  {
    assert Rungs(s.Phase(), 0) == [];
  }

  /** Where a lab stands after `k` rungs: at rank `k`, or still above it, or degraded at the bottom. */
  lemma PhaseAt(start: Phase, k: nat)
    requires Startable(start) && k < 5
    ensures var p := if Rungs(start, k) == [] then start else LADDER[k];
            if p == Degraded then start == Degraded && k == 0
            else VerifiedRank(p).Some? && if Floor(start) >= k + 1 then VerifiedRank(p).value >= k + 1
                                          else p == LADDER[k] && Allowed(p, LADDER[k + 1])
    ensures Floor(start) < |LADDER| && (start == Degraded ==> Floor(start) == 0)
    ensures U4Verified(LADDER[k + 1]) || LADDER[k + 1] == CandidateReady
    ensures U4Verified(LADDER[1])
  {
  }

  lemma LegalSome(s: LabState)
    requires LegalJournal(s.journal)
    ensures s.journal != []
  {
  }

  /** Legal journals are told apart by their phases alone. */
  lemma SamePhases(a: seq<Entry>, b: seq<Entry>)
    requires LegalJournal(a) && LegalJournal(b) && Phases(a) == Phases(b)
    ensures a == b
  {
    assert |Phases(a)| == |a| && |Phases(b)| == |b|;
    forall i | 0 <= i < |a| ensures a[i] == b[i] {
      assert Phases(a)[i] == a[i].phase && Phases(b)[i] == b[i].phase;
    }
  }

  lemma NotFull(inventory: seq<Machine>)
    ensures inventory == [] ==> !FullInventory(inventory)
  {
  }

  // ---------------------------------------------------------------------------------------------
  // An attempt that is provisioned over

  lemma {:induction false} RunSplit(s: LabState, calls: seq<Call>, more: seq<Call>)
    requires Constructed(s)
    ensures Run(s, calls + more) == Run(Run(s, calls), more)
  {
    hide Constructed, Next;
    if more == [] {
      assert calls + more == calls;
    } else {
      assert (calls + more)[..|calls + more| - 1] == calls + more[..|more| - 1];
      RunSplit(s, calls, more[..|more| - 1]);
    }
  }

  /** A run of one accepted call. */
  lemma RunOne(s: LabState, r: Request, t: LabState)
    requires LabRuns.Inv(s) && Next(s, s.identity.labId, r) == Ok(t)
    ensures Run(s, [Call(s.identity.labId, r)]) == t && LabRuns.Inv(t)
  {
    hide Next, Construct, OpenAttempt, ReachedVerified;
    StepInv(s, s.identity.labId, r);
    var calls := [Call(s.identity.labId, r)];
    assert calls[..0] == [];
    assert Run(s, calls[..0]) == s;
  }

  /** From the bottom of the ladder, a lab with its observations recorded climbs to any rung by mutator calls. */
  lemma {:induction false} ClimbsByCalls(s: LabState, k: nat) returns (calls: seq<Call>)
    requires LabRuns.Inv(s) && (s.Phase() == Declared || s.Phase() == Degraded) && s.observations != []
    requires 1 <= k <= 5
    ensures var t := Run(s, calls);
            LabRuns.Inv(t) && t == s.(journal := t.journal) && t.Phase() == LADDER[k]
  {
    hide Construct, OpenAttempt, ReachedVerified, Next, OrderObservations;
    var init: seq<Call> := [];
    if k > 1 {
      init := ClimbsByCalls(s, k - 1);
    }
    var t := Run(s, init);
    InvJournal(t);
    StoredOrdered(t);
    RungAccepted(t, LADDER[k], t.observations);
    var rung := if t.Phase() == Degraded then Recover(LADDER[k], t.observations) else Advance(LADDER[k]);
    RunOne(t, rung, t.Append(LADDER[k]));
    calls := init + [Call(t.identity.labId, rung)];
    RunSplit(s, init, [Call(t.identity.labId, rung)]);
  }

  lemma StoredOrdered(s: LabState)
    requires LabRuns.Inv(s) && s.observations != []
    ensures OrderObservations(s.identity.provider, s.inventory, s.observations) == Ok(s.observations)
  {
    hide LegalInventory, OpenAttempt, ReachedVerified, OrderObservations;
    ConstructedExact(s);
  }

  /** Nothing that the lab store offers moves a lab out of this state, short of degrading it or its cleanup. */
  ghost predicate Stranded(t: LabState) {
    && LabRuns.Inv(t) && t.active.Some? && t.Phase() == CandidateReady
    && (forall id, r: Request :: r.Restore? ==> Next(t, id, r).Err?)
    && (forall id, fingerprint :: IsSha256(fingerprint) ==> Next(t, id, Attest(fingerprint)).Err?)
  }

  /** Every degraded lab with a recorded attempt can be brought to where the attempt is stranded. */
  lemma AttemptStranded(s: LabState) returns (calls: seq<Call>)
    requires LabRuns.Inv(s) && s.active.Some? && s.Phase() == Degraded
    ensures Stranded(Run(s, calls)) && Run(s, calls).active == s.active
  {
    hide Construct, Next;
    AttemptObserved(s);
    calls := ClimbsByCalls(s, 5);
    var t := Run(s, calls);
    forall id, r: Request | r.Restore? ensures Next(t, id, r).Err? {
      RestoreExact(t, id, r);
    }
    forall id, fingerprint | IsSha256(fingerprint) ensures Next(t, id, Attest(fingerprint)).Err? {
      AttestExact(t, id, fingerprint);
    }
  }

  lemma AttemptObserved(s: LabState)
    requires LabRuns.Inv(s) && s.active.Some?
    ensures s.observations != []
  {
    hide Constructed;
    assert ReachedVerified(s.journal);
  }

  /** A run from a claim that ends with a stranded attempt, for any attempt and any separate machines. */
  lemma StrandedFromClaim(labName: string, labId: string, namespace: string, ids: seq<string>,
                          facts: Handle -> MachineFacts, c: Config, a: ActiveScenario) returns (calls: seq<Call>)
    requires LabStates.Claim(labName, labId, "lima", namespace).Ok?
    requires FreshIds(ids) && Separate(facts) && ValidActive(a)
    ensures var t := Run(LabStates.Claim(labName, labId, "lima", namespace).value, calls);
            Stranded(t) && t.active == Some(a)
  {
    hide Stranded, Next, Separate, LabRuns.Inv;
    ClaimInv(labName, labId, "lima", namespace);
    var claimed := LabStates.Claim(labName, labId, "lima", namespace).value;
    var declared := DeclaredByCalls(claimed, ids, facts, c);
    var validated := ValidatedByCalls(Run(claimed, declared), a.baseline);
    RunSplit(claimed, declared, validated);
    var degraded := DegradedByCalls(Run(claimed, declared + validated), a);
    RunSplit(claimed, declared + validated, degraded);
    var stranded := AttemptStranded(Run(claimed, declared + validated + degraded));
    RunSplit(claimed, declared + validated + degraded, stranded);
    calls := declared + validated + degraded + stranded;
  }

  lemma DeclaredByCalls(s: LabState, ids: seq<string>, facts: Handle -> MachineFacts, c: Config)
    returns (calls: seq<Call>)
    requires LabRuns.Inv(s) && s.identity.provider == "lima" && s.Phase() == Declared
    requires s.inventory == [] && s.observations == []
    requires FreshIds(ids) && Separate(facts)
    ensures var t := Run(s, calls); LabRuns.Inv(t) && t.Phase() == Declared && t.observations != []
  {
    hide Next, Separate, LabRuns.Inv, OrderObservations, FullInventory;
    DeclareAccepted(s, ids);
    InvIdentity(s);
    var machines := NewInventory(s.identity.labId, ids);
    NewInventoryLegal(s.identity, ids);
    var t := s.(inventory := machines);
    RunOne(s, DeclareInventory(machines), t);
    RecordAccepted(t, facts, c);
    var truth := TrueObservations(machines, facts, c);
    var u := t.(observations := OrderObservations("lima", machines, truth).value);
    Recorded(t, truth);
    RunOne(t, RecordObservations(truth), u);
    calls := [Call(s.identity.labId, DeclareInventory(machines))] + [Call(s.identity.labId, RecordObservations(truth))];
    RunSplit(s, [Call(s.identity.labId, DeclareInventory(machines))],
             [Call(s.identity.labId, RecordObservations(truth))]);
  }

  lemma ValidatedByCalls(s: LabState, baseline: string) returns (calls: seq<Call>)
    requires LabRuns.Inv(s) && s.Phase() == Declared && s.observations != [] && IsSha256(baseline)
    ensures var t := Run(s, calls); LabRuns.Inv(t) && t.Phase() == Validated && t.health == Some(baseline)
  {
    hide Next, Construct, OpenAttempt, ReachedVerified, IsSha256;
    var climb := ClimbsByCalls(s, 5);
    var ready := Run(s, climb);
    DeclaredUntried(s);
    AttestExact(ready, ready.identity.labId, baseline);
    RunOne(ready, Attest(baseline), ready.(health := Some(baseline)).Append(Validated));
    calls := climb + [Call(ready.identity.labId, Attest(baseline))];
    RunSplit(s, climb, [Call(ready.identity.labId, Attest(baseline))]);
  }

  /** A lab that is still declared has no attempt. */
  lemma DeclaredUntried(s: LabState)
    requires LabRuns.Inv(s) && s.Phase() == Declared
    ensures s.active.None?
  {
    hide LegalInventory, OrderObservations, ValidActive, ReachedVerified;
    InvJournal(s);
    forall i | 0 < i < |s.journal| ensures s.journal[i].phase != Declared {
      assert Allowed(s.journal[i - 1].phase, s.journal[i].phase);
    }
  }

  lemma DegradedByCalls(s: LabState, a: ActiveScenario) returns (calls: seq<Call>)
    requires LabRuns.Inv(s) && s.Phase() == Validated && s.health == Some(a.baseline) && ValidActive(a)
    ensures var t := Run(s, calls); LabRuns.Inv(t) && t.Phase() == Degraded && t.active == Some(a)
  {
    hide Next, Construct, OpenAttempt, ReachedVerified, ValidActive;
    var prepare :=
      Prepare(a.scenarioId, a.attemptId, a.handlerIdentity, a.recoveryClass, a.targetRole, a.prepared, a.restore);
    PrepareExact(s, s.identity.labId, prepare);
    var t := s.(active := Some(a)).Append(ScenarioPrepared);
    RunOne(s, prepare, t);
    DegradeAccepted(t);
    RunOne(t, Advance(Degraded), t.Append(Degraded));
    calls := [Call(s.identity.labId, prepare)] + [Call(s.identity.labId, Advance(Degraded))];
    RunSplit(s, [Call(s.identity.labId, prepare)], [Call(s.identity.labId, Advance(Degraded))]);
  }

  lemma InvIdentity(s: LabState)
    requires LabRuns.Inv(s)
    ensures ValidIdentity(s.identity) && IsUuid(s.identity.labId)
  {
    hide LabStates.Construct, IsUuid;
  }
}
