/** The lab state record, its constructor checks, and the mutators that replace it (state.py). */
module LabStates {
  import opened Wrappers
  import opened Identifiers
  import opened Providers
  import opened Sequences

  datatype Phase =
    | Declared
    | VmsCreated
    | OsReady
    | ClusterReady
    | AddonsReady
    | CandidateReady
    | Validated
    | ScenarioPrepared
    | Graded
    | Degraded
    | CleanupPending
    | Destroyed

  /** The transition table: which phase a journal entry may follow. */
  predicate Allowed(before: Phase, after: Phase) {
    match before
    case Declared => after.VmsCreated? || after.Degraded? || after.CleanupPending? || after.Destroyed?
    case VmsCreated => after.OsReady? || after.Degraded? || after.CleanupPending?
    case OsReady => after.ClusterReady? || after.Degraded? || after.CleanupPending?
    case ClusterReady => after.AddonsReady? || after.Degraded? || after.CleanupPending?
    case AddonsReady => after.CandidateReady? || after.Degraded? || after.CleanupPending?
    case CandidateReady => after.Validated? || after.Degraded? || after.CleanupPending?
    case Validated => after.ScenarioPrepared? || after.Degraded? || after.CleanupPending? || after.Destroyed?
    case ScenarioPrepared => after.Validated? || after.Graded? || after.Degraded? || after.CleanupPending?
    case Graded => after.Validated? || after.Degraded? || after.CleanupPending?
    case Degraded =>
      || after.VmsCreated? || after.OsReady? || after.ClusterReady? || after.AddonsReady? || after.Validated?
      || after.CleanupPending?
    case CleanupPending => after.Destroyed?
    case Destroyed => false
  }

  predicate U4Verified(p: Phase) {
    p.VmsCreated? || p.OsReady? || p.ClusterReady? || p.AddonsReady?
  }

  // The timestamp and the redacted detail of an entry are not part of this model.
  datatype Entry = Entry(sequence: int, phase: Phase)

  datatype Observation = Observation(
    role: Role,
    machineId: string,
    handle: Handle,
    ipv4: string,
    mac: string,
    productUuid: string,
    bundleSha: string,
    specSha: string)

  datatype ActiveScenario = ActiveScenario(
    scenarioId: string,
    attemptId: string,
    handlerIdentity: string,
    recoveryClass: string,
    targetRole: string,
    baseline: string,
    prepared: string,
    restore: string)

  datatype LabIdentity = LabIdentity(labName: string, labId: string, provider: string, namespace: string)

  datatype LabState = LabState(
    identity: LabIdentity,
    inventory: seq<Machine>,
    journal: seq<Entry>,
    observations: seq<Observation>,
    profile: Option<string>,
    spec: Option<string>,
    health: Option<string>,
    active: Option<ActiveScenario>)
  {
    function Phase(): Phase
      requires journal != []
    {
      journal[|journal| - 1].phase
    }

    function Append(phase: Phase): LabState {
      this.(journal := journal + [Entry(|journal|, phase)])
    }
  }

  predicate ValidIdentity(i: LabIdentity) {
    IsIdentifier(i.labName) && IsUuid(i.labId) && IsIdentifier(i.provider) && IsIdentifier(i.namespace)
  }

  predicate ValidActive(a: ActiveScenario) {
    && IsScenarioId(a.scenarioId)
    && IsUuid(a.attemptId)
    && IsIdentifier(a.recoveryClass)
    && IsIdentifier(a.targetRole)
    && IsHandlerIdentity(a.handlerIdentity)
    && a.handlerIdentity[6..8] == a.scenarioId
    && IsSha256(a.baseline) && IsSha256(a.prepared) && IsSha256(a.restore)
  }

  predicate LegalJournal(journal: seq<Entry>) {
    && journal != []
    && journal[0].phase == Declared
    && (forall i :: 0 <= i < |journal| ==> journal[i].sequence == i)
    && (forall i :: 0 < i < |journal| ==> Allowed(journal[i - 1].phase, journal[i].phase))
  }

  function Roles(inventory: seq<Machine>): seq<Role> {
    seq(|inventory|, i requires 0 <= i < |inventory| => inventory[i].role)
  }

  predicate LegalInventory(identity: LabIdentity, inventory: seq<Machine>)
    requires ValidIdentity(identity)
  {
    && (forall m :: m in inventory ==>
          && ValidMachine(m)
          && m.handle.provider == identity.provider
          && DeriveHandle(identity.provider, identity.labId, m.role) == Some(m.handle))
    && (forall i, j :: 0 <= i < j < |inventory| ==>
          && inventory[i].role != inventory[j].role
          && inventory[i].machineId != inventory[j].machineId
          && inventory[i].handle != inventory[j].handle)
  }

  predicate Apart(a: Observation, b: Observation) {
    && a.role != b.role
    && a.machineId != b.machineId
    && a.handle != b.handle
    && a.ipv4 != b.ipv4
    && a.mac != b.mac
    && a.productUuid != b.productUuid
  }

  predicate DistinctFields(observations: seq<Observation>) {
    forall i, j :: 0 <= i < j < |observations| ==> Apart(observations[i], observations[j])
  }

  function ObservedRoles(observations: seq<Observation>): set<Role> {
    set o | o in observations :: o.role
  }

  function MachineRoles(inventory: seq<Machine>): set<Role> {
    set m | m in inventory :: m.role
  }

  /** The last observation recorded for a role, as a dictionary built in order holds it. */
  function ForRole(observations: seq<Observation>, role: Role): (o: Observation)
    requires observations != []
    ensures o in observations
    ensures role in ObservedRoles(observations) ==> o.role == role
  {
    var last := observations[|observations| - 1];
    if last.role == role || |observations| == 1 then last else ForRole(observations[..|observations| - 1], role)
  }

  predicate OfMachine(o: Observation, m: Machine) {
    o.role == m.role && o.machineId == m.machineId && o.handle == m.handle
  }

  /** Validate one complete observation set and put it in canonical role order. */
  function OrderObservations(provider: string, inventory: seq<Machine>, observations: seq<Observation>)
    : Result<seq<Observation>>
  {
    if provider != "lima" then Err(Validation)
    else if multiset(Roles(inventory)) != multiset(FULL_ROLES) then Err(Validation)
    else if |observations| != |FULL_ROLES| then Err(Validation)
    else if !DistinctFields(observations) then Err(Validation)
    else if ObservedRoles(observations) != MachineRoles(inventory) then Err(Validation)
    else if exists m, o :: m in inventory && o in observations && o.role == m.role && !OfMachine(o, m) then
      Err(Validation)
    else
      Ok(seq(|FULL_ROLES|, i requires 0 <= i < |FULL_ROLES| => ForRole(observations, FULL_ROLES[i])))
  }

  /** The checks on the scenario attempt that the state constructor makes last. */
  predicate LegalAttempt(s: LabState)
    requires s.journal != []
  {
    && (s.Phase() == Validated ==> s.active.None?)
    && (s.Phase() == ScenarioPrepared && s.active.None? ==> s.health.None?)
    && (s.active.Some? ==> s.health == Some(s.active.value.baseline))
  }

  predicate WellFormedFields(s: LabState) {
    && (s.profile.Some? ==> IsIdentifier(s.profile.value))
    && (s.spec.Some? ==> IsSha256(s.spec.value))
    && (s.health.Some? ==> IsSha256(s.health.value))
    && (s.active.Some? ==> ValidActive(s.active.value))
  }

  function StoredObservations(s: LabState): Result<seq<Observation>> {
    if s.observations == [] then Ok([])
    else OrderObservations(s.identity.provider, s.inventory, s.observations)
  }

  /** The state constructor: refuse an inconsistent record, and store observations in canonical order. */
  function Construct(s: LabState): Result<LabState>
    requires ValidIdentity(s.identity)
  {
    if WellFormedFields(s) && LegalJournal(s.journal) && LegalInventory(s.identity, s.inventory)
       && StoredObservations(s).Ok? && LegalAttempt(s)
    then Ok(s.(observations := StoredObservations(s).value))
    else Err(Validation)
  }

  predicate Constructed(s: LabState) {
    ValidIdentity(s.identity) && Construct(s) == Ok(s)
  }

  /** A constructed state, taken apart: what a caller may rely on after loading it. */
  lemma ConstructedExact(s: LabState)
    requires ValidIdentity(s.identity)
    ensures Constructed(s)
       <==> && WellFormedFields(s)
            && LegalJournal(s.journal)
            && LegalInventory(s.identity, s.inventory)
            && StoredObservations(s) == Ok(s.observations)
            && LegalAttempt(s)
  {
    hide WellFormedFields, LegalInventory, StoredObservations, ValidIdentity, LegalJournal;
  }

  /** One call of a store mutator, without the lab name and the expected lab identity. */
  datatype Request =
    | DeclareInventory(machines: seq<Machine>)
    | BindSpec(sha: string)
    | BindProfile(name: string)
    | RecordObservations(facts: seq<Observation>)
    | Attest(fingerprint: string)
    | Prepare(
        scenarioId: string,
        attemptId: string,
        handlerIdentity: string,
        recoveryClass: string,
        targetRole: string,
        preparedFingerprint: string,
        restoreFingerprint: string)
    | Restore(restoredScenario: string, restoredAttempt: string, healthFingerprint: string, scenarioFingerprint: string)
    | Advance(phase: Phase)
    | Recover(recovered: Phase, proof: seq<Observation>)

  function Claim(labName: string, labId: string, provider: string, namespace: string): Result<LabState> {
    var identity := LabIdentity(labName, labId, provider, namespace);
    if !ValidIdentity(identity) then Err(Validation)
    else Construct(LabState(identity, [], [Entry(0, Declared)], [], None, None, None, None))
  }

  /** The checks of one mutator call and the record it would store, before the constructor sees it. */
  function Proposal(s: LabState, expectedId: string, request: Request): (r: Result<LabState>)
    requires s.journal != []
    ensures r.Ok? ==> r.value.identity == s.identity
  {
    if request.BindSpec? && !IsSha256(request.sha) then Err(Validation)
    else if request.BindProfile? && !IsIdentifier(request.name) then Err(Validation)
    else if request.Attest? && !IsSha256(request.fingerprint) then Err(Validation)
    else if s.identity.labId != expectedId then Err(Ownership)
    else
      match request
      case DeclareInventory(machines) =>
        if s.Phase() != Declared || s.inventory != [] || machines == [] then Err(Validation)
        else Ok(s.(inventory := machines))
      case BindSpec(sha) =>
        if s.spec.Some? then (if s.spec.value != sha then Err(Validation) else Ok(s))
        else if s.inventory != [] || s.observations != [] then Err(Validation)
        else Ok(s.(spec := Some(sha)))
      case BindProfile(name) =>
        if s.profile.Some? then (if s.profile.value != name then Err(Validation) else Ok(s))
        else if s.spec.Some? || s.inventory != [] then Err(Validation)
        else Ok(s.(profile := Some(name)))
      case RecordObservations(facts) =>
        var normalized :- OrderObservations(s.identity.provider, s.inventory, facts);
        if s.observations != [] then (if s.observations != normalized then Err(Validation) else Ok(s))
        else if s.Phase().CleanupPending? || s.Phase().Destroyed? then Err(Validation)
        else Ok(s.(observations := normalized))
      case Attest(fingerprint) =>
        if s.Phase() == Validated then
          if s.health.None? then Ok(s.(health := Some(fingerprint)))
          else if s.health.value != fingerprint then Err(Validation)
          else Ok(s)
        else if s.Phase() != CandidateReady then Err(Transition)
        else if s.active.Some? then Err(Validation)
        else Ok(s.(health := Some(fingerprint)).Append(Validated))
      case Prepare(scenarioId, attemptId, handler, recoveryClass, targetRole, prepared, restore) =>
        if s.Phase() != Validated then Err(Transition)
        else if s.health.None? || s.active.Some? then Err(Validation)
        else
          var attempt := ActiveScenario(
            scenarioId, attemptId, handler, recoveryClass, targetRole, s.health.value, prepared, restore);
          Ok(s.(active := Some(attempt)).Append(ScenarioPrepared))
      case Restore(scenarioId, attemptId, healthFingerprint, scenarioFingerprint) =>
        if !s.Phase().ScenarioPrepared? && !s.Phase().Degraded? then Err(Transition)
        else if s.active.None? then Err(Validation)
        else if s.active.value.scenarioId != scenarioId || s.active.value.attemptId != attemptId then Err(Ownership)
        else if healthFingerprint != s.active.value.baseline then Err(Validation)
        else if scenarioFingerprint != s.active.value.restore then Err(Validation)
        else Ok(s.(active := None, health := Some(healthFingerprint)).Append(Validated))
      case Advance(phase) =>
        if phase.Validated? || phase.ScenarioPrepared? || phase.Graded? then Err(Transition)
        else if s.Phase() == Degraded && U4Verified(phase) then Err(Transition)
        else if !Allowed(s.Phase(), phase) then Err(Transition)
        else if U4Verified(phase) && s.observations == [] then Err(Validation)
        else Ok(s.Append(phase))
      case Recover(phase, proof) =>
        if !U4Verified(phase) || s.Phase() != Degraded then Err(Transition)
        else
          var normalized :- OrderObservations(s.identity.provider, s.inventory, proof);
          if s.observations != [] && s.observations != normalized then Err(Validation)
          else
            Ok(s.(observations := if s.observations == [] then normalized else s.observations).Append(phase))
  }

  /** The state that one accepted mutator call leaves behind; an error leaves the stored state alone. */
  function Next(s: LabState, expectedId: string, request: Request): Result<LabState>
    requires Constructed(s)
  {
    var proposed :- Proposal(s, expectedId, request);
    Construct(proposed)
  }

  datatype Call = Call(expectedId: string, request: Request)

  /** A sequence of mutator calls; a refused call leaves the state as it was. */
  function Run(s: LabState, calls: seq<Call>): LabState
    requires Constructed(s)
    ensures Constructed(Run(s, calls))
    decreases |calls|
  {
    if calls == [] then s
    else
      var before := Run(s, calls[..|calls| - 1]);
      var last := calls[|calls| - 1];
      var after := Next(before, last.expectedId, last.request);
      if after.Ok? then NextConstructed(before, last.expectedId, last.request); after.value else before
  }

  // ---------------------------------------------------------------------------------------------
  // Observation sets

  /** The four observations in canonical role order, each of the machine recorded for its role. */
  predicate Canonical(inventory: seq<Machine>, observations: seq<Observation>) {
    && |observations| == |FULL_ROLES|
    && DistinctFields(observations)
    && (forall i :: 0 <= i < |FULL_ROLES| ==>
          && observations[i].role == FULL_ROLES[i]
          && exists m :: m in inventory && OfMachine(observations[i], m))
  }

  lemma RoleInInventory(inventory: seq<Machine>, role: Role)
    ensures role in multiset(Roles(inventory)) <==> exists m :: m in inventory && m.role == role
  {
    var roles := Roles(inventory);
    if role in multiset(roles) {
      var i :| 0 <= i < |roles| && roles[i] == role;
      assert inventory[i] in inventory;
    }
    if m :| m in inventory && m.role == role {
      var i :| 0 <= i < |inventory| && inventory[i] == m;
      assert roles[i] == role;
    }
  }

  /** Two different members of a distinct set differ in every field; so the role is a key. */
  lemma MembersApart(observations: seq<Observation>, a: Observation, b: Observation)
    requires DistinctFields(observations) && a in observations && b in observations
    ensures a == b || Apart(a, b)
  {
    var i :| 0 <= i < |observations| && observations[i] == a;
    var j :| 0 <= j < |observations| && observations[j] == b;
  }

  lemma DistinctNoDuplicates(observations: seq<Observation>)
    requires DistinctFields(observations)
    ensures NoDuplicates(observations)
  {}

  /**
   * A set of observations is accepted exactly when it is a reordering of a canonical one, and that
   * canonical one is what is stored. Acceptance therefore never depends on the order supplied.
   */
  lemma OrderObservationsExact(provider: string, inventory: seq<Machine>, observations: seq<Observation>,
        o: seq<Observation>)
    requires forall i, j :: 0 <= i < j < |inventory| ==> inventory[i].role != inventory[j].role
    ensures OrderObservations(provider, inventory, observations) == Ok(o)
       <==> && provider == "lima"
            && multiset(Roles(inventory)) == multiset(FULL_ROLES)
            && Canonical(inventory, o)
            && multiset(o) == multiset(observations)
  {
    if OrderObservations(provider, inventory, observations) == Ok(o) {
      OrderedIsCanonical(provider, inventory, observations, o);
    }
    if provider == "lima" && multiset(Roles(inventory)) == multiset(FULL_ROLES)
       && Canonical(inventory, o) && multiset(o) == multiset(observations) {
      CanonicalIsOrdered(provider, inventory, observations, o);
    }
  }

  lemma OrderedEntries(provider: string, inventory: seq<Machine>, observations: seq<Observation>, o: seq<Observation>)
    requires OrderObservations(provider, inventory, observations) == Ok(o)
    ensures |o| == 4 && |observations| == 4 && DistinctFields(observations)
    ensures forall i :: 0 <= i < 4 ==> o[i] in observations && o[i].role == FULL_ROLES[i]
    ensures forall i :: 0 <= i < 4 ==> exists m :: m in inventory && OfMachine(o[i], m)
    ensures forall x :: x in observations ==> x.role in FULL_ROLES
  {
    forall i | 0 <= i < 4
      ensures o[i] in observations && o[i].role == FULL_ROLES[i]
      ensures exists m :: m in inventory && OfMachine(o[i], m)
    {
      RoleInInventory(inventory, FULL_ROLES[i]);
      assert FULL_ROLES[i] in multiset(FULL_ROLES);
      assert FULL_ROLES[i] in MachineRoles(inventory);
      assert o[i] == ForRole(observations, FULL_ROLES[i]);
      var m :| m in inventory && m.role == o[i].role;
      assert OfMachine(o[i], m);
    }
    forall x | x in observations ensures x.role in FULL_ROLES {
      assert x.role in MachineRoles(inventory);
      RoleInInventory(inventory, x.role);
      assert x.role in multiset(FULL_ROLES);
    }
  }

  lemma PickedAreDistinct(observations: seq<Observation>, o: seq<Observation>)
    requires |o| == 4 && DistinctFields(observations)
    requires forall i :: 0 <= i < 4 ==> o[i] in observations && o[i].role == FULL_ROLES[i]
    ensures DistinctFields(o)
  {
    forall i, j | 0 <= i < j < |o| ensures Apart(o[i], o[j]) {
      MembersApart(observations, o[i], o[j]);
    }
  }

  lemma PickedAreAll(observations: seq<Observation>, o: seq<Observation>)
    requires |o| == 4 && DistinctFields(observations)
    requires forall i :: 0 <= i < 4 ==> o[i] in observations && o[i].role == FULL_ROLES[i]
    requires forall x :: x in observations ==> x.role in FULL_ROLES
    ensures forall x :: x in observations ==> x in o
  {
    forall x | x in observations ensures x in o {
      var i :| 0 <= i < 4 && FULL_ROLES[i] == x.role;
      MembersApart(observations, x, o[i]);
    }
  }

  lemma OrderedIsCanonical(provider: string, inventory: seq<Machine>, observations: seq<Observation>,
        o: seq<Observation>)
    requires OrderObservations(provider, inventory, observations) == Ok(o)
    ensures Canonical(inventory, o) && multiset(o) == multiset(observations)
  {
    OrderedEntries(provider, inventory, observations, o);
    PickedAreDistinct(observations, o);
    PickedAreAll(observations, o);
    DistinctNoDuplicates(o);
    DistinctNoDuplicates(observations);
    SameElements(o, observations);
  }

  lemma CanonicalIsOrdered(provider: string, inventory: seq<Machine>, observations: seq<Observation>,
        o: seq<Observation>)
    requires forall i, j :: 0 <= i < j < |inventory| ==> inventory[i].role != inventory[j].role
    requires provider == "lima" && multiset(Roles(inventory)) == multiset(FULL_ROLES)
    requires Canonical(inventory, o) && multiset(o) == multiset(observations)
    ensures OrderObservations(provider, inventory, observations) == Ok(o)
  {
    SameMembers(o, observations);
    PermutedDistinct(o, observations);
    SameRoles(inventory, observations, o);
    MembersMatch(inventory, observations, o);
    PicksAre(observations, o);
    assert seq(4, i requires 0 <= i < 4 => ForRole(observations, FULL_ROLES[i])) == o;
  }

  lemma PicksAre(observations: seq<Observation>, o: seq<Observation>)
    requires |o| == 4 && DistinctFields(o) && forall x :: x in observations <==> x in o
    requires forall i :: 0 <= i < 4 ==> o[i].role == FULL_ROLES[i]
    requires observations != []
    ensures forall i :: 0 <= i < 4 ==> ForRole(observations, FULL_ROLES[i]) == o[i]
  {
    forall i | 0 <= i < 4 ensures ForRole(observations, FULL_ROLES[i]) == o[i] {
      assert o[i] in observations;
      MembersApart(o, ForRole(observations, FULL_ROLES[i]), o[i]);
    }
  }

  lemma MembersMatch(inventory: seq<Machine>, observations: seq<Observation>, o: seq<Observation>)
    requires forall i, j :: 0 <= i < j < |inventory| ==> inventory[i].role != inventory[j].role
    requires Canonical(inventory, o) && forall x :: x in observations <==> x in o
    ensures forall m, x :: m in inventory && x in observations && x.role == m.role ==> OfMachine(x, m)
  {
    forall m, x | m in inventory && x in observations && x.role == m.role ensures OfMachine(x, m) {
      var i :| 0 <= i < 4 && o[i] == x;
      var n :| n in inventory && OfMachine(o[i], n);
      assert n == m;
    }
  }

  lemma SameRoles(inventory: seq<Machine>, observations: seq<Observation>, o: seq<Observation>)
    requires multiset(Roles(inventory)) == multiset(FULL_ROLES)
    requires Canonical(inventory, o) && forall x :: x in observations <==> x in o
    ensures ObservedRoles(observations) == MachineRoles(inventory)
  {
    var roles := ObservedRoles(observations);
    var machines := MachineRoles(inventory);
    forall r | r in machines ensures r in roles {
      RoleInInventory(inventory, r);
      assert r in multiset(FULL_ROLES);
      var i :| 0 <= i < 4 && FULL_ROLES[i] == r;
      assert o[i] in observations;
    }
    forall r | r in roles ensures r in machines {
      var x :| x in observations && x.role == r;
      var i :| 0 <= i < 4 && o[i] == x;
      var m :| m in inventory && OfMachine(o[i], m);
    }
  }

  lemma PermutedDistinct(o: seq<Observation>, observations: seq<Observation>)
    requires DistinctFields(o) && multiset(o) == multiset(observations)
    ensures DistinctFields(observations)
  {
    DistinctNoDuplicates(o);
    forall i, j | 0 <= i < j < |observations|
      ensures observations[i] != observations[j]
    {
      if observations[i] == observations[j] {
        var x := observations[i];
        assert observations == observations[..j] + [x] + observations[j + 1..];
        assert x in observations[..j];
        assert multiset(observations)[x] >= 2;
        CountOnce(o, x);
      }
    }
    forall i, j | 0 <= i < j < |observations|
      ensures Apart(observations[i], observations[j])
    {
      assert observations[i] in multiset(o) && observations[j] in multiset(o);
      MembersApart(o, observations[i], observations[j]);
    }
  }

  /** What the constructor accepts, it accepts again unchanged: loading a stored state returns it. */
  lemma ConstructIdempotent(s: LabState)
    requires ValidIdentity(s.identity) && Construct(s).Ok?
    ensures Constructed(Construct(s).value)
  {
    hide Canonical, DistinctFields;
    var t := Construct(s).value;
    if s.observations != [] {
      OrderObservationsExact(s.identity.provider, s.inventory, s.observations, t.observations);
      OrderObservationsExact(s.identity.provider, s.inventory, t.observations, t.observations);
    }
  }

  /**
   * Whether a record is accepted, and what is stored of it, does not depend on the order in which its
   * observations are supplied; and that order is all that the constructor ever changes.
   */
  lemma ConstructPermuted(s: LabState, observations: seq<Observation>)
    requires ValidIdentity(s.identity) && multiset(observations) == multiset(s.observations)
    ensures Construct(s.(observations := observations)) == Construct(s)
    ensures Construct(s).Ok? ==>
              && Construct(s).value == s.(observations := Construct(s).value.observations)
              && multiset(Construct(s).value.observations) == multiset(s.observations)
  {
    hide LegalJournal, ValidIdentity, OrderObservations, ValidActive, IsSha256, IsIdentifier;
    SameMembers(observations, s.observations);
    if LegalInventory(s.identity, s.inventory) {
      OrderPermuted(s.identity.provider, s.inventory, s.observations, observations);
      OrderPermuted(s.identity.provider, s.inventory, observations, s.observations);
    }
  }

  lemma OrderPermuted(provider: string, inventory: seq<Machine>, a: seq<Observation>, b: seq<Observation>)
    requires forall i, j :: 0 <= i < j < |inventory| ==> inventory[i].role != inventory[j].role
    requires multiset(a) == multiset(b)
    ensures var o := OrderObservations(provider, inventory, a);
            o.Ok? ==> OrderObservations(provider, inventory, b) == o && multiset(o.value) == multiset(a)
  {
    hide OrderObservations, Canonical;
    var o := OrderObservations(provider, inventory, a);
    if o.Ok? {
      OrderObservationsExact(provider, inventory, a, o.value);
      OrderObservationsExact(provider, inventory, b, o.value);
    }
  }

  lemma NextConstructed(s: LabState, expectedId: string, request: Request)
    requires Constructed(s) && Next(s, expectedId, request).Ok?
    ensures Constructed(Next(s, expectedId, request).value)
  {
    ConstructIdempotent(Proposal(s, expectedId, request).value);
  }
}
