/** What every run of the lab store mutators keeps, from the first claim on. */
module LabRuns {
  import opened Wrappers
  import opened Identifiers
  import opened Providers
  import opened LabStates

  /** A scenario-prepared entry stands after the last validated entry. */
  ghost predicate OpenAttempt(journal: seq<Entry>) {
    exists i :: && 0 <= i < |journal| && journal[i].phase == ScenarioPrepared
                && forall k :: i < k < |journal| ==> journal[k].phase != Validated
  }

  /** The phases that only a lab with verified machines can enter. */
  predicate Evidence(p: Phase) {
    U4Verified(p) || p.CandidateReady? || p.Validated? || p.ScenarioPrepared?
  }

  /** The journal has an entry that only verified machines can have earned. */
  ghost predicate ReachedVerified(journal: seq<Entry>) {
    exists i :: 0 <= i < |journal| && Evidence(journal[i].phase)
  }

  ghost predicate Inv(s: LabState) {
    && Constructed(s)
    && (s.active.Some? <==> OpenAttempt(s.journal))
    && (ReachedVerified(s.journal) ==> s.observations != [])
    && (s.Phase() == Validated ==> s.health.Some?)
    && (forall i :: 0 <= i < |s.journal| ==> s.journal[i].phase != Graded)
  }

  lemma OpenAppend(journal: seq<Entry>, e: Entry)
    ensures OpenAttempt(journal + [e])
       <==> e.phase == ScenarioPrepared || (e.phase != Validated && OpenAttempt(journal))
  {
    var longer := journal + [e];
    if OpenAttempt(longer) {
      var i :| && 0 <= i < |longer| && longer[i].phase == ScenarioPrepared
               && forall k :: i < k < |longer| ==> longer[k].phase != Validated;
      if i < |journal| {
        assert longer[|journal|] == e;
        forall k | i < k < |journal| ensures journal[k].phase != Validated {
          assert longer[k] == journal[k];
        }
        assert journal[i].phase == ScenarioPrepared;
      }
    }
    if e.phase == ScenarioPrepared {
      assert longer[|journal|].phase == ScenarioPrepared;
    }
    if e.phase != Validated && OpenAttempt(journal) {
      var i :| && 0 <= i < |journal| && journal[i].phase == ScenarioPrepared
               && forall k :: i < k < |journal| ==> journal[k].phase != Validated;
      assert longer[i].phase == ScenarioPrepared;
    }
  }

  lemma VerifiedAppend(journal: seq<Entry>, e: Entry)
    ensures ReachedVerified(journal + [e]) <==> Evidence(e.phase) || ReachedVerified(journal)
  {
    var longer := journal + [e];
    assert longer[|journal|] == e;
    if ReachedVerified(journal) {
      var i :| 0 <= i < |journal| && Evidence(journal[i].phase);
      assert Evidence(longer[i].phase);
    }
  }

  /** The constructor keeps what a mutator proposes: nothing is reordered or dropped on the way. */
  lemma NextIsProposal(s: LabState, expectedId: string, request: Request)
    requires Constructed(s) && Next(s, expectedId, request).Ok?
    ensures Next(s, expectedId, request) == Proposal(s, expectedId, request)
  {
    hide LegalInventory, OrderObservations, WellFormedFields, ValidActive, ValidIdentity, LegalJournal, LegalAttempt;
    if request.Recover? || request.RecordObservations? {
      var facts := if request.Recover? then request.proof else request.facts;
      var ordered := OrderObservations(s.identity.provider, s.inventory, facts);
      if ordered.Ok? {
        OrderIdempotent(s, facts);
        ConstructedExact(s);
      }
    } else if request.DeclareInventory? {
      NoMachinesNoObservations(s);
    }
  }

  lemma OrderIdempotent(s: LabState, facts: seq<Observation>)
    requires ValidIdentity(s.identity) && LegalInventory(s.identity, s.inventory)
    requires OrderObservations(s.identity.provider, s.inventory, facts).Ok?
    ensures var o := OrderObservations(s.identity.provider, s.inventory, facts);
            o.value != [] && OrderObservations(s.identity.provider, s.inventory, o.value) == o
  {
    var o := OrderObservations(s.identity.provider, s.inventory, facts).value;
    OrderObservationsExact(s.identity.provider, s.inventory, facts, o);
    OrderObservationsExact(s.identity.provider, s.inventory, o, o);
  }

  lemma NoMachinesNoObservations(s: LabState)
    requires Constructed(s) && s.inventory == []
    ensures s.observations == []
  {
    hide LegalInventory, WellFormedFields, ValidActive, ValidIdentity, LegalJournal, LegalAttempt;
    assert Roles(s.inventory) == [];
    assert Candidate !in multiset(Roles(s.inventory)) && Candidate in multiset(FULL_ROLES);
  }

  lemma InvJournal(s: LabState)
    requires Inv(s)
    ensures LegalJournal(s.journal)
  {
    hide OrderObservations, LegalInventory, WellFormedFields, LegalJournal, LegalAttempt;
    ConstructedExact(s);
  }

  lemma ClaimInv(labName: string, labId: string, provider: string, namespace: string)
    requires Claim(labName, labId, provider, namespace).Ok?
    ensures Inv(Claim(labName, labId, provider, namespace).value)
  {
  }

  /** A claim is accepted exactly for a well-formed identity, and knows nothing else yet. */
  lemma ClaimExact(labName: string, labId: string, provider: string, namespace: string)
    ensures var claimed := Claim(labName, labId, provider, namespace);
            && (claimed.Ok? <==> IsIdentifier(labName) && IsUuid(labId) && IsIdentifier(provider)
                                 && IsIdentifier(namespace))
            && (claimed.Ok? ==>
                  var s := claimed.value;
                  && s.identity.labName == labName && s.identity.labId == labId
                  && s.identity.provider == provider && s.identity.namespace == namespace
                  && s.inventory == [] && s.observations == [] && s.journal == [Entry(0, Declared)]
                  && s.profile.None? && s.spec.None? && s.health.None? && s.active.None?)
  {
    hide IsIdentifier, IsUuid;
  }

  lemma StepInv(s: LabState, expectedId: string, request: Request)
    requires Inv(s) && Next(s, expectedId, request).Ok?
    ensures Inv(Next(s, expectedId, request).value)
  {
    hide Construct, LegalInventory, OrderObservations, ValidActive, IsIdentifier, IsUuid, IsSha256, ValidIdentity;
    NextConstructed(s, expectedId, request);
    NextIsProposal(s, expectedId, request);
    ConstructedExact(s);
    var t := Next(s, expectedId, request).value;
    if t.journal != s.journal {
      var e := t.journal[|s.journal|];
      OpenAppend(s.journal, e);
      VerifiedAppend(s.journal, e);
      assert Evidence(s.journal[|s.journal| - 1].phase) ==> ReachedVerified(s.journal);
      if s.active.Some? {
        var i :| 0 <= i < |s.journal| && s.journal[i].phase == ScenarioPrepared;
        assert Evidence(s.journal[i].phase);
      }
      if request.Recover? && s.observations == [] {
        OrderIdempotent(s, request.proof);
      }
    }
  }

  /** In every state that any run of mutators reaches from a claim, the invariant holds. */
  lemma {:induction false} RunInv(s: LabState, calls: seq<Call>)
    requires Inv(s)
    ensures Inv(Run(s, calls))
  {
    if calls != [] {
      RunInv(s, calls[..|calls| - 1]);
      var before, last := Run(s, calls[..|calls| - 1]), calls[|calls| - 1];
      if Next(before, last.expectedId, last.request).Ok? {
        StepInv(before, last.expectedId, last.request);
      }
    }
  }

  /**
   * The journal determines the attempt: an attempt is recorded exactly when the journal is open,
   * it always carries the lab's health baseline, and a validated lab never has one.
   */
  lemma JournalDeterminesAttempt(labName: string, labId: string, provider: string, namespace: string, calls: seq<Call>)
    requires Claim(labName, labId, provider, namespace).Ok?
    ensures var s := Run(Claim(labName, labId, provider, namespace).value, calls);
            && (s.active.Some? <==> OpenAttempt(s.journal))
            && (s.active.Some? ==> s.health == Some(s.active.value.baseline))
            && (s.Phase() == Validated ==> s.active.None? && s.health.Some?)
            && (s.Phase() == ScenarioPrepared ==> s.active.Some?)
  {
    ClaimInv(labName, labId, provider, namespace);
    RunInv(Claim(labName, labId, provider, namespace).value, calls);
    var s := Run(Claim(labName, labId, provider, namespace).value, calls);
    if s.Phase() == ScenarioPrepared {
      assert s.journal[|s.journal| - 1].phase == ScenarioPrepared;
    }
  }

  /** A lab that ever earned a verified phase holds its four machines' observations in role order. */
  lemma EvidenceLadder(labName: string, labId: string, provider: string, namespace: string, calls: seq<Call>)
    requires Claim(labName, labId, provider, namespace).Ok?
    ensures var s := Run(Claim(labName, labId, provider, namespace).value, calls);
            ReachedVerified(s.journal) ==> Canonical(s.inventory, s.observations)
  {
    ClaimInv(labName, labId, provider, namespace);
    RunInv(Claim(labName, labId, provider, namespace).value, calls);
    var s := Run(Claim(labName, labId, provider, namespace).value, calls);
    if ReachedVerified(s.journal) {
      OrderObservationsExact(s.identity.provider, s.inventory, s.observations, s.observations);
    }
  }

  // ---------------------------------------------------------------------------------------------
  // Two states of one run

  ghost predicate Frozen<T(!new)>(before: Option<T>, after: Option<T>) {
    before.Some? ==> after == before
  }

  /** Everything that a later state of a run owes to an earlier one. */
  ghost predicate Later(s: LabState, t: LabState) {
    && t.identity == s.identity
    && s.journal <= t.journal
    && (s.inventory != [] ==> t.inventory == s.inventory)
    && (s.observations != [] ==> t.observations == s.observations)
    && Frozen(s.profile, t.profile)
    && Frozen(s.spec, t.spec)
    && (s.journal == t.journal ==> t.active == s.active)
  }

  lemma StepLater(s: LabState, expectedId: string, request: Request)
    requires Inv(s) && Next(s, expectedId, request).Ok?
    ensures Later(s, Next(s, expectedId, request).value)
  {
    hide Construct, OrderObservations, ValidIdentity, OpenAttempt, ReachedVerified;
    NextIsProposal(s, expectedId, request);
  }

  /** What each accepted mutator call achieved, beyond keeping everything that `Later` keeps. */
  lemma StepAchieves(s: LabState, expectedId: string, request: Request)
    requires Inv(s) && Next(s, expectedId, request).Ok?
    ensures var t := Next(s, expectedId, request).value;
            match request
            case DeclareInventory(machines) => t == s.(inventory := machines)
            case BindSpec(sha) => t == s.(spec := Some(sha))
            case BindProfile(name) => t == s.(profile := Some(name))
            case RecordObservations(facts) =>
              && t == s.(observations := t.observations)
              && Canonical(t.inventory, t.observations)
              && multiset(t.observations) == multiset(facts)
            case Attest(fingerprint) =>
              && t.Phase() == Validated && t.health == Some(fingerprint) && t.active.None?
              && (t == s || t == s.(health := t.health).Append(Validated))
            case Prepare(_, _, _, _, _, _, _) => t == s.(active := t.active).Append(ScenarioPrepared)
            case Restore(_, _, _, _) => t == s.(active := None).Append(Validated)
            case Advance(phase) => t == s.Append(phase)
            case Recover(phase, proof) =>
              && s.Phase() == Degraded
              && t == s.(observations := t.observations).Append(phase)
              && multiset(t.observations) == multiset(proof)
  {
    hide Construct, DeriveHandle, OrderObservations, ValidActive, ValidIdentity, IsSha256, IsIdentifier;
    NextIsProposal(s, expectedId, request);
    ConstructedExact(s);
    if request.RecordObservations? || request.Recover? {
      var facts := if request.Recover? then request.proof else request.facts;
      var o := OrderObservations(s.identity.provider, s.inventory, facts).value;
      OrderObservationsExact(s.identity.provider, s.inventory, facts, o);
    }
  }

  /** Splitting a run: the state after a longer run is a later state of the shorter one. */
  lemma {:induction false} RunLater(s: LabState, calls: seq<Call>, more: seq<Call>)
    requires Inv(s)
    ensures Later(Run(s, calls), Run(s, calls + more))
  {
    hide Proposal, Construct, ValidIdentity;
    RunInv(s, calls);
    if more == [] {
      assert calls + more == calls;
    } else {
      var init, last := more[..|more| - 1], more[|more| - 1];
      RunLater(s, calls, init);
      assert (calls + more)[..|calls + more| - 1] == calls + init;
      RunInv(s, calls + init);
      var before := Run(s, calls + init);
      if Next(before, last.expectedId, last.request).Ok? {
        StepLater(before, last.expectedId, last.request);
      }
    }
  }

  /** While an attempt is recorded, neither it nor the health baseline changes. */
  lemma AttemptFrozen(s: LabState, expectedId: string, request: Request)
    requires Inv(s) && s.active.Some? && Next(s, expectedId, request).Ok?
    ensures var t := Next(s, expectedId, request).value;
            && t.health == s.health
            && (t.active == s.active || (request.Restore? && t.active.None? && t.Phase() == Validated))
  {
    hide Construct, OrderObservations, LegalInventory, WellFormedFields, OpenAttempt, ReachedVerified;
    ConstructedExact(s);
    NextIsProposal(s, expectedId, request);
  }

  /**
   * From every reachable state that is not being cleaned up, degrading and then restoring the
   * recorded attempt with its own fingerprints brings the lab back to validated.
   */
  lemma AttemptRecoverable(s: LabState)
    requires Inv(s) && s.active.Some? && !s.Phase().CleanupPending? && !s.Phase().Destroyed?
    ensures var id, a := s.identity.labId, s.active.value;
            var d := if s.Phase() == Degraded then s else s.Append(Degraded);
            && (d == s || Next(s, id, Advance(Degraded)) == Ok(d))
            && Constructed(d)
            && Next(d, id, Restore(a.scenarioId, a.attemptId, a.baseline, a.restore))
               == Ok(d.(active := None).Append(Validated))
  {
    hide Proposal, Construct, LegalInventory, OrderObservations, ValidActive, ValidIdentity;
    if s.Phase() != Degraded {
      DegradeAccepted(s);
      RestoreOwn(s.Append(Degraded));
    } else {
      RestoreOwn(s);
    }
  }

  lemma DegradeAccepted(s: LabState)
    requires Inv(s) && !s.Phase().Degraded? && !s.Phase().CleanupPending? && !s.Phase().Destroyed?
    ensures Next(s, s.identity.labId, Advance(Degraded)) == Ok(s.Append(Degraded))
    ensures Inv(s.Append(Degraded))
  {
    hide Construct, LegalInventory, OrderObservations, ValidActive, IsIdentifier, IsSha256, ValidIdentity;
    ConstructedExact(s);
    AppendAccepted(s, s.Append(Degraded));
    StepInv(s, s.identity.labId, Advance(Degraded));
  }

  /**
   * Restoring is accepted exactly for the attempt that is recorded, with its own fingerprints, on a lab
   * that is prepared or degraded; so a candidate-ready lab refuses it.
   */
  lemma RestoreExact(s: LabState, expectedId: string, r: Request)
    requires Inv(s) && r.Restore?
    ensures Next(s, expectedId, r).Ok?
       <==> && expectedId == s.identity.labId
            && (s.Phase().ScenarioPrepared? || s.Phase().Degraded?)
            && s.active.Some?
            && var a := s.active.value; r == Restore(a.scenarioId, a.attemptId, a.baseline, a.restore)
    ensures Next(s, expectedId, r).Ok? ==> Next(s, expectedId, r).value == s.(active := None).Append(Validated)
  {
    hide Construct, LegalInventory, OrderObservations, ValidActive, IsIdentifier, IsSha256, ValidIdentity;
    ConstructedExact(s);
    if s.active.Some? && (s.Phase().ScenarioPrepared? || s.Phase().Degraded?) {
      AppendAccepted(s, s.(active := None).Append(Validated));
    }
  }

  /** The recorded fingerprints of an attempt always clear it on a prepared or degraded lab. */
  lemma RestoreOwn(s: LabState)
    requires Inv(s) && s.active.Some? && (s.Phase().ScenarioPrepared? || s.Phase().Degraded?)
    ensures var a := s.active.value;
            Next(s, s.identity.labId, Restore(a.scenarioId, a.attemptId, a.baseline, a.restore))
            == Ok(s.(active := None).Append(Validated))
  {
    hide Inv, Next;
    var a := s.active.value;
    RestoreExact(s, s.identity.labId, Restore(a.scenarioId, a.attemptId, a.baseline, a.restore));
  }

  lemma ValidatedFacts(s: LabState)
    requires Inv(s) && s.Phase() == Validated
    ensures s.active.None? && s.health.Some? && IsSha256(s.health.value)
  {
    hide LegalInventory, OrderObservations, ValidActive, IsSha256, ValidIdentity, OpenAttempt, ReachedVerified;
    ConstructedExact(s);
  }

  /**
   * A canonical baseline is attested exactly on a candidate-ready lab without a recorded attempt, or again
   * on a lab that it has validated already.
   */
  lemma AttestExact(s: LabState, expectedId: string, fingerprint: string)
    requires Inv(s) && IsSha256(fingerprint)
    ensures Next(s, expectedId, Attest(fingerprint)).Ok?
       <==> && expectedId == s.identity.labId
            && ((s.Phase() == CandidateReady && s.active.None?)
                || (s.Phase() == Validated && s.health == Some(fingerprint)))
    ensures Next(s, expectedId, Attest(fingerprint)).Ok? ==>
              Next(s, expectedId, Attest(fingerprint)).value
              == if s.Phase() == Validated then s else s.(health := Some(fingerprint)).Append(Validated)
  {
    hide Construct, LegalInventory, OrderObservations, ValidActive, IsSha256, ValidIdentity;
    ConstructedExact(s);
    if s.Phase() == CandidateReady && s.active.None? {
      AppendAccepted(s, s.(health := Some(fingerprint)).Append(Validated));
    }
  }

  /** The constructor accepts a constructed record with one more legal entry and a legal attempt. */
  lemma AppendAccepted(s: LabState, t: LabState)
    requires Constructed(s) && t.journal != []
    requires t == s.(active := t.active, health := t.health).Append(t.Phase())
    requires Allowed(s.Phase(), t.Phase())
    requires t.health == s.health || (t.health.Some? && IsSha256(t.health.value))
    requires t.active.None? || ValidActive(t.active.value)
    requires LegalAttempt(t)
    ensures Construct(t) == Ok(t)
  {
    hide Construct, LegalInventory, OrderObservations, ValidActive, IsIdentifier, IsSha256, ValidIdentity;
    ConstructedExact(s);
    ConstructedExact(t);
  }

  /** Cleanup is never refused: every live phase may enter it, and once entered it may end. */
  lemma CleanupAccepted(s: LabState, phase: Phase)
    requires Inv(s)
    requires if s.Phase() == CleanupPending then phase == Destroyed
             else phase == CleanupPending && s.Phase() != Destroyed
    ensures Next(s, s.identity.labId, Advance(phase)) == Ok(s.Append(phase))
    ensures Inv(s.Append(phase))
  {
    hide Construct, LegalInventory, OrderObservations, ValidActive, IsIdentifier, IsSha256, ValidIdentity;
    ConstructedExact(s);
    AppendAccepted(s, s.Append(phase));
    StepInv(s, s.identity.labId, Advance(phase));
  }

  /** Preparing is accepted exactly from a validated lab, for a well-formed attempt. */
  lemma PrepareExact(s: LabState, expectedId: string, r: Request)
    requires Inv(s) && r.Prepare?
    ensures Next(s, expectedId, r).Ok?
       <==> && expectedId == s.identity.labId
            && s.Phase() == Validated
            && ValidActive(ActiveScenario(r.scenarioId, r.attemptId, r.handlerIdentity, r.recoveryClass, r.targetRole,
                                          s.health.value, r.preparedFingerprint, r.restoreFingerprint))
    ensures Next(s, expectedId, r).Ok? ==>
              Next(s, expectedId, r).value
              == s.(active := Some(ActiveScenario(r.scenarioId, r.attemptId, r.handlerIdentity, r.recoveryClass,
                                                  r.targetRole, s.health.value, r.preparedFingerprint,
                                                  r.restoreFingerprint))).Append(ScenarioPrepared)
  {
    hide Construct, LegalInventory, OrderObservations, ValidActive, IsIdentifier, IsSha256, ValidIdentity;
    ConstructedExact(s);
    if expectedId == s.identity.labId && s.Phase() == Validated {
      var a := ActiveScenario(r.scenarioId, r.attemptId, r.handlerIdentity, r.recoveryClass, r.targetRole,
                              s.health.value, r.preparedFingerprint, r.restoreFingerprint);
      if ValidActive(a) {
        AppendAccepted(s, s.(active := Some(a)).Append(ScenarioPrepared));
      }
    }
    if Next(s, expectedId, r).Ok? {
      NextIsProposal(s, expectedId, r);
      NextConstructed(s, expectedId, r);
      ConstructedExact(Next(s, expectedId, r).value);
    }
  }

  /** Recording an attempt and restoring it with its own fingerprints leaves only two journal entries. */
  lemma PrepareThenRestore(s: LabState, r: Request)
    requires Inv(s) && r.Prepare? && Next(s, s.identity.labId, r).Ok?
    ensures var t := Next(s, s.identity.labId, r).value;
            Next(t, s.identity.labId, Restore(r.scenarioId, r.attemptId, s.health.value, r.restoreFingerprint))
            == Ok(s.Append(ScenarioPrepared).Append(Validated))
  {
    PrepareExact(s, s.identity.labId, r);
    StepInv(s, s.identity.labId, r);
    RestoreOwn(Next(s, s.identity.labId, r).value);
  }

  /** The arguments of a call are themselves well formed. */
  predicate WellFormed(identity: LabIdentity, r: Request)
    requires ValidIdentity(identity)
  {
    match r
    case DeclareInventory(machines) => LegalInventory(identity, machines)
    case BindSpec(sha) => IsSha256(sha)
    case BindProfile(name) => IsIdentifier(name)
    case Attest(fingerprint) => IsSha256(fingerprint)
    case Prepare(scenarioId, attemptId, handler, recoveryClass, targetRole, prepared, restore) =>
      ValidActive(
        ActiveScenario(scenarioId, attemptId, handler, recoveryClass, targetRole, prepared, prepared, restore))
    case _ => true
  }

  /**
   * From a reachable state, the constructor never refuses what a mutator's own checks let through, as long
   * as the arguments are well formed: every refusal is one that the mutator itself makes.
   */
  lemma ConstructorNeverRefuses(s: LabState, expectedId: string, r: Request)
    requires Inv(s) && ValidIdentity(s.identity) && WellFormed(s.identity, r) && Proposal(s, expectedId, r).Ok?
    ensures Next(s, expectedId, r) == Proposal(s, expectedId, r)
  {
    hide Construct, LegalInventory, OrderObservations, IsIdentifier, IsSha256, IsUuid, ValidIdentity, IsHandlerIdentity,
      OpenAttempt, ReachedVerified;
    ConstructedExact(s);
    var t := Proposal(s, expectedId, r).value;
    if r.Recover? {
      OrderIdempotent(s, r.proof);
      RecoverKept(s, t);
    } else if t.journal != s.journal {
      AppendAccepted(s, t);
    } else {
      if r.RecordObservations? {
        OrderIdempotent(s, r.facts);
      } else if r.DeclareInventory? {
        NoMachinesNoObservations(s);
      }
      ConstructedExact(t);
    }
  }

  /** The constructor accepts a constructed record that recovers a verified phase with ordered observations. */
  lemma RecoverKept(s: LabState, t: LabState)
    requires Constructed(s) && t.journal != [] && s.Phase() == Degraded && U4Verified(t.Phase())
    requires t == s.(observations := t.observations).Append(t.Phase())
    requires OrderObservations(s.identity.provider, s.inventory, t.observations) == Ok(t.observations)
    ensures Construct(t) == Ok(t)
  {
    hide Construct, LegalInventory, OrderObservations, ValidActive, IsIdentifier, IsSha256, ValidIdentity;
    ConstructedExact(s);
    ConstructedExact(t);
  }

  /** No request that names another lab is ever accepted. */
  lemma ForeignRefused(s: LabState, expectedId: string, r: Request)
    requires Constructed(s) && expectedId != s.identity.labId
    ensures Next(s, expectedId, r).Err?
  {
    hide Construct, OrderObservations, IsIdentifier, IsSha256;
  }

  /** What a lab must be like for the requests that only add facts to be accepted. */
  lemma FactsExact(s: LabState, id: string, r: Request)
    requires Inv(s) && id == s.identity.labId
    requires r.DeclareInventory? || r.BindSpec? || r.BindProfile? || r.RecordObservations?
    ensures Next(s, id, r).Ok? <==>
              match r
              case DeclareInventory(machines) =>
                s.Phase() == Declared && s.inventory == [] && machines != [] && LegalInventory(s.identity, machines)
              case BindSpec(sha) =>
                IsSha256(sha) && (s.spec == Some(sha) || (s.spec.None? && s.inventory == []))
              case BindProfile(name) =>
                && IsIdentifier(name)
                && (s.profile == Some(name) || (s.profile.None? && s.spec.None? && s.inventory == []))
              case RecordObservations(facts) =>
                && OrderObservations(s.identity.provider, s.inventory, facts).Ok?
                && if s.observations == [] then s.Phase() != CleanupPending && s.Phase() != Destroyed
                   else OrderObservations(s.identity.provider, s.inventory, facts).value == s.observations
              case _ => true
  {
    hide Construct, LegalInventory, OrderObservations, IsIdentifier, IsSha256, IsUuid, ValidIdentity, ValidActive,
      OpenAttempt, ReachedVerified, Canonical;
    ConstructedExact(s);
    if s.inventory == [] {
      NoMachinesNoObservations(s);
    }
    if Proposal(s, id, r).Ok? {
      if !r.DeclareInventory? || LegalInventory(s.identity, r.machines) {
        ConstructorNeverRefuses(s, id, r);
      } else {
        IllegalInventoryRefused(s, id, r);
      }
    }
  }

  lemma IllegalInventoryRefused(s: LabState, id: string, r: Request)
    requires Inv(s) && r.DeclareInventory? && !LegalInventory(s.identity, r.machines)
    ensures Next(s, id, r).Err?
  {
    hide LegalInventory, OrderObservations, IsIdentifier, IsSha256, IsUuid, ValidActive;
  }

  /** Which phases a mutator may journal, after which: the ladder one rung at a time, and cleanup to the end. */
  lemma AdvanceExact(s: LabState, id: string, phase: Phase)
    requires Inv(s) && id == s.identity.labId
    ensures Next(s, id, Advance(phase)).Ok? <==>
              match phase
              case VmsCreated => s.Phase() == Declared && s.observations != []
              case OsReady => s.Phase() == VmsCreated
              case ClusterReady => s.Phase() == OsReady
              case AddonsReady => s.Phase() == ClusterReady
              case CandidateReady => s.Phase() == AddonsReady
              case Degraded => s.Phase() != Degraded && s.Phase() != CleanupPending && s.Phase() != Destroyed
              case CleanupPending => s.Phase() != CleanupPending && s.Phase() != Destroyed
              case Destroyed => s.Phase() == Declared || s.Phase() == Validated || s.Phase() == CleanupPending
              case _ => false
    ensures Next(s, id, Advance(phase)).Ok? ==> Next(s, id, Advance(phase)).value == s.Append(phase)
  {
    hide Construct, LegalInventory, OrderObservations, IsIdentifier, IsSha256, IsUuid, ValidIdentity, ValidActive;
    ConstructedExact(s);
    assert Evidence(s.journal[|s.journal| - 1].phase) ==> ReachedVerified(s.journal);
    if Proposal(s, id, Advance(phase)).Ok? {
      ConstructorNeverRefuses(s, id, Advance(phase));
    }
  }

  /** Only a degraded lab recovers an infrastructure rung, and only on the observations it recorded. */
  lemma RecoverExact(s: LabState, id: string, phase: Phase, proof: seq<Observation>)
    requires Inv(s) && id == s.identity.labId
    ensures Next(s, id, Recover(phase, proof)).Ok? <==>
              && s.Phase() == Degraded
              && (phase == VmsCreated || phase == OsReady || phase == ClusterReady || phase == AddonsReady)
              && OrderObservations(s.identity.provider, s.inventory, proof).Ok?
              && (s.observations == []
                  || OrderObservations(s.identity.provider, s.inventory, proof).value == s.observations)
  {
    hide Construct, LegalInventory, OrderObservations, IsIdentifier, IsSha256, IsUuid, ValidIdentity, ValidActive,
      OpenAttempt, ReachedVerified, Canonical;
    ConstructedExact(s);
    if Proposal(s, id, Recover(phase, proof)).Ok? {
      ConstructorNeverRefuses(s, id, Recover(phase, proof));
    }
  }
}
