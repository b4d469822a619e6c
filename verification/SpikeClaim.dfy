/**
 * The spike's write-ahead claim (host.py): every machine is claimed in a stored file before it is
 * started, and the claim ends as destroyed only when the inventory shows none of its machines.
 */
module SpikeClaim {
  import opened Wrappers
  import opened Sequences

  datatype Status = Declared | CreationPending | VmsCreated | VmsReady | Degraded | CleanupPending | Destroyed

  datatype Claim = Claim(instances: seq<string>, created: seq<string>, pending: Option<string>, status: Status)

  /** What loading a claim demands of it. */
  predicate Owned(c: Claim) {
    && (forall name :: name in c.created ==> name in c.instances)
    && (c.pending.Some? ==> c.pending.value in c.instances && c.pending.value !in c.created)
  }

  /** The machines that cleanup has to visit. */
  function Handles(c: Claim): seq<string> {
    c.created + if c.pending.Some? then [c.pending.value] else []
  }

  /** Every machine that may exist is named by the stored claim, and none exists once it is destroyed. */
  ghost predicate Covered(stored: Option<Claim>, existing: set<string>) {
    && (forall name :: name in existing ==> stored.Some? && name in Handles(stored.value))
    && (stored.Some? && stored.value.status.Destroyed? ==> existing == {})
  }

  class Host {
    // The claim file, and the machines that the provider has of this lab.
    var stored: Option<Claim>
    var existing: set<string>
    var cleaned: seq<string>
    // Failures, deaths of the process, and commands without their full effect.
    var faults: nat

    constructor ()
      ensures Safe() && stored.None? && existing == {} && cleaned == [] && faults == 0
    {
      stored := None;
      existing := {};
      cleaned := [];
      faults := 0;
    }

    ghost predicate Safe()
      reads this
    {
      Covered(stored, existing) && (stored.Some? ==> Owned(stored.value) && NoDuplicates(stored.value.instances))
    }

    /** Replace the claim file; a failure leaves either the old or the new claim behind. */
    method Write(c: Claim) returns (o: Outcome<()>)
      requires Safe() && Owned(c) && NoDuplicates(c.instances) && Covered(Some(c), existing)
      modifies this`stored, this`faults
      ensures Safe() && (stored == old(stored) || stored == Some(c))
      ensures if o.Returned? then stored == Some(c) && faults == old(faults) else faults > old(faults)
    {
      if * {
        stored := Some(c);
      }
      o := *;
      if o.Returned? {
        stored := Some(c);
      } else {
        faults := faults + 1;
      }
    }

    /** Start a machine that the stored claim names; it may exist whatever the command reports. */
    method Start(name: string) returns (o: Outcome<bool>)
      requires Safe() && stored.Some? && name in Handles(stored.value) && !stored.value.status.Destroyed?
      modifies this`existing, this`faults
      ensures Safe() && (existing == old(existing) || existing == old(existing) + {name})
      ensures if o == Returned(true) then existing == old(existing) + {name} && faults == old(faults)
              else faults > old(faults)
    {
      if * {
        existing := existing + {name};
      }
      o := *;
      if o == Returned(true) {
        existing := existing + {name};
      } else {
        faults := faults + 1;
      }
    }

    /** Stop and delete a machine, which may or may not work, and report both. */
    method Remove(name: string) returns (o: Outcome<bool>)
      requires Safe()
      modifies this`existing, this`cleaned, this`faults
      ensures Safe() && cleaned == old(cleaned) + [name]
      ensures existing == old(existing) || existing == old(existing) - {name}
      ensures faults >= old(faults)
      ensures faults == old(faults) ==> o == Returned(true) && existing == old(existing) - {name}
    {
      cleaned := cleaned + [name];
      if * {
        existing := existing - {name};
        o := Returned(true);
      } else {
        if * {
          existing := existing - {name};
        }
        o := *;
        faults := faults + 1;
      }
    }

    /** The inventory, or an error. */
    method List() returns (o: Outcome<set<string>>)
      modifies this`faults
      ensures if o.Returned? then o.value == existing && faults == old(faults) else faults > old(faults)
    {
      o := *;
      if o.Returned? {
        o := Returned(existing);
      } else {
        faults := faults + 1;
      }
    }

    /** Any check before the machines: it passes, raises, or dies. */
    method Preflight() returns (o: Outcome<()>)
      modifies this`faults
      ensures if o.Returned? then faults == old(faults) else faults > old(faults)
    {
      o := *;
      if !o.Returned? {
        faults := faults + 1;
      }
    }

    /** Create the claim file, which must not exist yet. */
    method WriteExclusive(c: Claim) returns (o: Outcome<()>)
      requires Safe() && Owned(c) && NoDuplicates(c.instances)
      requires c.created == [] && c.pending.None? && !c.status.Destroyed?
      modifies this`stored, this`faults
      ensures Safe() && faults >= old(faults)
      ensures old(stored).Some? ==> o.Raised? && stored == old(stored)
      ensures old(stored).None? ==>
                && (stored.None? || stored == Some(c))
                && (o.Returned? ==> stored == Some(c) && faults == old(faults))
                && (!o.Returned? ==> faults > old(faults))
    {
      if stored.Some? {
        return Raised(Error.Exists);
      }
      o := Write(c);
    }

    /** Start the machines of a claim one after another, each written ahead as pending. */
    method StartAll(blank: Claim) returns (claim: Claim, o: Outcome<()>)
      requires Safe() && stored == Some(blank) && blank.created == [] && blank.pending.None?
      requires !blank.status.Destroyed?
      modifies this`stored, this`existing, this`faults
      ensures Safe() && stored.Some? && faults >= old(faults)
      ensures Owned(claim) && claim.instances == blank.instances && Covered(Some(claim), existing)
      ensures !claim.status.Destroyed? && !stored.value.status.Destroyed?
      ensures o.Returned? ==>
                && stored == Some(claim) && claim.created == claim.instances && claim.pending.None?
                && existing == old(existing) + (set name | name in claim.instances) && faults == old(faults)
      ensures !o.Returned? ==> faults > old(faults)
    {
      claim := blank;
      var i := 0;
      while i < |blank.instances|
        invariant 0 <= i <= |blank.instances|
        invariant Safe() && stored == Some(claim) && Owned(claim) && claim.instances == blank.instances
        invariant claim.created == blank.instances[..i] && claim.pending.None? && !claim.status.Destroyed?
        invariant existing == old(existing) + (set name | name in blank.instances[..i])
        invariant faults == old(faults)
      {
        var name := blank.instances[i];
        assert blank.instances[..i + 1] == blank.instances[..i] + [name];
        assert name !in claim.created;
        claim := claim.(pending := Some(name), status := CreationPending);
        o := Write(claim);
        if !o.Returned? {
          return;
        }
        var started := Start(name);
        if started != Returned(true) {
          o := if started.Crashed? then Crashed else Raised(if started.Raised? then started.error else Lifecycle);
          return;
        }
        claim := claim.(created := claim.created + [name], pending := None, status := VmsCreated);
        o := Write(claim);
        if !o.Returned? {
          return;
        }
        i := i + 1;
      }
      assert blank.instances[..i] == blank.instances;
      o := Returned(());
    }

    /** Claim and start the machines of a new lab; an error leaves a claim that names all of them. */
    method ProvisionVms(names: seq<string>) returns (o: Outcome<Claim>)
      requires Safe() && NoDuplicates(names)
      modifies this`stored, this`existing, this`faults
      ensures Safe() && faults >= old(faults)
      ensures old(stored).Some? ==> o.Raised? && stored == old(stored) && existing == old(existing)
      ensures o.Returned? ==>
                && stored == Some(o.value) && o.value.status.VmsReady? && Handles(o.value) == names
                && existing == (set name | name in names)
      ensures faults == old(faults) && old(stored).None? ==> o.Returned?
    {
      var claim := Claim(names, [], None, Declared);
      var written := WriteExclusive(claim);
      if !written.Returned? {
        return if written.Crashed? then Crashed else Raised(written.error);
      }
      assert existing == {};
      var failure := Preflight();
      if failure.Returned? {
        claim, failure := StartAll(claim);
      }
      if failure.Returned? {
        claim := claim.(status := VmsReady);
        failure := Write(claim);
      }
      if failure.Crashed? {
        return Crashed;
      }
      if failure.Raised? {
        claim := claim.(status := Degraded);
        var degraded := Write(claim);
        return if degraded.Crashed? then Crashed else Raised(failure.error);
      }
      return Returned(claim);
    }

    /** Visit the claimed machines in reverse, whatever each removal reports. */
    method DestroyInstances(claim: Claim) returns (o: Outcome<seq<bool>>)
      requires Safe() && stored == Some(claim)
      modifies this`existing, this`cleaned, this`faults
      ensures Safe() && faults >= old(faults) && existing <= old(existing)
      ensures o.Returned? ==> cleaned == old(cleaned) + Reverse(Handles(claim))
      ensures !o.Returned? ==> old(cleaned) <= cleaned <= old(cleaned) + Reverse(Handles(claim)) && faults > old(faults)
      ensures faults == old(faults) ==> existing == {}
    {
      var order := Reverse(Handles(claim));
      ReverseMembers(Handles(claim));
      var results: seq<bool> := [];
      var i := 0;
      while i < |order|
        invariant 0 <= i <= |order| && Safe() && faults >= old(faults)
        invariant cleaned == old(cleaned) + order[..i] && existing <= old(existing)
        invariant faults == old(faults) ==> forall name :: name in existing ==> name !in order[..i]
      {
        var removed := Remove(order[i]);
        assert order[..i + 1] == order[..i] + [order[i]];
        if !removed.Returned? {
          return if removed.Crashed? then Crashed else Raised(removed.error);
        }
        results := results + [removed.value];
        i := i + 1;
      }
      assert order[..i] == order;
      return Returned(results);
    }

    /** Remove the bootstrap secrets from the host; the boolean says whether all of them are gone. */
    method Scrub() returns (o: Outcome<bool>)
      modifies this`faults
      ensures if o == Returned(true) then faults == old(faults) else faults > old(faults)
    {
      o := *;
      if o != Returned(true) {
        faults := faults + 1;
      }
    }

    /** What cleanup may make of a claim: the machines stay, except that a destroyed claim has none pending. */
    ghost predicate Descends(before: Claim, after: Claim)
      reads this`existing
    {
      && after.instances == before.instances && after.created == before.created
      && (after.pending == before.pending || after.status.Destroyed?)
      && (after.status.Destroyed? ==> existing == {})
    }

    /** Remove the machines of a loaded claim; `after` is the claim as it then is in memory. */
    method RemoveClaimed(claim: Claim) returns (o: Outcome<seq<bool>>, after: Claim)
      requires Safe() && stored == Some(claim)
      modifies this
      ensures Safe() && faults >= old(faults)
      ensures stored.Some? && Descends(claim, stored.value)
      ensures Descends(claim, after) && Owned(after) && Covered(Some(after), existing)
      ensures old(cleaned) <= cleaned <= old(cleaned) + Reverse(Handles(claim))
      ensures o.Returned? ==> after.status.Destroyed? && stored == Some(after)
                              && cleaned == old(cleaned) + Reverse(Handles(claim))
      ensures !o.Returned? ==> faults > old(faults)
    {
      after := claim;
      o := DestroyInstances(claim);
      if !o.Returned? {
        return;
      }
      var remaining := List();
      if !remaining.Returned? {
        o := if remaining.Crashed? then Crashed else Raised(remaining.error);
        return;
      }
      var handles := Handles(claim);
      if exists i :: 0 <= i < |handles| && handles[i] in remaining.value {
        after := claim.(status := CleanupPending);
        var kept := Write(after);
        o := if kept.Crashed? then Crashed else Raised(Lifecycle);
        return;
      }
      assert existing == {};
      after := claim.(status := Destroyed, pending := None);
      var ended := Write(after);
      if !ended.Returned? {
        o := if ended.Crashed? then Crashed else Raised(ended.error);
      }
    }

    /**
     * Clean up a claimed lab, and call it destroyed only when none of its machines is left. Whatever
     * happened, the bootstrap secrets are scrubbed and the claim in memory is written once more.
     */
    method DestroyLab() returns (o: Outcome<seq<bool>>)
      requires Safe()
      modifies this
      ensures Safe() && faults >= old(faults)
      ensures old(stored).None? ==> !o.Returned? && stored.None? && cleaned == old(cleaned)
      ensures old(stored).Some? ==>
                && stored.Some? && Descends(old(stored).value, stored.value)
                && cleaned <= old(cleaned) + Reverse(Handles(old(stored).value))
      ensures o.Returned? ==> stored.value.status.Destroyed? && existing == {}
                              && cleaned == old(cleaned) + Reverse(Handles(old(stored).value))
      ensures faults == old(faults) && old(stored).Some? ==> o.Returned?
    {
      if stored.None? {
        var unclaimed := Scrub();
        return if unclaimed.Crashed? then Crashed else Raised(Lifecycle);
      }
      var after;
      o, after := RemoveClaimed(stored.value);
      if o.Crashed? {
        return;
      }
      var scrubbed := Scrub();
      if !scrubbed.Returned? {
        return if scrubbed.Crashed? then Crashed else Raised(scrubbed.error);
      }
      var written := Write(after);
      if written.Crashed? {
        return Crashed;
      }
      if o.Returned? && (written.Raised? || !scrubbed.value) {
        return Raised(if written.Raised? then written.error else Lifecycle);
      }
    }

    /** Any runs of both operations, failing and dying anywhere, with machines vanishing in between. */
    method AnyRun(steps: nat)
      requires Safe()
      modifies this
      ensures Safe()
    {
      for k := 0 to steps
        invariant Safe()
      {
        if * {
          var names: seq<string> := *;
          if NoDuplicates(names) {
            var o := ProvisionVms(names);
          }
        } else if * {
          var o := DestroyLab();
        } else {
          var gone: set<string> := *;
          existing := existing - gone;
        }
      }
    }
  }
}
