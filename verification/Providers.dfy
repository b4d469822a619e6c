/** Provider handles, machines, guest identities and discoveries. */
module Providers {
  import opened Wrappers
  import opened Identifiers
  import opened Sequences

  datatype Handle = Handle(provider: string, value: string)

  // The four roles of the full lab, and every other role name.
  datatype Role = Candidate | ControlPlane | Worker1 | Worker2 | Other(name: string)

  const FULL_ROLES: seq<Role> := [Candidate, ControlPlane, Worker1, Worker2]

  function RoleName(r: Role): string {
    match r
    case Candidate => "candidate"
    case ControlPlane => "control-plane"
    case Worker1 => "worker1"
    case Worker2 => "worker2"
    case Other(name) => name
  }

  predicate ValidRole(r: Role) {
    r.Other? ==> IsIdentifier(r.name) && r.name !in {"candidate", "control-plane", "worker1", "worker2"}
  }

  datatype Machine = Machine(role: Role, machineId: string, handle: Handle)

  datatype GuestIdentity = GuestIdentity(labId: string, machineId: string, role: Role, handle: Handle)

  datatype Presence = Present | Absent | Unknown

  datatype Discovery = Discovery(presence: Presence, handles: seq<Handle>)

  /** The discovery constructor: handles exactly when present, and never twice the same. */
  predicate ValidDiscovery(d: Discovery) {
    (d.presence.Present? <==> d.handles != []) && NoDuplicates(d.handles)
  }

  predicate ValidHandle(h: Handle) {
    IsIdentifier(h.provider) && IsIdentifier(h.value)
  }

  predicate ValidMachine(m: Machine) {
    ValidRole(m.role) && IsUuid(m.machineId) && ValidHandle(m.handle)
  }

  /** The only handle that a lab identity and a role own, or None for an unsupported policy. */
  function DeriveHandle(provider: string, labId: string, role: Role): (h: Option<Handle>)
    requires IsUuid(labId)
    ensures h.Some? ==> ValidHandle(h.value)
  {
    var prefix := labId[..8] + labId[9..13] + labId[14..18];
    var value := "cks-" + prefix + "-" + RoleName(role);
    if !IsIdentifier(provider) || !ValidRole(role) || !IsIdentifier(value) then None
    else if provider == "lima" then Some(Handle(provider, value))
    else if provider == "kind" && RoleName(role) == "cluster" then Some(Handle(provider, value))
    else None
  }

  /** An identifier without its hyphens. */
  function Digits(id: string): string {
    if id == [] then [] else (if id[0] == '-' then [] else [id[0]]) + Digits(id[1..])
  }

  lemma {:induction false} DigitsBoth(a: string, b: string)
    ensures Digits(a + b) == Digits(a) + Digits(b)
  {
    if a == [] {
      assert a + b == b;
    } else {
      assert (a + b)[1..] == a[1..] + b;
      DigitsBoth(a[1..], b);
    }
  }

  lemma {:induction false} DigitsPlain(a: string)
    requires '-' !in a
    ensures Digits(a) == a
  {
    if a != [] {
      DigitsPlain(a[1..]);
      assert a == [a[0]] + a[1..];
    }
  }

  /** A handle names its lab, by the first sixteen of its 32 digits, and its role. */
  lemma DeriveExact(provider: string, labId: string, role: Role)
    requires IsUuid(labId) && DeriveHandle(provider, labId, role).Some?
    ensures var h := DeriveHandle(provider, labId, role).value;
            && h.provider == provider && (provider == "lima" || (provider == "kind" && RoleName(role) == "cluster"))
            && |Digits(labId)| == 32
            && h.value == "cks-" + Digits(labId)[..16] + "-" + RoleName(role)
  {
    hide IsIdentifier, Digits;
    var a, b, c, d, e := labId[..8], labId[9..13], labId[14..18], labId[19..23], labId[24..];
    assert labId == a + ("-" + (b + ("-" + (c + ("-" + (d + ("-" + e)))))));
    DigitsBoth(a, "-" + (b + ("-" + (c + ("-" + (d + ("-" + e)))))));
    HyphenDigits(b + ("-" + (c + ("-" + (d + ("-" + e))))));
    DigitsBoth(b, "-" + (c + ("-" + (d + ("-" + e)))));
    HyphenDigits(c + ("-" + (d + ("-" + e))));
    DigitsBoth(c, "-" + (d + ("-" + e)));
    HyphenDigits(d + ("-" + e));
    DigitsBoth(d, "-" + e);
    HyphenDigits(e);
    DigitsPlain(a); DigitsPlain(b); DigitsPlain(c); DigitsPlain(d); DigitsPlain(e);
    assert Digits(labId) == a + b + c + (d + e);
    assert Digits(labId)[..16] == a + b + c;
  }

  lemma HyphenDigits(rest: string)
    ensures Digits("-" + rest) == Digits(rest)
  {
    assert ("-" + rest)[1..] == rest;
  }

  lemma RoleNameInjective(role: Role, other: Role)
    requires ValidRole(role) && ValidRole(other) && RoleName(role) == RoleName(other)
    ensures role == other
  {
    assert |RoleName(Candidate)| == 9 && |RoleName(ControlPlane)| == 13;
    assert RoleName(Worker1)[6] == '1' && RoleName(Worker2)[6] == '2';
  }

  /** Distinct roles own distinct handles, so a handle names one machine of its lab. */
  lemma DeriveInjective(provider: string, labId: string, role: Role, other: Role)
    requires IsUuid(labId)
    requires DeriveHandle(provider, labId, role).Some?
    requires DeriveHandle(provider, labId, role) == DeriveHandle(provider, labId, other)
    ensures role == other
  {
    var front := "cks-" + (labId[..8] + labId[9..13] + labId[14..18]) + "-";
    assert (front + RoleName(role))[|front|..] == RoleName(role);
    assert (front + RoleName(other))[|front|..] == RoleName(other);
    RoleNameInjective(role, other);
  }
}
