/**
 * The bounded tar stream (verify_u5_artifacts.py): a decompressed stream that refuses to be read or
 * moved past a bound, and the room that this bound leaves for every archive within the limits.
 */
module TarStream {
  import opened Wrappers
  import ArchiveCheck

  const MAX_TAR_METADATA_READ_BYTES: int := 1024
  const MAX_TAR_STRUCTURAL_BYTES: int :=
    ArchiveCheck.MAX_ARCHIVE_MEMBERS * (512 + 511)
    + (ArchiveCheck.MAX_ARCHIVE_MEMBERS + 1) * (512 + MAX_TAR_METADATA_READ_BYTES)
    + 1024
  const MAX_TAR_STREAM_BYTES: int := ArchiveCheck.MAX_DOWNLOAD_BYTES + MAX_TAR_STRUCTURAL_BYTES

  const BLOCK: int := 512

  // ---------------------------------------------------------------------------------------------
  // The layout of an archive in blocks

  /** A member's payload size, and the payload size of its extension record if it has one. */
  datatype Layout = Layout(size: nat, extension: Option<nat>)

  function Padded(size: nat): (p: nat)
    ensures p % BLOCK == 0 && size <= p < size + BLOCK
  {
    if size % BLOCK == 0 then size else size + BLOCK - size % BLOCK
  }

  function ExtensionBytes(extension: Option<nat>): nat {
    if extension.None? then 0 else BLOCK + Padded(extension.value)
  }

  function MemberBytes(m: Layout): nat {
    ExtensionBytes(m.extension) + BLOCK + Padded(m.size)
  }

  function Bytes(members: seq<Layout>): nat {
    if members == [] then 0 else Bytes(members[..|members| - 1]) + MemberBytes(members[|members| - 1])
  }

  function Payload(members: seq<Layout>): nat {
    if members == [] then 0 else Payload(members[..|members| - 1]) + members[|members| - 1].size
  }

  /** A global extension record, the members, and the two terminating zero blocks. */
  function ArchiveBytes(global: Option<nat>, members: seq<Layout>): nat {
    ExtensionBytes(global) + Bytes(members) + 2 * BLOCK
  }

  predicate SmallExtension(extension: Option<nat>) {
    extension.Some? ==> Padded(extension.value) <= MAX_TAR_METADATA_READ_BYTES
  }

  /** The limits that the check of the members enforces, and the one on extension records. */
  predicate WithinLimits(global: Option<nat>, members: seq<Layout>) {
    && |members| <= ArchiveCheck.MAX_ARCHIVE_MEMBERS && Payload(members) <= ArchiveCheck.MAX_DOWNLOAD_BYTES
    && SmallExtension(global) && forall m :: m in members ==> SmallExtension(m.extension)
  }

  lemma {:induction false} BytesBounded(members: seq<Layout>)
    requires forall m :: m in members ==> SmallExtension(m.extension)
    ensures Bytes(members) <= Payload(members) + |members| * (BLOCK + MAX_TAR_METADATA_READ_BYTES + BLOCK + BLOCK - 1)
  {
    if members != [] {
      var m := members[|members| - 1];
      assert m in members;
      BytesBounded(members[..|members| - 1]);
    }
  }

  /** Every archive within the limits fits the bound of the stream. */
  lemma ArchiveFits(global: Option<nat>, members: seq<Layout>)
    requires WithinLimits(global, members)
    ensures ArchiveBytes(global, members) <= MAX_TAR_STREAM_BYTES
  {
    BytesBounded(members);
  }

  function Copies(n: nat, m: Layout): (all: seq<Layout>)
    ensures |all| == n && forall x :: x in all ==> x == m
  {
    if n == 0 then [] else Copies(n - 1, m) + [m]
  }

  lemma {:induction false} CopiesBytes(n: nat, m: Layout)
    ensures Bytes(Copies(n, m)) == n * MemberBytes(m) && Payload(Copies(n, m)) == n * m.size
  {
    if n > 0 {
      CopiesBytes(n - 1, m);
      assert Copies(n, m)[..n - 1] == Copies(n - 1, m);
      Distribute(n, MemberBytes(m));
      Distribute(n, m.size);
    }
  }

  lemma Distribute(n: nat, k: nat)
    requires n > 0
    ensures n * k == (n - 1) * k + k
  {
  }

  /** The bound is tight: an archive of one-byte members with full extensions reaches all but the payload room. */
  lemma BoundIsTight()
    ensures var members := Copies(ArchiveCheck.MAX_ARCHIVE_MEMBERS, Layout(1, Some(1024)));
            && WithinLimits(Some(1024), members)
            && ArchiveBytes(Some(1024), members)
               == MAX_TAR_STREAM_BYTES - ArchiveCheck.MAX_DOWNLOAD_BYTES + Payload(members)
  {
    CopiesBytes(ArchiveCheck.MAX_ARCHIVE_MEMBERS, Layout(1, Some(1024)));
    assert Padded(1) == 512 && Padded(1024) == 1024;
  }

  lemma {:induction false} BytesTake(members: seq<Layout>, i: nat)
    requires i <= |members|
    ensures Bytes(members[..i]) <= Bytes(members)
    ensures i < |members| ==> Bytes(members[..i + 1]) == Bytes(members[..i]) + MemberBytes(members[i])
    decreases |members| - i
  {
    if i < |members| {
      assert members[..i + 1][..i] == members[..i];
      BytesTake(members, i + 1);
    } else {
      assert members[..i] == members;
    }
  }

  // ---------------------------------------------------------------------------------------------
  // The stream

  datatype Whence = FromStart | FromCurrent | FromEnd

  class BoundedTarStream {
    // The decompressed stream underneath: its whole length and where it stands.
    const length: nat
    var position: nat
    var metadataPhase: bool

    constructor (length: nat)
      ensures Valid() && this.length == length && position == 0 && metadataPhase
    {
      this.length := length;
      position := 0;
      metadataPhase := true;
    }

    ghost predicate Valid()
      reads this
    {
      position <= MAX_TAR_STREAM_BYTES
    }

    method AllowPayloadReads()
      modifies this`metadataPhase
      ensures !metadataPhase
    {
      metadataPhase := false;
    }

    /** Read at most `size` bytes; what is refused has read nothing. */
    method Read(size: int) returns (r: Result<nat>)
      requires Valid()
      modifies this`position
      ensures Valid()
      ensures r.Ok? <==> 0 <= size <= MAX_TAR_STREAM_BYTES - old(position)
                         && (metadataPhase ==> size <= MAX_TAR_METADATA_READ_BYTES)
      ensures r.Ok? ==> r.value <= size && position == old(position) + r.value
                        && (old(position) + size <= length ==> r.value == size)
      ensures r.Err? ==> position == old(position)
    {
      if size < 0 {
        return Err(Validation);
      }
      if metadataPhase && size > MAX_TAR_METADATA_READ_BYTES {
        return Err(Validation);
      }
      if size > MAX_TAR_STREAM_BYTES - position {
        return Err(Validation);
      }
      var n := if position + size <= length then size else if position <= length then length - position else 0;
      position := position + n;
      return Ok(n);
    }

    /** Where the stream comes to stand when it is asked for `target`. */
    function Reached(target: nat): nat {
      if target <= length then target else length
    }

    function Target(offset: int, whence: Whence): int
      reads this`position
    {
      offset + if whence.FromCurrent? then position else 0
    }

    /**
     * Move to a target within the bound and the stream. A target beyond the end is refused as well, but
     * only after the position has gone to the end.
     */
    method Seek(offset: int, whence: Whence) returns (r: Result<nat>)
      requires Valid()
      modifies this`position
      ensures Valid()
      ensures var target := old(Target(offset, whence));
              var bounded := !whence.FromEnd? && 0 <= target <= MAX_TAR_STREAM_BYTES;
              && (r.Ok? <==> bounded && target <= length)
              && (r.Ok? ==> r.value == target)
              && position == if bounded then Reached(target) else old(position)
    {
      if whence.FromEnd? {
        return Err(Validation);
      }
      var target := Target(offset, whence);
      if target < 0 || target > MAX_TAR_STREAM_BYTES {
        return Err(Validation);
      }
      var observed := Reached(target);
      position := observed;
      if observed != target {
        return Err(Validation);
      }
      return Ok(observed);
    }

    /** Any sequence of reads, seeks and the phase change keeps the position within the bound. */
    method AnyRun(steps: nat)
      requires Valid()
      modifies this
      ensures Valid()
    {
      for k := 0 to steps
        invariant Valid()
      {
        var amount: int, whence: Whence := *, *;
        if * {
          var r := Read(amount);
        } else if * {
          var r := Seek(amount, whence);
        } else {
          AllowPayloadReads();
        }
      }
    }

    /** Go to the block at `offset` as a reader does: check the byte before it, unless it is there. */
    method GoTo(offset: nat) returns (ok: bool)
      requires Valid() && metadataPhase && offset <= length && offset <= MAX_TAR_STREAM_BYTES
      modifies this`position
      ensures Valid() && ok && position == offset
    {
      if offset != position {
        if offset == 0 {
          var start := Seek(0, FromStart);
          return true;
        }
        var moved := Seek(offset - 1, FromStart);
        var byte := Read(1);
        return moved.Ok? && byte.Ok?;
      }
      return true;
    }

    /** Read an extension record, its rounded payload in a single read. */
    method ScanExtension(extension: Option<nat>) returns (ok: bool)
      requires Valid() && metadataPhase && SmallExtension(extension)
      requires position + ExtensionBytes(extension) <= length && length <= MAX_TAR_STREAM_BYTES
      modifies this`position
      ensures Valid() && ok && position == old(position) + ExtensionBytes(extension)
    {
      if extension.Some? {
        var header := Read(BLOCK);
        var payload := Read(Padded(extension.value));
        return header.Ok? && payload.Ok?;
      }
      return true;
    }

    /** Reading the headers of any archive within the limits, payloads skipped, is never refused. */
    method Scan(global: Option<nat>, members: seq<Layout>) returns (ok: bool)
      requires Valid() && metadataPhase && position == 0
      requires WithinLimits(global, members) && length == ArchiveBytes(global, members)
      modifies this`position
      ensures Valid() && ok
    {
      ArchiveFits(global, members);
      BytesTake(members, 0);
      ok := ScanExtension(global);
      var offset := position;
      var i := 0;
      while i < |members|
        invariant 0 <= i <= |members| && ok && Valid() && metadataPhase
        invariant offset == ExtensionBytes(global) + Bytes(members[..i])
        invariant offset <= length
      {
        BytesTake(members, i);
        BytesTake(members, i + 1);
        assert members[i] in members;
        var at := GoTo(offset);
        var extended := ScanExtension(members[i].extension);
        var header := Read(BLOCK);
        ok := at && extended && header.Ok?;
        offset := position + Padded(members[i].size);
        i := i + 1;
      }
      assert members[..i] == members;
      var at := GoTo(offset);
      var terminator := Read(BLOCK);
      ok := ok && at && terminator.Ok?;
    }
  }
}
