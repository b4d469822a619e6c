/** The one-pass archive check (verify_u5_artifacts.py) and what an accepted archive can be trusted with. */
module ArchiveCheck {
  import opened Wrappers
  import opened Sequences

  const MAX_DOWNLOAD_BYTES: int := 1024 * 1024 * 1024
  const MAX_ARCHIVE_MEMBERS: int := 4096
  const MAX_ARCHIVE_PATH_BYTES: int := 768
  const MAX_ARCHIVE_COMPONENT_BYTES: int := 255
  const MAX_ARCHIVE_DEPTH: int := 64

  // `Special` is every member that is neither a regular file nor a directory.
  datatype Kind = File | Directory | Special

  datatype Member = Member(name: string, kind: Kind, size: int)

  /** Unicode normalization and case folding, as any two functions on text. */
  datatype Text = Text(nfc: string -> string, fold: string -> string) {
    function Alias(path: string): string {
      fold(nfc(path))
    }
  }

  // ---------------------------------------------------------------------------------------------
  // Relative paths

  function Utf8Length(s: string): nat {
    if s == [] then 0
    else
      var n := s[0] as int;
      (if n < 0x80 then 1 else if n < 0x800 then 2 else if n < 0x10000 then 3 else 4) + Utf8Length(s[1..])
  }

  /** The text between slashes: one piece more than there are slashes. */
  function Pieces(s: string): (pieces: seq<string>)
    ensures pieces != []
  {
    if s == [] then [""]
    else
      var rest := Pieces(s[1..]);
      if s[0] == '/' then [""] + rest else [[s[0]] + rest[0]] + rest[1..]
  }

  predicate IsPart(piece: string) {
    piece != "" && piece != "."
  }

  predicate SlashFree(piece: string) {
    forall i :: 0 <= i < |piece| ==> piece[i] != '/'
  }

  function Keep(pieces: seq<string>): (parts: seq<string>)
    ensures forall p :: p in parts ==> p in pieces && IsPart(p)
  {
    if pieces == [] then [] else (if IsPart(pieces[0]) then [pieces[0]] else []) + Keep(pieces[1..])
  }

  /** The components of a pure POSIX path: empty and single-dot pieces vanish. */
  function Parts(name: string): seq<string> {
    Keep(Pieces(name))
  }

  function Join(parts: seq<string>): string {
    if parts == [] then ""
    else if |parts| == 1 then parts[0]
    else parts[0] + "/" + Join(parts[1..])
  }

  lemma {:induction false} PiecesSlashFree(s: string)
    ensures forall p :: p in Pieces(s) ==> SlashFree(p)
  {
    if s != [] {
      PiecesSlashFree(s[1..]);
      assert Pieces(s[1..])[0] in Pieces(s[1..]);
    }
  }

  lemma {:induction false} PiecesOfPiece(piece: string, rest: string)
    requires SlashFree(piece)
    ensures Pieces(piece + "/" + rest) == [piece] + Pieces(rest)
    ensures Pieces(piece) == [piece]
  {
    if piece == [] {
      assert (piece + "/" + rest)[1..] == rest;
    } else {
      PiecesOfPiece(piece[1..], rest);
      assert (piece + "/" + rest)[1..] == piece[1..] + "/" + rest;
      assert [piece[0]] + piece[1..] == piece;
    }
  }

  lemma {:induction false} PiecesOfJoin(parts: seq<string>)
    requires parts != [] && forall p :: p in parts ==> SlashFree(p)
    ensures Pieces(Join(parts)) == parts
  {
    if |parts| == 1 {
      PiecesOfPiece(parts[0], "");
    } else {
      PiecesOfJoin(parts[1..]);
      PiecesOfPiece(parts[0], Join(parts[1..]));
    }
  }

  lemma {:induction false} KeepAll(parts: seq<string>)
    requires forall p :: p in parts ==> IsPart(p)
    ensures Keep(parts) == parts
  {
    if parts != [] {
      KeepAll(parts[1..]);
    }
  }

  predicate Components(parts: seq<string>) {
    parts != [] && forall p :: p in parts ==> IsPart(p) && SlashFree(p)
  }

  /** Joining components and taking them apart again gives them back: canonical paths are unambiguous. */
  lemma PartsOfJoin(parts: seq<string>)
    requires Components(parts)
    ensures Parts(Join(parts)) == parts
  {
    PiecesOfJoin(parts);
    KeepAll(parts);
  }

  lemma PartsAreComponents(name: string)
    requires Parts(name) != []
    ensures Components(Parts(name))
  {
    PiecesSlashFree(name);
  }

  // ---------------------------------------------------------------------------------------------
  // The definition

  function Canonical(m: Member): string {
    Join(Parts(m.name))
  }

  predicate BoundedPath(parts: seq<string>) {
    && Utf8Length(Join(parts)) <= MAX_ARCHIVE_PATH_BYTES
    && (forall p :: p in parts ==> Utf8Length(p) <= MAX_ARCHIVE_COMPONENT_BYTES)
    && |parts| <= MAX_ARCHIVE_DEPTH
  }

  predicate SafeRelative(name: string) {
    !("/" <= name) && Parts(name) != [] && ".." !in Parts(name)
  }

  /** What the check demands of one member alone. */
  predicate Sound(m: Member, text: Text) {
    && SafeRelative(m.name)
    && BoundedPath(Parts(m.name))
    && !m.kind.Special?
    && (m.name == Canonical(m) || (m.kind.Directory? && m.name == Canonical(m) + "/"))
    && text.nfc(Canonical(m)) == Canonical(m)
  }

  /** The path of a member and of everything above it. */
  function Prefixes(m: Member): set<string> {
    set k | 1 <= k <= |Parts(m.name)| :: Join(Parts(m.name)[..k])
  }

  function Ancestors(m: Member): set<string> {
    set k | 1 <= k < |Parts(m.name)| :: Join(Parts(m.name)[..k])
  }

  function AllPrefixes(members: seq<Member>): set<string> {
    set m, p | m in members && p in Prefixes(m) :: p
  }

  predicate NoAlias(paths: set<string>, text: Text) {
    forall p, q :: p in paths && q in paths && text.Alias(p) == text.Alias(q) ==> p == q
  }

  function Total(members: seq<Member>): int {
    if members == [] then 0 else Total(members[..|members| - 1]) + members[|members| - 1].size
  }

  predicate InBounds(members: seq<Member>) {
    && 0 < |members| <= MAX_ARCHIVE_MEMBERS
    && (forall m :: m in members ==> 0 <= m.size <= MAX_DOWNLOAD_BYTES)
    && Total(members) <= MAX_DOWNLOAD_BYTES
  }

  predicate DistinctPaths(members: seq<Member>) {
    forall i, j :: 0 <= i < j < |members| ==> Canonical(members[i]) != Canonical(members[j])
  }

  predicate NoFileAncestor(members: seq<Member>) {
    forall m, n :: m in members && n in members && m.kind.File? ==> Canonical(m) !in Ancestors(n)
  }

  /** The all-pairs definition of an acceptable archive. */
  predicate Acceptable(members: seq<Member>, text: Text) {
    && InBounds(members)
    && (forall m :: m in members ==> Sound(m, text))
    && DistinctPaths(members)
    && NoAlias(AllPrefixes(members), text)
    && NoFileAncestor(members)
  }

  // ---------------------------------------------------------------------------------------------
  // The one-pass check

  lemma {:induction false} TotalMonotone(members: seq<Member>, i: nat)
    requires i <= |members| && forall m :: m in members ==> m.size >= 0
    ensures Total(members[..i]) <= Total(members)
  {
    if i == |members| {
      assert members[..i] == members;
    } else {
      var init := members[..|members| - 1];
      TotalMonotone(init, i);
      assert init[..i] == members[..i];
      assert members[|members| - 1] in members;
    }
  }

  /** The first loop: count and sizes, in the order of the stream. */
  method CheckSizes(members: seq<Member>) returns (ok: bool)
    ensures ok <==> InBounds(members)
  {
    var total := 0;
    var i := 0;
    while i < |members|
      invariant 0 <= i <= |members| && i <= MAX_ARCHIVE_MEMBERS
      invariant total == Total(members[..i]) <= MAX_DOWNLOAD_BYTES
      invariant forall m :: m in members[..i] ==> 0 <= m.size <= MAX_DOWNLOAD_BYTES
    {
      var member := members[i];
      if i >= MAX_ARCHIVE_MEMBERS {
        return false;
      }
      if member.size < 0 || member.size > MAX_DOWNLOAD_BYTES {
        assert member in members;
        return false;
      }
      assert members[..i + 1][..|members[..i + 1]| - 1] == members[..i];
      total := total + member.size;
      if total > MAX_DOWNLOAD_BYTES {
        if forall m :: m in members ==> m.size >= 0 {
          TotalMonotone(members, i + 1);
        }
        return false;
      }
      i := i + 1;
    }
    assert members[..i] == members;
    return members != [];
  }

  /** The aliases seen so far, each with the one path that it stands for. */
  ghost predicate Remembers(aliases: map<string, string>, paths: set<string>, text: Text) {
    && (forall p :: p in paths ==> text.Alias(p) in aliases && aliases[text.Alias(p)] == p)
    && (forall a :: a in aliases ==> aliases[a] in paths && text.Alias(aliases[a]) == a)
  }

  lemma RemembersAdd(aliases: map<string, string>, paths: set<string>, text: Text, p: string)
    requires Remembers(aliases, paths, text)
    requires text.Alias(p) in aliases ==> aliases[text.Alias(p)] == p
    ensures Remembers(aliases[text.Alias(p) := p], paths + {p}, text)
  {
  }

  lemma RemembersNoAlias(aliases: map<string, string>, paths: set<string>, text: Text)
    requires Remembers(aliases, paths, text)
    ensures NoAlias(paths, text)
  {
  }

  /** The prefixes that are longer than `k` components. */
  function Longer(parts: seq<string>, k: nat): set<string> {
    set j | k < j <= |parts| :: Join(parts[..j])
  }

  lemma LongerNext(parts: seq<string>, k: nat)
    requires 0 < k <= |parts|
    ensures Longer(parts, k - 1) == Longer(parts, k) + {Join(parts[..k])}
  {
  }

  /** Check every prefix of one member, the longest first, against the aliases seen so far. */
  method CheckPrefixes(m: Member, text: Text, aliases: map<string, string>, ghost seen: set<string>)
    returns (ok: bool, more: map<string, string>)
    requires Remembers(aliases, seen, text)
    ensures ok <==> NoAlias(seen + Prefixes(m), text)
    ensures ok ==> Remembers(more, seen + Prefixes(m), text)
  {
    hide Join, Parts, Longer, Remembers;
    var parts := Parts(m.name);
    more := aliases;
    var k := |parts|;
    LongerEnds(m);
    assert seen + Longer(parts, k) == seen;
    while k > 0
      invariant 0 <= k <= |parts|
      invariant Remembers(more, seen + Longer(parts, k), text)
      invariant Longer(parts, k) <= Prefixes(m)
    {
      var path := Join(parts[..k]);
      var alias := text.Alias(path);
      LongerNext(parts, k);
      if alias in more && more[alias] != path {
        RemembersClash(more, seen + Longer(parts, k), text, path, seen + Prefixes(m));
        return false, more;
      }
      RemembersAdd(more, seen + Longer(parts, k), text, path);
      more := more[alias := path];
      assert seen + Longer(parts, k) + {path} == seen + Longer(parts, k - 1);
      k := k - 1;
    }
    RemembersNoAlias(more, seen + Prefixes(m), text);
    return true, more;
  }

  lemma LongerEnds(m: Member)
    ensures Longer(Parts(m.name), |Parts(m.name)|) == {} && Longer(Parts(m.name), 0) == Prefixes(m)
  {
  }

  lemma RemembersClash(aliases: map<string, string>, paths: set<string>, text: Text, p: string, all: set<string>)
    requires Remembers(aliases, paths, text) && text.Alias(p) in aliases && aliases[text.Alias(p)] != p
    requires paths <= all && p in all
    ensures !NoAlias(all, text)
  {
    assert aliases[text.Alias(p)] in all;
  }

  lemma NoAliasSubset(few: set<string>, many: set<string>, text: Text)
    requires few <= many && NoAlias(many, text)
    ensures NoAlias(few, text)
  {
  }

  lemma AllPrefixesAppend(members: seq<Member>, m: Member)
    ensures AllPrefixes(members + [m]) == AllPrefixes(members) + Prefixes(m)
  {
    forall p ensures p in AllPrefixes(members + [m]) <==> p in AllPrefixes(members) + Prefixes(m) {
      if p in Prefixes(m) {
        assert m in members + [m];
      }
    }
  }

  lemma AllPrefixesTake(members: seq<Member>, i: nat)
    requires i <= |members|
    ensures AllPrefixes(members[..i]) <= AllPrefixes(members)
  {
  }

  /** The kinds recorded so far, by canonical path. */
  ghost predicate Records(kinds: map<string, Kind>, members: seq<Member>) {
    && (forall m :: m in members ==> Canonical(m) in kinds && kinds[Canonical(m)] == m.kind)
    && (forall p :: p in kinds ==> exists m :: m in members && Canonical(m) == p)
  }

  /** The second loop: each member's path, uniqueness, and aliases. */
  method CheckPaths(members: seq<Member>, text: Text) returns (ok: bool, kinds: map<string, Kind>)
    ensures ok <==>
              && (forall m :: m in members ==> Sound(m, text))
              && DistinctPaths(members)
              && NoAlias(AllPrefixes(members), text)
    ensures ok ==> Records(kinds, members)
  {
    hide Sound, Prefixes, Canonical, NoAlias, Remembers;
    kinds := map[];
    var aliases: map<string, string> := map[];
    RemembersNothing(text);
    var i := 0;
    while i < |members|
      invariant 0 <= i <= |members|
      invariant forall m :: m in members[..i] ==> Sound(m, text)
      invariant DistinctPaths(members[..i]) && Records(kinds, members[..i])
      invariant Remembers(aliases, AllPrefixes(members[..i]), text)
    {
      var member := members[i];
      assert members[..i + 1] == members[..i] + [member];
      AllPrefixesTake(members, i + 1);
      AllPrefixesAppend(members[..i], member);
      if !Sound(member, text) {
        assert member in members;
        return false, kinds;
      }
      if Canonical(member) in kinds {
        Duplicate(members, i);
        return false, kinds;
      }
      var free, more := CheckPrefixes(member, text, aliases, AllPrefixes(members[..i]));
      if !free {
        if NoAlias(AllPrefixes(members), text) {
          NoAliasSubset(AllPrefixes(members[..i + 1]), AllPrefixes(members), text);
        }
        return false, kinds;
      }
      aliases := more;
      RecordsAdd(kinds, members[..i], member);
      kinds := kinds[Canonical(member) := member.kind];
      i := i + 1;
    }
    assert members[..i] == members;
    RemembersNoAlias(aliases, AllPrefixes(members), text);
    return true, kinds;
  }

  lemma RemembersNothing(text: Text)
    ensures Remembers(map[], AllPrefixes([]), text)
  {
  }

  lemma Duplicate(members: seq<Member>, i: nat)
    requires i < |members| && exists m :: m in members[..i] && Canonical(m) == Canonical(members[i])
    ensures !DistinctPaths(members)
  {
  }

  lemma RecordsAdd(kinds: map<string, Kind>, members: seq<Member>, m: Member)
    requires Records(kinds, members) && DistinctPaths(members) && Canonical(m) !in kinds
    ensures Records(kinds[Canonical(m) := m.kind], members + [m])
    ensures DistinctPaths(members + [m])
  {
    hide Canonical;
    var longer, more := members + [m], kinds[Canonical(m) := m.kind];
    assert m in longer && forall n :: n in members ==> n in longer;
    forall p | p in more ensures exists n :: n in longer && Canonical(n) == p {
      if p != Canonical(m) {
        var n :| n in members && Canonical(n) == p;
        assert n in longer;
      }
    }
    forall i, j | 0 <= i < j < |longer| ensures Canonical(longer[i]) != Canonical(longer[j]) {
      if j == |members| {
        assert members[i] in members;
      }
    }
  }

  /** The third loop: no recorded path lies below a regular file. */
  method CheckAncestors(members: seq<Member>, kinds: map<string, Kind>) returns (ok: bool)
    requires Records(kinds, members) && forall m :: m in members ==> Parts(m.name) != []
    ensures ok <==> NoFileAncestor(members)
  {
    hide Pieces, Keep, Join, Records;
    var i := 0;
    while i < |members|
      invariant 0 <= i <= |members|
      invariant forall m, n :: m in members && n in members[..i] && m.kind.File? ==> Canonical(m) !in Ancestors(n)
    {
      PartsAreComponents(members[i].name);
      PartsOfJoin(Parts(members[i].name));
      // The recorded name, taken apart again.
      var parts := Parts(Canonical(members[i]));
      var k := |parts| - 1;
      while k > 0
        invariant 0 <= k < |parts|
        invariant forall m, j :: m in members && m.kind.File? && k < j < |parts| ==> Canonical(m) != Join(parts[..j])
      {
        var parent := Join(parts[..k]);
        if parent in kinds && kinds[parent].File? {
          RecordedFile(kinds, members, parent);
          assert parent in Ancestors(members[i]);
          return false;
        }
        forall m | m in members && m.kind.File? ensures Canonical(m) != parent {
          RecordedKind(kinds, members, m);
        }
        k := k - 1;
      }
      i := i + 1;
    }
    return true;
  }

  lemma RecordedFile(kinds: map<string, Kind>, members: seq<Member>, p: string)
    requires Records(kinds, members) && p in kinds && kinds[p].File?
    ensures exists m :: m in members && Canonical(m) == p && m.kind.File?
  {
    var m :| m in members && Canonical(m) == p;
  }

  lemma RecordedKind(kinds: map<string, Kind>, members: seq<Member>, m: Member)
    requires Records(kinds, members) && m in members
    ensures Canonical(m) in kinds && kinds[Canonical(m)] == m.kind
  {
  }

  // ---------------------------------------------------------------------------------------------
  // Where a name leads

  /** Taking a text apart at its slashes loses nothing. */
  lemma {:induction false} JoinOfPieces(s: string)
    ensures Join(Pieces(s)) == s
  {
    if s != [] {
      JoinOfPieces(s[1..]);
      var rest := Pieces(s[1..]);
      assert s == [s[0]] + s[1..];
      if s[0] == '/' {
        assert Pieces(s)[1..] == rest;
      } else {
        assert Pieces(s)[1..] == rest[1..];
        assert |rest| > 1 ==> Join(Pieces(s)) == [s[0]] + (rest[0] + "/" + Join(rest[1..]));
      }
    }
  }

  /** Follow the pieces of a path from a directory below the root; above the root is nowhere. */
  function Walk(pieces: seq<string>, at: seq<string>): Option<seq<string>> {
    if pieces == [] then Some(at)
    else if pieces[0] == "" || pieces[0] == "." then Walk(pieces[1..], at)
    else if pieces[0] == ".." then (if at == [] then None else Walk(pieces[1..], at[..|at| - 1]))
    else Walk(pieces[1..], at + [pieces[0]])
  }

  /** Where a file system finds a name that is opened in the extraction directory, if below it. */
  function Leads(name: string): Option<seq<string>> {
    if "/" <= name then None else Walk(Pieces(name), [])
  }

  /** The name leads to a place strictly below the extraction directory, and spells just that place. */
  predicate StaysBelow(m: Member) {
    && Leads(m.name).Some? && Leads(m.name).value != []
    && var place := Join(Leads(m.name).value);
       m.name == place || (m.kind.Directory? && m.name == place + "/")
  }

  lemma {:induction false} WalkKeeps(pieces: seq<string>, at: seq<string>)
    requires ".." !in Keep(pieces)
    ensures Walk(pieces, at) == Some(at + Keep(pieces))
  {
    if pieces == [] {
      assert at + Keep(pieces) == at;
    } else {
      assert forall p :: p in Keep(pieces[1..]) ==> p in Keep(pieces);
      if IsPart(pieces[0]) {
        assert Keep(pieces)[0] == pieces[0];
        WalkKeeps(pieces[1..], at + [pieces[0]]);
        assert at + [pieces[0]] + Keep(pieces[1..]) == at + Keep(pieces);
      } else {
        assert [] + Keep(pieces[1..]) == Keep(pieces[1..]);
        WalkKeeps(pieces[1..], at);
      }
    }
  }

  /** No sound name leaves the extraction directory, however its pieces are followed. */
  lemma SoundStaysBelow(m: Member, text: Text)
    requires Sound(m, text)
    ensures StaysBelow(m)
  {
    WalkKeeps(Pieces(m.name), []);
    assert [] + Parts(m.name) == Parts(m.name);
  }

  lemma AcceptableStaysBelow(members: seq<Member>, text: Text)
    requires Acceptable(members, text)
    ensures forall m :: m in members ==> StaysBelow(m)
  {
    hide StaysBelow, Sound;
    forall m | m in members ensures StaysBelow(m) {
      SoundStaysBelow(m, text);
    }
  }

  /**
   * The check accepts exactly the archives that the all-pairs definition accepts, and then every name leads
   * to a place below the extraction directory.
   */
  method ValidateArchive(members: seq<Member>, text: Text) returns (ok: bool)
    ensures ok <==> Acceptable(members, text)
    ensures ok ==> forall m :: m in members ==> StaysBelow(m)
  {
    hide StaysBelow, InBounds, DistinctPaths, NoFileAncestor, NoAlias;
    var sized := CheckSizes(members);
    if !sized {
      return false;
    }
    var named, kinds := CheckPaths(members, text);
    if !named {
      return false;
    }
    ok := CheckAncestors(members, kinds);
    if ok {
      AcceptableStaysBelow(members, text);
    }
  }

  // ---------------------------------------------------------------------------------------------
  // Extraction into a tree that folds case

  /** An entry under its folded name, with the spelling that created it. */
  datatype Entry = Entry(path: string, directory: bool)

  type Tree = map<string, Entry>

  /** Make one directory, unless it is there; None for a file, or another spelling, in its place. */
  function MakeDirectory(tree: Tree, path: string, text: Text): (after: Option<Tree>)
  {
    var alias := text.Alias(path);
    if alias !in tree then Some(tree[alias := Entry(path, true)])
    else if tree[alias] == Entry(path, true) then Some(tree)
    else None
  }

  /** Make the first `k` directories on a path. */
  function MakeParents(tree: Tree, parts: seq<string>, k: nat, text: Text): Option<Tree>
    requires k <= |parts|
  {
    if k == 0 then Some(tree)
    else
      var before := MakeParents(tree, parts, k - 1, text);
      if before.None? then None else MakeDirectory(before.value, Join(parts[..k]), text)
  }

  /** Extract one member; None if that would go through a file or replace an entry. */
  function Extract(tree: Tree, m: Member, text: Text): Option<Tree>
    requires Parts(m.name) != []
  {
    var parts := Parts(m.name);
    var parents := MakeParents(tree, parts, |parts| - 1, text);
    if parents.None? then None
    else if m.kind.Directory? then MakeDirectory(parents.value, Canonical(m), text)
    else if text.Alias(Canonical(m)) in parents.value then None
    else Some(parents.value[text.Alias(Canonical(m)) := Entry(Canonical(m), false)])
  }

  function ExtractAll(members: seq<Member>, text: Text): Option<Tree>
    requires forall m :: m in members ==> Parts(m.name) != []
  {
    if members == [] then Some(map[])
    else
      var before := ExtractAll(members[..|members| - 1], text);
      if before.None? then None else Extract(before.value, members[|members| - 1], text)
  }

  /** The tree holds exactly these paths, each under its own name, as files or directories. */
  ghost predicate Holds(tree: Tree, paths: set<string>, files: set<string>, text: Text) {
    && (forall p :: p in paths ==> text.Alias(p) in tree && tree[text.Alias(p)].path == p)
    && (forall a :: a in tree ==>
          && tree[a].path in paths && text.Alias(tree[a].path) == a
          && (tree[a].directory <==> tree[a].path !in files))
  }

  function Files(members: seq<Member>): set<string> {
    set m | m in members && m.kind.File? :: Canonical(m)
  }

  lemma MakesDirectory(tree: Tree, paths: set<string>, files: set<string>, text: Text, p: string)
    requires Holds(tree, paths, files, text) && p !in files
    requires forall q :: q in paths && text.Alias(q) == text.Alias(p) ==> q == p
    ensures MakeDirectory(tree, p, text).Some?
    ensures Holds(MakeDirectory(tree, p, text).value, paths + {p}, files, text)
  {
  }

  function Upper(parts: seq<string>, k: nat): set<string> {
    set j | 1 <= j <= k && j <= |parts| :: Join(parts[..j])
  }

  lemma UpperNext(parts: seq<string>, k: nat)
    requires 0 < k <= |parts|
    ensures Upper(parts, k) == Upper(parts, k - 1) + {Join(parts[..k])}
    ensures Join(parts[..k]) in Upper(parts, k)
  {
  }

  lemma {:induction false} MakesParents(tree: Tree, paths: set<string>, files: set<string>, all: set<string>,
                                        text: Text, parts: seq<string>, k: nat)
    requires Holds(tree, paths, files, text) && k <= |parts|
    requires NoAlias(all, text) && paths <= all && Upper(parts, k) <= all && Upper(parts, k) !! files
    ensures MakeParents(tree, parts, k, text).Some?
    ensures Holds(MakeParents(tree, parts, k, text).value, paths + Upper(parts, k), files, text)
  {
    hide Join, Upper, Holds, MakeDirectory;
    if k == 0 {
      UpperNone(parts);
      assert paths + Upper(parts, 0) == paths;
    } else {
      UpperNext(parts, k);
      MakesParents(tree, paths, files, all, text, parts, k - 1);
      var before := MakeParents(tree, parts, k - 1, text).value;
      MakesDirectory(before, paths + Upper(parts, k - 1), files, text, Join(parts[..k]));
      assert paths + Upper(parts, k - 1) + {Join(parts[..k])} == paths + Upper(parts, k);
    }
  }

  lemma UpperNone(parts: seq<string>)
    ensures Upper(parts, 0) == {}
  {
  }

  lemma UpperAll(m: Member)
    requires Parts(m.name) != []
    ensures Upper(Parts(m.name), |Parts(m.name)| - 1) == Ancestors(m)
    ensures Prefixes(m) == Ancestors(m) + {Canonical(m)}
  {
    var parts := Parts(m.name);
    assert parts[..|parts|] == parts;
    forall p ensures p in Prefixes(m) <==> p in Ancestors(m) + {Canonical(m)} {
      if p in Prefixes(m) {
        var k :| 1 <= k <= |parts| && p == Join(parts[..k]);
      }
    }
  }

  /** Every member's name has components, and its kind can be extracted. */
  predicate Extractable(members: seq<Member>) {
    forall m :: m in members ==> Parts(m.name) != [] && !m.kind.Special?
  }

  lemma Extracts(tree: Tree, before: seq<Member>, m: Member, text: Text)
    requires Extractable(before + [m]) && DistinctPaths(before + [m]) && NoFileAncestor(before + [m])
    requires NoAlias(AllPrefixes(before + [m]), text)
    requires Holds(tree, AllPrefixes(before), Files(before), text)
    requires Parts(m.name) != []
    ensures Extract(tree, m, text).Some?
    ensures Holds(Extract(tree, m, text).value, AllPrefixes(before + [m]), Files(before + [m]), text)
  {
    hide Parts, Join, Holds, NoAlias, Canonical, Prefixes, Ancestors, AllPrefixes, Files, Upper, DistinctPaths,
      NoFileAncestor, MakeDirectory, MakeParents;
    var all, paths, files := AllPrefixes(before + [m]), AllPrefixes(before), Files(before);
    assert m in before + [m] && forall n :: n in before ==> n in before + [m];
    AllPrefixesAppend(before, m);
    UpperAll(m);
    AncestorsAreNoFiles(before, m);
    var top := |Parts(m.name)| - 1;
    MakesParents(tree, paths, files, all, text, Parts(m.name), top);
    var parents := MakeParents(tree, Parts(m.name), top, text).value;
    PathIsNew(before, m);
    FilesAppend(before, m);
    assert paths + Ancestors(m) + {Canonical(m)} == all;
    NoAliasOf(all, text, Canonical(m));
    if m.kind.Directory? {
      MakesDirectory(parents, paths + Ancestors(m), files, text, Canonical(m));
      assert files + {} == files;
    } else {
      MakesFile(parents, paths + Ancestors(m), files, text, Canonical(m));
    }
  }

  lemma NoAliasOf(all: set<string>, text: Text, p: string)
    requires NoAlias(all, text) && p in all
    ensures forall q :: q in all && text.Alias(q) == text.Alias(p) ==> q == p
  {
  }

  lemma MakesFile(tree: Tree, paths: set<string>, files: set<string>, text: Text, p: string)
    requires Holds(tree, paths, files, text) && p !in paths
    requires forall q :: q in paths && text.Alias(q) == text.Alias(p) ==> q == p
    ensures text.Alias(p) !in tree
    ensures Holds(tree[text.Alias(p) := Entry(p, false)], paths + {p}, files + {p}, text)
  {
  }

  lemma AncestorsAreNoFiles(before: seq<Member>, m: Member)
    requires NoFileAncestor(before + [m])
    ensures Ancestors(m) !! Files(before)
  {
    assert m in before + [m] && forall n :: n in before ==> n in before + [m];
  }

  lemma FilesAppend(before: seq<Member>, m: Member)
    ensures Files(before + [m]) == Files(before) + if m.kind.File? then {Canonical(m)} else {}
  {
    assert m in before + [m] && forall n :: n in before ==> n in before + [m];
  }

  lemma EarlierDiffers(before: seq<Member>, m: Member, n: Member)
    requires DistinctPaths(before + [m]) && n in before
    ensures Canonical(n) != Canonical(m)
  {
    hide Canonical;
    var i :| 0 <= i < |before| && before[i] == n;
    assert (before + [m])[i] == n && (before + [m])[|before|] == m;
  }

  /** A new member's own path is no recorded file, and no recorded path at all if it is a file itself. */
  lemma PathIsNew(before: seq<Member>, m: Member)
    requires DistinctPaths(before + [m]) && NoFileAncestor(before + [m]) && Extractable(before + [m])
    ensures Canonical(m) !in Files(before)
    ensures m.kind.File? ==> Canonical(m) !in AllPrefixes(before) + Ancestors(m)
  {
    hide Parts, Join, Canonical, Prefixes, Ancestors, DistinctPaths;
    assert m in before + [m] && forall n :: n in before ==> n in before + [m];
    forall n | n in before ensures Canonical(n) != Canonical(m) && (m.kind.File? ==> Canonical(m) !in Prefixes(n)) {
      EarlierDiffers(before, m, n);
      UpperAll(n);
    }
  }

  // ---------------------------------------------------------------------------------------------
  // Any order

  lemma {:induction false} ExtractsAll(members: seq<Member>, text: Text)
    requires Extractable(members) && DistinctPaths(members) && NoFileAncestor(members)
    requires NoAlias(AllPrefixes(members), text)
    ensures ExtractAll(members, text).Some?
    ensures Holds(ExtractAll(members, text).value, AllPrefixes(members), Files(members), text)
  {
    hide Canonical, NoAlias, Holds, Extract, Ancestors, Prefixes;
    if members == [] {
      HoldsNothing(text);
    } else {
      var init, m := members[..|members| - 1], members[|members| - 1];
      assert members == init + [m];
      AllPrefixesTake(members, |members| - 1);
      NoAliasSubset(AllPrefixes(init), AllPrefixes(members), text);
      ExtractsAll(init, text);
      Extracts(ExtractAll(init, text).value, init, m, text);
    }
  }

  lemma HoldsNothing(text: Text)
    ensures Holds(map[], AllPrefixes([]), Files([]), text)
  {
  }

  lemma PermutedDistinct(members: seq<Member>, order: seq<Member>)
    requires DistinctPaths(members) && multiset(order) == multiset(members)
    ensures DistinctPaths(order)
  {
    hide Canonical;
    var path := (m: Member) => Canonical(m);
    assert NoDuplicates(Image(members, path));
    ImagePermutes(members, order, path);
    PermutedNoDuplicates(Image(members, path), Image(order, path));
    assert forall i :: 0 <= i < |order| ==> Image(order, path)[i] == Canonical(order[i]);
  }

  /**
   * Extracting an accepted archive in any order, into a tree that folds case, never goes through a file
   * and never replaces an entry: in the end every member is there under its own name and kind.
   */
  lemma ExtractInAnyOrder(members: seq<Member>, order: seq<Member>, text: Text)
    requires Acceptable(members, text) && multiset(order) == multiset(members)
    requires forall m :: m in order ==> Parts(m.name) != []
    ensures ExtractAll(order, text).Some?
    ensures var tree := ExtractAll(order, text).value;
            forall m :: m in members ==>
              && text.Alias(Canonical(m)) in tree
              && tree[text.Alias(Canonical(m))] == Entry(Canonical(m), m.kind.Directory?)
  {
    hide Canonical, NoAlias, InBounds, Parts, ExtractAll, Files, AllPrefixes, DistinctPaths, NoFileAncestor, Sound,
      Extractable;
    SameMemberSets(members, order);
    PermutedDistinct(members, order);
    SoundIsExtractable(members, text);
    ExtractsAll(order, text);
    forall m | m in members
      ensures var tree := ExtractAll(order, text).value;
              && text.Alias(Canonical(m)) in tree
              && tree[text.Alias(Canonical(m))] == Entry(Canonical(m), m.kind.Directory?)
    {
      MemberIsHeld(ExtractAll(order, text).value, order, m, text);
    }
  }

  lemma SameMemberSets(members: seq<Member>, order: seq<Member>)
    requires multiset(order) == multiset(members)
    ensures forall m :: m in order <==> m in members
    ensures Extractable(members) ==> Extractable(order)
    ensures AllPrefixes(order) == AllPrefixes(members)
    ensures NoFileAncestor(members) ==> NoFileAncestor(order)
  {
    hide Canonical, Ancestors, Prefixes, Parts;
    assert forall m :: m in order <==> m in multiset(order);
    assert forall m :: m in members <==> m in multiset(members);
  }

  lemma SoundIsExtractable(members: seq<Member>, text: Text)
    requires forall m :: m in members ==> Sound(m, text)
    ensures Extractable(members)
  {
  }

  lemma MemberIsHeld(tree: Tree, members: seq<Member>, m: Member, text: Text)
    requires Holds(tree, AllPrefixes(members), Files(members), text) && Extractable(members) && m in members
    requires DistinctPaths(members)
    ensures text.Alias(Canonical(m)) in tree
    ensures tree[text.Alias(Canonical(m))] == Entry(Canonical(m), m.kind.Directory?)
  {
    hide Canonical, Ancestors, Prefixes, Parts;
    UpperAll(m);
    assert Canonical(m) in AllPrefixes(members);
    assert Canonical(m) in Files(members) <==> m.kind.File?;
  }
}
