/** The bootstrap-token saga (lab.py): parse one bounded record, join the workers, revoke the token. */
module JoinTokens {
  import opened Wrappers
  import opened Identifiers
  import opened Providers

  const MAX_JOIN_MATERIAL: int := 512

  /** Six and sixteen lower-case letters or digits around a full stop. */
  predicate IsToken(s: string) {
    |s| == 23 && s[6] == '.' && forall i :: 0 <= i < 23 && i != 6 ==> IsLowerOrDigit(s[i])
  }

  predicate IsCaHash(s: string) {
    |s| == 71 && s[..7] == "sha256:" && IsSha256(s[7..])
  }

  predicate IsAscii(s: string) {
    forall i :: 0 <= i < |s| ==> (s[i] as int) < 128
  }

  // ---------------------------------------------------------------------------------------------
  // Lines

  /** The characters that end a line for `str.splitlines`; a CR LF pair ends one line. */
  predicate IsBreak(c: char) {
    var n := c as int;
    10 <= n <= 13 || 28 <= n <= 30 || n == 0x85 || n == 0x2028 || n == 0x2029
  }

  predicate Unbroken(line: string) {
    forall i :: 0 <= i < |line| ==> !IsBreak(line[i])
  }

  /** The length of the first line. */
  function LineLength(s: string): (n: nat)
    ensures n <= |s| && Unbroken(s[..n]) && (n < |s| ==> IsBreak(s[n]))
  {
    if s == [] || IsBreak(s[0]) then 0
    else
      assert forall i :: 0 < i < 1 + LineLength(s[1..]) ==> s[i] == s[1..][i - 1];
      1 + LineLength(s[1..])
  }

  function SplitLines(s: string): seq<string> {
    if s == [] then []
    else
      var n := LineLength(s);
      if n == |s| then [s]
      else if s[n] == '\r' && n + 1 < |s| && s[n + 1] == '\n' then [s[..n]] + SplitLines(s[n + 2..])
      else [s[..n]] + SplitLines(s[n + 1..])
  }

  /** The lines with the given ends after them. */
  function Rejoined(lines: seq<string>, ends: seq<string>): string
    requires |lines| == |ends|
  {
    if lines == [] then "" else lines[0] + ends[0] + Rejoined(lines[1..], ends[1..])
  }

  /** A line break, where CR LF is one; only the last line may go without. */
  predicate IsEnd(end: string) {
    end == "\r\n" || (|end| == 1 && IsBreak(end[0]))
  }

  /** Unbroken lines with a line break after each, except perhaps the last, and no CR LF pair taken apart. */
  ghost predicate Broken(lines: seq<string>, ends: seq<string>) {
    && |lines| == |ends|
    && (forall i :: 0 <= i < |lines| ==> Unbroken(lines[i]))
    && (forall i :: 0 <= i < |ends| ==> IsEnd(ends[i]) || (i == |ends| - 1 && ends[i] == "" && lines[i] != ""))
    && (forall i :: 0 <= i < |ends| - 1 && ends[i] == "\r" ==> !("\n" <= lines[i + 1] + ends[i + 1]))
  }

  lemma BrokenMore(line: string, end: string, lines: seq<string>, ends: seq<string>)
    requires Broken(lines, ends) && Unbroken(line) && IsEnd(end)
    requires end == "\r" && lines != [] ==> !("\n" <= lines[0] + ends[0])
    ensures Broken([line] + lines, [end] + ends)
    ensures Rejoined([line] + lines, [end] + ends) == line + end + Rejoined(lines, ends)
  {
    hide Unbroken, IsEnd;
    assert ([line] + lines)[1..] == lines && ([end] + ends)[1..] == ends;
  }

  /** Splitting loses nothing, breaks at every line break, and never inside a CR LF pair. */
  lemma {:induction false} SplitLinesExact(s: string) returns (ends: seq<string>)
    ensures Broken(SplitLines(s), ends) && Rejoined(SplitLines(s), ends) == s
  {
    hide Broken, Unbroken, Rejoined, LineLength, IsBreak;
    if s == [] {
      ends := [];
      NothingBroken();
    } else {
      var n := LineLength(s);
      if n == |s| {
        ends := [""];
        assert s[..n] == s;
        OneLine(s);
      } else {
        var width := if s[n] == '\r' && n + 1 < |s| && s[n + 1] == '\n' then 2 else 1;
        var rest := s[n + width..];
        var more := SplitLinesExact(rest);
        ends := [s[n..n + width]] + more;
        assert s == s[..n] + s[n..n + width] + rest;
        FirstOf(SplitLines(rest), more, rest);
        BrokenMore(s[..n], s[n..n + width], SplitLines(rest), more);
      }
    }
  }

  lemma NothingBroken()
    ensures Broken([], []) && Rejoined([], []) == ""
  {
  }

  lemma OneLine(s: string)
    requires s != "" && Unbroken(s)
    ensures Broken([s], [""]) && Rejoined([s], [""]) == s
  {
    assert [s][1..] == [];
  }

  lemma FirstOf(lines: seq<string>, ends: seq<string>, s: string)
    requires Broken(lines, ends) && Rejoined(lines, ends) == s
    ensures |lines| == |ends|
    ensures lines != [] ==> lines[0] + ends[0] <= s && (("\n" <= lines[0] + ends[0]) ==> "\n" <= s)
  {
  }

  /** `str.split("\n")`: one piece more than there are newlines. */
  function Split(s: string): (pieces: seq<string>)
    ensures pieces != []
  {
    if s == [] then [""]
    else
      var rest := Split(s[1..]);
      if s[0] == '\n' then [""] + rest else [[s[0]] + rest[0]] + rest[1..]
  }

  /** The lines with a newline after each. */
  function Terminated(lines: seq<string>): string {
    if lines == [] then "" else lines[0] + "\n" + Terminated(lines[1..])
  }

  lemma {:induction false} SplitLine(line: string, rest: string)
    requires forall i :: 0 <= i < |line| ==> line[i] != '\n'
    ensures Split(line + "\n" + rest) == [line] + Split(rest)
  {
    var s := line + "\n" + rest;
    if line == [] {
      assert s[1..] == rest;
    } else {
      SplitLine(line[1..], rest);
      assert s[1..] == line[1..] + "\n" + rest;
      assert [line[0]] + line[1..] == line;
    }
  }

  /** Splitting terminated lines gives them back, with an empty piece after the last newline. */
  lemma {:induction false} SplitTerminated(lines: seq<string>)
    requires forall line :: line in lines ==> forall i :: 0 <= i < |line| ==> line[i] != '\n'
    ensures Split(Terminated(lines)) == lines + [""]
  {
    if lines != [] {
      SplitTerminated(lines[1..]);
      SplitLine(lines[0], Terminated(lines[1..]));
      assert lines + [""] == [lines[0]] + (lines[1..] + [""]);
    }
  }

  /** A text whose last piece is empty is the termination of its other pieces. */
  lemma {:induction false} TerminatedSplit(s: string)
    requires Split(s)[|Split(s)| - 1] == ""
    ensures Terminated(Split(s)[..|Split(s)| - 1]) == s
  {
    if s != [] {
      var pieces, rest := Split(s), Split(s[1..]);
      if s[0] == '\n' {
        TerminatedSplit(s[1..]);
        assert pieces[..|pieces| - 1] == [""] + rest[..|rest| - 1];
      } else {
        assert |rest| > 1;
        TerminatedSplit(s[1..]);
        assert pieces[..|pieces| - 1] == [[s[0]] + rest[0]] + rest[1..|rest| - 1];
        assert rest[..|rest| - 1] == [rest[0]] + rest[1..|rest| - 1];
      }
      assert s == [s[0]] + s[1..];
    }
  }

  lemma {:induction false} LineEnds(line: string, rest: string)
    requires Unbroken(line)
    ensures LineLength(line + "\n" + rest) == |line|
  {
    var s := line + "\n" + rest;
    if line != [] {
      LineEnds(line[1..], rest);
      assert s[1..] == line[1..] + "\n" + rest;
    }
  }

  lemma {:induction false} SplitLinesTerminated(lines: seq<string>)
    requires forall line :: line in lines ==> Unbroken(line)
    ensures SplitLines(Terminated(lines)) == lines
  {
    if lines != [] {
      SplitLinesTerminated(lines[1..]);
      LineEnds(lines[0], Terminated(lines[1..]));
      var s := Terminated(lines);
      assert s[|lines[0]|] == '\n' && s[..|lines[0]|] == lines[0];
      assert s[|lines[0]| + 1..] == Terminated(lines[1..]);
    }
  }

  // ---------------------------------------------------------------------------------------------
  // The record

  datatype JoinMaterial = JoinMaterial(payload: string, token: string, caHash: string)

  const ENDPOINT_KEY := "CONTROL_PLANE_ENDPOINT="
  const TOKEN_KEY := "BOOTSTRAP_TOKEN="
  const CA_HASH_KEY := "DISCOVERY_TOKEN_CA_CERT_HASH="
  const SOCKET_KEY := "CRI_SOCKET="
  const CRI_SOCKET := "unix:///run/containerd/containerd.sock"

  function Endpoint(controlPlane: Handle): string {
    controlPlane.value + ":6443"
  }

  function RecordLines(endpoint: string, token: string, caHash: string): seq<string> {
    [ENDPOINT_KEY + endpoint, TOKEN_KEY + token, CA_HASH_KEY + caHash, SOCKET_KEY + CRI_SOCKET]
  }

  /** The only text that the control plane may emit for an endpoint, a token and a certificate hash. */
  function Render(endpoint: string, token: string, caHash: string): string {
    Terminated(RecordLines(endpoint, token, caHash))
  }

  /** The token on the first line that names a well-formed one. */
  function FirstToken(lines: seq<string>): (t: Option<string>)
    ensures t.Some? ==> IsToken(t.value) && TOKEN_KEY + t.value in lines
    ensures t.None? ==> forall token :: IsToken(token) ==> TOKEN_KEY + token !in lines
  {
    if lines == [] then None
    else
      assert lines == [lines[0]] + lines[1..];
      if TOKEN_KEY <= lines[0] && IsToken(lines[0][|TOKEN_KEY|..]) then
        assert TOKEN_KEY + lines[0][|TOKEN_KEY|..] == lines[0];
        Some(lines[0][|TOKEN_KEY|..])
      else
        assert forall token :: (TOKEN_KEY + token)[|TOKEN_KEY|..] == token;
        FirstToken(lines[1..])
  }

  /** No line before the one with the found token names a well-formed one. */
  lemma {:induction false} FirstTokenIsFirst(lines: seq<string>) returns (k: nat)
    requires FirstToken(lines).Some?
    ensures k < |lines| && lines[k] == TOKEN_KEY + FirstToken(lines).value
    ensures forall j, token :: 0 <= j < k && IsToken(token) ==> lines[j] != TOKEN_KEY + token
  {
    hide IsToken;
    if TOKEN_KEY <= lines[0] && IsToken(lines[0][|TOKEN_KEY|..]) {
      k := 0;
    } else {
      assert forall token :: (TOKEN_KEY + token)[|TOKEN_KEY|..] == token;
      var rest := FirstTokenIsFirst(lines[1..]);
      k := rest + 1;
      forall j, token | 0 <= j < k && IsToken(token) ensures lines[j] != TOKEN_KEY + token {
        if j > 0 {
          assert lines[j] == lines[1..][j - 1];
        }
      }
    }
  }

  function RevocableToken(stdout: string): Option<string> {
    FirstToken(SplitLines(stdout))
  }

  function After(key: string, line: string): Option<string> {
    if key <= line then Some(line[|key|..]) else None
  }

  /** Parse one bounded join record, refusing everything but the exact expected text. */
  function Parse(controlPlane: Handle, stdout: string): Result<JoinMaterial> {
    if !IsAscii(stdout) then Err(Lifecycle)
    else if stdout == "" || |stdout| > MAX_JOIN_MATERIAL then Err(Lifecycle)
    else if stdout[|stdout| - 1] != '\n' || '\r' in stdout || '\0' in stdout then Err(Lifecycle)
    else
      var pieces := Split(stdout);
      if pieces[|pieces| - 1] != "" then Err(Lifecycle)
      else
        var lines := pieces[..|pieces| - 1];
        if |lines| != 4 then Err(Lifecycle)
        else
          var endpoint, token := After(ENDPOINT_KEY, lines[0]), After(TOKEN_KEY, lines[1]);
          var caHash, socket := After(CA_HASH_KEY, lines[2]), After(SOCKET_KEY, lines[3]);
          if endpoint.None? || token.None? || caHash.None? || socket.None? then Err(Lifecycle)
          else if endpoint.value != Endpoint(controlPlane) then Err(Lifecycle)
          else if !IsToken(token.value) then Err(Lifecycle)
          else if !IsCaHash(caHash.value) then Err(Lifecycle)
          else if socket.value != CRI_SOCKET then Err(Lifecycle)
          else Ok(JoinMaterial(Terminated(lines), token.value, caHash.value))
  }

  /** Printable ASCII without spaces, as every line of the record is. */
  predicate Plain(line: string) {
    forall i :: 0 <= i < |line| ==> '!' <= line[i] <= '~'
  }

  lemma PlainLines(lines: seq<string>)
    requires forall line :: line in lines ==> Plain(line)
    ensures forall line :: line in lines ==> Unbroken(line)
    ensures forall line :: line in lines ==> forall i :: 0 <= i < |line| ==> line[i] != '\n'
  {
  }

  lemma RenderedLines(controlPlane: Handle, token: string, caHash: string)
    requires ValidHandle(controlPlane) && IsToken(token) && IsCaHash(caHash)
    ensures forall line :: line in RecordLines(Endpoint(controlPlane), token, caHash) ==> Plain(line)
  {
    hide Plain, IsToken, IsCaHash, ValidHandle;
    TokenText(token);
    HashText(caHash);
    EndpointText(controlPlane);
    SocketText();
  }

  lemma TokenText(token: string)
    requires IsToken(token)
    ensures Plain(TOKEN_KEY + token)
  {
  }

  lemma HashText(caHash: string)
    requires IsCaHash(caHash)
    ensures Plain(CA_HASH_KEY + caHash)
  {
    assert caHash == caHash[..7] + caHash[7..];
  }

  lemma EndpointText(controlPlane: Handle)
    requires ValidHandle(controlPlane)
    ensures Plain(ENDPOINT_KEY + Endpoint(controlPlane))
  {
  }

  lemma SocketText()
    ensures Plain(SOCKET_KEY + CRI_SOCKET)
  {
  }

  lemma {:induction false} PlainTerminated(lines: seq<string>)
    requires forall line :: line in lines ==> Plain(line)
    ensures forall c :: c in Terminated(lines) ==> c == '\n' || '!' <= c <= '~'
    ensures lines != [] ==> Terminated(lines) != "" && Terminated(lines)[|Terminated(lines)| - 1] == '\n'
  {
    if lines != [] {
      PlainTerminated(lines[1..]);
      assert Plain(lines[0]);
    }
  }

  lemma FourTerminated(a: string, b: string, c: string, d: string)
    ensures |Terminated([a, b, c, d])| == |a| + |b| + |c| + |d| + 4
  {
    assert [a, b, c, d][1..] == [b, c, d] && [b, c, d][1..] == [c, d] && [c, d][1..] == [d] && [d][1..] == [];
    assert |Terminated([d])| == |d| + 1;
    assert |Terminated([c, d])| == |c| + |d| + 2;
    assert |Terminated([b, c, d])| == |b| + |c| + |d| + 3;
  }

  lemma RenderedSize(controlPlane: Handle, token: string, caHash: string)
    requires ValidHandle(controlPlane) && IsToken(token) && IsCaHash(caHash)
    ensures |Render(Endpoint(controlPlane), token, caHash)| <= MAX_JOIN_MATERIAL
  {
    hide Terminated;
    var lines := RecordLines(Endpoint(controlPlane), token, caHash);
    FourTerminated(lines[0], lines[1], lines[2], lines[3]);
  }

  lemma PlainText(s: string)
    requires forall c :: c in s ==> c == '\n' || '!' <= c <= '~'
    ensures IsAscii(s) && '\r' !in s && '\0' !in s
  {
    assert forall i :: 0 <= i < |s| ==> s[i] in s;
  }

  lemma RenderedPayload(controlPlane: Handle, token: string, caHash: string)
    requires ValidHandle(controlPlane) && IsToken(token) && IsCaHash(caHash)
    ensures var s := Render(Endpoint(controlPlane), token, caHash);
            && IsAscii(s) && s != "" && |s| <= MAX_JOIN_MATERIAL && s[|s| - 1] == '\n'
            && '\r' !in s && '\0' !in s
            && Split(s) == RecordLines(Endpoint(controlPlane), token, caHash) + [""]
            && SplitLines(s) == RecordLines(Endpoint(controlPlane), token, caHash)
  {
    hide Plain, Split, SplitLines, Terminated, IsAscii, IsToken, IsCaHash, ValidHandle;
    var lines := RecordLines(Endpoint(controlPlane), token, caHash);
    RenderedLines(controlPlane, token, caHash);
    RenderedSize(controlPlane, token, caHash);
    PlainLines(lines);
    PlainTerminated(lines);
    PlainText(Terminated(lines));
    SplitTerminated(lines);
    SplitLinesTerminated(lines);
  }

  lemma ParsedIsRendered(controlPlane: Handle, stdout: string)
    requires Parse(controlPlane, stdout).Ok?
    ensures var m := Parse(controlPlane, stdout).value;
            && IsToken(m.token) && IsCaHash(m.caHash)
            && stdout == m.payload == Render(Endpoint(controlPlane), m.token, m.caHash)
  {
    hide IsToken, IsCaHash, IsAscii, Split, Terminated;
    var m := Parse(controlPlane, stdout).value;
    TerminatedSplit(stdout);
    var lines, record := Split(stdout)[..4], RecordLines(Endpoint(controlPlane), m.token, m.caHash);
    assert lines[0] == record[0] && lines[1] == record[1] && lines[2] == record[2] && lines[3] == record[3];
    assert lines == record;
  }

  lemma RenderedIsParsed(controlPlane: Handle, token: string, caHash: string)
    requires ValidHandle(controlPlane) && IsToken(token) && IsCaHash(caHash)
    ensures var s := Render(Endpoint(controlPlane), token, caHash);
            Parse(controlPlane, s) == Ok(JoinMaterial(s, token, caHash))
  {
    hide IsToken, IsCaHash, IsAscii, ValidHandle, Split, SplitLines, Terminated;
    RenderedPayload(controlPlane, token, caHash);
    var lines := RecordLines(Endpoint(controlPlane), token, caHash);
    assert (lines + [""])[..4] == lines;
    AfterKey(ENDPOINT_KEY, Endpoint(controlPlane));
    AfterKey(TOKEN_KEY, token);
    AfterKey(CA_HASH_KEY, caHash);
    AfterKey(SOCKET_KEY, CRI_SOCKET);
  }

  /**
   * A record is accepted exactly when it is the rendering of some token and certificate hash for this
   * control plane; the canonical payload is then the record itself, byte for byte.
   */
  lemma ParseExact(controlPlane: Handle, stdout: string, m: JoinMaterial)
    requires ValidHandle(controlPlane)
    ensures Parse(controlPlane, stdout) == Ok(m)
       <==> && IsToken(m.token) && IsCaHash(m.caHash)
            && stdout == m.payload == Render(Endpoint(controlPlane), m.token, m.caHash)
  {
    hide IsToken, IsCaHash, ValidHandle, Parse, Render;
    if Parse(controlPlane, stdout) == Ok(m) {
      ParsedIsRendered(controlPlane, stdout);
    }
    if IsToken(m.token) && IsCaHash(m.caHash) {
      RenderedIsParsed(controlPlane, m.token, m.caHash);
    }
  }

  lemma AfterKey(key: string, value: string)
    ensures After(key, key + value) == Some(value)
  {
    assert (key + value)[|key|..] == value;
  }

  /** The token that is revoked after a failure is the one that a successful parse would have used. */
  lemma ParsedTokenIsRevocable(controlPlane: Handle, stdout: string)
    requires ValidHandle(controlPlane) && Parse(controlPlane, stdout).Ok?
    ensures RevocableToken(stdout) == Some(Parse(controlPlane, stdout).value.token)
  {
    hide IsAscii, ValidHandle, SplitLines, Parse;
    var m := Parse(controlPlane, stdout).value;
    ParseExact(controlPlane, stdout, m);
    RenderedPayload(controlPlane, m.token, m.caHash);
    var lines := RecordLines(Endpoint(controlPlane), m.token, m.caHash);
    assert lines[1][|TOKEN_KEY|..] == m.token;
    assert FirstToken(lines) == FirstToken(lines[1..]) by {
      assert lines[0][0] == 'C' && TOKEN_KEY[0] == 'B';
    }
    assert lines[1..][0] == lines[1];
  }

  // ---------------------------------------------------------------------------------------------
  // Joining

  datatype Event = Generated(stdout: string) | Joining(role: Role, payload: string) | Revoking(token: string)

  /** The guests: every command is logged when it is issued; it then succeeds, raises, or dies. */
  class Cluster {
    var log: seq<Event>
    // The join and revoke commands that raised.
    var joinFailures: nat
    var revokeFailures: nat

    constructor ()
      ensures log == [] && joinFailures == 0 && revokeFailures == 0
    {
      log := [];
      joinFailures := 0;
      revokeFailures := 0;
    }

    method Generate() returns (o: Outcome<string>)
      modifies this`log
      ensures log == old(log) + if o.Returned? then [Generated(o.value)] else []
    {
      o := *;
      if o.Returned? {
        log := log + [Generated(o.value)];
      }
    }

    method Join(role: Role, payload: string) returns (o: Outcome<()>)
      modifies this`log, this`joinFailures
      ensures log == old(log) + [Joining(role, payload)]
      ensures joinFailures == old(joinFailures) + if o.Raised? then 1 else 0
    {
      log := log + [Joining(role, payload)];
      o := *;
      if o.Raised? {
        joinFailures := joinFailures + 1;
      }
    }

    method Revoke(token: string) returns (o: Outcome<()>)
      modifies this`log, this`revokeFailures
      ensures log == old(log) + [Revoking(token)]
      ensures revokeFailures == old(revokeFailures) + if o.Raised? then 1 else 0
    {
      log := log + [Revoking(token)];
      o := *;
      if o.Raised? {
        revokeFailures := revokeFailures + 1;
      }
    }
  }

  const WORKERS: seq<Role> := [Worker1, Worker2]

  /** The join commands for both workers, with one payload. */
  function Joins(payload: string): seq<Event> {
    [Joining(Worker1, payload), Joining(Worker2, payload)]
  }

  /** The single revocation of the token that a generated text names, if it names one. */
  function Revocation(stdout: string): seq<Event> {
    var token := RevocableToken(stdout);
    if token.Some? then [Revoking(token.value)] else []
  }

  /** The commands that a run issues after the generation: joins of the exact record, then the revocation. */
  ghost predicate JoinedThenRevoked(controlPlane: Handle, stdout: string, joins: nat, events: seq<Event>) {
    && joins <= 2
    && (joins > 0 ==> Parse(controlPlane, stdout).Ok?)
    && events == Joins(stdout)[..joins] + Revocation(stdout)
  }

  /** The join part: parse, then join the workers until one fails. */
  method JoinAll(controlPlane: Handle, stdout: string, cluster: Cluster) returns (o: Outcome<()>, ghost joins: nat)
    requires ValidHandle(controlPlane)
    modifies cluster`log, cluster`joinFailures
    ensures joins <= 2 && cluster.log == old(cluster.log) + Joins(stdout)[..joins]
    ensures joins > 0 ==> Parse(controlPlane, stdout).Ok?
    ensures cluster.joinFailures >= old(cluster.joinFailures)
    ensures o.Returned? ==> joins == 2 && cluster.joinFailures == old(cluster.joinFailures)
    ensures o.Raised? ==> Parse(controlPlane, stdout).Err? || cluster.joinFailures > old(cluster.joinFailures)
  {
    hide Parse;
    var material := Parse(controlPlane, stdout);
    joins := 0;
    if material.Err? {
      o := Raised(material.error);
      return;
    }
    ParseExact(controlPlane, stdout, material.value);
    var payload := material.value.payload;
    var i := 0;
    while i < |WORKERS|
      invariant i == joins <= 2
      invariant cluster.log == old(cluster.log) + Joins(payload)[..i]
      invariant cluster.joinFailures == old(cluster.joinFailures)
    {
      assert Joins(payload)[..i + 1] == Joins(payload)[..i] + [Joining(WORKERS[i], payload)];
      o := cluster.Join(WORKERS[i], payload);
      joins := joins + 1;
      if !o.Returned? {
        return;
      }
      i := i + 1;
    }
    o := Returned(());
  }

  /**
   * Join the workers with a short-lived token. Unless the process dies, a named token is revoked once,
   * after the last join, whatever happened before; and no failure of any command is swallowed.
   */
  method JoinWorkers(controlPlane: Handle, cluster: Cluster)
    returns (o: Outcome<()>, ghost stdout: Option<string>, ghost joins: nat)
    requires ValidHandle(controlPlane)
    modifies cluster
    ensures stdout.None? ==> !o.Returned? && cluster.log == old(cluster.log)
    ensures stdout.Some? && !o.Crashed? ==>
              exists events ::
                && JoinedThenRevoked(controlPlane, stdout.value, joins, events)
                && cluster.log == old(cluster.log) + [Generated(stdout.value)] + events
    ensures o.Returned? ==> joins == 2 && RevocableToken(stdout.value).Some?
    ensures stdout.Some? && !o.Crashed? ==>
              (o.Returned? <==>
                && Parse(controlPlane, stdout.value).Ok?
                && cluster.joinFailures == old(cluster.joinFailures)
                && cluster.revokeFailures == old(cluster.revokeFailures))
  {
    hide Parse, IsToken, SplitLines, FirstToken;
    stdout, joins := None, 0;
    var generated := cluster.Generate();
    if !generated.Returned? {
      o := if generated.Crashed? then Crashed else Raised(generated.error);
      return;
    }
    stdout := Some(generated.value);
    var token := RevocableToken(generated.value);
    var joined;
    joined, joins := JoinAll(controlPlane, generated.value, cluster);
    if joined.Crashed? {
      return Crashed, stdout, joins;
    }
    if joined.Returned? {
      ParsedTokenIsRevocable(controlPlane, generated.value);
    }
    var revoked: Outcome<()> := Returned(());
    if token.Some? {
      revoked := cluster.Revoke(token.value);
    }
    ghost var events := Joins(generated.value)[..joins] + Revocation(generated.value);
    assert JoinedThenRevoked(controlPlane, generated.value, joins, events);
    assert cluster.log == old(cluster.log) + [Generated(generated.value)] + events;
    if revoked.Crashed? {
      return Crashed, stdout, joins;
    }
    if joined.Raised? {
      return Raised(if revoked.Raised? then Lifecycle else joined.error), stdout, joins;
    }
    return revoked, stdout, joins;
  }
}
