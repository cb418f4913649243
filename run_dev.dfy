/**
 * The configuration logic of the development runner: reading a `KEY=VALUE`
 * env file, validating a port, choosing the database URL from the shell
 * environment and backend/.env, and picking two distinct free ports.
 * Whether a port can be listened on is an oracle `canListen`; whether a text
 * parses as a URL, and with which protocol, is an oracle `protocolOf`.
 */
module RunDev {
  import opened JsText
  import opened JsValues

  const DEFAULT_BACKEND_PORT: int := 5001
  const DEFAULT_FRONTEND_PORT: int := 3000
  const MAX_PORT_ATTEMPTS: nat := 25
  const DATABASE_ENV_KEYS: seq<string> := [
    "DATABASE_URL",
    "POSTGRES_URL",
    "POSTGRES_PRISMA_URL",
    "POSTGRES_URL_NON_POOLING",
    "POSTGRESQL_URL",
    "NEON_DATABASE_URL"
  ]

  // ---------------------------------------------------------------------------
  // parseEnvFile

  /** Splits text into lines as `split(/\r?\n/)` does: at each "\n", dropping one "\r" right before it. */
  function SplitLines(text: string): (lines: seq<string>)
    ensures |lines| >= 1
    decreases |text|
  {
    var i := IndexOf(text, '\n');
    if i < 0 then [text]
    else
      var piece := text[..i];
      var line := if piece != [] && piece[|piece| - 1] == '\r' then piece[..|piece| - 1] else piece;
      [line] + SplitLines(text[i + 1..])
  }

  datatype Entry = Entry(key: string, value: string)

  /**
   * What one line of an env file contributes: nothing for a blank line, a
   * comment, a line without "=" or a line with an empty key; otherwise the
   * trimmed text before the first "=" as key and the trimmed rest as value.
   */
  function LineEntry(rawLine: string): (r: Option<Entry>)
    ensures Trim(rawLine) == [] || Trim(rawLine)[0] == '#' || '=' !in Trim(rawLine) ==> r == None
    ensures r.Some? ==> r.value.key != [] && Unpadded(r.value.key) && Unpadded(r.value.value)
    ensures r.Some? ==> '=' !in r.value.key && r.value.key[0] != '#'
  {
    var line := Trim(rawLine);
    if line == [] || line[0] == '#' then None
    else
      var separatorIndex := IndexOf(line, '=');
      if separatorIndex < 0 then None
      else
        var key := Trim(line[..separatorIndex]);
        var value := Trim(line[separatorIndex + 1..]);
        if key == [] then None
        else
          assert key[0] == line[0] by {
            assert line[..separatorIndex][0] == line[0];
            TrimKeepsFirst(line[..separatorIndex]);
          }
          assert '=' !in key by {
            KeyHasNoSeparator(line[..separatorIndex]);
          }
          Some(Entry(key, value))
  }

  /** Trimming never adds a character. */
  lemma KeyHasNoSeparator(s: string)
    requires '=' !in s
    ensures '=' !in Trim(s)
  {
    var e := TrimEnd(s);
    TrimEndPrefix(s);
    TrimStartSuffix(e);
    assert forall c :: c in e ==> c in s;
    assert forall c :: c in TrimStart(e) ==> c in e;
  }

  /** The dictionary built by applying `entries` from first to last; a later entry overwrites an earlier one. */
  function Collect(entries: seq<Option<Entry>>): map<string, string>
  {
    if entries == [] then map[]
    else
      var m := Collect(entries[..|entries| - 1]);
      match entries[|entries| - 1]
      case None => m
      case Some(e) => m[e.key := e.value]
  }

  /** What each line of a file contributes, in order. */
  function LineEntries(lines: seq<string>): (entries: seq<Option<Entry>>)
    ensures |entries| == |lines|
  {
    if lines == [] then [] else LineEntries(lines[..|lines| - 1]) + [LineEntry(lines[|lines| - 1])]
  }

  /** Entry `i` is what line `i` contributes. */
  lemma {:induction false} LineEntriesAt(lines: seq<string>, i: nat)
    requires i < |lines|
    ensures LineEntries(lines)[i] == LineEntry(lines[i])
  {
    if i < |lines| - 1 {
      var init := lines[..|lines| - 1];
      LineEntriesAt(init, i);
    }
  }

  /** Reading one more line appends that line's entry. */
  lemma LineEntriesSnoc(lines: seq<string>, i: nat)
    requires i < |lines|
    ensures LineEntries(lines[..i + 1]) == LineEntries(lines[..i]) + [LineEntry(lines[i])]
  {
    assert lines[..i + 1][..i] == lines[..i];
  }

  /** The dictionary the lines of an env file define. */
  function EnvOf(lines: seq<string>): map<string, string>
  {
    Collect(LineEntries(lines))
  }

  /** `parseEnvFile(rawText)`; `LineEntry` is the body of its loop. */
  method ParseEnvFile(rawText: string) returns (result: map<string, string>)
    ensures result == EnvOf(SplitLines(rawText))
  {
    result := map[];
    var lines := SplitLines(rawText);
    for i := 0 to |lines|
      invariant result == Collect(LineEntries(lines[..i]))
    {
      ghost var before := LineEntries(lines[..i]);
      var entry := LineEntry(lines[i]);
      LineEntriesSnoc(lines, i);
      assert (before + [entry])[..i] == before;
      if entry.Some? {
        result := result[entry.value.key := entry.value.value];
      }
    }
    assert lines[..|lines|] == lines;
  }

  /** A key is defined exactly when some entry sets it. */
  lemma {:induction false} CollectKeys(entries: seq<Option<Entry>>, key: string)
    ensures key in Collect(entries) <==>
      exists i :: 0 <= i < |entries| && entries[i].Some? && entries[i].value.key == key
  {
    if entries != [] {
      var init := entries[..|entries| - 1];
      CollectKeys(init, key);
      assert forall i :: 0 <= i < |init| ==> entries[i] == init[i];
    }
  }

  /** For a repeated key the last entry that sets it wins. */
  lemma {:induction false} LastOccurrenceWins(entries: seq<Option<Entry>>, i: nat)
    requires i < |entries| && entries[i].Some?
    requires forall j :: i < j < |entries| ==> entries[j].None? || entries[j].value.key != entries[i].value.key
    ensures entries[i].value.key in Collect(entries) && Collect(entries)[entries[i].value.key] == entries[i].value.value
  {
    if i < |entries| - 1 {
      var init := entries[..|entries| - 1];
      assert init[i] == entries[i];
      forall j | i < j < |init| ensures init[j].None? || init[j].value.key != init[i].value.key {
        assert init[j] == entries[j];
      }
      LastOccurrenceWins(init, i);
    }
  }

  /** A key is in the env file's dictionary exactly when some line of the file defines it. */
  lemma EnvOfKeys(lines: seq<string>, key: string)
    ensures key in EnvOf(lines) <==>
      exists i :: 0 <= i < |lines| && LineEntry(lines[i]).Some? && LineEntry(lines[i]).value.key == key
  {
    var entries := LineEntries(lines);
    CollectKeys(entries, key);
    forall i | 0 <= i < |lines| ensures entries[i] == LineEntry(lines[i]) {
      LineEntriesAt(lines, i);
    }
  }

  /**
   * A line written as `key=value`, with a key that is not blank, not a comment
   * and free of "=", and with both parts unpadded, reads back as that entry;
   * the value may itself contain "=".
   */
  lemma FormattedLineReadsBack(key: string, value: string)
    requires key != [] && Unpadded(key) && Unpadded(value)
    requires key[0] != '#' && '=' !in key
    ensures LineEntry(key + "=" + value) == Some(Entry(key, value))
  {
    var line := key + "=" + value;
    assert Unpadded(line) by {
      assert line[0] == key[0];
      if value == [] {
        assert line[|line| - 1] == '=';
      } else {
        assert line[|line| - 1] == value[|value| - 1];
      }
    }
    TrimUnpadded(line);
    assert '=' !in line[..|key|] by {
      assert line[..|key|] == key;
    }
    assert line[|key|] == '=';
    assert IndexOf(line, '=') == |key|;
    assert line[..|key|] == key;
    assert line[|key| + 1..] == value;
    TrimUnpadded(key);
    TrimUnpadded(value);
  }

  // ---------------------------------------------------------------------------
  // parsePort

  /** A TCP port number a server can listen on. */
  predicate IsPort(n: int) {
    0 < n < 65536
  }

  /** `parsePort(value, fallbackPort)`, given what `Number(value)` is. */
  function ParsePort(parsed: JsNumber, fallbackPort: int): (port: int)
    ensures IsInteger(parsed) && IsPort(parsed.value.Floor) ==> port == parsed.value.Floor
    ensures !(IsInteger(parsed) && IsPort(parsed.value.Floor)) ==> port == fallbackPort
  {
    if IsInteger(parsed) && parsed.value > 0.0 && parsed.value < 65536.0 then parsed.value.Floor else fallbackPort
  }

  /** With a valid fallback, the port is always valid; both defaults are valid. */
  lemma ParsePortIsPort(parsed: JsNumber, fallbackPort: int)
    requires IsPort(fallbackPort)
    ensures IsPort(ParsePort(parsed, fallbackPort))
    ensures IsPort(ParsePort(parsed, DEFAULT_BACKEND_PORT)) && IsPort(ParsePort(parsed, DEFAULT_FRONTEND_PORT))
  {
  }

  // ---------------------------------------------------------------------------
  // resolveDatabaseUrl

  /** `String(env[key] || "").trim()` */
  function EnvValue(env: map<string, string>, key: string): string {
    if key in env then Trim(env[key]) else ""
  }

  /** Neither environment gives `key` a non-blank value. */
  predicate Unset(runtimeEnv: map<string, string>, backendEnv: map<string, string>, key: string) {
    EnvValue(runtimeEnv, key) == "" && EnvValue(backendEnv, key) == ""
  }

  /**
   * The first non-blank value found when scanning `keys` in order, looking at
   * the shell environment before backend/.env at each key; "" if there is none.
   */
  function FirstConfigured(keys: seq<string>, runtimeEnv: map<string, string>, backendEnv: map<string, string>): string
  {
    if keys == [] then ""
    else if EnvValue(runtimeEnv, keys[0]) != "" then EnvValue(runtimeEnv, keys[0])
    else if EnvValue(backendEnv, keys[0]) != "" then EnvValue(backendEnv, keys[0])
    else FirstConfigured(keys[1..], runtimeEnv, backendEnv)
  }

  /** Nothing is found exactly when every key is unset in both environments. */
  lemma {:induction false} FirstConfiguredEmpty(keys: seq<string>, runtimeEnv: map<string, string>, backendEnv: map<string, string>)
    ensures FirstConfigured(keys, runtimeEnv, backendEnv) == "" <==>
      forall j :: 0 <= j < |keys| ==> Unset(runtimeEnv, backendEnv, keys[j])
  {
    if keys != [] {
      FirstConfiguredEmpty(keys[1..], runtimeEnv, backendEnv);
      assert forall j :: 1 <= j < |keys| ==> keys[j] == keys[1..][j - 1];
    }
  }

  /**
   * The value found comes from the first key that is set in either
   * environment, and at that key the shell environment takes precedence.
   */
  lemma {:induction false} FirstConfiguredPriority(keys: seq<string>, runtimeEnv: map<string, string>, backendEnv: map<string, string>, i: nat)
    requires i < |keys|
    requires forall j :: 0 <= j < i ==> Unset(runtimeEnv, backendEnv, keys[j])
    requires !Unset(runtimeEnv, backendEnv, keys[i])
    ensures FirstConfigured(keys, runtimeEnv, backendEnv) ==
      if EnvValue(runtimeEnv, keys[i]) != "" then EnvValue(runtimeEnv, keys[i]) else EnvValue(backendEnv, keys[i])
  {
    if i > 0 {
      assert Unset(runtimeEnv, backendEnv, keys[0]);
      forall j | 0 <= j < i - 1 ensures Unset(runtimeEnv, backendEnv, keys[1..][j]) {
        assert keys[1..][j] == keys[j + 1];
      }
      FirstConfiguredPriority(keys[1..], runtimeEnv, backendEnv, i - 1);
    }
  }

  /** Why the runner refuses to start (it exits with status 1). */
  datatype DatabaseUrlError = MissingUrl | UnparsableUrl | UnsupportedProtocol(protocol: string)

  datatype Resolution = Resolved(url: string) | Refused(error: DatabaseUrlError)

  /** `resolveDatabaseUrl(runtimeEnv, backendEnv)`; `protocolOf(u)` is `new URL(u).protocol`, None when it throws. */
  method ResolveDatabaseUrl(runtimeEnv: map<string, string>, backendEnv: map<string, string>, protocolOf: string -> Option<string>)
    returns (r: Resolution)
    ensures var url := FirstConfigured(DATABASE_ENV_KEYS, runtimeEnv, backendEnv);
      && (url == "" ==> r == Refused(MissingUrl))
      && (url != "" && protocolOf(url).None? ==> r == Refused(UnparsableUrl))
      && (url != "" && protocolOf(url).Some? && protocolOf(url).value !in {"postgres:", "postgresql:"} ==>
            r == Refused(UnsupportedProtocol(protocolOf(url).value)))
      && (r.Resolved? <==> url != "" && protocolOf(url).Some? && protocolOf(url).value in {"postgres:", "postgresql:"})
      && (r.Resolved? ==> r.url == url)
  {
    var resolved := "";
    var i := 0;
    while i < |DATABASE_ENV_KEYS|
      invariant 0 <= i <= |DATABASE_ENV_KEYS|
      invariant resolved == ""
      invariant FirstConfigured(DATABASE_ENV_KEYS, runtimeEnv, backendEnv) ==
        FirstConfigured(DATABASE_ENV_KEYS[i..], runtimeEnv, backendEnv)
    {
      var key := DATABASE_ENV_KEYS[i];
      var runtimeValue := EnvValue(runtimeEnv, key);
      if runtimeValue != "" {
        resolved := runtimeValue;
        break;
      }
      var backendValue := EnvValue(backendEnv, key);
      if backendValue != "" {
        resolved := backendValue;
        break;
      }
      assert DATABASE_ENV_KEYS[i..][1..] == DATABASE_ENV_KEYS[i + 1..];
      i := i + 1;
    }
    assert resolved == FirstConfigured(DATABASE_ENV_KEYS, runtimeEnv, backendEnv);

    if resolved == "" {
      return Refused(MissingUrl);
    }
    var protocol := protocolOf(resolved);
    if protocol.None? {
      return Refused(UnparsableUrl);
    }
    if protocol.value != "postgres:" && protocol.value != "postgresql:" {
      return Refused(UnsupportedProtocol(protocol.value));
    }
    return Resolved(resolved);
  }

  // ---------------------------------------------------------------------------
  // findFreePort and the port reservation in main

  /**
   * The port range `listen` accepts (0 asks for any port). For a candidate
   * outside it `probe.listen` throws `ERR_SOCKET_BAD_PORT` inside the promise,
   * so `await canListen(candidate)` rejects and the search aborts.
   */
  predicate ListenablePort(n: int) {
    0 <= n <= 65535
  }

  /** The probe ran on the port and reported it busy. */
  predicate Busy(port: int, canListen: int -> bool) {
    ListenablePort(port) && !canListen(port)
  }

  /** The search passes over a candidate: it is reserved, or the probe found it busy. */
  predicate PassedOver(port: int, usedPorts: set<int>, canListen: int -> bool) {
    port in usedPorts || Busy(port, canListen)
  }

  /** `port` is the first port from `preferredPort` on, within the window, that the probe reports free. */
  predicate FirstFree(port: int, preferredPort: int, canListen: int -> bool) {
    && preferredPort <= port < preferredPort + MAX_PORT_ATTEMPTS
    && ListenablePort(port) && canListen(port)
    && forall p :: preferredPort <= p < port ==> Busy(p, canListen)
  }

  /** The outcome of `findFreePort`: a port, the "Unable to find a free port" error, or the rejected probe of an invalid port. */
  datatype PortSearch = Found(port: int) | Exhausted | InvalidCandidate(candidate: int)

  /** `findFreePort(preferredPort, usedPorts)`. */
  method FindFreePort(preferredPort: int, usedPorts: set<int>, canListen: int -> bool) returns (r: PortSearch)
    ensures r.Found? ==> preferredPort <= r.port < preferredPort + MAX_PORT_ATTEMPTS
    ensures r.Found? ==> r.port !in usedPorts && ListenablePort(r.port) && canListen(r.port)
    ensures r.Found? ==> forall p :: preferredPort <= p < r.port ==> PassedOver(p, usedPorts, canListen)
    ensures r.Exhausted? ==>
      forall p :: preferredPort <= p < preferredPort + MAX_PORT_ATTEMPTS ==> PassedOver(p, usedPorts, canListen)
    ensures r.InvalidCandidate? ==> preferredPort <= r.candidate < preferredPort + MAX_PORT_ATTEMPTS
    ensures r.InvalidCandidate? ==> r.candidate !in usedPorts && !ListenablePort(r.candidate)
    ensures r.InvalidCandidate? ==> forall p :: preferredPort <= p < r.candidate ==> PassedOver(p, usedPorts, canListen)
    ensures IsPort(preferredPort) && preferredPort + MAX_PORT_ATTEMPTS <= 65536 ==> !r.InvalidCandidate?
  {
    for attempt := 0 to MAX_PORT_ATTEMPTS
      invariant forall p :: preferredPort <= p < preferredPort + attempt ==> PassedOver(p, usedPorts, canListen)
    {
      var candidate := preferredPort + attempt;
      if candidate in usedPorts {
        continue;
      }
      if !ListenablePort(candidate) {
        return InvalidCandidate(candidate);
      }
      var free := canListen(candidate);
      if free {
        return Found(candidate);
      }
    }
    return Exhausted;
  }

  /** How the reservation in `main` ends: two ports, or the error `main().catch` reports. */
  datatype PortReservation =
    | Reserved(backendPort: int, frontendPort: int)
    | NoFreePort(startedFrom: int)
    | BadPort(candidate: int)

  /**
   * The reservation in `main`: the backend port is found first and reserved,
   * so the frontend search skips it and the two ports always differ. It fails
   * when a search finds nothing free in its window, or when a search reaches
   * a candidate above 65535 before a free port.
   */
  method ReservePorts(preferredBackendPort: int, preferredFrontendPort: int, canListen: int -> bool)
    returns (r: PortReservation)
    ensures r.Reserved? ==> r.backendPort != r.frontendPort
    ensures r.Reserved? ==> FirstFree(r.backendPort, preferredBackendPort, canListen)
    ensures r.Reserved? ==> preferredFrontendPort <= r.frontendPort < preferredFrontendPort + MAX_PORT_ATTEMPTS
    ensures r.Reserved? ==> ListenablePort(r.frontendPort) && canListen(r.frontendPort)
    ensures r.Reserved? ==>
      forall p :: preferredFrontendPort <= p < r.frontendPort ==> p == r.backendPort || Busy(p, canListen)
    ensures r.NoFreePort? ==>
      || (r.startedFrom == preferredBackendPort
          && forall p :: preferredBackendPort <= p < preferredBackendPort + MAX_PORT_ATTEMPTS ==> Busy(p, canListen))
      || (r.startedFrom == preferredFrontendPort
          && exists b :: FirstFree(b, preferredBackendPort, canListen)
                      && forall p :: preferredFrontendPort <= p < preferredFrontendPort + MAX_PORT_ATTEMPTS ==> p == b || Busy(p, canListen))
    ensures r.BadPort? ==> !ListenablePort(r.candidate)
    ensures r.BadPort? ==>
      || (preferredBackendPort <= r.candidate < preferredBackendPort + MAX_PORT_ATTEMPTS
          && forall p :: preferredBackendPort <= p < r.candidate ==> Busy(p, canListen))
      || (exists b :: FirstFree(b, preferredBackendPort, canListen)
                    && preferredFrontendPort <= r.candidate < preferredFrontendPort + MAX_PORT_ATTEMPTS && r.candidate != b
                    && forall p :: preferredFrontendPort <= p < r.candidate ==> p == b || Busy(p, canListen))
    ensures r.Reserved? && IsPort(preferredBackendPort) && IsPort(preferredFrontendPort) ==>
      IsPort(r.backendPort) && IsPort(r.frontendPort)
  {
    var reservedPorts: set<int> := {};
    var backendPort := FindFreePort(preferredBackendPort, reservedPorts, canListen);
    forall p | preferredBackendPort <= p < preferredBackendPort + MAX_PORT_ATTEMPTS && PassedOver(p, reservedPorts, canListen)
      ensures Busy(p, canListen)
    {
    }
    if backendPort.Exhausted? {
      return NoFreePort(preferredBackendPort);
    }
    if backendPort.InvalidCandidate? {
      return BadPort(backendPort.candidate);
    }
    var b := backendPort.port;
    assert FirstFree(b, preferredBackendPort, canListen);
    reservedPorts := reservedPorts + {b};
    var frontendPort := FindFreePort(preferredFrontendPort, reservedPorts, canListen);
    forall p | preferredFrontendPort <= p < preferredFrontendPort + MAX_PORT_ATTEMPTS && PassedOver(p, reservedPorts, canListen)
      ensures p == b || Busy(p, canListen)
    {
    }
    if frontendPort.Exhausted? {
      return NoFreePort(preferredFrontendPort);
    }
    if frontendPort.InvalidCandidate? {
      return BadPort(frontendPort.candidate);
    }
    return Reserved(b, frontendPort.port);
  }
}
