/**
 * The CommUnity publisher's configuration (`Config`): built-in defaults, a line-oriented
 * "YAML" reader that flattens `key: value` lines into a map, typed getters with defaults,
 * the assignment of the recognised dotted keys to the settings, and the ordered
 * first-failure-wins validation that records the failing check's message.
 *
 * Reading the file itself is left to the caller: `Load` receives the file's contents, or
 * None when the file cannot be opened.
 */
module CommunityConfig {
  import opened Wrappers
  import opened Text
  import opened SortedMaps

  // ---------------------------------------------------------------------------
  // The settings
  // ---------------------------------------------------------------------------

  /** The configuration members of `Config`, as one value. */
  datatype Settings = Settings(
    dmpId: string,
    apiHost: string, apiPort: int, authToken: string,
    domainId: int, rtpsRelayHost: string, rtpsRelayPort: int,
    securityEnabled: bool,
    identityCa: string, identityCert: string, identityKey: string,
    permissionsCa: string, permissionsFile: string, governanceFile: string,
    purgeTimeoutSeconds: int, heartbeatIntervalSeconds: int,
    logLevel: string, logToConsole: bool, logToFile: bool, logFile: string,
    logToSyslog: bool, syslogHost: string, syslogPort: int)

  /** What `setDefaults` assigns. */
  const Defaults: Settings := Settings(
    "community-publisher-default",
    "0.0.0.0", 8080, "secure_token_change_me",
    0, "relay.community.org", 4444,
    false,
    "/etc/community/certs/identity_ca.pem", "/etc/community/certs/identity_cert.pem",
    "/etc/community/certs/identity_key.pem",
    "/etc/community/certs/permissions_ca.pem", "/etc/community/certs/permissions.xml",
    "/etc/community/certs/governance.xml",
    3600, 30,
    "INFO", true, false, "/var/log/community/publisher.log",
    false, "localhost", 514)

  // ---------------------------------------------------------------------------
  // parseBasicYaml
  // ---------------------------------------------------------------------------

  /** The number of spaces a line starts with (`parseBasicYaml`'s indent count). */
  function LeadingSpaces(s: string): (n: nat)
    ensures n <= |s|
    ensures forall i :: 0 <= i < n ==> s[i] == ' '
    ensures n < |s| ==> s[n] != ' '
  {
    if s != [] && s[0] == ' ' then 1 + LeadingSpaces(s[1..]) else 0
  }

  /** `context.pop_back()` while the stack is deeper than `level`. */
  function PopTo(context: seq<string>, level: nat): (r: seq<string>)
    ensures |r| <= level && (|context| <= level ==> r == context)
  {
    if |context| > level then context[..level] else context
  }

  /** `context.resize(level)`: truncate, or pad with empty names. */
  function Resize(context: seq<string>, level: nat): (r: seq<string>)
    ensures |r| == level
    ensures forall j :: 0 <= j < level ==> r[j] == (if j < |context| then context[j] else [])
    decreases level
  {
    if |context| >= level then context[..level]
    else if level == 0 then []
    else Resize(context, level - 1) + [[]]
  }

  /** The full key path: the context names and the key joined by '.'. */
  function FullKey(context: seq<string>, key: string): string {
    if context == [] then key else Join(context, ".") + "." + key
  }

  /** A value framed by one matching pair of '"' or of '\'' loses that pair. */
  function Unquote(v: string): (r: string)
    requires v != []
  {
    if (v[0] == '"' && v[|v| - 1] == '"') || (v[0] == '\'' && v[|v| - 1] == '\'') then
      if |v| >= 2 then v[1..|v| - 1] else []
    else v
  }

  /** The reader's state between lines: the section stack and the map built so far. */
  datatype YamlState = YamlState(context: seq<string>, result: Entries)

  /** One line of `parseBasicYaml`, exactly as the loop body treats it. */
  function YamlStep(st: YamlState, raw: string): YamlState {
    var line := Trim(raw, LineSpace);
    if line == [] || line[0] == '#' then st
    else
      var level := LeadingSpaces(line) / 2;
      var context := PopTo(st.context, level);
      match IndexOf(line, ':')
      case None => YamlState(context, st.result)
      case Some(colon) =>
        var key := Trim(line[..colon], LineSpace);
        var value := Trim(line[colon + 1..], LineSpace);
        if value != [] then YamlState(context, Put(st.result, FullKey(context, key), Unquote(value)))
        else YamlState((if |context| == level then context else Resize(context, level)) + [key], st.result)
  }

  /** The reader's state after a sequence of lines. */
  function YamlFold(lines: seq<string>): YamlState {
    if lines == [] then YamlState([], []) else YamlStep(YamlFold(lines[..|lines| - 1]), lines[|lines| - 1])
  }

  /**
   * The entry a trimmed line stores when read flat: none for a blank or '#' line, a line
   * without ':' or one whose value is empty; otherwise the trimmed text before the first ':'
   * and the trimmed, unquoted text after it.
   */
  function PairOfLine(line: string): (r: Option<(string, string)>)
    ensures r.Some? ==> ':' !in r.value.0
  {
    if line == [] || line[0] == '#' then None
    else
      match IndexOf(line, ':')
      case None => None
      case Some(colon) =>
        var value := Trim(line[colon + 1..], LineSpace);
        if value == [] then None
        else
          var key := Trim(line[..colon], LineSpace);
          TrimSubstring(line[..colon], LineSpace);
          Some((key, Unquote(value)))
  }

  /** The entry a raw line stores: the one of its trim. */
  function StoredPair(raw: string): Option<(string, string)> {
    PairOfLine(Trim(raw, LineSpace))
  }

  /** The map as the lines leave it: each stored pair written in turn, a later key overwriting. */
  function FlatYaml(lines: seq<string>): Entries {
    if lines == [] then []
    else
      var m := FlatYaml(lines[..|lines| - 1]);
      match StoredPair(lines[|lines| - 1])
      case None => m
      case Some((k, v)) => Put(m, k, v)
  }

  /** A trimmed non-empty line starts with a non-space, so its indent is 0. */
  lemma TrimmedIndent(raw: string)
    requires Trim(raw, LineSpace) != []
    ensures LeadingSpaces(Trim(raw, LineSpace)) == 0
  {
    TrimShape(raw, LineSpace);
  }

  /** With an empty section stack, one line of the reader stores what `StoredPair` says. */
  lemma StepFromEmpty(st: YamlState, raw: string)
    requires |st.context| <= 1
    ensures |YamlStep(st, raw).context| <= 1
    ensures YamlStep(st, raw).result
      == match StoredPair(raw) case None => st.result case Some((k, v)) => Put(st.result, k, v)
  {
    var line := Trim(raw, LineSpace);
    if line != [] && line[0] != '#' {
      TrimmedIndent(raw);
    }
  }

  /**
   * Because the indent is measured after trimming, every line pops the section stack empty:
   * keys are never prefixed by a section, and the map is the flat one.
   */
  lemma {:induction false} YamlKeysUndotted(lines: seq<string>)
    ensures YamlFold(lines).result == FlatYaml(lines)
    ensures |YamlFold(lines).context| <= 1
  {
    if lines != [] {
      YamlKeysUndotted(lines[..|lines| - 1]);
      StepFromEmpty(YamlFold(lines[..|lines| - 1]), lines[|lines| - 1]);
    }
  }

  /** Every stored map is sorted by key, one entry per key. */
  lemma {:induction false} FlatYamlSorted(lines: seq<string>)
    ensures Sorted(FlatYaml(lines))
  {
    if lines != [] {
      var init := lines[..|lines| - 1];
      FlatYamlSorted(init);
      match StoredPair(lines[|lines| - 1]) {
        case None =>
        case Some((k, v)) => PutSorted(FlatYaml(init), k, v);
      }
    }
  }

  /** A stored key never holds ':' (it is the text before the first one). */
  lemma {:induction false} FlatYamlKeysColonFree(lines: seq<string>, k: string)
    requires Get(FlatYaml(lines), k).Some?
    ensures ':' !in k
  {
    var init := lines[..|lines| - 1];
    match StoredPair(lines[|lines| - 1]) {
      case None =>
        FlatYamlKeysColonFree(init, k);
      case Some((key, v)) =>
        if k != key {
          PutGetOther(FlatYaml(init), key, v, k);
          FlatYamlKeysColonFree(init, k);
        }
    }
  }

  /** The last line decides: a stored pair is what a lookup of its key now finds; otherwise nothing changes. */
  lemma YamlLastWins(lines: seq<string>, raw: string)
    ensures StoredPair(raw).None? ==> FlatYaml(lines + [raw]) == FlatYaml(lines)
    ensures StoredPair(raw).Some? ==>
      Get(FlatYaml(lines + [raw]), StoredPair(raw).value.0) == Some(StoredPair(raw).value.1)
  {
    assert (lines + [raw])[..|lines|] == lines;
    match StoredPair(raw) {
      case None =>
      case Some((k, v)) => PutGet(FlatYaml(lines), k, v);
    }
  }

  /** `PairOfLine` of a line with a first ':' and a non-empty value after it. */
  lemma PairAt(line: string, key: string, value: string)
    requires line != [] && line[0] != '#'
    requires IndexOf(line, ':') == Some(|key|)
    requires Trim(line[..|key|], LineSpace) == key
    requires Trim(line[|key| + 1..], LineSpace) == value && value != []
    ensures PairOfLine(line) == Some((key, Unquote(value)))
  {
  }

  /** A trimmed name that can head a key or a section line. */
  predicate Name(k: string) {
    k != [] && k[0] !in LineSpace && k[|k| - 1] !in LineSpace && k[0] != '#' && ':' !in k
  }

  /** A value with no line space at either end. */
  predicate TrimmedValue(v: string) {
    v != [] && v[0] !in LineSpace && v[|v| - 1] !in LineSpace
  }

  /** The line `key: value` splits into that key and that value. */
  lemma PairOfKeyValue(key: string, value: string)
    requires Name(key) && TrimmedValue(value)
    ensures PairOfLine(key + ": " + value) == Some((key, Unquote(value)))
  {
    var line := key + ": " + value;
    TrimAlready(key, LineSpace);
    assert line[..|key|] == key;
    assert line[|key|] == ':';
    assert IndexOf(line, ':') == Some(|key|);
    var after := line[|key| + 1..];
    assert after[0] == ' ' && after[1..] == value;
    assert ' ' in LineSpace;
    TrimLeftSkip(after, LineSpace);
    TrimAlready(value, LineSpace);
    assert Trim(after, LineSpace) == value;
    PairAt(line, key, value);
  }

  /** Indentation in front of a line free of line space at its ends is all the trim removes. */
  lemma TrimIndented(indent: nat, line: string)
    requires line != [] && line[0] !in LineSpace && line[|line| - 1] !in LineSpace
    ensures Trim(Spaces(indent) + line, LineSpace) == line
  {
    TrimLeftSpaces(indent, line);
    TrimAlready(line, LineSpace);
  }

  /**
   * An indented `key: value` line stores exactly that key and the unquoted value: the
   * indentation neither nests the key under a section nor reaches the value.
   */
  lemma StoredPairOfLine(indent: nat, key: string, value: string)
    requires Name(key) && TrimmedValue(value)
    ensures StoredPair(Spaces(indent) + key + ": " + value) == Some((key, Unquote(value)))
  {
    var line := key + ": " + value;
    assert Spaces(indent) + key + ": " + value == Spaces(indent) + line;
    assert line[0] == key[0] && line[|line| - 1] == value[|value| - 1];
    TrimIndented(indent, line);
    PairOfKeyValue(key, value);
  }

  /** A value inside one pair of quotes is stored without them. */
  lemma UnquoteQuoted(inner: string)
    ensures Unquote("\"" + inner + "\"") == inner && Unquote("'" + inner + "'") == inner
  {
    assert ("\"" + inner + "\"")[1..|inner| + 1] == inner;
    assert ("'" + inner + "'")[1..|inner| + 1] == inner;
  }

  /** The number of spaces at the start of `line`, counted as the loop does. */
  method CountIndent(line: string) returns (indent: nat)
    ensures indent == LeadingSpaces(line)
  {
    indent := 0;
    while indent < |line| && line[indent] == ' '
      invariant indent <= |line|
      invariant forall i :: 0 <= i < indent ==> line[i] == ' '
      invariant LeadingSpaces(line) == indent + LeadingSpaces(line[indent..])
    {
      assert line[indent..][1..] == line[indent + 1..];
      indent := indent + 1;
    }
  }

  /**
   * `parseBasicYaml`: read the lines one at a time, keeping the section stack the code
   * keeps; the map it returns is the flat map of the lines.
   */
  method ParseBasicYaml(content: string) returns (result: Entries)
    ensures result == FlatYaml(Lines(content)) && Sorted(result)
  {
    var lines := Lines(content);
    var context: seq<string> := [];
    result := [];
    for i := 0 to |lines|
      invariant YamlState(context, result) == YamlFold(lines[..i])
    {
      assert lines[..i + 1][..i] == lines[..i];
      context, result := ReadYamlLine(context, result, lines[i]);
    }
    assert lines[..|lines|] == lines;
    YamlKeysUndotted(lines);
    FlatYamlSorted(lines);
  }

  /** The body of `parseBasicYaml`'s loop: one line read into the section stack and the map. */
  method ReadYamlLine(context0: seq<string>, result0: Entries, raw: string) returns (context: seq<string>, result: Entries)
    ensures YamlState(context, result) == YamlStep(YamlState(context0, result0), raw)
  {
    context, result := context0, result0;
    var line := Trim(raw, LineSpace);
    if line == [] || line[0] == '#' {
      return;
    }
    var indent := CountIndent(line);
    var level := indent / 2;
    context := PopContext(context, level);
    match IndexOf(line, ':') {
      case None =>
      case Some(colon) =>
        var key := Trim(line[..colon], LineSpace);
        var value := Trim(line[colon + 1..], LineSpace);
        var fullKey := FullKey(context, key);
        if value != [] {
          value := Unquote(value);
          result := Put(result, fullKey, value);
        } else if |context| == level {
          context := context + [key];
        } else {
          context := Resize(context, level) + [key];
        }
    }
  }

  /** The `while (context.size() > level) context.pop_back();` loop. */
  method PopContext(context0: seq<string>, level: nat) returns (context: seq<string>)
    ensures context == PopTo(context0, level)
  {
    context := context0;
    while |context| > level
      invariant PopTo(context, level) == PopTo(context0, level)
    {
      context := context[..|context| - 1];
    }
  }

  // ---------------------------------------------------------------------------
  // Typed getters
  // ---------------------------------------------------------------------------

  /** `getValue`: the stored value, or the default. */
  function GetValue(m: Entries, key: string, default: string): string {
    match Get(m, key)
    case Some(v) => v
    case None => default
  }

  /** `getIntValue`: `stoi` of the stored value; the default when absent or when `stoi` throws. */
  function GetIntValue(m: Entries, key: string, default: int): int {
    match Get(m, key)
    case Some(v) => (match StoI(v) case Ok(i) => i case Err(_) => default)
    case None => default
  }

  /** The spellings `getBoolValue` reads as true, after lower-casing. */
  const TrueWords: set<string> := {"true", "yes", "1", "on"}

  /** `getBoolValue`: a stored value is true exactly when it lower-cases to a true word. */
  function GetBoolValue(m: Entries, key: string, default: bool): bool {
    match Get(m, key)
    case Some(v) => Lower(v) in TrueWords
    case None => default
  }

  /** An absent key gives the default, whatever the getter. */
  lemma GettersDefault(m: Entries, key: string, s: string, i: int, b: bool)
    requires forall j :: 0 <= j < |m| ==> m[j].0 != key
    ensures GetValue(m, key, s) == s && GetIntValue(m, key, i) == i && GetBoolValue(m, key, b) == b
  {
  }

  /**
   * A present key decides the getter alone: the text itself, the integer its numeral names
   * (or the default when it names none in range), and for a flag a value that ignores the
   * default ("False", "no" or "2" read as false, not as the default).
   */
  lemma GettersPresent(m: Entries, key: string, v: string, s: string, i: int)
    requires Get(m, key) == Some(v)
    ensures GetValue(m, key, s) == v
    ensures StoI(v).Ok? ==> GetIntValue(m, key, i) == StoI(v).value
    ensures StoI(v).Err? ==> GetIntValue(m, key, i) == i
    ensures GetBoolValue(m, key, true) == GetBoolValue(m, key, false) == (Lower(v) in TrueWords)
  {
  }

  /** An in-range integer written as a numeral reads back through `getIntValue`. */
  lemma GetIntRoundTrip(m: Entries, key: string, n: int, default: int)
    requires IntMin <= n <= IntMax
    ensures GetIntValue(Put(m, key, IntString(n)), key, default) == n
  {
    PutGet(m, key, IntString(n));
    StoIRoundTrip(n);
  }

  /** Upper-case spellings of the true words read as true. */
  lemma BoolSpellings(m: Entries, key: string, default: bool)
    ensures GetBoolValue(Put(m, key, "TRUE"), key, default)
    ensures GetBoolValue(Put(m, key, "Yes"), key, default)
    ensures !GetBoolValue(Put(m, key, "off"), key, default)
  {
    PutGet(m, key, "TRUE");
    PutGet(m, key, "Yes");
    PutGet(m, key, "off");
    assert Lower("TRUE") == "true";
    assert Lower("Yes") == "yes";
    assert Lower("off") == "off";
  }

  // ---------------------------------------------------------------------------
  // parseYamlString
  // ---------------------------------------------------------------------------

  /** The dotted keys `parseYamlString` looks up. */
  const ConfigKeys: set<string> := {
    "writer.dmp_id", "writer.api.host", "writer.api.port", "writer.api.auth_token",
    "writer.dds.domain_id", "writer.dds.rtps_relay.host", "writer.dds.rtps_relay.port",
    "writer.security.enabled", "writer.security.identity_ca", "writer.security.identity_cert",
    "writer.security.identity_key", "writer.security.permissions_ca",
    "writer.security.permissions_file", "writer.security.governance_file",
    "writer.data.purge_timeout_seconds", "writer.data.heartbeat_interval_seconds",
    "logging.level", "logging.console.enabled", "logging.file.enabled", "logging.file.path",
    "logging.syslog.enabled", "logging.syslog.host", "logging.syslog.port"}

  /** Every setting looked up under its dotted key, the current value as the default. */
  function Applied(s: Settings, m: Entries): Settings {
    Settings(
      GetValue(m, "writer.dmp_id", s.dmpId),
      GetValue(m, "writer.api.host", s.apiHost),
      GetIntValue(m, "writer.api.port", s.apiPort),
      GetValue(m, "writer.api.auth_token", s.authToken),
      GetIntValue(m, "writer.dds.domain_id", s.domainId),
      GetValue(m, "writer.dds.rtps_relay.host", s.rtpsRelayHost),
      GetIntValue(m, "writer.dds.rtps_relay.port", s.rtpsRelayPort),
      GetBoolValue(m, "writer.security.enabled", s.securityEnabled),
      GetValue(m, "writer.security.identity_ca", s.identityCa),
      GetValue(m, "writer.security.identity_cert", s.identityCert),
      GetValue(m, "writer.security.identity_key", s.identityKey),
      GetValue(m, "writer.security.permissions_ca", s.permissionsCa),
      GetValue(m, "writer.security.permissions_file", s.permissionsFile),
      GetValue(m, "writer.security.governance_file", s.governanceFile),
      GetIntValue(m, "writer.data.purge_timeout_seconds", s.purgeTimeoutSeconds),
      GetIntValue(m, "writer.data.heartbeat_interval_seconds", s.heartbeatIntervalSeconds),
      GetValue(m, "logging.level", s.logLevel),
      GetBoolValue(m, "logging.console.enabled", s.logToConsole),
      GetBoolValue(m, "logging.file.enabled", s.logToFile),
      GetValue(m, "logging.file.path", s.logFile),
      GetBoolValue(m, "logging.syslog.enabled", s.logToSyslog),
      GetValue(m, "logging.syslog.host", s.syslogHost),
      GetIntValue(m, "logging.syslog.port", s.syslogPort))
  }

  /** A map without any of the dotted keys changes no setting. */
  lemma AppliedIgnoresOtherKeys(s: Settings, m: Entries)
    requires forall j :: 0 <= j < |m| ==> m[j].0 !in ConfigKeys
    ensures Applied(s, m) == s
  {
  }

  /** A dotted key written on one line sets its setting. */
  lemma AppliedDmpId(s: Settings, m: Entries, v: string)
    ensures Applied(s, Put(m, "writer.dmp_id", v)).dmpId == v
  {
    PutGet(m, "writer.dmp_id", v);
  }

  /** A section header line `name:` stores nothing. */
  lemma SectionHeaderStoresNothing(name: string)
    requires Name(name)
    ensures StoredPair(name + ":") == None
  {
    var l := name + ":";
    assert l[0] == name[0] && l[|l| - 1] == ':';
    TrimAlready(l, LineSpace);
    assert l[..|name|] == name;
    assert IndexOf(l, ':') == Some(|name|);
    assert l[|name| + 1..] == [];
  }

  /**
   * The nested document the dotted keys were designed for (`section:` and then an indented
   * `key: value`) stores the bare key, so for a key of its section it sets nothing.
   */
  lemma NestedDocumentIgnored(s: Settings, section: string, indent: nat, key: string, value: string)
    requires Name(section) && Name(key) && key !in ConfigKeys && TrimmedValue(value)
    ensures Applied(s, FlatYaml([section + ":", Spaces(indent) + key + ": " + value])) == s
  {
    SectionHeaderStoresNothing(section);
    StoredPairOfLine(indent, key, value);
    var lines := [section + ":", Spaces(indent) + key + ": " + value];
    assert lines[..1] == [section + ":"] && [lines[0]][..0] == [];
    assert FlatYaml(lines[..1]) == [];
    assert FlatYaml(lines) == Put([], key, Unquote(value));
    AppliedIgnoresOtherKeys(s, [(key, Unquote(value))]);
  }

  // ---------------------------------------------------------------------------
  // validate
  // ---------------------------------------------------------------------------

  const LogLevels: set<string> := {"DEBUG", "INFO", "WARN", "ERROR", "FATAL"}

  /** `validate`: the message of the first failing check, in the code's order; None when all pass. */
  function ValidationError(s: Settings): Option<string> {
    if s.dmpId == [] then Some("DMP ID cannot be empty")
    else if s.apiHost == [] then Some("API host cannot be empty")
    else if s.apiPort <= 0 || s.apiPort > 65535 then Some("API port must be between 1 and 65535")
    else if s.authToken == [] then Some("Auth token cannot be empty")
    else if s.domainId < 0 || s.domainId > 232 then Some("DDS domain ID must be between 0 and 232")
    else if s.securityEnabled && (s.identityCa == [] || s.identityCert == [] || s.identityKey == []) then
      Some("Security is enabled but identity certificates are not configured")
    else if s.securityEnabled && (s.permissionsCa == [] || s.permissionsFile == [] || s.governanceFile == []) then
      Some("Security is enabled but permissions/governance files are not configured")
    else if s.purgeTimeoutSeconds < 0 then Some("Purge timeout must be non-negative")
    else if s.heartbeatIntervalSeconds < 1 then Some("Heartbeat interval must be at least 1 second")
    else if s.logLevel !in LogLevels then Some("Log level must be one of: DEBUG, INFO, WARN, ERROR, FATAL")
    else None
  }

  /** The settings every check accepts, stated as one conjunction. */
  predicate WellConfigured(s: Settings) {
    s.dmpId != [] && s.apiHost != [] && 1 <= s.apiPort <= 65535 && s.authToken != []
    && 0 <= s.domainId <= 232
    && (s.securityEnabled ==>
          s.identityCa != [] && s.identityCert != [] && s.identityKey != []
          && s.permissionsCa != [] && s.permissionsFile != [] && s.governanceFile != [])
    && s.purgeTimeoutSeconds >= 0 && s.heartbeatIntervalSeconds >= 1 && s.logLevel in LogLevels
  }

  /** `validate` passes exactly the well-configured settings. */
  lemma ValidationMeaning(s: Settings)
    ensures ValidationError(s).None? <==> WellConfigured(s)
  {
  }

  /** The defaults pass `validate`. */
  lemma DefaultsValid()
    ensures ValidationError(Defaults) == None
  {
    assert Defaults.logLevel == "INFO";
  }

  /**
   * The checks run in order and the first failure wins: an empty DMP id is reported even
   * when everything else is wrong, and the certificate checks do not look at the paths
   * while security is off.
   */
  lemma ValidationOrder(s: Settings)
    ensures s.dmpId == [] ==> ValidationError(s) == Some("DMP ID cannot be empty")
    ensures s.dmpId != [] && s.apiHost == [] ==> ValidationError(s) == Some("API host cannot be empty")
    ensures !s.securityEnabled ==>
      ValidationError(s) == ValidationError(s.(identityCa := [], identityCert := [], identityKey := [],
                                               permissionsCa := [], permissionsFile := [], governanceFile := []))
  {
  }

  // ---------------------------------------------------------------------------
  // Config
  // ---------------------------------------------------------------------------

  class Config {
    /** The configuration members (`dmp_id_` ... `syslog_port_`). */
    var settings: Settings
    /** `last_error_` */
    var lastError: string

    /** `Config()`: the defaults, and no error. */
    constructor()
      ensures settings == Defaults && lastError == []
    {
      settings := Defaults;
      lastError := [];
    }

    /** `setDefaults`: every member back to its default, and the error cleared. */
    method SetDefaults()
      modifies this
      ensures settings == Defaults && lastError == []
    {
      settings := Defaults;
      lastError := [];
    }

    /** `setDmpId` */
    method SetDmpId(id: string)
      modifies this
      ensures settings == old(settings).(dmpId := id) && lastError == old(lastError)
    {
      settings := settings.(dmpId := id);
    }

    /**
     * `parseYamlString`: flatten the document and look every setting up under its dotted key,
     * keeping the current value when the key is absent (or, for a number, not a numeral in
     * range). Nothing in it throws, so it always reports success.
     */
    method ParseYamlString(content: string) returns (ok: bool)
      modifies this
      ensures ok && settings == Applied(old(settings), FlatYaml(Lines(content)))
      ensures lastError == old(lastError)
    {
      var m := ParseBasicYaml(content);
      var s := settings;
      s := s.(dmpId := GetValue(m, "writer.dmp_id", s.dmpId));
      s := s.(apiHost := GetValue(m, "writer.api.host", s.apiHost));
      s := s.(apiPort := GetIntValue(m, "writer.api.port", s.apiPort));
      s := s.(authToken := GetValue(m, "writer.api.auth_token", s.authToken));
      s := s.(domainId := GetIntValue(m, "writer.dds.domain_id", s.domainId));
      s := s.(rtpsRelayHost := GetValue(m, "writer.dds.rtps_relay.host", s.rtpsRelayHost));
      s := s.(rtpsRelayPort := GetIntValue(m, "writer.dds.rtps_relay.port", s.rtpsRelayPort));
      s := s.(securityEnabled := GetBoolValue(m, "writer.security.enabled", s.securityEnabled));
      s := s.(identityCa := GetValue(m, "writer.security.identity_ca", s.identityCa));
      s := s.(identityCert := GetValue(m, "writer.security.identity_cert", s.identityCert));
      s := s.(identityKey := GetValue(m, "writer.security.identity_key", s.identityKey));
      s := s.(permissionsCa := GetValue(m, "writer.security.permissions_ca", s.permissionsCa));
      s := s.(permissionsFile := GetValue(m, "writer.security.permissions_file", s.permissionsFile));
      s := s.(governanceFile := GetValue(m, "writer.security.governance_file", s.governanceFile));
      s := s.(purgeTimeoutSeconds := GetIntValue(m, "writer.data.purge_timeout_seconds", s.purgeTimeoutSeconds));
      s := s.(heartbeatIntervalSeconds :=
                GetIntValue(m, "writer.data.heartbeat_interval_seconds", s.heartbeatIntervalSeconds));
      s := s.(logLevel := GetValue(m, "logging.level", s.logLevel));
      s := s.(logToConsole := GetBoolValue(m, "logging.console.enabled", s.logToConsole));
      s := s.(logToFile := GetBoolValue(m, "logging.file.enabled", s.logToFile));
      s := s.(logFile := GetValue(m, "logging.file.path", s.logFile));
      s := s.(logToSyslog := GetBoolValue(m, "logging.syslog.enabled", s.logToSyslog));
      s := s.(syslogHost := GetValue(m, "logging.syslog.host", s.syslogHost));
      s := s.(syslogPort := GetIntValue(m, "logging.syslog.port", s.syslogPort));
      settings := s;
      ok := true;
    }

    /** `validate`: true when every check passes; otherwise the first failure's message is recorded. */
    method Validate() returns (ok: bool)
      modifies this`lastError
      ensures ok <==> ValidationError(settings).None?
      ensures lastError == (if ok then old(lastError) else ValidationError(settings).value)
    {
      var e := ValidationError(settings);
      if e.Some? {
        lastError := e.value;
        return false;
      }
      return true;
    }

    /**
     * `loadFromString`: clear the error, apply the document, then validate; the answer is the
     * validation's, with its message recorded on failure.
     */
    method LoadFromString(content: string) returns (ok: bool)
      modifies this
      ensures settings == Applied(old(settings), FlatYaml(Lines(content)))
      ensures ok <==> ValidationError(settings).None?
      ensures lastError == (if ok then [] else ValidationError(settings).value)
    {
      lastError := [];
      var parsed := ParseYamlString(content);
      ok := Validate();
    }

    /**
     * `load`: the file's contents, or None when it cannot be opened. An unreadable file leaves
     * the settings alone and records the parse-failure message (which overwrites the "Cannot
     * open" one); a readable file is loaded as by `loadFromString`.
     */
    method Load(path: string, contents: Option<string>) returns (ok: bool)
      modifies this
      ensures contents.None? ==>
        !ok && settings == old(settings) && lastError == "Failed to parse configuration file: " + path
      ensures contents.Some? ==>
        settings == Applied(old(settings), FlatYaml(Lines(contents.value)))
        && (ok <==> ValidationError(settings).None?)
        && lastError == (if ok then [] else ValidationError(settings).value)
    {
      lastError := [];
      if contents.None? {
        lastError := "Cannot open configuration file: " + path;
        lastError := "Failed to parse configuration file: " + path;
        return false;
      }
      var parsed := ParseYamlString(contents.value);
      ok := Validate();
    }
  }

  /** Loading a document that sets nothing, over the defaults, succeeds. */
  lemma DefaultsLoad(content: string)
    requires forall j :: 0 <= j < |FlatYaml(Lines(content))| ==> FlatYaml(Lines(content))[j].0 !in ConfigKeys
    ensures Applied(Defaults, FlatYaml(Lines(content))) == Defaults
    ensures ValidationError(Applied(Defaults, FlatYaml(Lines(content)))).None?
  {
    AppliedIgnoresOtherKeys(Defaults, FlatYaml(Lines(content)));
    DefaultsValid();
  }
}
