/**
 * File_Sync's `ConfigurationManager`: built-in defaults, an INI reader (sections, `#`
 * comments, `key=value` pairs, a comma-separated pattern list) and the start-up validation
 * of the loaded values against the file system.
 *
 * The file is given as its contents (None when it cannot be opened) and the file system as
 * a value; `std::stoi`/`std::stoull` failures are exceptions that leave the reader, so a
 * load ends either completed or thrown, with the assignments made before the bad line kept.
 */
module FileSyncConfig {
  import opened Wrappers
  import opened Text

  // ---------------------------------------------------------------------------
  // The configuration values
  // ---------------------------------------------------------------------------

  /** The members, grouped as the header groups them. */
  datatype Directories = Directories(source: string, dest: string)

  datatype Dds = Dds(domainId: int, configFile: string)

  datatype Security = Security(
    identityCa: string,
    permissionsCa: string,
    identityCertificate: string,
    identityPrivateKey: string,
    permissionsFile: string,
    governanceFile: string)

  datatype Sync = Sync(chunkSize: nat, maxFileSize: nat, excludedPatterns: seq<string>)

  datatype Runtime = Runtime(verboseLogging: bool, daemonMode: bool, logFile: string, logLevel: string)

  datatype Settings = Settings(
    directories: Directories, dds: Dds, security: Security, sync: Sync, runtime: Runtime)

  /** What the constructor sets; every string not listed is empty. */
  const Defaults: Settings := Settings(
    Directories([], []),
    Dds(42, []),
    Security([], [], [], [], [], []),
    Sync(65536, 104857600, []),
    Runtime(false, false, [], "info"))

  /** The C++ types of the numeric members: `int` for the domain, 64-bit `size_t` for sizes. */
  predicate InRange(s: Settings) {
    && IntMin <= s.dds.domainId <= IntMax
    && s.sync.chunkSize < ULongModulus && s.sync.maxFileSize < ULongModulus
  }

  // ---------------------------------------------------------------------------
  // One line of the INI file
  // ---------------------------------------------------------------------------

  /** The line up to its first '#'. */
  function StripComment(line: string): (r: string)
    ensures |r| <= |line| && '#' !in r && r == line[..|r|]
    ensures |r| == |line| || line[|r|] == '#'
  {
    match IndexOf(line, '#')
    case None => line
    case Some(i) => line[..i]
  }

  /** What a line says once its comment is stripped and it is trimmed. */
  datatype IniLine =
    | EmptyLine
    | Header(name: string)
    | Malformed
    | Assignment(key: string, value: string)

  /** Classify a line by what is left once its comment is stripped and it is trimmed. */
  function Classify(raw: string): IniLine {
    ClassifyTrimmed(Trim(StripComment(raw), Blank))
  }

  /** Empty, "[name]", no '=' at all, or a key and value split at the first '=' and trimmed. */
  function ClassifyTrimmed(t: string): IniLine {
    if t == [] then EmptyLine
    else if t[0] == '[' && t[|t| - 1] == ']' then Header(t[1..|t| - 1])
    else match IndexOf(t, '=')
      case None => Malformed
      case Some(i) => Assignment(Trim(t[..i], Blank), Trim(t[i + 1..], Blank))
  }

  /** A key never holds '=', and neither side of an assignment holds a comment. */
  lemma AssignmentShape(raw: string)
    ensures Classify(raw).Assignment? ==>
      '=' !in Classify(raw).key && '#' !in Classify(raw).key && '#' !in Classify(raw).value
  {
    var t := Trim(StripComment(raw), Blank);
    TrimSubstring(StripComment(raw), Blank);
    if Classify(raw).Assignment? {
      var i := IndexOf(t, '=').value;
      TrimSubstring(t[..i], Blank);
      TrimSubstring(t[i + 1..], Blank);
      assert forall c :: c in t[..i] ==> c in t;
      assert forall c :: c in t[i + 1..] ==> c in t;
    }
  }

  // ---------------------------------------------------------------------------
  // The excluded-pattern list
  // ---------------------------------------------------------------------------

  /** The pieces that survive: each trimmed, the empty ones dropped, in order. */
  function KeptPatterns(pieces: seq<string>): seq<string> {
    if pieces == [] then []
    else
      var p := Trim(pieces[|pieces| - 1], Blank);
      KeptPatterns(pieces[..|pieces| - 1]) + (if p == [] then [] else [p])
  }

  /** The list `excluded_patterns = ...` stores. */
  function Patterns(value: string): seq<string> {
    KeptPatterns(Split(value, ','))
  }

  /** Every stored pattern is non-empty, trimmed and free of commas. */
  lemma {:induction false} KeptPatternsShape(pieces: seq<string>)
    requires forall k :: 0 <= k < |pieces| ==> ',' !in pieces[k]
    ensures forall k :: 0 <= k < |KeptPatterns(pieces)| ==>
      var p := KeptPatterns(pieces)[k];
      p != [] && ',' !in p && Trim(p, Blank) == p
    decreases |pieces|
  {
    if pieces != [] {
      var last := pieces[|pieces| - 1];
      KeptPatternsShape(pieces[..|pieces| - 1]);
      TrimSubstring(last, Blank);
      TrimIdempotent(last, Blank);
    }
  }

  lemma PatternsShape(value: string)
    ensures forall k :: 0 <= k < |Patterns(value)| ==>
      var p := Patterns(value)[k];
      p != [] && ',' !in p && Trim(p, Blank) == p
  {
    KeptPatternsShape(Split(value, ','));
  }

  /** Pieces that are already trimmed and non-empty are kept as they are. */
  lemma {:induction false} KeptPatternsTrimmed(pieces: seq<string>)
    requires forall k :: 0 <= k < |pieces| ==>
      pieces[k] != [] && pieces[k][0] !in Blank && pieces[k][|pieces[k]| - 1] !in Blank
    ensures KeptPatterns(pieces) == pieces
    decreases |pieces|
  {
    if pieces != [] {
      var last := pieces[|pieces| - 1];
      KeptPatternsTrimmed(pieces[..|pieces| - 1]);
      TrimAlready(last, Blank);
      assert pieces == pieces[..|pieces| - 1] + [last];
    }
  }

  /** Writing a list of trimmed patterns with commas between them reads back as that list. */
  lemma PatternsOfList(ps: seq<string>)
    requires forall k :: 0 <= k < |ps| ==>
      ps[k] != [] && ',' !in ps[k] && ps[k][0] !in Blank && ps[k][|ps[k]| - 1] !in Blank
    ensures Patterns(Join(ps, [','])) == ps
  {
    JoinSplit(ps, ',');
    KeptPatternsTrimmed(ps);
  }

  /** The sample configuration's list names three patterns. */
  lemma ThreePatterns()
    ensures Patterns("*.tmp,*.swp,*~") == ["*.tmp", "*.swp", "*~"]
  {
    var ps := ["*.tmp", "*.swp", "*~"];
    assert Join(ps, [',']) == "*.tmp,*.swp,*~" by {
      JoinCons(ps[0], ps[1..], [',']);
      JoinCons(ps[1], ps[2..], [',']);
    }
    PatternsOfList(ps);
  }

  // ---------------------------------------------------------------------------
  // Applying an assignment
  // ---------------------------------------------------------------------------

  /** The (section, key) pairs the reader knows. */
  const KnownKeys: set<(string, string)> := {
    ("directories", "source_dir"), ("directories", "dest_dir"),
    ("dds", "domain_id"), ("dds", "dcps_config_file"),
    ("security", "identity_ca"), ("security", "permissions_ca"),
    ("security", "identity_certificate"), ("security", "identity_private_key"),
    ("security", "permissions_file"), ("security", "governance_file"),
    ("sync", "chunk_size"), ("sync", "max_file_size"), ("sync", "excluded_patterns"),
    ("logging", "level"), ("logging", "file")
  }

  function ApplyDirectories(d: Directories, key: string, value: string): Directories {
    if key == "source_dir" then d.(source := value)
    else if key == "dest_dir" then d.(dest := value)
    else d
  }

  /** `domain_id` goes through `std::stoi`, which may throw. */
  function ApplyDds(d: Dds, key: string, value: string): (r: Result<Dds, NumberError>)
    ensures r.Ok? && IntMin <= d.domainId <= IntMax ==> IntMin <= r.value.domainId <= IntMax
  {
    if key == "domain_id" then
      match StoI(value)
      case Ok(v) => Ok(d.(domainId := v))
      case Err(e) => Err(e)
    else if key == "dcps_config_file" then Ok(d.(configFile := value))
    else Ok(d)
  }

  function ApplySecurity(c: Security, key: string, value: string): Security {
    if key == "identity_ca" then c.(identityCa := value)
    else if key == "permissions_ca" then c.(permissionsCa := value)
    else if key == "identity_certificate" then c.(identityCertificate := value)
    else if key == "identity_private_key" then c.(identityPrivateKey := value)
    else if key == "permissions_file" then c.(permissionsFile := value)
    else if key == "governance_file" then c.(governanceFile := value)
    else c
  }

  /** The sizes go through `std::stoull`, which may throw; the pattern list is rebuilt. */
  function ApplySync(y: Sync, key: string, value: string): (r: Result<Sync, NumberError>)
    ensures r.Ok? && y.chunkSize < ULongModulus && y.maxFileSize < ULongModulus ==>
      r.value.chunkSize < ULongModulus && r.value.maxFileSize < ULongModulus
  {
    if key == "chunk_size" then
      match StoULL(value)
      case Ok(v) => Ok(y.(chunkSize := v))
      case Err(e) => Err(e)
    else if key == "max_file_size" then
      match StoULL(value)
      case Ok(v) => Ok(y.(maxFileSize := v))
      case Err(e) => Err(e)
    else if key == "excluded_patterns" then Ok(y.(excludedPatterns := Patterns(value)))
    else Ok(y)
  }

  function ApplyLogging(u: Runtime, key: string, value: string): Runtime {
    if key == "level" then u.(logLevel := value)
    else if key == "file" then u.(logFile := value)
    else u
  }

  /**
   * The effect of `key=value` inside `[section]`: the member it names takes the value (a
   * converted number, a fresh pattern list, the text itself), or the settings stay as they are.
   */
  function Apply(s: Settings, section: string, key: string, value: string): (r: Result<Settings, NumberError>)
    ensures r.Ok? && InRange(s) ==> InRange(r.value)
    ensures r.Err? ==> (section, key) in {("dds", "domain_id"), ("sync", "chunk_size"), ("sync", "max_file_size")}
  {
    if section == "directories" then Ok(s.(directories := ApplyDirectories(s.directories, key, value)))
    else if section == "dds" then
      match ApplyDds(s.dds, key, value)
      case Ok(d) => Ok(s.(dds := d))
      case Err(e) => Err(e)
    else if section == "security" then Ok(s.(security := ApplySecurity(s.security, key, value)))
    else if section == "sync" then
      match ApplySync(s.sync, key, value)
      case Ok(y) => Ok(s.(sync := y))
      case Err(e) => Err(e)
    else if section == "logging" then Ok(s.(runtime := ApplyLogging(s.runtime, key, value)))
    else Ok(s)
  }

  /** A pair the reader does not know changes nothing. */
  lemma UnknownKeyIgnored(s: Settings, section: string, key: string, value: string)
    requires (section, key) !in KnownKeys
    ensures Apply(s, section, key, value) == Ok(s)
  {
  }

  /** A later assignment to the same key overwrites an earlier one. */
  lemma LaterAssignmentWins(s: Settings, section: string, key: string, first: string, second: string)
    requires Apply(s, section, key, first).Ok?
    ensures Apply(Apply(s, section, key, first).value, section, key, second) == Apply(s, section, key, second)
  {
    if section == "dds" {
      var d := ApplyDds(s.dds, key, first).value;
      assert Apply(s, section, key, first).value == s.(dds := d);
      DdsLaterWins(s.dds, key, first, second);
    } else if section == "sync" {
      var y := ApplySync(s.sync, key, first).value;
      assert Apply(s, section, key, first).value == s.(sync := y);
      SyncLaterWins(s.sync, key, first, second);
    } else if section == "security" {
      SecurityLaterWins(s.security, key, first, second);
    }
  }

  lemma DdsLaterWins(d: Dds, key: string, first: string, second: string)
    requires ApplyDds(d, key, first).Ok?
    ensures ApplyDds(ApplyDds(d, key, first).value, key, second) == ApplyDds(d, key, second)
  {
  }

  lemma SyncLaterWins(y: Sync, key: string, first: string, second: string)
    requires ApplySync(y, key, first).Ok?
    ensures ApplySync(ApplySync(y, key, first).value, key, second) == ApplySync(y, key, second)
  {
  }

  lemma SecurityLaterWins(c: Security, key: string, first: string, second: string)
    ensures ApplySecurity(ApplySecurity(c, key, first), key, second) == ApplySecurity(c, key, second)
  {
  }

  /** The pattern list is replaced, not extended: what was there before leaves no trace. */
  lemma PatternsReplaced(s: Settings, value: string)
    ensures Apply(s, "sync", "excluded_patterns", value)
      == Ok(s.(sync := s.sync.(excludedPatterns := Patterns(value))))
    ensures forall p :: p in Apply(s, "sync", "excluded_patterns", value).value.sync.excludedPatterns ==>
      p != [] && ',' !in p && Trim(p, Blank) == p
  {
    PatternsShape(value);
  }

  // ---------------------------------------------------------------------------
  // Reading the whole file
  // ---------------------------------------------------------------------------

  /** The reader's state between lines: the current section and the members so far. */
  datatype Reader = Reader(section: string, settings: Settings)

  /** How reading ends: after the last line, or at a numeric value that does not convert. */
  datatype Outcome =
    | Completed(settings: Settings)
    | Threw(error: NumberError, settings: Settings)

  /** One line: a header switches the section, an assignment is applied, anything else is skipped. */
  function Step(r: Reader, raw: string): Result<Reader, NumberError> {
    match Classify(raw)
    case EmptyLine => Ok(r)
    case Malformed => Ok(r)
    case Header(name) => Ok(r.(section := name))
    case Assignment(key, value) =>
      match Apply(r.settings, r.section, key, value)
      case Ok(s) => Ok(r.(settings := s))
      case Err(e) => Err(e)
  }

  /** The lines read in order; the first failing conversion ends the read. */
  function Run(r: Reader, lines: seq<string>): Outcome
    decreases |lines|
  {
    if lines == [] then Completed(r.settings)
    else match Step(r, lines[0])
      case Ok(r') => Run(r', lines[1..])
      case Err(e) => Threw(e, r.settings)
  }

  /** What loading `configFile`, whose contents are `file`, does to the settings `s`. */
  function Loaded(configFile: string, file: Option<string>, s: Settings): Outcome {
    if configFile == [] || file.None? then Completed(s)
    else Run(Reader([], s), Lines(file.value))
  }

  /** Only a numeric key whose value does not convert can stop the read. */
  predicate BadNumber(raw: string) {
    match Classify(raw)
    case Assignment(key, value) =>
      (key == "domain_id" && StoI(value).Err?)
      || ((key == "chunk_size" || key == "max_file_size") && StoULL(value).Err?)
    case _ => false
  }

  lemma {:induction false} ThrowsOnlyOnBadNumber(r: Reader, lines: seq<string>)
    ensures Run(r, lines).Threw? ==> exists i :: 0 <= i < |lines| && BadNumber(lines[i])
    decreases |lines|
  {
    if lines != [] {
      match Step(r, lines[0])
      case Ok(r') =>
        ThrowsOnlyOnBadNumber(r', lines[1..]);
        if Run(r, lines).Threw? {
          var i :| 0 <= i < |lines[1..]| && BadNumber(lines[1..][i]);
          assert lines[i + 1] == lines[1..][i];
        }
      case Err(e) =>
        assert BadNumber(lines[0]);
    }
  }

  /** Reading keeps the numeric members within their C++ types. */
  lemma {:induction false} RunInRange(r: Reader, lines: seq<string>)
    requires InRange(r.settings)
    ensures InRange(Run(r, lines).settings)
    decreases |lines|
  {
    if lines != [] {
      match Step(r, lines[0])
      case Ok(r') => RunInRange(r', lines[1..]);
      case Err(e) =>
    }
  }

  /** Text after a '#' never matters. */
  lemma CommentIgnored(raw: string, comment: string)
    requires '#' !in raw
    ensures Classify(raw + "#" + comment) == Classify(raw)
  {
    IndexOfAfter(raw, '#', comment);
    assert (raw + "#" + comment)[..|raw|] == raw;
  }

  /** A line of spaces and tabs is skipped. */
  lemma BlankLineSkipped(raw: string)
    requires forall i :: 0 <= i < |raw| ==> raw[i] in Blank
    ensures Classify(raw) == EmptyLine
  {
    TrimAllBlank(StripComment(raw), Blank);
  }

  /** "[name]" opens the section `name`. */
  lemma HeaderLine(name: string)
    requires '#' !in name
    ensures Classify("[" + name + "]") == Header(name)
  {
    var t := "[" + name + "]";
    TrimAlready(t, Blank);
    assert t[1..|t| - 1] == name;
  }

  /** "key = value" splits at its '=' and both sides lose their surrounding blanks. */
  lemma AssignmentLine(key: string, value: string)
    requires '#' !in key && '#' !in value && '=' !in key && '[' !in key
    ensures Classify(key + "=" + value) == Assignment(Trim(key, Blank), Trim(value, Blank))
  {
    var raw := key + "=" + value;
    var l, v := TrimLeft(key, Blank), TrimRight(value, Blank);
    assert StripComment(raw) == raw by {
      assert '#' !in raw;
    }
    assert Trim(raw, Blank) == l + "=" + v by {
      TrimAround(key, '=', value, Blank);
    }
    assert '=' !in l && '[' !in l by {
      TrimLeftSuffix(key, Blank);
    }
    SplitTrimmedAssignment(l, v);
    TrimOfTrimLeft(key, Blank);
    TrimOfTrimRight(value, Blank);
  }

  /** The trimmed line `l=v` with no '=' or '[' in `l`. */
  lemma SplitTrimmedAssignment(l: string, v: string)
    requires '=' !in l && '[' !in l
    ensures ClassifyTrimmed(l + "=" + v) == Assignment(Trim(l, Blank), Trim(v, Blank))
  {
    var t := l + "=" + v;
    assert t[0] != '[';
    IndexOfAfter(l, '=', v);
    assert t[..|l|] == l && t[|l| + 1..] == v;
  }

  /** A section header followed by one assignment: that assignment, applied in that section. */
  lemma OneAssignment(r: Reader, section: string, key: string, value: string)
    requires '#' !in section
    requires '#' !in key && '#' !in value && '=' !in key && '[' !in key
    ensures Run(r, ["[" + section + "]", key + "=" + value])
      == match Apply(r.settings, section, Trim(key, Blank), Trim(value, Blank))
         case Ok(s) => Completed(s)
         case Err(e) => Threw(e, r.settings)
  {
    var header, line := "[" + section + "]", key + "=" + value;
    HeaderLine(section);
    RunAfterHeader(r, section, header, line);
    AssignmentLine(key, value);
    RunOneAssignment(r.(section := section), line, Trim(key, Blank), Trim(value, Blank));
  }

  /** A header line only switches the section before the next line is read. */
  lemma RunAfterHeader(r: Reader, section: string, header: string, line: string)
    requires Classify(header) == Header(section)
    ensures Run(r, [header, line]) == Run(r.(section := section), [line])
  {
    assert [header, line][1..] == [line];
  }

  /** A lone assignment line ends the read with its application, or with its conversion error. */
  lemma RunOneAssignment(r: Reader, line: string, key: string, value: string)
    requires Classify(line) == Assignment(key, value)
    ensures Run(r, [line])
      == match Apply(r.settings, r.section, key, value)
         case Ok(s) => Completed(s)
         case Err(e) => Threw(e, r.settings)
  {
    assert [line][1..] == [];
  }

  // ---------------------------------------------------------------------------
  // Validation against the file system
  // ---------------------------------------------------------------------------

  /** What `stat` reports for a path that exists. */
  datatype Kind = Directory | RegularFile | OtherKind

  /** The paths that exist, and the paths where `mkdir(path, 0755)` would succeed. */
  datatype FileSystem = FileSystem(kinds: map<string, Kind>, creatable: set<string>)

  /**
   * `validate_directory_access`: an existing path passes when it is a directory; a missing one
   * passes only when it may be missing and `mkdir` creates it.
   */
  function DirectoryAccess(fs: FileSystem, path: string, mustExist: bool): (r: (bool, FileSystem))
    ensures r.0 <==> (path in fs.kinds && fs.kinds[path] == Directory)
                     || (!mustExist && path !in fs.kinds && path in fs.creatable)
    ensures r.0 ==> path in r.1.kinds && r.1.kinds[path] == Directory
    ensures mustExist ==> r.1 == fs
  {
    if path in fs.kinds then (fs.kinds[path] == Directory, fs)
    else if !mustExist && path in fs.creatable then
      (true, FileSystem(fs.kinds[path := Directory], fs.creatable - {path}))
    else (false, fs)
  }

  /** The source-directory check's error, if any; the source must already exist. */
  function SourceErrors(s: Settings, fs: FileSystem): seq<ConfigError> {
    var dir := s.directories.source;
    if dir == [] then [SourceNotSpecified]
    else if !DirectoryAccess(fs, dir, true).0 then [SourceNotAccessible(dir)]
    else []
  }

  /** The destination check's error, if any, and the file system after a possible `mkdir`. */
  function DestinationCheck(s: Settings, fs: FileSystem): (seq<ConfigError>, FileSystem) {
    var dir := s.directories.dest;
    if dir == [] then ([DestinationNotSpecified], fs)
    else
      var (ok, after) := DirectoryAccess(fs, dir, false);
      (if ok then [] else [DestinationNotAccessible(dir)], after)
  }

  function DomainErrors(s: Settings): seq<ConfigError> {
    if s.dds.domainId < 0 || s.dds.domainId > 232 then [InvalidDomain(s.dds.domainId)] else []
  }

  function ChunkErrors(s: Settings): seq<ConfigError> {
    if s.sync.chunkSize == 0 || s.sync.chunkSize > 1048576 then [InvalidChunkSize(s.sync.chunkSize)] else []
  }

  /** The error lines `validate_configuration` writes, in order, and the file system afterwards. */
  function Validation(s: Settings, fs: FileSystem): (seq<ConfigError>, FileSystem) {
    var dest := DestinationCheck(s, fs);
    (SourceErrors(s, fs) + dest.0 + DomainErrors(s) + ChunkErrors(s), dest.1)
  }

  /** A failed check of `validate_configuration`. */
  datatype ConfigError =
    | SourceNotSpecified
    | SourceNotAccessible(dir: string)
    | DestinationNotSpecified
    | DestinationNotAccessible(dir: string)
    | InvalidDomain(domainId: int)
    | InvalidChunkSize(chunkSize: nat)

  /** The line each failed check writes to standard error. */
  function Message(e: ConfigError): string {
    "ERROR: " + Detail(e)
  }

  function Detail(e: ConfigError): string {
    match e
    case SourceNotSpecified => "Source directory not specified"
    case SourceNotAccessible(dir) => "Source directory not accessible: " + dir
    case DestinationNotSpecified => "Destination directory not specified"
    case DestinationNotAccessible(dir) => "Cannot create/access destination directory: " + dir
    case InvalidDomain(d) => "Invalid DDS domain ID: " + IntString(d) + " (must be 0-232)"
    case InvalidChunkSize(c) => "Invalid chunk size: " + Decimal(c) + " (must be 1-1048576 bytes)"
  }

  /** An inaccessible directory's line ends with the offending path, so different paths give different lines. */
  lemma MessageEndsWithPath(e: ConfigError)
    requires e.SourceNotAccessible? || e.DestinationNotAccessible?
    ensures var m := Message(e); |e.dir| <= |m| && m[|m| - |e.dir|..] == e.dir
  {
  }

  /** Every line starts with "ERROR: ". */
  lemma MessagePrefix(e: ConfigError)
    ensures var m := Message(e); |m| >= 7 && m[..7] == "ERROR: "
  {
    var prefix := "ERROR: ";
    assert |prefix| == 7;
    assert (prefix + Detail(e))[..7] == prefix;
  }

  /** The conditions under which the configuration is accepted. */
  predicate Acceptable(s: Settings, fs: FileSystem) {
    var source, dest := s.directories.source, s.directories.dest;
    && source != [] && source in fs.kinds && fs.kinds[source] == Directory
    && dest != []
    && ((dest in fs.kinds && fs.kinds[dest] == Directory) || (dest !in fs.kinds && dest in fs.creatable))
    && 0 <= s.dds.domainId <= 232
    && 1 <= s.sync.chunkSize <= 1048576
  }

  /** No error is written exactly when the configuration is acceptable. */
  lemma ValidationMeaning(s: Settings, fs: FileSystem)
    ensures Validation(s, fs).0 == [] <==> Acceptable(s, fs)
  {
  }

  /**
   * Every check runs whatever the others find: the domain and chunk-size errors appear exactly
   * when their own condition fails, and a missing source still lets the destination be checked.
   */
  lemma ValidationReportsEveryCheck(s: Settings, fs: FileSystem)
    ensures InvalidDomain(s.dds.domainId) in Validation(s, fs).0
      <==> s.dds.domainId < 0 || s.dds.domainId > 232
    ensures InvalidChunkSize(s.sync.chunkSize) in Validation(s, fs).0
      <==> s.sync.chunkSize == 0 || s.sync.chunkSize > 1048576
    ensures s.directories.dest == [] ==> DestinationNotSpecified in Validation(s, fs).0
  {
  }

  /** Only a destination that had to be created changes the file system. */
  lemma ValidationCreatesOnlyDestination(s: Settings, fs: FileSystem)
    ensures var after := Validation(s, fs).1;
      var dest := s.directories.dest;
      after == fs
      || (dest !in fs.kinds && dest in fs.creatable
          && after == FileSystem(fs.kinds[dest := Directory], fs.creatable - {dest}))
  {
  }

  // ---------------------------------------------------------------------------
  // The manager
  // ---------------------------------------------------------------------------

  class ConfigurationManager {
    var settings: Settings

    ghost predicate Valid()
      reads this
    {
      InRange(settings)
    }

    constructor()
      ensures settings == Defaults && Valid()
      ensures settings.dds.domainId == 42 && settings.sync.chunkSize == 65536
      ensures settings.sync.maxFileSize == 104857600
      ensures !settings.runtime.verboseLogging && !settings.runtime.daemonMode
      ensures settings.runtime.logLevel == "info"
    {
      settings := Defaults;
    }

    /** `load_configuration`: no name means the defaults; reading returns true unless a conversion throws. */
    method LoadConfiguration(configFile: string, file: Option<string>) returns (r: Result<bool, NumberError>)
      requires Valid()
      modifies this
      ensures Valid()
      ensures var out := Loaded(configFile, file, old(settings));
        settings == out.settings && r == (if out.Completed? then Ok(true) else Err(out.error))
      ensures configFile == [] || file.None? ==> r == Ok(true) && settings == old(settings)
    {
      if configFile == [] {
        return Ok(true);
      }
      r := ParseIniFile(configFile, file);
    }

    /** `parse_ini_file`: a file that cannot be opened is not an error. */
    method ParseIniFile(fileName: string, file: Option<string>) returns (r: Result<bool, NumberError>)
      requires Valid()
      modifies this
      ensures Valid()
      ensures file.None? ==> r == Ok(true) && settings == old(settings)
      ensures file.Some? ==>
        var out := Run(Reader([], old(settings)), Lines(file.value));
        settings == out.settings && r == (if out.Completed? then Ok(true) else Err(out.error))
    {
      if file.None? {
        return Ok(true);
      }
      var thrown := ReadLines(Lines(file.value));
      r := if thrown.None? then Ok(true) else Err(thrown.value);
    }

    /** The `getline` loop over the file's lines. */
    method ReadLines(lines: seq<string>) returns (thrown: Option<NumberError>)
      requires Valid()
      modifies this
      ensures Valid()
      ensures Run(Reader([], old(settings)), lines)
        == if thrown.None? then Completed(settings) else Threw(thrown.value, settings)
    {
      var section: string := [];
      var i := 0;
      while i < |lines|
        invariant 0 <= i <= |lines| && Valid()
        invariant Run(Reader([], old(settings)), lines) == Run(Reader(section, settings), lines[i..])
      {
        var rest := lines[i..];
        assert rest[0] == lines[i] && rest[1..] == lines[i + 1..];
        thrown, section := ReadLine(section, lines[i]);
        if thrown.Some? {
          return;
        }
        i := i + 1;
      }
      thrown := None;
    }

    /** One pass of the loop body: a header, an assignment, or a line to skip. */
    method ReadLine(section: string, line: string) returns (thrown: Option<NumberError>, next: string)
      requires Valid()
      modifies this
      ensures Valid()
      ensures match Step(Reader(section, old(settings)), line)
        case Ok(r) => thrown.None? && next == r.section && settings == r.settings
        case Err(e) => thrown == Some(e) && settings == old(settings)
    {
      thrown, next := None, section;
      match Classify(line) {
        case EmptyLine =>
        case Malformed =>
        case Header(name) =>
          next := name;
        case Assignment(key, value) =>
          thrown := Assign(section, key, value);
      }
    }

    /** The assignment branch of the loop body: set the member `key` names in `section`. */
    method Assign(section: string, key: string, value: string) returns (thrown: Option<NumberError>)
      requires Valid()
      modifies this
      ensures Valid()
      ensures match Apply(old(settings), section, key, value)
        case Ok(s) => thrown.None? && settings == s
        case Err(e) => thrown == Some(e) && settings == old(settings)
    {
      thrown := None;
      if section == "directories" {
        if key == "source_dir" {
          settings := settings.(directories := settings.directories.(source := value));
        } else if key == "dest_dir" {
          settings := settings.(directories := settings.directories.(dest := value));
        }
      } else if section == "dds" {
        if key == "domain_id" {
          match StoI(value) {
            case Ok(v) => settings := settings.(dds := settings.dds.(domainId := v));
            case Err(e) => thrown := Some(e);
          }
        } else if key == "dcps_config_file" {
          settings := settings.(dds := settings.dds.(configFile := value));
        }
      } else if section == "security" {
        var c := settings.security;
        if key == "identity_ca" {
          settings := settings.(security := c.(identityCa := value));
        } else if key == "permissions_ca" {
          settings := settings.(security := c.(permissionsCa := value));
        } else if key == "identity_certificate" {
          settings := settings.(security := c.(identityCertificate := value));
        } else if key == "identity_private_key" {
          settings := settings.(security := c.(identityPrivateKey := value));
        } else if key == "permissions_file" {
          settings := settings.(security := c.(permissionsFile := value));
        } else if key == "governance_file" {
          settings := settings.(security := c.(governanceFile := value));
        }
      } else if section == "sync" {
        if key == "chunk_size" {
          match StoULL(value) {
            case Ok(v) => settings := settings.(sync := settings.sync.(chunkSize := v));
            case Err(e) => thrown := Some(e);
          }
        } else if key == "max_file_size" {
          match StoULL(value) {
            case Ok(v) => settings := settings.(sync := settings.sync.(maxFileSize := v));
            case Err(e) => thrown := Some(e);
          }
        } else if key == "excluded_patterns" {
          var patterns := SplitPatterns(value);
          settings := settings.(sync := settings.sync.(excludedPatterns := patterns));
        }
      } else if section == "logging" {
        if key == "level" {
          settings := settings.(runtime := settings.runtime.(logLevel := value));
        } else if key == "file" {
          settings := settings.(runtime := settings.runtime.(logFile := value));
        }
      }
    }

    /** `validate_configuration`: every check runs and writes its error; the result says whether any did. */
    method ValidateConfiguration(fs: FileSystem) returns (valid: bool, errors: seq<ConfigError>, fsAfter: FileSystem)
      ensures valid <==> Acceptable(settings, fs)
      ensures valid <==> errors == []
      ensures (errors, fsAfter) == Validation(settings, fs)
    {
      var s := settings;
      valid := true;
      errors := [];
      fsAfter := fs;
      var ok: bool;
      var source, dest := s.directories.source, s.directories.dest;
      if source == [] {
        errors := errors + [SourceNotSpecified];
        valid := false;
      } else {
        ok, fsAfter := DirectoryAccess(fsAfter, source, true).0, DirectoryAccess(fsAfter, source, true).1;
        if !ok {
          errors := errors + [SourceNotAccessible(source)];
          valid := false;
        }
      }
      assert errors == SourceErrors(s, fs) && fsAfter == fs && (valid <==> |errors| == 0);
      ghost var e1 := errors;
      if dest == [] {
        errors := errors + [DestinationNotSpecified];
        valid := false;
      } else {
        ok, fsAfter := DirectoryAccess(fsAfter, dest, false).0, DirectoryAccess(fsAfter, dest, false).1;
        if !ok {
          errors := errors + [DestinationNotAccessible(dest)];
          valid := false;
        }
      }
      ghost var d := DestinationCheck(s, fs);
      assert errors == e1 + d.0 && fsAfter == d.1 && (valid <==> |errors| == 0) by {
        if d.0 == [] {
          assert e1 + d.0 == e1;
        }
      }
      ghost var e2 := errors;
      if s.dds.domainId < 0 || s.dds.domainId > 232 {
        errors := errors + [InvalidDomain(s.dds.domainId)];
        valid := false;
      }
      assert errors == e2 + DomainErrors(s) && (valid <==> |errors| == 0) by {
        if DomainErrors(s) == [] {
          assert e2 + [] == e2;
        }
      }
      ghost var e3 := errors;
      if s.sync.chunkSize == 0 || s.sync.chunkSize > 1048576 {
        errors := errors + [InvalidChunkSize(s.sync.chunkSize)];
        valid := false;
      }
      assert errors == e3 + ChunkErrors(s) && (valid <==> |errors| == 0) by {
        if ChunkErrors(s) == [] {
          assert e3 + [] == e3;
        }
      }
      assert errors == Validation(s, fs).0;
      ValidationMeaning(s, fs);
    }

    method SetSourceDirectory(dir: string)
      modifies this
      ensures settings == old(settings).(directories := old(settings).directories.(source := dir))
    {
      settings := settings.(directories := settings.directories.(source := dir));
    }

    method SetDestinationDirectory(dir: string)
      modifies this
      ensures settings == old(settings).(directories := old(settings).directories.(dest := dir))
    {
      settings := settings.(directories := settings.directories.(dest := dir));
    }

    method SetDomainId(domainId: int)
      requires Valid() && IntMin <= domainId <= IntMax
      modifies this
      ensures Valid() && settings == old(settings).(dds := old(settings).dds.(domainId := domainId))
    {
      settings := settings.(dds := settings.dds.(domainId := domainId));
    }

    method SetDcpsConfigFile(file: string)
      modifies this
      ensures settings == old(settings).(dds := old(settings).dds.(configFile := file))
    {
      settings := settings.(dds := settings.dds.(configFile := file));
    }

    method SetChunkSize(size: nat)
      requires Valid() && size < ULongModulus
      modifies this
      ensures Valid() && settings == old(settings).(sync := old(settings).sync.(chunkSize := size))
    {
      settings := settings.(sync := settings.sync.(chunkSize := size));
    }

    method SetMaxFileSize(size: nat)
      requires Valid() && size < ULongModulus
      modifies this
      ensures Valid() && settings == old(settings).(sync := old(settings).sync.(maxFileSize := size))
    {
      settings := settings.(sync := settings.sync.(maxFileSize := size));
    }

    method SetVerboseLogging(verbose: bool)
      modifies this
      ensures settings == old(settings).(runtime := old(settings).runtime.(verboseLogging := verbose))
    {
      settings := settings.(runtime := settings.runtime.(verboseLogging := verbose));
    }

    method SetDaemonMode(daemon: bool)
      modifies this
      ensures settings == old(settings).(runtime := old(settings).runtime.(daemonMode := daemon))
    {
      settings := settings.(runtime := settings.runtime.(daemonMode := daemon));
    }
  }

  /** The inner `getline(ss, pattern, ',')` loop: trim each piece and keep the non-empty ones. */
  method SplitPatterns(value: string) returns (patterns: seq<string>)
    ensures patterns == Patterns(value)
  {
    var pieces := Split(value, ',');
    patterns := [];
    for k := 0 to |pieces|
      invariant patterns == KeptPatterns(pieces[..k])
    {
      assert pieces[..k + 1][..k] == pieces[..k];
      var pattern := Trim(pieces[k], Blank);
      if pattern != [] {
        patterns := patterns + [pattern];
      }
    }
    assert pieces[..|pieces|] == pieces;
  }
}
