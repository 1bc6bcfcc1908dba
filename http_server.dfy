/**
 * The request handling of the CommUnity gateway (`HttpServer`): routing on the path
 * components, the bearer-token gate in front of the HSDS endpoints, the naive JSON field
 * extraction and the four record decoders, id generation, and the submit pipeline
 * decode -> validate -> publish.
 *
 * The clock (`time(nullptr)`) is the parameter `now`; the outcome of the DDS `write` call is
 * the parameter `writeOk`.
 */
module HttpService {
  import opened Wrappers
  import opened Text
  import opened SortedMaps
  import opened HttpMessages
  import opened HsdsRecords
  import opened HsdsRules
  import opened HsdsValidation
  import opened HsdsPublishing

  // ---------------------------------------------------------------------------
  // JSON field extraction
  // ---------------------------------------------------------------------------

  /** The quoted key a field lookup searches for. */
  function KeyPattern(key: string): string {
    "\"" + key + "\""
  }

  /**
   * `extractJsonValue`: the text between the first two '"' after the first ':' that follows
   * the first `"key"`; "" when any of these is missing.
   */
  function ExtractJsonValue(json: string, key: string): (r: string)
    ensures '"' !in r
    ensures FindFrom(json, KeyPattern(key), 0).None? ==> r == []
  {
    match FindFrom(json, KeyPattern(key), 0)
    case None => []
    case Some(k) =>
      match FindFrom(json, ":", k)
      case None => []
      case Some(c) =>
        match FindFrom(json, "\"", c)
        case None => []
        case Some(q) =>
          match FindFrom(json, "\"", q + 1)
          case None => []
          case Some(e) =>
            NoCharBetween(json, '"', q + 1, e);
            json[q + 1..e]
  }

  /** A one-field object `{"key":"value"}`. */
  function SingleField(key: string, value: string): string {
    "{" + KeyPattern(key) + ":" + "\"" + value + "\"" + "}"
  }

  /** The value written into a one-field object is the value extracted from it. */
  lemma ExtractSingleField(key: string, value: string)
    requires '"' !in key && ':' !in key && '"' !in value
    ensures ExtractJsonValue(SingleField(key, value), key) == value
  {
    var json := SingleField(key, value);
    var pat := KeyPattern(key);
    var n := |key|;
    var e := n + 5 + |value|;
    assert json == "{" + pat + ":" + "\"" + value + "\"" + "}";
    assert json[0] == '{' && pat[0] == '"';
    assert json[1..n + 3] == pat;
    assert json[n + 3] == ':' && json[n + 4] == '"' && json[e] == '"';
    assert json[n + 5..e] == value;
    assert !OccursAt(json, pat, 0);
    FindFromFirst(json, pat, 0, 1);
    assert pat == "\"" + key + "\"";
    FindCharAt(json, ':', 1, n + 3);
    FindCharAt(json, '"', n + 3, n + 4);
    FindCharAt(json, '"', n + 5, e);
  }

  // ---------------------------------------------------------------------------
  // Id generation
  // ---------------------------------------------------------------------------

  /** `generateId`: "auto_" + the time + "_" + the incremented counter. */
  function GeneratedId(now: nat, counter: nat): string {
    "auto_" + Decimal(now) + "_" + Decimal(counter)
  }

  /** Two digit strings between the same separators can be read back apart. */
  lemma IdParts(a: string, b: string, a2: string, b2: string)
    requires AllDigits(a) && AllDigits(b) && AllDigits(a2) && AllDigits(b2)
    requires "auto_" + a + "_" + b == "auto_" + a2 + "_" + b2
    ensures a == a2 && b == b2
  {
    var s := "auto_" + a + "_" + b;
    var s2 := "auto_" + a2 + "_" + b2;
    assert s[5 + |a|] == '_';
    assert s2[5 + |a2|] == '_';
    assert a == s[5..5 + |a|];
    assert a2 == s2[5..5 + |a2|];
    assert b == s[6 + |a|..];
    assert b2 == s2[6 + |a2|..];
  }

  /** Ids made from different counter values (or different times) differ. */
  lemma GeneratedIdInjective(now: nat, counter: nat, now2: nat, counter2: nat)
    requires now != now2 || counter != counter2
    ensures GeneratedId(now, counter) != GeneratedId(now2, counter2)
  {
    if GeneratedId(now, counter) == GeneratedId(now2, counter2) {
      IdParts(Decimal(now), Decimal(counter), Decimal(now2), Decimal(counter2));
      DecimalInjective(now, now2);
      DecimalInjective(counter, counter2);
    }
  }

  /** A generated id begins "auto_" and passes `validateId` while it fits in 100 characters. */
  lemma GeneratedIdValid(now: nat, counter: nat)
    requires |Decimal(now)| + |Decimal(counter)| <= MaxIdLength - 6
    ensures GeneratedId(now, counter)[..5] == "auto_"
    ensures IsValidId(GeneratedId(now, counter))
  {
    var id := GeneratedId(now, counter);
    assert forall i :: 0 <= i < |id| ==> IsIdChar(id[i]) by {
      forall i | 0 <= i < |id| ensures IsIdChar(id[i]) {
        if i < 5 {
        } else if i < 5 + |Decimal(now)| {
          assert id[i] == Decimal(now)[i - 5];
        } else if i > 5 + |Decimal(now)| {
          assert id[i] == Decimal(counter)[i - 6 - |Decimal(now)|];
        }
      }
    }
  }

  // ---------------------------------------------------------------------------
  // Record decoders
  // ---------------------------------------------------------------------------

  /** The id the decoders keep: the extracted one, or a generated one when it is empty. */
  function DecodedId(json: string, freshId: string): string {
    var id := ExtractJsonValue(json, "id");
    if id == [] then freshId else id
  }

  /** Whether a decoder asks for a generated id. */
  predicate NeedsId(json: string) {
    ExtractJsonValue(json, "id") == []
  }

  /** `jsonToOrganization`, on a default-constructed organization. */
  function OrganizationFromJson(json: string, freshId: string): Organization {
    EmptyOrganization.(
      id := DecodedId(json, freshId),
      name := ExtractJsonValue(json, "name"),
      description := ExtractJsonValue(json, "description"),
      email := ExtractJsonValue(json, "email"),
      website := ExtractJsonValue(json, "website"))
  }

  /** `jsonToProgram`, on a default-constructed program. */
  function ProgramFromJson(json: string, freshId: string): Program {
    EmptyProgram.(
      id := DecodedId(json, freshId),
      organizationId := ExtractJsonValue(json, "organization_id"),
      name := ExtractJsonValue(json, "name"),
      description := ExtractJsonValue(json, "description"))
  }

  /** `jsonToService`, on a default-constructed service. */
  function ServiceFromJson(json: string, freshId: string): Service {
    EmptyService.(
      id := DecodedId(json, freshId),
      organizationId := ExtractJsonValue(json, "organization_id"),
      name := ExtractJsonValue(json, "name"),
      description := ExtractJsonValue(json, "description"),
      url := ExtractJsonValue(json, "url"),
      email := ExtractJsonValue(json, "email"))
  }

  /** `jsonToLocation`, on a default-constructed location. */
  function LocationFromJson(json: string, freshId: string): Location {
    EmptyLocation.(
      id := DecodedId(json, freshId),
      organizationId := ExtractJsonValue(json, "organization_id"),
      name := ExtractJsonValue(json, "name"),
      description := ExtractJsonValue(json, "description"))
  }

  /** The record a submit decodes for a table name, or None for a table it does not handle. */
  function Decoded(table: string, json: string, freshId: string): Option<Record> {
    if table == "organization" then Some(OrganizationRecord(OrganizationFromJson(json, freshId)))
    else if table == "program" then Some(ProgramRecord(ProgramFromJson(json, freshId)))
    else if table == "service" then Some(ServiceRecord(ServiceFromJson(json, freshId)))
    else if table == "location" then Some(LocationRecord(LocationFromJson(json, freshId)))
    else None
  }

  /** The four tables a submit handles. */
  const SubmitTables: seq<string> := ["organization", "program", "service", "location"]

  /** Exactly the four tables decode. */
  lemma DecodedTables(table: string, json: string, freshId: string)
    ensures Decoded(table, json, freshId).Some? <==> table in SubmitTables
  {
  }

  /** Only an organization travels on the Organization topic. */
  lemma DecodedTopic(table: string, json: string, freshId: string)
    ensures Decoded(table, json, freshId).Some? ==>
      (TopicOf(Decoded(table, json, freshId).value) == OrganizationTopic <==> table == "organization")
  {
  }

  /** A decoded record is one of the four main kinds, never one of the minor ones. */
  lemma DecodedKinds(table: string, json: string, freshId: string)
    ensures Decoded(table, json, freshId).Some? ==>
      var r := Decoded(table, json, freshId).value;
      WellFormed(r) && (r.OrganizationRecord? || r.ProgramRecord? || r.ServiceRecord? || r.LocationRecord?)
  {
  }

  /**
   * The decoded id is never empty when the fresh id is not, and is the supplied one whenever
   * the body has one.
   */
  lemma DecodedIdShape(json: string, freshId: string)
    ensures freshId != [] ==> DecodedId(json, freshId) != []
    ensures !NeedsId(json) ==> DecodedId(json, freshId) == ExtractJsonValue(json, "id")
    ensures NeedsId(json) ==> DecodedId(json, freshId) == freshId
  {
  }

  /** A body that names only the organization gets the generated id and that name. */
  lemma DecodeNamedOrganization(name: string, freshId: string)
    requires '"' !in name
    ensures NeedsId(SingleField("name", name)) ==>
      OrganizationFromJson(SingleField("name", name), freshId).id == freshId
    ensures OrganizationFromJson(SingleField("name", name), freshId).name == name
    ensures OrganizationFromJson(SingleField("name", name), freshId).dmpSourceId == []
  {
    ExtractSingleField("name", name);
  }

  /** The decoders for the other twenty HSDS types are stubs that always fail. */
  function StubDecoder(t: Topic, json: string): (ok: bool)
    requires IsMinorTopic(t) || t == ContactTopic || t == PhoneTopic || t == AddressTopic
      || t == ServiceAtLocationTopic || t == ScheduleTopic
    ensures !ok
  {
    false
  }

  // ---------------------------------------------------------------------------
  // Routing
  // ---------------------------------------------------------------------------

  datatype Endpoint =
    | Health
    | Status
    | Unauthorized
    | Submit(table: string)
    | Update(table: string, id: string)
    | Delete(table: string, id: string)
    | NotFound

  /** Components [1..3] are "api", "v1" and `name` (component [0] is not inspected). */
  predicate VersionedPath(cs: seq<string>, name: string) {
    |cs| >= 4 && cs[1] == "api" && cs[2] == "v1" && cs[3] == name
  }

  /** The Authorization header value that opens the HSDS endpoints. */
  function ExpectedAuth(token: string): string {
    "Bearer " + token
  }

  /** `handleRequest`'s dispatch. */
  function Route(verb: Method, cs: seq<string>, auth: string, token: string): Endpoint {
    if verb == GET && |cs| >= 3 && cs[1] == "api" && cs[2] == "v1" && |cs| == 4 && cs[3] == "health" then Health
    else if verb == GET && |cs| >= 3 && cs[1] == "api" && cs[2] == "v1" && |cs| == 4 && cs[3] == "status" then Status
    else if VersionedPath(cs, "hsds") then
      if auth != ExpectedAuth(token) then Unauthorized
      else if |cs| == 5 && verb == POST then Submit(cs[4])
      else if |cs| == 6 && verb == PUT then Update(cs[4], cs[5])
      else if |cs| == 6 && verb == DELETE then Delete(cs[4], cs[5])
      else NotFound
    else NotFound
  }

  /**
   * The authentication gate: an HSDS path with the wrong Authorization header is refused
   * whatever the method and length, and no data endpoint is reached without the right one.
   */
  lemma AuthGate(verb: Method, cs: seq<string>, auth: string, token: string)
    ensures Route(verb, cs, auth, token) == Unauthorized <==> VersionedPath(cs, "hsds") && auth != ExpectedAuth(token)
    ensures (Route(verb, cs, auth, token).Submit? || Route(verb, cs, auth, token).Update?
      || Route(verb, cs, auth, token).Delete?) ==> VersionedPath(cs, "hsds") && auth == ExpectedAuth(token)
  {
  }

  /** Which method and length reach each data endpoint; any other method gives 404. */
  lemma DataRoutes(verb: Method, cs: seq<string>, token: string)
    requires VersionedPath(cs, "hsds")
    ensures var r := Route(verb, cs, ExpectedAuth(token), token);
      (r.Submit? <==> |cs| == 5 && verb == POST)
      && (r.Update? <==> |cs| == 6 && verb == PUT)
      && (r.Delete? <==> |cs| == 6 && verb == DELETE)
      && (r == NotFound <==> !((|cs| == 5 && verb == POST) || (|cs| == 6 && (verb == PUT || verb == DELETE))))
      && (r.Submit? || r.Update? || r.Delete? ==> r.table == cs[4])
  {
  }

  /** Health and status answer only GET on exactly four components, with no token needed. */
  lemma InfoRoutes(verb: Method, cs: seq<string>, auth: string, token: string)
    ensures Route(verb, cs, auth, token) == Health <==> verb == GET && |cs| == 4 && VersionedPath(cs, "health")
    ensures Route(verb, cs, auth, token) == Status <==> verb == GET && |cs| == 4 && VersionedPath(cs, "status")
  {
  }

  /** A '/'-free, non-empty path component. */
  predicate Segment(s: string) {
    s != [] && '/' !in s
  }

  /**
   * An end-to-end route through the path parser: `/<p>/api/v1/hsds/<table>` with the right
   * token and POST reaches the submit of `<table>`, while `/api/v1/health`, with nothing in
   * front of "api", is not found.
   */
  lemma RouteOfPaths(p: string, table: string, token: string)
    requires Segment(p) && Segment(table)
    ensures Route(POST, PathComponents("/" + Join([p, "api", "v1", "hsds", table], "/")), ExpectedAuth(token), token)
      == Submit(table)
    ensures Route(GET, PathComponents("/" + Join(["api", "v1", "health"], "/")), "", token) == NotFound
  {
    var cs := [p, "api", "v1", "hsds", table];
    PathComponentsRoundTrip(cs);
    var health := ["api", "v1", "health"];
    PathComponentsRoundTrip(health);
  }

  // ---------------------------------------------------------------------------
  // Response bodies
  // ---------------------------------------------------------------------------

  function HealthBody(now: nat): string {
    "{\"status\":\"healthy\",\"timestamp\":\"" + Decimal(now) + "\"}"
  }

  function StatusBody(initialized: bool, published: nat, requests: nat, dmpId: string): string {
    "{\"publisher_status\":\"" + (if initialized then "initialized" else "not_initialized") + "\","
    + "\"published_messages\":" + Decimal(published) + ","
    + "\"api_requests\":" + Decimal(requests) + ","
    + "\"dmp_id\":\"" + dmpId + "\""
    + "}"
  }

  const CreatedBody: string := "{\"status\":\"created\",\"message\":\"Data published successfully\"}"

  /** The status and body of a submit, given whether the record was delivered. */
  function SubmitResponse(table: string, delivered: bool): (r: (int, string))
    ensures r.0 in {201, 400, 500}
  {
    if table !in SubmitTables then (400, ErrorBody("Unknown table: " + table))
    else if delivered then (201, CreatedBody)
    else (500, ErrorBody("Failed to publish data"))
  }

  /** The errors `validateX` leaves for one of the four submitted record kinds. */
  function SubmitErrors(r: Record): seq<string> {
    match r
    case OrganizationRecord(o) => OrganizationErrors(o)
    case ProgramRecord(p) => ProgramErrors(p)
    case ServiceRecord(s) => ServiceErrors(s)
    case LocationRecord(l) => LocationErrors(l)
    case _ => []
  }

  /** Whether a record was decoded and it breaks none of its rules. */
  predicate Validates(d: Option<Record>) {
    d.Some? && SubmitErrors(d.value) == []
  }

  /**
   * Whether a submit reaches the data writer and the write succeeds, given whether the
   * decoded record validated.
   */
  predicate Delivers(d: Option<Record>, valid: bool, writers: map<string, Topic>, writeOk: bool) {
    d.Some? && valid && TopicOf(d.value) == OrganizationTopic
    && TopicName(OrganizationTopic) in writers && writeOk
  }

  /** A created (201) answer implies an organization that validated and was written. */
  lemma CreatedOnlyForOrganizations(table: string, json: string, freshId: string, writers: map<string, Topic>, writeOk: bool)
    ensures var d := Decoded(table, json, freshId);
      SubmitResponse(table, Delivers(d, Validates(d), writers, writeOk)).0 == 201 <==>
        table == "organization" && OrganizationErrors(OrganizationFromJson(json, freshId)) == []
        && TopicName(OrganizationTopic) in writers && writeOk
  {
    DecodedTables(table, json, freshId);
    DecodedTopic(table, json, freshId);
  }

  // ---------------------------------------------------------------------------
  // The server
  // ---------------------------------------------------------------------------

  class HttpServer {
    /** `publisher_` */
    const publisher: Publisher
    /** `validator_`, owned by the server */
    const validator: Validator
    /** `auth_token_`, read from the configuration */
    const authToken: string
    /** The configuration's DMP id, reported by the status endpoint. */
    const dmpId: string
    /** `request_count_` */
    var requestCount: nat
    /** The `generateId` counter. */
    var idCounter: nat

    ghost predicate Valid()
      reads this, publisher
    {
      publisher.Valid()
    }

    constructor(publisher: Publisher, authToken: string, dmpId: string)
      ensures this.publisher == publisher && this.authToken == authToken && this.dmpId == dmpId
      ensures fresh(validator) && validator.lastErrors == [] && !validator.strictMode
      ensures requestCount == 0 && idCounter == 0
    {
      this.publisher := publisher;
      this.authToken := authToken;
      this.dmpId := dmpId;
      validator := new Validator();
      requestCount := 0;
      idCounter := 0;
    }

    /** `generateId`: the counter is incremented first, so the first id carries 1. */
    method GenerateId(now: nat) returns (id: string)
      modifies this
      ensures idCounter == old(idCounter) + 1
      ensures id == GeneratedId(now, idCounter)
      ensures requestCount == old(requestCount)
    {
      idCounter := idCounter + 1;
      id := "auto_" + Decimal(now) + "_" + Decimal(idCounter);
    }

    /** The id step shared by the decoders: generate an id only when the body has none. */
    method FillId(json: string, now: nat) returns (id: string)
      modifies this
      ensures id == DecodedId(json, GeneratedId(now, old(idCounter) + 1))
      ensures idCounter == old(idCounter) + (if NeedsId(json) then 1 else 0)
      ensures requestCount == old(requestCount)
    {
      id := ExtractJsonValue(json, "id");
      if |id| == 0 {
        id := GenerateId(now);
      }
    }

    /** `jsonToOrganization`: always succeeds. */
    method JsonToOrganization(json: string, now: nat) returns (ok: bool, org: Organization)
      modifies this
      ensures ok && org == OrganizationFromJson(json, GeneratedId(now, old(idCounter) + 1))
      ensures idCounter == old(idCounter) + (if NeedsId(json) then 1 else 0)
      ensures requestCount == old(requestCount)
    {
      org := EmptyOrganization;
      org := org.(id := ExtractJsonValue(json, "id"));
      org := org.(name := ExtractJsonValue(json, "name"));
      org := org.(description := ExtractJsonValue(json, "description"));
      org := org.(email := ExtractJsonValue(json, "email"));
      org := org.(website := ExtractJsonValue(json, "website"));
      var id := FillId(json, now);
      org := org.(id := id);
      ok := true;
    }

    /** `jsonToProgram`: always succeeds. */
    method JsonToProgram(json: string, now: nat) returns (ok: bool, program: Program)
      modifies this
      ensures ok && program == ProgramFromJson(json, GeneratedId(now, old(idCounter) + 1))
      ensures idCounter == old(idCounter) + (if NeedsId(json) then 1 else 0)
      ensures requestCount == old(requestCount)
    {
      program := EmptyProgram;
      program := program.(organizationId := ExtractJsonValue(json, "organization_id"));
      program := program.(name := ExtractJsonValue(json, "name"));
      program := program.(description := ExtractJsonValue(json, "description"));
      var id := FillId(json, now);
      program := program.(id := id);
      ok := true;
    }

    /** `jsonToService`: always succeeds. */
    method JsonToService(json: string, now: nat) returns (ok: bool, service: Service)
      modifies this
      ensures ok && service == ServiceFromJson(json, GeneratedId(now, old(idCounter) + 1))
      ensures idCounter == old(idCounter) + (if NeedsId(json) then 1 else 0)
      ensures requestCount == old(requestCount)
    {
      service := EmptyService;
      service := service.(organizationId := ExtractJsonValue(json, "organization_id"));
      service := service.(name := ExtractJsonValue(json, "name"));
      service := service.(description := ExtractJsonValue(json, "description"));
      service := service.(url := ExtractJsonValue(json, "url"));
      service := service.(email := ExtractJsonValue(json, "email"));
      var id := FillId(json, now);
      service := service.(id := id);
      ok := true;
    }

    /** `jsonToLocation`: always succeeds. */
    method JsonToLocation(json: string, now: nat) returns (ok: bool, location: Location)
      modifies this
      ensures ok && location == LocationFromJson(json, GeneratedId(now, old(idCounter) + 1))
      ensures idCounter == old(idCounter) + (if NeedsId(json) then 1 else 0)
      ensures requestCount == old(requestCount)
    {
      location := EmptyLocation;
      location := location.(organizationId := ExtractJsonValue(json, "organization_id"));
      location := location.(name := ExtractJsonValue(json, "name"));
      location := location.(description := ExtractJsonValue(json, "description"));
      var id := FillId(json, now);
      location := location.(id := id);
      ok := true;
    }

    /** Decode the body for one of the four tables. */
    method Decode(table: string, json: string, now: nat) returns (d: Option<Record>)
      modifies this
      ensures d == Decoded(table, json, GeneratedId(now, old(idCounter) + 1))
      ensures idCounter == old(idCounter) + (if d.Some? && NeedsId(json) then 1 else 0)
      ensures requestCount == old(requestCount)
    {
      if table == "organization" {
        var ok, org := JsonToOrganization(json, now);
        d := Some(OrganizationRecord(org));
      } else if table == "program" {
        var ok, program := JsonToProgram(json, now);
        d := Some(ProgramRecord(program));
      } else if table == "service" {
        var ok, service := JsonToService(json, now);
        d := Some(ServiceRecord(service));
      } else if table == "location" {
        var ok, location := JsonToLocation(json, now);
        d := Some(LocationRecord(location));
      } else {
        d := None;
      }
    }

    /** Validate a decoded record with the validator of its kind. */
    method ValidateDecoded(r: Record) returns (valid: bool)
      requires r.OrganizationRecord? || r.ProgramRecord? || r.ServiceRecord? || r.LocationRecord?
      modifies validator
      ensures validator.lastErrors == SubmitErrors(r)
      ensures valid <==> SubmitErrors(r) == []
      ensures validator.strictMode == old(validator.strictMode)
    {
      match r
      case OrganizationRecord(o) => valid := validator.ValidateOrganization(o);
      case ProgramRecord(p) => valid := validator.ValidateProgram(p);
      case ServiceRecord(s) => valid := validator.ValidateService(s);
      case LocationRecord(l) => valid := validator.ValidateLocation(l);
    }

    /** Validate, then publish only a record that validated. */
    method ValidateAndPublish(r: Record, writeOk: bool) returns (success: bool)
      requires Valid()
      requires r.OrganizationRecord? || r.ProgramRecord? || r.ServiceRecord? || r.LocationRecord?
      modifies publisher, validator
      ensures Valid()
      ensures success == Delivers(Some(r), SubmitErrors(r) == [], old(publisher.writers), writeOk)
      ensures validator.lastErrors == SubmitErrors(r) && validator.strictMode == old(validator.strictMode)
      ensures publisher.sent == old(publisher.sent) + (if success then [Inject(r, publisher.dmpId)] else [])
      ensures publisher.publishedCount == old(publisher.publishedCount) + (if success then 1 else 0)
      ensures publisher.initialized == old(publisher.initialized) && publisher.dmpId == old(publisher.dmpId)
      ensures publisher.writers == old(publisher.writers) && publisher.topics == old(publisher.topics)
    {
      success := false;
      var valid := ValidateDecoded(r);
      if valid {
        success := publisher.Publish(r, writeOk);
      }
    }

    /**
     * `handleSubmitData`: an unknown table is refused with 400 before anything else; otherwise
     * the body is decoded, validated, and published only when it validated, and the answer
     * is 201 exactly when the publish succeeded, else 500.
     */
    method HandleSubmitData(table: string, json: string, now: nat, writeOk: bool) returns (response: HttpResponse)
      requires Valid()
      modifies this, publisher, validator
      ensures Valid() && fresh(response) && response.Valid()
      ensures var d := Decoded(table, json, GeneratedId(now, old(idCounter) + 1));
        var delivered := Delivers(d, Validates(d), old(publisher.writers), writeOk);
        (response.status, response.body) == SubmitResponse(table, delivered)
        && publisher.sent == old(publisher.sent) + (if delivered then [Inject(d.value, publisher.dmpId)] else [])
        && publisher.publishedCount == old(publisher.publishedCount) + (if delivered then 1 else 0)
        && validator.lastErrors == (if d.Some? then SubmitErrors(d.value) else old(validator.lastErrors))
        && idCounter == old(idCounter) + (if d.Some? && NeedsId(json) then 1 else 0)
      ensures publisher.initialized == old(publisher.initialized) && publisher.dmpId == old(publisher.dmpId)
      ensures publisher.writers == old(publisher.writers) && publisher.topics == old(publisher.topics)
      ensures validator.strictMode == old(validator.strictMode)
      ensures requestCount == old(requestCount)
    {
      var d := Decode(table, json, now);
      if d.None? {
        assert table !in SubmitTables by { DecodedTables(table, json, GeneratedId(now, old(idCounter) + 1)); }
        response := ErrorResponse(400, "Unknown table: " + table);
        return;
      }
      assert table in SubmitTables by { DecodedTables(table, json, GeneratedId(now, old(idCounter) + 1)); }
      var success := ValidateAndPublish(d.value, writeOk);
      response := PublishAnswer(table, success);
    }

    /** The answer once the record was handed to the publisher: 201 when it was written, else 500. */
    method PublishAnswer(table: string, success: bool) returns (response: HttpResponse)
      requires table in SubmitTables
      ensures fresh(response) && response.Valid()
      ensures (response.status, response.body) == SubmitResponse(table, success)
    {
      response := new HttpResponse();
      if success {
        response.SetStatus(201);
        response.SetJsonBody(CreatedBody);
      } else {
        response.SetErrorResponse(500, "Failed to publish data");
      }
    }

    /** `handleUpdateData`: the same as a submit; the id is not used. */
    method HandleUpdateData(table: string, id: string, json: string, now: nat, writeOk: bool) returns (response: HttpResponse)
      requires Valid()
      modifies this, publisher, validator
      ensures Valid() && fresh(response) && response.Valid()
      ensures var d := Decoded(table, json, GeneratedId(now, old(idCounter) + 1));
        var delivered := Delivers(d, Validates(d), old(publisher.writers), writeOk);
        (response.status, response.body) == SubmitResponse(table, delivered)
        && publisher.sent == old(publisher.sent) + (if delivered then [Inject(d.value, publisher.dmpId)] else [])
        && publisher.publishedCount == old(publisher.publishedCount) + (if delivered then 1 else 0)
        && validator.lastErrors == (if d.Some? then SubmitErrors(d.value) else old(validator.lastErrors))
        && idCounter == old(idCounter) + (if d.Some? && NeedsId(json) then 1 else 0)
      ensures publisher.initialized == old(publisher.initialized) && publisher.dmpId == old(publisher.dmpId)
      ensures publisher.writers == old(publisher.writers) && publisher.topics == old(publisher.topics)
      ensures validator.strictMode == old(validator.strictMode)
      ensures requestCount == old(requestCount)
    {
      response := HandleSubmitData(table, json, now, writeOk);
    }

    /** `handleDeleteData`: always 501. */
    method HandleDeleteData(table: string, id: string) returns (response: HttpResponse)
      ensures fresh(response) && response.Valid()
      ensures (response.status, response.body) == (501, ErrorBody("DELETE operations not implemented"))
    {
      response := new HttpResponse();
      response.SetErrorResponse(501, "DELETE operations not implemented");
    }

    /** `handleHealthCheck`: 200 with the time. */
    method HandleHealthCheck(now: nat) returns (response: HttpResponse)
      ensures fresh(response) && response.Valid()
      ensures (response.status, response.body) == (200, HealthBody(now))
    {
      response := new HttpResponse();
      response.SetJsonBody(HealthBody(now));
    }

    /** `handleStatus`: 200 with the publisher's state, the request count and the DMP id. */
    method HandleStatus() returns (response: HttpResponse)
      ensures fresh(response) && response.Valid()
      ensures (response.status, response.body)
        == (200, StatusBody(publisher.initialized, publisher.publishedCount, requestCount, dmpId))
    {
      response := new HttpResponse();
      response.SetJsonBody(StatusBody(publisher.initialized, publisher.publishedCount, requestCount, dmpId));
    }

    /** An error answer built by `setErrorResponse`. */
    method ErrorResponse(status: int, message: string) returns (response: HttpResponse)
      ensures fresh(response) && response.Valid()
      ensures (response.status, response.body) == (status, ErrorBody(message))
    {
      response := new HttpResponse();
      response.SetErrorResponse(status, message);
    }

    /** The routes that neither decode nor publish. */
    method HandleOtherRoute(route: Endpoint, now: nat) returns (response: HttpResponse)
      requires !(route.Submit? || route.Update?)
      ensures fresh(response) && response.Valid()
      ensures (response.status, response.body)
        == Respond(route, false, now, StatusBody(publisher.initialized, publisher.publishedCount, requestCount, dmpId))
    {
      match route {
        case Health =>
          response := HandleHealthCheck(now);
        case Status =>
          response := HandleStatus();
        case Unauthorized =>
          response := ErrorResponse(401, "Unauthorized");
        case Delete(table, id) =>
          response := HandleDeleteData(table, id);
        case NotFound =>
          response := ErrorResponse(404, "Not Found");
      }
    }

    /** The two routes that run the submit pipeline. */
    method HandleDataRoute(route: Endpoint, body: string, now: nat, writeOk: bool) returns (response: HttpResponse)
      requires Valid() && (route.Submit? || route.Update?)
      modifies this, publisher, validator
      ensures Valid() && fresh(response) && response.Valid()
      ensures DataOutcome(route, body, GeneratedId(now, old(idCounter) + 1), old(publisher.writers), writeOk, now,
                          publisher.dmpId, old(publisher.sent), publisher.sent,
                          old(validator.lastErrors), validator.lastErrors, old(idCounter), idCounter,
                          (response.status, response.body))
      ensures publisher.publishedCount == old(publisher.publishedCount) + (|publisher.sent| - |old(publisher.sent)|)
      ensures publisher.initialized == old(publisher.initialized) && publisher.dmpId == old(publisher.dmpId)
      ensures publisher.writers == old(publisher.writers) && publisher.topics == old(publisher.topics)
      ensures validator.strictMode == old(validator.strictMode) && requestCount == old(requestCount)
    {
      if route.Submit? {
        response := HandleSubmitData(route.table, body, now, writeOk);
      } else {
        response := HandleUpdateData(route.table, route.id, body, now, writeOk);
      }
    }

    /**
     * `handleRequest`: dispatch on the route of the request's path components. The answer is
     * the route's `Respond`, and only a submit or an update reaches the submit pipeline;
     * every other route leaves the server, the validator and the publisher as they were.
     */
    method HandleRequest(request: HttpRequest, now: nat, writeOk: bool) returns (response: HttpResponse)
      requires Valid()
      modifies this, publisher, validator
      ensures Valid() && fresh(response) && response.Valid()
      ensures var route := Route(request.verb, PathComponents(request.path), request.GetHeader("Authorization"), authToken);
        !(route.Submit? || route.Update?) ==>
          (response.status, response.body)
            == Respond(route, false, now, StatusBody(publisher.initialized, publisher.publishedCount, requestCount, dmpId))
          && unchanged(this, publisher, validator)
      ensures var route := Route(request.verb, PathComponents(request.path), request.GetHeader("Authorization"), authToken);
        route.Submit? || route.Update? ==>
          DataOutcome(route, request.body, GeneratedId(now, old(idCounter) + 1), old(publisher.writers), writeOk, now,
                      publisher.dmpId, old(publisher.sent), publisher.sent,
                      old(validator.lastErrors), validator.lastErrors, old(idCounter), idCounter,
                      (response.status, response.body))
      ensures var route := Route(request.verb, PathComponents(request.path), request.GetHeader("Authorization"), authToken);
        route.Submit? || route.Update? ==>
          && publisher.publishedCount == old(publisher.publishedCount) + (|publisher.sent| - |old(publisher.sent)|)
          && publisher.initialized == old(publisher.initialized) && publisher.dmpId == old(publisher.dmpId)
          && publisher.writers == old(publisher.writers) && publisher.topics == old(publisher.topics)
          && validator.strictMode == old(validator.strictMode) && requestCount == old(requestCount)
    {
      ghost var counter0, writers0, sent0, errors0 := idCounter, publisher.writers, publisher.sent, validator.lastErrors;
      var components := request.GetPathComponents();
      var route := Route(request.verb, components, request.GetHeader("Authorization"), authToken);
      if route.Submit? || route.Update? {
        response := HandleDataRoute(route, request.body, now, writeOk);
        assert DataOutcome(route, request.body, GeneratedId(now, counter0 + 1), writers0, writeOk, now,
                           publisher.dmpId, sent0, publisher.sent, errors0, validator.lastErrors, counter0, idCounter,
                           (response.status, response.body));
        assert route == Route(request.verb, PathComponents(request.path), request.GetHeader("Authorization"), authToken);
      } else {
        response := HandleOtherRoute(route, now);
      }
    }
  }

  /**
   * What a submit or an update route comes to: the answer for the decoded record, the
   * publisher's log, extended by the stamped record exactly when it was delivered, and the
   * validator's errors and the id counter as the pipeline leaves them.
   */
  ghost predicate DataOutcome(route: Endpoint, json: string, freshId: string, writers: map<string, Topic>,
                              writeOk: bool, now: nat, dmpId: string, sentBefore: seq<Record>, sentAfter: seq<Record>,
                              errorsBefore: seq<string>, errorsAfter: seq<string>, counterBefore: nat, counterAfter: nat,
                              answer: (int, string))
  {
    (route.Submit? || route.Update?)
    && var d := Decoded(route.table, json, freshId);
    var delivered := Delivers(d, errorsAfter == [], writers, writeOk);
    answer == Respond(route, delivered, now, [])
    && sentAfter == sentBefore + (if delivered then [Inject(d.value, dmpId)] else [])
    && SubmitEffects(d, json, errorsBefore, errorsAfter, counterBefore, counterAfter)
  }

  /**
   * What the submit pipeline leaves behind besides the answer: a decoded record's rule errors
   * in the validator, and one more drawn id when the body named none.
   */
  ghost predicate SubmitEffects(d: Option<Record>, json: string, errorsBefore: seq<string>, errorsAfter: seq<string>,
                                counterBefore: nat, counterAfter: nat)
  {
    && errorsAfter == (if d.Some? then SubmitErrors(d.value) else errorsBefore)
    && counterAfter == counterBefore + (if d.Some? && NeedsId(json) then 1 else 0)
  }

  /** The status and body `handleRequest` answers a route with. */
  function Respond(route: Endpoint, delivered: bool, now: nat, statusBody: string): (int, string) {
    match route
    case Health => (200, HealthBody(now))
    case Status => (200, statusBody)
    case Unauthorized => (401, ErrorBody("Unauthorized"))
    case Submit(table) => SubmitResponse(table, delivered)
    case Update(table, _) => SubmitResponse(table, delivered)
    case Delete(_, _) => (501, ErrorBody("DELETE operations not implemented"))
    case NotFound => (404, ErrorBody("Not Found"))
  }

  /**
   * An HSDS request without the right bearer token is answered 401 and is not a route that
   * reaches the submit pipeline.
   */
  lemma RefusedRequests(verb: Method, cs: seq<string>, auth: string, token: string,
                        delivered: bool, now: nat, statusBody: string)
    requires VersionedPath(cs, "hsds") && auth != ExpectedAuth(token)
    ensures var route := Route(verb, cs, auth, token);
      !(route.Submit? || route.Update?)
      && Respond(route, delivered, now, statusBody) == (401, ErrorBody("Unauthorized"))
  {
    AuthGate(verb, cs, auth, token);
  }

  /** 201 is answered only to a submit or update of a known table whose record was delivered. */
  lemma CreatedOnlyWhenDelivered(route: Endpoint, delivered: bool, now: nat, statusBody: string)
    ensures Respond(route, delivered, now, statusBody).0 == 201 <==>
      (route.Submit? || route.Update?) && route.table in SubmitTables && delivered
  {
  }
}
