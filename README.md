# OpenDDS example cores, modelled in Dafny

This project models the core logic of three OpenDDS example applications and proves properties of that model.

- **CommUnity** is an HSDS (Human Services Data Specification) gateway. It has five parts:
  - `HsdsValidator` holds the per-record field rules. They accumulate `field: message` errors, and a strict mode adds a "needs a reference" rule for phones.
  - `HsdsPublisher` keeps a topic registry of 24 HSDS topics and data writers, and stamps every published record with the gateway's DMP id before writing it.
  - The `HttpServer` gateway parses a raw HTTP request and routes it under `/api/v1/`. It checks the bearer token, decodes a JSON body into a record, validates it, publishes it, and serialises the response.
  - `HttpRequest` and `HttpResponse` are the gateway's request and response objects.
  - `Config` loads its settings from a small YAML subset and validates them.
- **File_Sync** contributes two parts:
  - `ConfigurationManager` reads an INI file, section by section, and validates the result, creating the destination directory if needed.
  - `FileManager` builds strings: conflict-copy names, the placeholder content hash, and temporary and parent paths.
- **DistributedJSON** contributes the C++ bridge of its test harness. It quotes two JSON texts as shell arguments, builds a `node` command line, and turns the script's output into either a delta or an error.

Modules:

| module | file | models |
|---|---|---|
| `Wrappers` | wrappers.dfy | Option / Result |
| `Text` | text.dfy | trimming, searching, splitting, decimal and hexadecimal text, `stoi`/`stoull` |
| `SortedMaps` | sorted_maps.dfy | `std::map<std::string, std::string>` as a key-sorted list of pairs |
| `HsdsRecords` | hsds_records.dfy | the HSDS record kinds, the 24 topic names, non-repudiation stamping |
| `HsdsRules` | hsds_rules.dfy | the field rules as error-list functions, and what they mean |
| `HsdsValidation` | hsds_validator.dfy | the `HsdsValidator` class |
| `HsdsPublishing` | hsds_publisher.dfy | the `HsdsPublisher` class and its topic table |
| `HttpMessages` | http_message.dfy | `HttpRequest`, `HttpResponse`, request parsing, response serialisation |
| `HttpService` | http_server.dfy | `HttpServer`: JSON extraction, routing, the submit pipeline |
| `CommunityConfig` | community_config.dfy | CommUnity's `Config` |
| `FileSyncConfig` | filesync_config.dfy | File_Sync's `ConfigurationManager` |
| `FileManaging` | file_manager.dfy | File_Sync's `FileManager` string building |
| `JsonDiff` | jsondiff.dfy | `CppJsInterop::diff` and `escapeArgument` |

Classes stand for objects whose fields the C++ updates in place:
- `Validator`
- `Publisher`
- `HttpRequest` and `HttpResponse`
- `HttpServer`
- `Config`
- `ConfigurationManager`

Each such method states its whole new state. Usually it ties that state to a specification function of the old state and the inputs, for example:
- `lastErrors == OrganizationErrors(o)`;
- `settings == Applied(old(settings), FlatYaml(Lines(content)))`.

Lemmas then say what those functions mean.

The outside world enters as parameters:
- **Middleware.** The DDS middleware is a `Middleware` value. It says which topic registrations, topic creations and writer creations succeed.
- **Writes.** Whether a DDS write succeeds is a `writeOk` flag.
- **Clock.** The clock is a `now: nat`, or the formatted timestamp text.
- **Files.** The content of a file is an `Option<string>`, where None means the file cannot be opened.
- **Directories.** The directories are a `FileSystem` value: what exists, and what could be created.
- **Hashing.** `std::hash` is a `hasher` function.
- **Running a command.** `popen` is a `run` function: the captured output, or None.

Where the documentation of the system and its code disagree, the model follows the code:
- **Path indexing.** Routes look at the path components `[1..]`. `"/api/v1/health"` splits into `["api","v1","health"]` and is answered 404. Only a path with one leading component before `api` reaches the handlers (`HttpService.RouteOfPaths`).
- **Failed validation.** A submit whose record fails validation is answered 500 "Failed to publish data", not 400. Only an unknown table gives 400.
- **Record types.** Only organizations are actually written. `publishData` writes through the Organization writer alone, so a valid program, service or location is answered 500.
- **Delete.** `DELETE` is answered with status 501. `buildResponse` serialises it with reason phrase "Unknown".
- **Re-initialisation.** Initialising the publisher twice is a no-op that returns true.
- **YAML keys.** `parseBasicYaml` never produces a dotted key. A section header line pushes its key, but the next line trims away its own indentation, so its level is always 0 and the context is popped before use. Every nested setting is therefore ignored, and the `writer.*`/`logging.*` lookups fall back to the defaults (`CommunityConfig.YamlKeysUndotted`, `CommunityConfig.NestedDocumentIgnored`).
- **Missing INI file.** A File_Sync configuration file that cannot be opened counts as success: `parse_ini_file` returns true and the defaults stay.
- **Validation side effect.** `validate_configuration` is `const` but creates the destination directory when it is missing.
- **JSON parse failure.** The header of `diff` promises an exception when JSON parsing fails. The code throws only when `popen` fails or the output starts with `Error:`.

## Model

| member | source | states |
|---|---|---|
| HsdsValidation.Validator.constructor | examples/DCPS/CommUnity/hsds_validator.cpp:14-15 | a new validator has no errors and is lenient |
| HsdsValidation.Validator.GetLastErrors | examples/DCPS/CommUnity/hsds_validator.h:44 | returns exactly the recorded errors |
| HsdsValidation.Validator.ClearErrors | examples/DCPS/CommUnity/hsds_validator.h:46 | empties the error list and leaves strict mode alone |
| HsdsValidation.Validator.SetStrictMode | examples/DCPS/CommUnity/hsds_validator.h:49 | sets strict mode and keeps the errors |
| HsdsValidation.Validator.IsStrictMode | examples/DCPS/CommUnity/hsds_validator.h:50 | reports the current mode |
| HsdsValidation.Validator.GetLastErrorsAsString | examples/DCPS/CommUnity/hsds_validator.cpp:519-528 | the errors joined in order with "; " |
| HsdsValidation.Validator.AddError | examples/DCPS/CommUnity/hsds_validator.cpp:509-513 | appends one message at the end |
| HsdsValidation.Validator.AddFieldError | examples/DCPS/CommUnity/hsds_validator.cpp:514-518 | appends `field: message` at the end |
| HsdsValidation.Validator.ValidateId | examples/DCPS/CommUnity/hsds_validator.cpp:325-344 | appends at most one error; succeeds iff the id is non-empty, at most 100 (`MAX_ID_LENGTH`) long and all `[a-zA-Z0-9_.-]` |
| HsdsValidation.Validator.ValidateRequiredString | examples/DCPS/CommUnity/hsds_validator.cpp:346-352 | succeeds iff the value is non-empty; otherwise appends "is required" for that field |
| HsdsValidation.Validator.ValidateOptionalString | examples/DCPS/CommUnity/hsds_validator.cpp:354-363 | succeeds iff a positive limit is respected; a zero limit accepts anything |
| HsdsValidation.Validator.ValidateEmail | examples/DCPS/CommUnity/hsds_validator.cpp:365-376 | succeeds iff the address is empty or has the `local@domain.letters` shape of the regular expression |
| HsdsValidation.Validator.ValidateUrl | examples/DCPS/CommUnity/hsds_validator.cpp:378-389 | succeeds iff the URL is empty or starts with `http://` or `https://` |
| HsdsValidation.Validator.ValidatePhoneNumber | examples/DCPS/CommUnity/hsds_validator.cpp:391-402 | succeeds iff the number is non-empty and matches the phone pattern; an empty number adds no error and still fails |
| HsdsValidation.Validator.ValidateNumericField | examples/DCPS/CommUnity/hsds_validator.cpp:404-410 | succeeds iff the value lies in the closed range; errors only grow when it fails |
| HsdsValidation.Validator.ValidateDoubleField | examples/DCPS/CommUnity/hsds_validator.cpp:412-418 | the same for real values |
| HsdsValidation.Validator.ValidateOneOf | examples/DCPS/CommUnity/hsds_validator.cpp:425-508 | the six enumeration validators: succeeds iff the value is one of the allowed words |
| HsdsValidation.Validator.CheckAgeRange | examples/DCPS/CommUnity/hsds_validator.cpp:121-126 | fails iff both ages are set (non-negative) and the minimum exceeds the maximum |
| HsdsValidation.Validator.CheckExtension | examples/DCPS/CommUnity/hsds_validator.cpp:184-187 | fails iff the extension lies outside 0..99999 |
| HsdsValidation.Validator.RequireReference | examples/DCPS/CommUnity/hsds_validator.cpp:192-218 | fails iff strict mode is on and the phone names no location, service, organization, contact or service-at-location |
| HsdsValidation.Validator.ValidateOrganization | examples/DCPS/CommUnity/hsds_validator.cpp:20-69 | clears, then leaves exactly the organization's rule errors in order; valid iff none |
| HsdsValidation.Validator.ValidateProgram | examples/DCPS/CommUnity/hsds_validator.cpp:71-88 | the same for a program |
| HsdsValidation.Validator.ValidateService | examples/DCPS/CommUnity/hsds_validator.cpp:90-135 | the same for a service, including the age-range rule |
| HsdsValidation.Validator.ValidateLocation | examples/DCPS/CommUnity/hsds_validator.cpp:137-165 | the same for a location, including latitude/longitude ranges when set |
| HsdsValidation.Validator.ValidatePhone | examples/DCPS/CommUnity/hsds_validator.cpp:167-221 | the same for a phone under the current strict mode |
| HsdsValidation.Validator.ValidateContact | examples/DCPS/CommUnity/hsds_validator.cpp:223-250 | the same for a contact |
| HsdsValidation.Validator.ValidateAddress | examples/DCPS/CommUnity/hsds_validator.cpp:252-276 | the same for an address |
| HsdsValidation.Validator.ValidateServiceAtLocation | examples/DCPS/CommUnity/hsds_validator.cpp:278-295 | the same for a service-at-location link |
| HsdsValidation.Validator.ValidateSchedule | examples/DCPS/CommUnity/hsds_validator.cpp:297-322 | the same for a schedule |
| HsdsValidation.Validator.ValidateMinorRecord | examples/DCPS/CommUnity/hsds_validator.cpp:529-543 | the record kinds without rules are always valid |
| HsdsRules.EmailMatchesPattern | examples/DCPS/CommUnity/hsds_validator.cpp:369 | the executable e-mail check holds exactly when the text has the regular expression's shape |
| HsdsRules.PhoneMatchesPattern | examples/DCPS/CommUnity/hsds_validator.cpp:395 | the executable phone check holds exactly when the text has the regular expression's shape |
| HsdsRules.UrlAcceptedIsPrefix | examples/DCPS/CommUnity/hsds_validator.cpp:383 | the `find(...) == 0` test means "starts with" |
| HsdsRules.IdErrorsCharacterized | examples/DCPS/CommUnity/hsds_validator.cpp:325-344 | no error iff the id is valid; the empty-id and too-long messages are the ones reported |
| HsdsRules.EnumErrorsCharacterized | examples/DCPS/CommUnity/hsds_validator.cpp:425-508 | no error iff the value is allowed; otherwise one "must be one of" error |
| HsdsRules.EmailErrorsCharacterized | examples/DCPS/CommUnity/hsds_validator.cpp:365-376 | no error iff empty or well-shaped |
| HsdsRules.UrlErrorsCharacterized | examples/DCPS/CommUnity/hsds_validator.cpp:378-389 | no error iff empty or with an http(s) scheme |
| HsdsRules.PhoneNumberCharacterized | examples/DCPS/CommUnity/hsds_validator.cpp:391-402 | accepted iff non-empty and well-shaped; an empty number is the only rejected one without an error |
| HsdsRules.OrganizationErrorsEmptyIff | examples/DCPS/CommUnity/hsds_validator.cpp:20-69 | no organization error iff every declared organization rule holds |
| HsdsRules.ProgramErrorsEmptyIff | examples/DCPS/CommUnity/hsds_validator.cpp:71-88 | no program error iff every program rule holds |
| HsdsRules.ServiceErrorsEmptyIff | examples/DCPS/CommUnity/hsds_validator.cpp:90-135 | no service error iff every service rule holds |
| HsdsRules.LocationErrorsEmptyIff | examples/DCPS/CommUnity/hsds_validator.cpp:137-165 | no location error iff every location rule holds |
| HsdsRules.PhoneErrorsEmptyIff | examples/DCPS/CommUnity/hsds_validator.cpp:167-221 | no phone error iff every phone rule holds, the reference rule only in strict mode |
| HsdsRules.ContactErrorsEmptyIff | examples/DCPS/CommUnity/hsds_validator.cpp:223-250 | no contact error iff every contact rule holds |
| HsdsRules.AddressErrorsEmptyIff | examples/DCPS/CommUnity/hsds_validator.cpp:252-276 | no address error iff every address rule holds |
| HsdsRules.ServiceAtLocationErrorsEmptyIff | examples/DCPS/CommUnity/hsds_validator.cpp:278-295 | no link error iff every link rule holds |
| HsdsRules.ScheduleErrorsEmptyIff | examples/DCPS/CommUnity/hsds_validator.cpp:297-322 | no schedule error iff every schedule rule holds |
| HsdsRules.FieldOfTagged | examples/DCPS/CommUnity/hsds_validator.cpp:514-518 | a field error reads back as the field it names |
| HsdsRules.HelpersTag | examples/DCPS/CommUnity/hsds_validator.cpp:325-363 | every error the id, required, optional and enumeration helpers produce names the checked field |
| HsdsRules.ServiceAgeRule | examples/DCPS/CommUnity/hsds_validator.cpp:121-126 | a service reports the age-range error iff both ages are set and the minimum exceeds the maximum |
| HsdsRules.PhoneExtensionRule | examples/DCPS/CommUnity/hsds_validator.cpp:184-187 | a phone reports the extension error iff the extension lies outside 0..99999, in either mode |
| HsdsRules.PhoneReferenceRule | examples/DCPS/CommUnity/hsds_validator.cpp:193-218 | the reference error appears iff strict mode is on and no reference is given |
| HsdsRules.PhoneStrictOnlyAddsReference | examples/DCPS/CommUnity/hsds_validator.cpp:193-218 | strict-mode errors are the lenient errors plus, at the end, at most the reference error |
| HsdsRules.ProgramMissingOrganizationTwice | examples/DCPS/CommUnity/hsds_validator.cpp:71-88 | a program without an organization id gets "organization_id: is required" twice, once from the required check and once from the id check |
| HsdsRecords.TypeNameInjective | examples/DCPS/CommUnity/hsds_publisher.cpp:102-127 | each registered type name is `HSDS::` followed by its topic's name, and no two topics share a type name |
| HsdsRecords.TopicNamesDistinct | examples/DCPS/CommUnity/hsds_publisher.cpp:102-127 | no name appears twice in the table's name column |
| HsdsRecords.TopicNamesComplete | examples/DCPS/CommUnity/hsds_publisher.cpp:102-127 | the column has 24 names, and every topic's name sits at that topic's position |
| HsdsRecords.TopicIndex | examples/DCPS/CommUnity/hsds_publisher.cpp:102-127 | every topic sits at some position of the table |
| HsdsRecords.TopicNameRoundTrip | examples/DCPS/CommUnity/hsds_publisher.cpp:12-35 | looking up a topic's name gives the topic back |
| HsdsRecords.TopicTableComplete | examples/DCPS/CommUnity/hsds_publisher.cpp:102-127 | the table has 24 entries and contains every topic |
| HsdsRecords.TopicTableDistinct | examples/DCPS/CommUnity/hsds_publisher.cpp:102-127 | no topic appears twice in the table |
| HsdsRecords.TopicNameInjective | examples/DCPS/CommUnity/hsds_publisher.cpp:12-35 | distinct topics have distinct names |
| HsdsRecords.Inject | examples/DCPS/CommUnity/hsds_publisher.cpp:456-550 | stamping sets the source id and keeps the kind and well-formedness |
| HsdsRecords.InjectOnlyStamps | examples/DCPS/CommUnity/hsds_publisher.cpp:456-550 | stamping changes only the stamp: restoring the old stamp undoes it, the last stamp wins, and it is idempotent |
| HsdsRecords.InjectIdentifiesContent | examples/DCPS/CommUnity/hsds_publisher.cpp:456-550 | two records stamped alike agree in everything but the stamp |
| HsdsPublishing.CreatedPrefix | examples/DCPS/CommUnity/hsds_publisher.cpp:225-255 | the setup loop stops at the first topic whose topic or writer cannot be created |
| HsdsPublishing.SetupCountFull | examples/DCPS/CommUnity/hsds_publisher.cpp:225-255 | every topic is set up iff the middleware creates every topic and writer |
| HsdsPublishing.FullTableCorrect | examples/DCPS/CommUnity/hsds_publisher.cpp:225-255 | a full setup maps every topic's name to that topic and to nothing else |
| HsdsPublishing.FullTableSize | examples/DCPS/CommUnity/hsds_publisher.cpp:225-255 | a full setup holds 24 topics, one per name |
| HsdsPublishing.InstallOverLeftovers | examples/DCPS/CommUnity/hsds_publisher.cpp:225-255 | a full setup over a consistent leftover table gives the full table |
| HsdsPublishing.InitSuccessTable | examples/DCPS/CommUnity/hsds_publisher.cpp:45-74 | a successful initialisation leaves a complete topic table |
| HsdsPublishing.InitFailureTable | examples/DCPS/CommUnity/hsds_publisher.cpp:225-255 | a failing setup keeps the topics created before the failure |
| HsdsPublishing.SetupConsistent | examples/DCPS/CommUnity/hsds_publisher.cpp:95-260 | setup never maps a name to another topic |
| HsdsPublishing.Publisher.constructor | examples/DCPS/CommUnity/hsds_publisher.cpp:37-39 | starts uninitialised, with nothing published and no topics or writers |
| HsdsPublishing.Publisher.Initialize | examples/DCPS/CommUnity/hsds_publisher.cpp:45-74 | a second call succeeds and changes nothing; otherwise it succeeds iff the publisher and every registration and creation succeed, and it records the DMP id |
| HsdsPublishing.Publisher.SetupTopicsAndWriters | examples/DCPS/CommUnity/hsds_publisher.cpp:95-260 | the new table is the setup of the old one; succeeds iff registration and the whole loop succeed |
| HsdsPublishing.Publisher.CreateTopicsAndWriters | examples/DCPS/CommUnity/hsds_publisher.cpp:225-255 | the table gains the topics before the first one whose topic or writer cannot be created, and the loop succeeds iff there is no such topic |
| HsdsPublishing.Publisher.Shutdown | examples/DCPS/CommUnity/hsds_publisher.cpp:76-93 | when initialised, clears the tables and the count; otherwise changes nothing |
| HsdsPublishing.Publisher.PublishData | examples/DCPS/CommUnity/hsds_publisher.cpp:409-442 | succeeds iff a writer exists, the topic is Organization and the write succeeds; the count and sent list grow by exactly that record |
| HsdsPublishing.Publisher.Publish | examples/DCPS/CommUnity/hsds_publisher.cpp:263-405 | what is sent is the record stamped with the publisher's DMP id, whatever stamp it arrived with |
| HttpMessages.MethodTokens | examples/DCPS/CommUnity/http_server.cpp:138-141 | the four verbs read back from their tokens; every other token is UNKNOWN |
| HttpMessages.ParamsSorted | examples/DCPS/CommUnity/http_server.cpp:510-530 | the query parameters form a sorted map |
| HttpMessages.QueryLastWins | examples/DCPS/CommUnity/http_server.cpp:510-530 | a piece without '=' is ignored; otherwise the latest `key=value` wins for its key |
| HttpMessages.NoQueryWithoutMark | examples/DCPS/CommUnity/http_server.cpp:510-530 | a path without '?' has no parameters |
| HttpMessages.SplitJoinedPath | examples/DCPS/CommUnity/http_server.cpp:496-508 | splitting joined non-empty components gives them back |
| HttpMessages.PathComponentsRoundTrip | examples/DCPS/CommUnity/http_server.cpp:496-508 | `/c1/c2/...` splits back into exactly those components |
| HttpMessages.HttpRequest.constructor | examples/DCPS/CommUnity/http_server.h:97 | a new request is UNKNOWN, with an empty path, body and headers |
| HttpMessages.HttpRequest.SetMethod | examples/DCPS/CommUnity/http_server.h:100 | sets the verb and nothing else |
| HttpMessages.HttpRequest.SetPath | examples/DCPS/CommUnity/http_server.h:103 | sets the path and nothing else |
| HttpMessages.HttpRequest.SetBody | examples/DCPS/CommUnity/http_server.h:106 | sets the body and nothing else |
| HttpMessages.HttpRequest.SetHeader | examples/DCPS/CommUnity/http_server.cpp:492-494 | the header map gains or replaces that name, keeps sorted, and the name now reads back as the value |
| HttpMessages.HttpRequest.GetPathComponents | examples/DCPS/CommUnity/http_server.cpp:496-508 | the non-empty '/'-separated pieces of the path |
| HttpMessages.HttpRequest.GetQueryParameters | examples/DCPS/CommUnity/http_server.cpp:510-530 | the parameters after '?' as a sorted map |
| HttpMessages.HeaderBlock | examples/DCPS/CommUnity/http_server.cpp:148-161 | the header block runs up to the first empty or "\r" line |
| HttpMessages.ReadRequestLine | examples/DCPS/CommUnity/http_server.cpp:132-145 | sets the verb and path read from the first line, leaving them unset when it has fewer than three words |
| HttpMessages.ReadHeaderLine | examples/DCPS/CommUnity/http_server.cpp:149-159 | a line with ':' stores its trimmed name and value; other lines change nothing |
| HttpMessages.ReadHeaders | examples/DCPS/CommUnity/http_server.cpp:148-161 | reads exactly the header block and stores its lines in order |
| HttpMessages.ReadBody | examples/DCPS/CommUnity/http_server.cpp:164-168 | the body is the remaining lines, each ended by a newline |
| HttpMessages.ParseRequest | examples/DCPS/CommUnity/http_server.cpp:125-171 | the parsed request equals the specification `Parse` of the raw text |
| HttpMessages.HeaderLineEffect | examples/DCPS/CommUnity/http_server.cpp:149-159 | a header line sets its name to its value, and a line without ':' is ignored |
| HttpMessages.HeadersSorted | examples/DCPS/CommUnity/http_server.h:119 | the parsed headers form a sorted map |
| HttpMessages.ShortRequestLine | examples/DCPS/CommUnity/http_server.cpp:132-145 | a missing or short request line leaves the method UNKNOWN and the path empty |
| HttpMessages.BodyIsJoin | examples/DCPS/CommUnity/http_server.cpp:164-168 | the body is the remaining lines joined with "\n", plus a final "\n" |
| HttpMessages.HttpResponse.constructor | examples/DCPS/CommUnity/http_server.h:125-126 | status 200 and `application/json` unless given, with no body or headers |
| HttpMessages.HttpResponse.SetStatus | examples/DCPS/CommUnity/http_server.h:129 | sets the status and nothing else |
| HttpMessages.HttpResponse.SetContentType | examples/DCPS/CommUnity/http_server.h:132 | sets the content type and nothing else |
| HttpMessages.HttpResponse.SetBody | examples/DCPS/CommUnity/http_server.h:135 | sets the body and nothing else |
| HttpMessages.HttpResponse.SetHeader | examples/DCPS/CommUnity/http_server.cpp:533-535 | the header map gains or replaces that name, and it reads back as the value |
| HttpMessages.HttpResponse.SetJsonBody | examples/DCPS/CommUnity/http_server.cpp:537-540 | JSON content type and the given body; status kept |
| HttpMessages.HttpResponse.SetErrorResponse | examples/DCPS/CommUnity/http_server.cpp:542-545 | the status, JSON content type and `{"error":...}` body |
| HttpMessages.ReasonPhraseKnown | examples/DCPS/CommUnity/http_server.cpp:232-240 | only 200, 201, 400, 401, 404 and 500 have a reason phrase; 501 is "Unknown" |
| HttpMessages.BuildResponse | examples/DCPS/CommUnity/http_server.cpp:227-257 | the serialised text is `ResponseText` of the status, type, body and headers |
| HttpMessages.HeadEnd | examples/DCPS/CommUnity/http_server.cpp:244-254 | the head always ends with an empty line |
| HttpMessages.ResponseFraming | examples/DCPS/CommUnity/http_server.cpp:227-257 | the text starts `HTTP/1.1 `, the body follows the blank line and ends the text, and the Content-Length digits read back as the body's length |
| HttpService.ExtractJsonValue | examples/DCPS/CommUnity/http_server.cpp:345-369 | the extracted value never contains '"', and a missing key gives "" |
| HttpService.ExtractSingleField | examples/DCPS/CommUnity/http_server.cpp:345-369 | from `{"key":"value"}` the value is extracted unchanged |
| HttpService.GeneratedIdInjective | examples/DCPS/CommUnity/http_server.cpp:466-470 | different (time, counter) pairs give different ids |
| HttpService.GeneratedIdValid | examples/DCPS/CommUnity/http_server.cpp:466-470 | a generated id starts `auto_` and passes the id rule while it fits the 100-character id limit |
| HttpService.DecodedTables | examples/DCPS/CommUnity/http_server.cpp:286-312 | a body decodes iff the table is organization, program, service or location |
| HttpService.DecodedTopic | examples/DCPS/CommUnity/http_server.cpp:286-306 | a decoded record travels on the Organization topic iff the table is organization |
| HttpService.DecodedKinds | examples/DCPS/CommUnity/http_server.cpp:286-306 | a decoded record is well formed and an organization, program, service or location |
| HttpService.DecodedIdShape | examples/DCPS/CommUnity/http_server.cpp:373-382 | the id is the one in the body when it is present, the fresh one otherwise, and never empty when the fresh one is not |
| HttpService.DecodeNamedOrganization | examples/DCPS/CommUnity/http_server.cpp:372-389 | `{"name":"Acme"}` decodes to an organization named Acme with a fresh id and no stamp |
| HttpService.StubDecoder | examples/DCPS/CommUnity/http_server.cpp:445-464 | the decoders without an implementation always fail |
| HttpService.AuthGate | examples/DCPS/CommUnity/http_server.cpp:193-203 | an HSDS path is refused iff the Authorization header is not `Bearer <token>`, and every data route had the right header |
| HttpService.DataRoutes | examples/DCPS/CommUnity/http_server.cpp:204-219 | with the right header: POST with five components submits, PUT/DELETE with six update/delete, anything else is 404; the table is component 4 |
| HttpService.InfoRoutes | examples/DCPS/CommUnity/http_server.cpp:177-190 | health and status answer GET on exactly four components, without authentication |
| HttpService.RouteOfPaths | examples/DCPS/CommUnity/http_server.cpp:173-225 | `/p/api/v1/hsds/t` with the right token submits to `t`, while `/api/v1/health` is 404 |
| HttpService.SubmitResponse | examples/DCPS/CommUnity/http_server.cpp:310-320 | a submit is answered only 201, 400 or 500 |
| HttpService.CreatedOnlyForOrganizations | examples/DCPS/CommUnity/http_server.cpp:281-328 | 201 iff the table is organization, it validates cleanly, a writer exists and the write succeeds |
| HttpService.HttpServer.constructor | examples/DCPS/CommUnity/http_server.h:25 | the server keeps the publisher, token and DMP id, and starts with a fresh lenient validator and zero counters |
| HttpService.HttpServer.GenerateId | examples/DCPS/CommUnity/http_server.cpp:466-470 | bumps the counter and builds `auto_<now>_<counter>` from its new value |
| HttpService.HttpServer.FillId | examples/DCPS/CommUnity/http_server.cpp:379-382 | keeps a given id; draws a fresh one, bumping the counter, only when none is given |
| HttpService.HttpServer.JsonToOrganization | examples/DCPS/CommUnity/http_server.cpp:372-389 | always succeeds with the record built from the extracted fields |
| HttpService.HttpServer.JsonToProgram | examples/DCPS/CommUnity/http_server.cpp:391-406 | the same for a program |
| HttpService.HttpServer.JsonToService | examples/DCPS/CommUnity/http_server.cpp:408-425 | the same for a service |
| HttpService.HttpServer.JsonToLocation | examples/DCPS/CommUnity/http_server.cpp:427-442 | the same for a location |
| HttpService.HttpServer.Decode | examples/DCPS/CommUnity/http_server.cpp:288-312 | the table's decoder result; the counter moves only when a fresh id was drawn |
| HttpService.HttpServer.ValidateAndPublish | examples/DCPS/CommUnity/http_server.cpp:290-307 | publishes only a record that validated; success iff it was delivered, with exactly that stamped record sent |
| HttpService.HttpServer.HandleSubmitData | examples/DCPS/CommUnity/http_server.cpp:281-328 | the answer is `SubmitResponse` of whether the decoded record was delivered; exactly that record, stamped, is sent; the validator holds its errors |
| HttpService.HttpServer.HandleUpdateData | examples/DCPS/CommUnity/http_server.cpp:330-334 | an update behaves exactly like a submit to the same table |
| HttpService.HttpServer.HandleDeleteData | examples/DCPS/CommUnity/http_server.cpp:336-342 | always 501 "DELETE operations not implemented" |
| HttpService.HttpServer.HandleHealthCheck | examples/DCPS/CommUnity/http_server.cpp:259-264 | 200 with the health payload for the given time |
| HttpService.HttpServer.HandleStatus | examples/DCPS/CommUnity/http_server.cpp:266-279 | 200 with the publisher's state, the request count and the DMP id |
| HttpService.HttpServer.HandleRequest | examples/DCPS/CommUnity/http_server.cpp:173-225 | non-data routes answer by `Respond` and change no state; a data route answers and sends as `DataOutcome` says, leaves the record's rule errors in the validator, draws an id only when the body names none, counts each record sent, and changes nothing else |
| HttpService.RefusedRequests | examples/DCPS/CommUnity/http_server.cpp:197-203 | an unauthenticated HSDS request gets 401 and never reaches the submit pipeline |
| HttpService.CreatedOnlyWhenDelivered | examples/DCPS/CommUnity/http_server.cpp:173-225 | 201 iff a submit or update to a known table was delivered |
| SortedMaps.LessIrreflexive | examples/DCPS/CommUnity/http_server.h:119 | the key order is irreflexive |
| SortedMaps.LessTransitive | examples/DCPS/CommUnity/http_server.h:119 | the key order is transitive |
| SortedMaps.LessTotal | examples/DCPS/CommUnity/http_server.h:119 | distinct keys are ordered one way or the other |
| SortedMaps.Keys | examples/DCPS/CommUnity/http_server.h:119 | the keys of the entries, in order |
| SortedMaps.Get | examples/DCPS/CommUnity/http_server.h:119 | a lookup finds a value iff the key is present, and the value is paired with that key |
| SortedMaps.PutKeys | examples/DCPS/CommUnity/http_server.cpp:492-494 | after `map[k] = v` the keys are the old keys plus k |
| SortedMaps.SortedKeysUnique | examples/DCPS/CommUnity/http_server.h:119 | a sorted map has no repeated key |
| SortedMaps.PutSorted | examples/DCPS/CommUnity/config.cpp:205 | assignment keeps the map sorted |
| SortedMaps.PutGet | examples/DCPS/CommUnity/config.cpp:205 | the assigned key reads back as the new value |
| SortedMaps.PutGetOther | examples/DCPS/CommUnity/config.cpp:205 | every other key keeps its value |
| CommunityConfig.LeadingSpaces | examples/DCPS/CommUnity/config.cpp:168-172 | counts exactly the leading run of spaces |
| CommunityConfig.PopTo | examples/DCPS/CommUnity/config.cpp:175-180 | the context is cut down to at most the level; a shorter one is kept |
| CommunityConfig.PopContext | examples/DCPS/CommUnity/config.cpp:175-180 | the `pop_back` loop leaves exactly `PopTo` of the context |
| CommunityConfig.ReadYamlLine | examples/DCPS/CommUnity/config.cpp:160-217 | one pass of the line loop moves context and result exactly as one step of the flat parse |
| CommunityConfig.Resize | examples/DCPS/CommUnity/config.cpp:207-213 | `context.resize(level)` has exactly the level's length, keeps the old names up to it and pads with empty names |
| CommunityConfig.PairOfLine | examples/DCPS/CommUnity/config.cpp:183-205 | a stored key never contains ':' |
| CommunityConfig.TrimmedIndent | examples/DCPS/CommUnity/config.cpp:160-172 | a trimmed, non-empty line has no indentation |
| CommunityConfig.StepFromEmpty | examples/DCPS/CommUnity/config.cpp:159-215 | from a context of at most one key, one line stores at most its own pair under its undotted key |
| CommunityConfig.YamlKeysUndotted | examples/DCPS/CommUnity/config.cpp:153-219 | the real context-tracking parse equals the flat one: section headers never prefix a key |
| CommunityConfig.FlatYamlSorted | examples/DCPS/CommUnity/config.cpp:154 | the result is a sorted map |
| CommunityConfig.FlatYamlKeysColonFree | examples/DCPS/CommUnity/config.cpp:183-197 | no stored key contains ':' |
| CommunityConfig.YamlLastWins | examples/DCPS/CommUnity/config.cpp:199-205 | a later line that stores a pair overrides earlier values for its key; a line that stores none changes nothing |
| CommunityConfig.PairOfKeyValue | examples/DCPS/CommUnity/config.cpp:183-205 | `key: value` stores the key and the unquoted value |
| CommunityConfig.StoredPairOfLine | examples/DCPS/CommUnity/config.cpp:159-205 | indentation does not change what `key: value` stores |
| CommunityConfig.UnquoteQuoted | examples/DCPS/CommUnity/config.cpp:199-203 | double or single quotes around a value are removed |
| CommunityConfig.CountIndent | examples/DCPS/CommUnity/config.cpp:168-172 | the loop counts the leading spaces |
| CommunityConfig.ParseBasicYaml | examples/DCPS/CommUnity/config.cpp:153-219 | the loop's result is the flat parse of the document's lines, and it is sorted |
| CommunityConfig.GettersDefault | examples/DCPS/CommUnity/config.cpp:221-247 | a missing key gives each getter's default |
| CommunityConfig.GettersPresent | examples/DCPS/CommUnity/config.cpp:221-247 | a present key gives its text, its `stoi` value (the default when that fails) and a boolean that ignores the default |
| CommunityConfig.GetIntRoundTrip | examples/DCPS/CommUnity/config.cpp:226-237 | an int written in decimal reads back as itself |
| CommunityConfig.BoolSpellings | examples/DCPS/CommUnity/config.cpp:239-247 | "TRUE" and "Yes" are true whatever the case, and "off" is false |
| CommunityConfig.AppliedIgnoresOtherKeys | examples/DCPS/CommUnity/config.cpp:105-150 | keys the loader does not look up leave the settings unchanged |
| CommunityConfig.AppliedDmpId | examples/DCPS/CommUnity/config.cpp:110 | a `writer.dmp_id` entry sets the DMP id |
| CommunityConfig.SectionHeaderStoresNothing | examples/DCPS/CommUnity/config.cpp:207-213 | a `name:` line stores nothing |
| CommunityConfig.NestedDocumentIgnored | examples/DCPS/CommUnity/config.cpp:153-219 | a section with an indented setting under it leaves the settings unchanged |
| CommunityConfig.ValidationMeaning | examples/DCPS/CommUnity/config.cpp:249-308 | no validation error iff every required setting is present and in range |
| CommunityConfig.DefaultsValid | examples/DCPS/CommUnity/config.cpp:19-56 | the defaults pass validation |
| CommunityConfig.ValidationOrder | examples/DCPS/CommUnity/config.cpp:249-308 | the DMP id is checked first and the API host second; the security files matter only with security on |
| CommunityConfig.Config.constructor | examples/DCPS/CommUnity/config.cpp:12-14 | starts from the defaults with no error |
| CommunityConfig.Config.SetDefaults | examples/DCPS/CommUnity/config.cpp:19-56 | resets to the defaults |
| CommunityConfig.Config.SetDmpId | examples/DCPS/CommUnity/config.h:23 | changes only the DMP id |
| CommunityConfig.Config.ParseYamlString | examples/DCPS/CommUnity/config.cpp:105-150 | the new settings are the old ones overridden by the flat parse of the text |
| CommunityConfig.Config.Validate | examples/DCPS/CommUnity/config.cpp:249-308 | succeeds iff there is no validation error, and records the first error otherwise |
| CommunityConfig.Config.LoadFromString | examples/DCPS/CommUnity/config.cpp:76-89 | parses, clears the error, then succeeds iff the result validates |
| CommunityConfig.Config.Load | examples/DCPS/CommUnity/config.cpp:58-74 | an unreadable file fails with the parse-failure message and keeps the settings; otherwise the same as loading its text |
| CommunityConfig.DefaultsLoad | examples/DCPS/CommUnity/config.cpp:58-89 | a document with none of the loader's keys leaves the defaults, which validate |
| FileSyncConfig.StripComment | examples/DCPS/File_Sync/src/ConfigurationManager.cpp:53-56 | the kept text is a '#'-free prefix of the line that ends at the line's end or at a '#', so it is the part before the first '#' |
| FileSyncConfig.AssignmentShape | examples/DCPS/File_Sync/src/ConfigurationManager.cpp:73-87 | an assignment's key contains neither '=' nor '#', and its value no '#' |
| FileSyncConfig.KeptPatternsShape | examples/DCPS/File_Sync/src/ConfigurationManager.cpp:121-133 | each kept pattern is non-empty, trimmed and comma-free |
| FileSyncConfig.PatternsShape | examples/DCPS/File_Sync/src/ConfigurationManager.cpp:121-133 | each excluded pattern is non-empty, trimmed and comma-free |
| FileSyncConfig.KeptPatternsTrimmed | examples/DCPS/File_Sync/src/ConfigurationManager.cpp:125-131 | already-trimmed, non-empty pieces are kept as they are |
| FileSyncConfig.PatternsOfList | examples/DCPS/File_Sync/src/ConfigurationManager.cpp:121-133 | a comma-joined list of clean patterns parses back into that list |
| FileSyncConfig.ThreePatterns | examples/DCPS/File_Sync/src/ConfigurationManager.cpp:121-133 | `*.tmp,*.swp,*~` gives the three patterns |
| FileSyncConfig.ApplyDds | examples/DCPS/File_Sync/src/ConfigurationManager.cpp:96-103 | a successful `[dds]` assignment keeps the domain in int range |
| FileSyncConfig.ApplySync | examples/DCPS/File_Sync/src/ConfigurationManager.cpp:116-134 | a successful `[sync]` assignment keeps the sizes within `size_t` |
| FileSyncConfig.Apply | examples/DCPS/File_Sync/src/ConfigurationManager.cpp:89-141 | an assignment preserves the range invariant, and only the three numeric keys can throw |
| FileSyncConfig.UnknownKeyIgnored | examples/DCPS/File_Sync/src/ConfigurationManager.cpp:89-141 | an unknown section or key changes nothing |
| FileSyncConfig.LaterAssignmentWins | examples/DCPS/File_Sync/src/ConfigurationManager.cpp:89-141 | assigning a key twice is the same as assigning the second value |
| FileSyncConfig.PatternsReplaced | examples/DCPS/File_Sync/src/ConfigurationManager.cpp:121-133 | `excluded_patterns` replaces the whole list with the parsed one, changing nothing else |
| FileSyncConfig.ThrowsOnlyOnBadNumber | examples/DCPS/File_Sync/src/ConfigurationManager.cpp:98-120 | reading throws only if some line gives a numeric key a value `stoi`/`stoull` rejects |
| FileSyncConfig.RunInRange | examples/DCPS/File_Sync/src/ConfigurationManager.cpp:44-144 | reading a file keeps the domain in int range and the sizes in `size_t` |
| FileSyncConfig.CommentIgnored | examples/DCPS/File_Sync/src/ConfigurationManager.cpp:53-56 | text after '#' does not change how a line reads |
| FileSyncConfig.BlankLineSkipped | examples/DCPS/File_Sync/src/ConfigurationManager.cpp:59-64 | an all-blank line is skipped |
| FileSyncConfig.HeaderLine | examples/DCPS/File_Sync/src/ConfigurationManager.cpp:67-70 | `[name]` is a section header for `name` |
| FileSyncConfig.AssignmentLine | examples/DCPS/File_Sync/src/ConfigurationManager.cpp:73-87 | `key=value` is an assignment of the trimmed key and value |
| FileSyncConfig.OneAssignment | examples/DCPS/File_Sync/src/ConfigurationManager.cpp:44-144 | a header followed by one assignment applies that assignment in that section, or throws as the assignment does |
| FileSyncConfig.DirectoryAccess | examples/DCPS/File_Sync/src/ConfigurationManager.cpp:184-197 | succeeds iff the path is a directory or, when allowed, can be created; it creates nothing when `must_exist` |
| FileSyncConfig.MessageEndsWithPath | examples/DCPS/File_Sync/src/ConfigurationManager.cpp:151-165 | a directory error message ends with the directory |
| FileSyncConfig.MessagePrefix | examples/DCPS/File_Sync/src/ConfigurationManager.cpp:147-182 | every error message starts with "ERROR: " |
| FileSyncConfig.ValidationMeaning | examples/DCPS/File_Sync/src/ConfigurationManager.cpp:147-182 | no error iff both directories are usable, the domain is 0..232 and the chunk size is 1..1048576 |
| FileSyncConfig.ValidationReportsEveryCheck | examples/DCPS/File_Sync/src/ConfigurationManager.cpp:147-182 | every failing check is reported; validation does not stop at the first failure |
| FileSyncConfig.ValidationCreatesOnlyDestination | examples/DCPS/File_Sync/src/ConfigurationManager.cpp:159-165 | the only effect on the file system is creating a missing, creatable destination |
| FileSyncConfig.ConfigurationManager.constructor | examples/DCPS/File_Sync/src/ConfigurationManager.cpp:13-21 | the defaults: domain 42, 64 KiB chunks, 100 MiB files, log level info |
| FileSyncConfig.ConfigurationManager.LoadConfiguration | examples/DCPS/File_Sync/src/ConfigurationManager.cpp:25-32 | no file name or an unreadable file succeeds with the settings kept; otherwise the file is read as `Loaded` says |
| FileSyncConfig.ConfigurationManager.ParseIniFile | examples/DCPS/File_Sync/src/ConfigurationManager.cpp:34-145 | an unopened file succeeds unchanged; otherwise the settings are what reading its lines gives, or the exception |
| FileSyncConfig.ConfigurationManager.ReadLines | examples/DCPS/File_Sync/src/ConfigurationManager.cpp:48-142 | the loop ends in the state `Run` specifies, or throws where it does |
| FileSyncConfig.ConfigurationManager.ReadLine | examples/DCPS/File_Sync/src/ConfigurationManager.cpp:49-141 | one line changes the section and settings as `Step` says; a throw changes nothing |
| FileSyncConfig.ConfigurationManager.Assign | examples/DCPS/File_Sync/src/ConfigurationManager.cpp:89-141 | an assignment sets what `Apply` says; a throw changes nothing |
| FileSyncConfig.ConfigurationManager.ValidateConfiguration | examples/DCPS/File_Sync/src/ConfigurationManager.cpp:147-182 | valid iff acceptable, iff no error; reports every error in order |
| FileSyncConfig.ConfigurationManager.SetSourceDirectory | examples/DCPS/File_Sync/src/ConfigurationManager.h:45 | changes only the source directory |
| FileSyncConfig.ConfigurationManager.SetDestinationDirectory | examples/DCPS/File_Sync/src/ConfigurationManager.h:48 | changes only the destination directory |
| FileSyncConfig.ConfigurationManager.SetDomainId | examples/DCPS/File_Sync/src/ConfigurationManager.h:52 | changes only the domain id |
| FileSyncConfig.ConfigurationManager.SetDcpsConfigFile | examples/DCPS/File_Sync/src/ConfigurationManager.h:55 | changes only the DCPS configuration file |
| FileSyncConfig.ConfigurationManager.SetChunkSize | examples/DCPS/File_Sync/src/ConfigurationManager.h:67 | changes only the chunk size |
| FileSyncConfig.ConfigurationManager.SetMaxFileSize | examples/DCPS/File_Sync/src/ConfigurationManager.h:70 | changes only the maximum file size |
| FileSyncConfig.ConfigurationManager.SetVerboseLogging | examples/DCPS/File_Sync/src/ConfigurationManager.h:76 | changes only verbose logging |
| FileSyncConfig.ConfigurationManager.SetDaemonMode | examples/DCPS/File_Sync/src/ConfigurationManager.h:79 | changes only daemon mode |
| FileSyncConfig.SplitPatterns | examples/DCPS/File_Sync/src/ConfigurationManager.cpp:121-133 | the `getline(',')` loop produces `Patterns(value)` |
| FileManaging.ExtensionDot | examples/DCPS/File_Sync/src/FileManager.cpp:172-177 | the extension dot is the last '.' and has no separator after it |
| FileManaging.ExtensionMeaning | examples/DCPS/File_Sync/src/FileManager.cpp:172-177 | a path has an extension iff some '.' has no separator after it |
| FileManaging.TempPathDistinct | examples/DCPS/File_Sync/src/FileManager.cpp:51 | the temporary path differs from the target, and different targets get different temporary paths |
| FileManaging.ParentDirShape | examples/DCPS/File_Sync/src/FileManager.cpp:54-60 | no parent iff there is no separator; otherwise the parent is the prefix before the last separator |
| FileManaging.ConflictFilenameShape | examples/DCPS/File_Sync/src/FileManager.cpp:167-198 | the name is the path with the tag inserted at the extension dot, or at the end |
| FileManaging.ConflictKeepsExtension | examples/DCPS/File_Sync/src/FileManager.cpp:187-191 | with an extension the name ends with the same extension |
| FileManaging.ConflictWithoutExtension | examples/DCPS/File_Sync/src/FileManager.cpp:192-195 | without one the whole path comes first and the name ends with ')' |
| FileManaging.ConflictNamesHost | examples/DCPS/File_Sync/src/FileManager.cpp:187-195 | the name contains "conflicted copy from <host>" |
| FileManaging.ConflictHostsDiffer | examples/DCPS/File_Sync/src/FileManager.cpp:167-198 | different hosts at the same moment give different names |
| FileManaging.Padded | examples/DCPS/File_Sync/src/FileManager.cpp:101-103 | padding reaches the width, or keeps a longer text |
| FileManaging.PadToSixteen | examples/DCPS/File_Sync/src/FileManager.cpp:101-103 | the zero-padding loop gives the digits padded to sixteen |
| FileManaging.HashStringLength | examples/DCPS/File_Sync/src/FileManager.cpp:89-107 | a 64-bit digest always gives 16 hexadecimal digits plus the suffix |
| FileManaging.HashStringInjective | examples/DCPS/File_Sync/src/FileManager.cpp:89-107 | different digests give different hash strings |
| FileManaging.PaddedValue | examples/DCPS/File_Sync/src/FileManager.cpp:96-103 | the padded hexadecimal text reads back as the digest |
| FileManaging.CalculateSha256 | examples/DCPS/File_Sync/src/FileManager.cpp:89-107 | the padding loop gives `HashString` of the content's digest |
| FileManaging.CalculateFileSha256 | examples/DCPS/File_Sync/src/FileManager.cpp:109-115 | an unreadable file gives ""; otherwise a non-empty hash string of its bytes |
| JsonDiff.EscapeArgument | examples/DCPS/DistributedJSON/tests/jsondiff.cpp:43-53 | the loop produces `Escape(s)` |
| JsonDiff.EscapeShape | examples/DCPS/DistributedJSON/tests/jsondiff.cpp:43-53 | the argument is in double quotes and one character longer per quote or backslash |
| JsonDiff.EscapedSpecialsPaired | examples/DCPS/DistributedJSON/tests/jsondiff.cpp:45-50 | every '"' inside the quotes follows a backslash |
| JsonDiff.EscapeRoundTrip | examples/DCPS/DistributedJSON/tests/jsondiff.cpp:43-53 | reading a quoted argument back gives the original text and stops right after its closing quote |
| JsonDiff.EscapeInjective | examples/DCPS/DistributedJSON/tests/jsondiff.cpp:43-53 | different texts are quoted differently |
| JsonDiff.DiffCommandArguments | examples/DCPS/DistributedJSON/tests/jsondiff.cpp:60-63 | after `node <script> ` the two JSON texts read back in order, with nothing after the second |
| JsonDiff.DiffOutcome | examples/DCPS/DistributedJSON/tests/jsondiff.cpp:59-73 | the delta is the output iff the pipe opened and the output does not start with "Error:"; otherwise the error carries the output |
| Text.LowerNoCapitals | examples/DCPS/CommUnity/config.cpp:243 | lower-casing keeps the length, leaves no capital letter and keeps every other character |
| Text.LowerIdempotent | examples/DCPS/CommUnity/config.cpp:243 | lower-casing twice is lower-casing once |
| Text.TrimShape | examples/DCPS/CommUnity/config.cpp:337-344 | the result is a contiguous piece of the input with no whitespace at either end; it is empty iff the input is all whitespace |
| Text.TrimIdempotent | examples/DCPS/CommUnity/config.cpp:337-344 | trimming twice is trimming once |
| Text.TrimSubstring | examples/DCPS/File_Sync/src/ConfigurationManager.cpp:59-60 | trimming adds no character |
| Text.TrimAround | examples/DCPS/File_Sync/src/ConfigurationManager.cpp:59-60 | trimming text around a non-blank character trims each side separately |
| Text.IndexOf | examples/DCPS/CommUnity/config.cpp:183 | `find(c)` gives the first occurrence, or none iff c is absent |
| Text.LastIndexOf | examples/DCPS/File_Sync/src/FileManager.cpp:172-173 | `find_last_of` gives the last occurrence of any of the characters, or none iff none occurs |
| Text.FindFrom | examples/DCPS/CommUnity/http_server.cpp:345-369 | `find(pat, from)` gives the first occurrence at or after `from`, or none |
| Text.Split | examples/DCPS/CommUnity/http_server.cpp:496-508 | the `getline` pieces contain no delimiter, and there are none iff the text is empty |
| Text.SplitJoin | examples/DCPS/CommUnity/http_server.cpp:496-508 | joining the pieces with the delimiter gives the text back, without a final delimiter |
| Text.JoinSplit | examples/DCPS/CommUnity/http_server.cpp:496-508 | splitting joined delimiter-free pieces gives them back |
| Text.WordsAreWords | examples/DCPS/CommUnity/http_server.cpp:133-136 | the `>>` words are non-empty and contain no whitespace |
| Text.Decimal | examples/DCPS/CommUnity/http_server.cpp:466-470 | `to_string` gives digits, with no leading zero except for 0 itself |
| Text.DecimalRoundTrip | examples/DCPS/CommUnity/http_server.cpp:227-257 | the decimal text reads back as the number |
| Text.DecimalInjective | examples/DCPS/CommUnity/http_server.cpp:466-470 | different numbers give different texts |
| Text.Hex | examples/DCPS/File_Sync/src/FileManager.cpp:96-98 | `std::hex` output is made of hexadecimal digits |
| Text.HexRoundTrip | examples/DCPS/File_Sync/src/FileManager.cpp:96-98 | the hexadecimal text reads back as the number |
| Text.HexLeadingZeros | examples/DCPS/File_Sync/src/FileManager.cpp:101-103 | leading zeros do not change the value |
| Text.StoI | examples/DCPS/CommUnity/config.cpp:230 | a parsed value lies in the 32-bit int range |
| Text.StoULL | examples/DCPS/File_Sync/src/ConfigurationManager.cpp:118-120 | a parsed value fits 64 bits |
| Text.StoIRoundTrip | examples/DCPS/File_Sync/src/ConfigurationManager.cpp:98 | an int written in decimal parses back as itself |
| Text.LeadingNumeralOfIntString | examples/DCPS/CommUnity/config.cpp:230 | the numeral read from an int's text is its sign and its digits |

## Left out

- **DDS entities.** The DDS participant, publisher, topics and data writers are not modelled. They are the `Middleware` value (which calls succeed) and the `writeOk` flag. Type-support objects and QoS are not modelled.
- **Unchecked registrations.** The type registrations in `setupTopicsAndWriters` whose results are not checked (hsds_publisher.cpp:155-213) have no effect in the model.
- **Server loop.** Sockets are not modelled, and neither are the accept loop (`start`, `stop`, `svc`) or the thread that runs it.
- **`handleClient`.** Its read and write, and its `request_count_++`, are not modelled. `HandleRequest` takes the parsed request, and `requestCount` only shows up in the status payload.
- **Logging.** Every `ACE_DEBUG`/`ACE_ERROR` log line is left out, including `logRequest` and the validator's debug output. So is every `std::cerr` line of the File_Sync reader, including its "WARNING: Invalid config line" for a line without '=' (ConfigurationManager.cpp:74-77). That line is skipped as in the source, and only the message is missing.
- **Exception paths.** The `catch` branches that answer 500 "Internal server error" or return false after an exception are not modelled, because no modelled operation throws. File_Sync's `stoi`/`stoull` failures are the exception and are modelled as `Threw`.
- **Status dumps.** The exact text of `Config::toString` is not modelled, since it has no logical content. The health and status payloads are modelled as exact JSON text (`HttpService.HealthBody`, `HttpService.StatusBody`), but no lemma states anything about them beyond what they contain.
- **Unimplemented decoders.** The JSON decoders `jsonToContact`, `jsonToPhone` and the others that always return false are modelled by `HttpService.StubDecoder`. Their tables are unknown to `handleSubmitData` anyway.
- **`std::map`.** It is modelled as a list of pairs sorted by key, not as a tree.
- **File reads.** `Config::parseYamlFile` and `ConfigurationManager::parse_ini_file` open and read files. The model receives the file's text as `Option<string>`, where None means the open failed.
- **Directory checks.** `validate_directory_access` consults the file system. It is a `FileSystem` value of path kinds and creatable paths, and permissions are not modelled.
- **`validate_file_access`.** Nothing in the core calls it, so it is not modelled.
- **Unopened-file warning.** When `parse_ini_file` cannot open its file and the name is not `file_sync.conf`, it writes "WARNING: Could not open config file" to `std::cerr` (ConfigurationManager.cpp:36-42). For the default name it stays silent. Either way it returns true, which the model keeps. The warning is output only and is left out.
- **FileManager I/O.** `read_file`, `write_file_atomic`, `create_directory_recursive`, `delete_file`, `file_exists` and `get_file_mod_time` are file-system I/O. Only their string building is modelled (`TempPath`, `ParentDir`).
- **Hashing and time.** `std::hash` is the `hasher` parameter, and the local clock of `generate_conflict_filename` is its `timestamp` text.
- **The shell.** `exec` and `popen` are the `run` parameter. The shell's interpretation of the command line is not modelled, and `escapeArgument` does not escape `$` or backquotes.
- **Floating point.** `double` fields are modelled as `real`, so rounding is not modelled.
- **Id counter.** `generateId`'s static counter is the server's `idCounter` field, and `time(nullptr)` is the `now` parameter.
- **Integer widths.** `int` and `size_t` wrap-around is not modelled. Values that come from parsing are proved to stay in range.
- HsdsPublishing.Publisher.Publish: it covers the twenty-four `publishX` wrappers together, one member per record kind. The per-type C++ overloads are not written out one by one.
- **Unset numeric members.** `handleSubmitData` default-initialises the record, and the JSON decoders never set `year_incorporated`, `minimum_age`, `maximum_age`, `latitude` or `longitude` (http_server.cpp:288-306, 372-442). The model gives these members the value 0 (`HsdsRecords.EmptyOrganization`, `HsdsRecords.EmptyService`, `HsdsRecords.EmptyLocation`). With 0, `validateOrganization` skips its year check, the age rule sees 0 and 0, and `validateLocation` skips its coordinate checks. Values that are left indeterminate, or that come from another default, are not modelled.
- HttpService.CreatedOnlyForOrganizations: its "validates cleanly" is about the decoded record with the zero numeric members above.
