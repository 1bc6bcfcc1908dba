/**
 * The checks `HsdsValidator` applies to HSDS records, as pure functions: the shape tests
 * the C++ code delegates to `std::regex`, the error messages every helper appends, and for
 * each of the nine record types the full error list one validation call produces, in the
 * order the checks run. Each list is tied to a declarative validity predicate.
 */
module HsdsRules {
  import opened Wrappers
  import opened Text
  import opened HsdsRecords

  // ---------------------------------------------------------------------------
  // Limits
  // ---------------------------------------------------------------------------

  const MaxIdLength: nat := 100
  const MaxNameLength: nat := 255
  const MaxDescriptionLength: nat := 2000
  const MaxEmailLength: nat := 320
  const MaxUrlLength: nat := 2000
  const MaxPhoneLength: nat := 50
  const MinYear: int := 1800
  const MaxYear: int := 2100
  const MaxExtension: int := 99999

  // ---------------------------------------------------------------------------
  // Shape tests (the three regular expressions and the URL prefix test)
  // ---------------------------------------------------------------------------

  /** `[a-zA-Z0-9_.-]` */
  predicate IsIdChar(c: char) {
    IsAsciiLetter(c) || IsDigit(c) || c == '_' || c == '.' || c == '-'
  }

  /** An id matches `^[a-zA-Z0-9_.-]+$` apart from its emptiness. */
  predicate AllIdChars(s: string) {
    forall i :: 0 <= i < |s| ==> IsIdChar(s[i])
  }

  /** What `validateId` accepts: non-empty, at most 100 characters, all from the id class. */
  predicate IsValidId(s: string) {
    0 < |s| <= MaxIdLength && AllIdChars(s)
  }

  /** `[a-zA-Z0-9._%+-]`, the local part of an e-mail address. */
  predicate IsLocalChar(c: char) {
    IsAsciiLetter(c) || IsDigit(c) || c == '.' || c == '_' || c == '%' || c == '+' || c == '-'
  }

  /** `[a-zA-Z0-9.-]`, the domain of an e-mail address. */
  predicate IsDomainChar(c: char) {
    IsAsciiLetter(c) || IsDigit(c) || c == '.' || c == '-'
  }

  predicate AllLocalChars(s: string) { forall i :: 0 <= i < |s| ==> IsLocalChar(s[i]) }
  predicate AllDomainChars(s: string) { forall i :: 0 <= i < |s| ==> IsDomainChar(s[i]) }
  predicate AllLetters(s: string) { forall i :: 0 <= i < |s| ==> IsAsciiLetter(s[i]) }

  /**
   * One way of matching `^[a-zA-Z0-9._%+-]+@[a-zA-Z0-9.-]+\.[a-zA-Z]{2,}$`: the '@' at `at`,
   * the '.' before the top-level domain at `dot`.
   */
  predicate EmailSplit(s: string, at: nat, dot: nat) {
    0 < at && at + 1 < dot && dot < |s|
    && s[at] == '@' && s[dot] == '.'
    && AllLocalChars(s[..at]) && AllDomainChars(s[at + 1..dot]) && AllLetters(s[dot + 1..])
    && |s| - (dot + 1) >= 2
  }

  /** The e-mail regular expression matches `s`. */
  ghost predicate EmailShape(s: string) {
    exists at: nat, dot: nat :: EmailSplit(s, at, dot)
  }

  /**
   * The e-mail test worked out without search: the '@' must be the first one and the
   * top-level dot the last '.', because no later part may contain those characters.
   */
  predicate IsEmail(s: string) {
    match IndexOf(s, '@')
    case None => false
    case Some(at) =>
      match LastIndexOf(s, {'.'})
      case None => false
      case Some(dot) => EmailSplit(s, at, dot)
  }

  /** The computed test and the regular expression accept the same addresses. */
  lemma EmailMatchesPattern(s: string)
    ensures IsEmail(s) <==> EmailShape(s)
  {
    if EmailShape(s) {
      var at: nat, dot: nat :| EmailSplit(s, at, dot);
      assert '@' !in s[..at] by {
        forall k | 0 <= k < at ensures s[k] != '@' {
          assert IsLocalChar(s[..at][k]);
        }
      }
      assert IndexOf(s, '@') == Some(at);
      assert s[dot] in {'.'};
      assert LastIndexOf(s, {'.'}) == Some(dot) by {
        forall k | dot < k < |s| ensures s[k] != '.' {
          assert s[k] == s[dot + 1..][k - dot - 1];
        }
      }
    }
  }

  /** `[\d\s\-\(\)\.]`: a digit, a white-space character, or one of `-().`. */
  predicate IsPhoneChar(c: char) {
    IsDigit(c) || IsSpace(c) || c == '-' || c == '(' || c == ')' || c == '.'
  }

  predicate AllPhoneChars(s: string) { forall i :: 0 <= i < |s| ==> IsPhoneChar(s[i]) }

  /**
   * One way of matching `^[\+]?[1-9]?[\d\s\-\(\)\.]{7,15}$`: `plus` and `lead` say whether
   * the optional '+' and the optional leading digit are present.
   */
  predicate PhoneSplit(s: string, plus: bool, lead: bool) {
    var p := if plus then 1 else 0;
    var q := if lead then 1 else 0;
    p + q <= |s|
    && (plus ==> s[0] == '+')
    && (lead ==> '1' <= s[p] <= '9')
    && AllPhoneChars(s[p + q..])
    && 7 <= |s| - p - q <= 15
  }

  /** The phone regular expression matches `s`. */
  ghost predicate PhoneShape(s: string) {
    exists plus: bool, lead: bool :: PhoneSplit(s, plus, lead)
  }

  /**
   * The phone test worked out without search: drop a leading '+', then every character is a
   * phone character and there are 7 to 15 of them, or 16 when the first is the optional 1-9.
   */
  predicate IsPhoneNumber(s: string) {
    var r := if s != [] && s[0] == '+' then s[1..] else s;
    AllPhoneChars(r) && (7 <= |r| <= 15 || (|r| == 16 && '1' <= r[0] <= '9'))
  }

  /** The computed test and the regular expression accept the same numbers. */
  lemma PhoneMatchesPattern(s: string)
    ensures IsPhoneNumber(s) <==> PhoneShape(s)
  {
    var plus := s != [] && s[0] == '+';
    var r := if plus then s[1..] else s;
    if IsPhoneNumber(s) {
      if |r| <= 15 {
        assert r == s[(if plus then 1 else 0)..];
        assert PhoneSplit(s, plus, false);
      } else {
        var p := if plus then 1 else 0;
        assert s[p] == r[0];
        assert s[p + 1..] == r[1..];
        assert PhoneSplit(s, plus, true);
      }
    }
    if PhoneShape(s) {
      var pl: bool, ld: bool :| PhoneSplit(s, pl, ld);
      var p := if pl then 1 else 0;
      var q := if ld then 1 else 0;
      var body := s[p + q..];
      assert !IsPhoneChar('+');
      if !pl {
        if ld {
          assert s[0] != '+';
        } else {
          assert s[0] == body[0];
        }
      }
      assert pl == plus;
      assert r == s[p..];
      if ld {
        forall i | 0 <= i < |r| ensures IsPhoneChar(r[i]) {
          if i > 0 {
            assert r[i] == body[i - 1];
          }
        }
      } else {
        assert r == body;
      }
    }
  }

  /** `s` begins with `prefix`. */
  predicate StartsWith(s: string, prefix: string) {
    |prefix| <= |s| && s[..|prefix|] == prefix
  }

  /** `validateUrl`'s test: `url.find("http://") == 0 || url.find("https://") == 0`. */
  predicate UrlAccepted(u: string) {
    FindFrom(u, "http://", 0) == Some(0) || FindFrom(u, "https://", 0) == Some(0)
  }

  /** Finding a pattern at position 0 is the same as the string starting with it. */
  lemma UrlAcceptedIsPrefix(u: string)
    ensures UrlAccepted(u) <==> StartsWith(u, "http://") || StartsWith(u, "https://")
  {
    FindAtZero(u, "http://");
    FindAtZero(u, "https://");
  }

  lemma FindAtZero(s: string, pat: string)
    ensures FindFrom(s, pat, 0) == Some(0) <==> StartsWith(s, pat)
  {
    if StartsWith(s, pat) {
      assert s[0..|pat|] == pat;
    }
  }

  // ---------------------------------------------------------------------------
  // Messages
  // ---------------------------------------------------------------------------

  /** `addFieldError(field, msg)` records "field: msg". */
  function Tagged(field: string, msg: string): string {
    field + ": " + msg
  }

  const RequiredMessage := "is required and cannot be empty"
  const BadIdCharsMessage :=
    "contains invalid characters (only alphanumeric, underscore, period, and hyphen allowed)"
  const EmailMessage := "has invalid format"
  const UrlMessage := "must start with http:// or https://"
  const PhoneNumberMessage := "has invalid phone number format"
  const AgeRangeMessage := "minimum_age cannot be greater than maximum_age"
  const ExtensionMessage := "extension must be between 0 and 99999"
  const ReferenceRequiredMessage :=
    "At least one reference" + " (location_id, service_id, organization_id, contact_id, or service_at_location_id) must be provided"

  function TooLongMessage(max: nat): string {
    "exceeds maximum length of " + Decimal(max)
  }

  function RangeMessage(lo: int, hi: int): string {
    "must be between " + IntString(lo) + " and " + IntString(hi)
  }

  /** `std::to_string` of an integral double: six digits after the point. */
  function FixedText(k: int): string {
    IntString(k) + ".000000"
  }

  function RealRangeMessage(lo: int, hi: int): string {
    "must be between " + FixedText(lo) + " and " + FixedText(hi)
  }

  /** The enum messages list the accepted values, comma-separated, in table order. */
  function OneOfMessage(allowed: seq<string>): string {
    "must be one of: " + Join(allowed, ", ")
  }

  const TaxStatuses := ["501(c)(3)", "501(c)(4)", "501(c)(6)", "government", "for-profit", "other"]
  const LegalStatuses := ["corporation", "nonprofit", "government", "partnership", "sole-proprietorship"]
  const ServiceStatuses := ["active", "inactive", "defunct", "temporarily-closed"]
  const PhoneTypes := ["voice", "fax", "tty", "sms", "other"]
  const AddressTypes := ["physical", "postal", "mailing", "other"]
  const Frequencies := ["WEEKLY", "MONTHLY", "YEARLY", "DAILY", "HOURLY"]

  // ---------------------------------------------------------------------------
  // What each helper appends
  // ---------------------------------------------------------------------------

  /** `validateId(id, field)`: the three checks in order; the first failure is the only error. */
  function IdErrors(id: string, field: string): seq<string> {
    if id == [] then [Tagged(field, RequiredMessage)]
    else if |id| > MaxIdLength then [Tagged(field, TooLongMessage(MaxIdLength))]
    else if !AllIdChars(id) then [Tagged(field, BadIdCharsMessage)]
    else []
  }

  /** `validateRequiredString` */
  function RequiredErrors(v: string, field: string): seq<string> {
    if v == [] then [Tagged(field, RequiredMessage)] else []
  }

  /** `validateOptionalString`; a maximum of 0 means unbounded. */
  function OptionalErrors(v: string, field: string, max: nat): seq<string> {
    if max > 0 && |v| > max then [Tagged(field, TooLongMessage(max))] else []
  }

  /** `validateEmail`: the empty address is accepted. */
  function EmailErrors(e: string): seq<string> {
    if e == [] || IsEmail(e) then [] else [Tagged("email", EmailMessage)]
  }

  /** `validateUrl`: the empty URL is accepted; the error is tagged "url" whatever the field. */
  function UrlErrors(u: string): seq<string> {
    if u == [] || UrlAccepted(u) then [] else [Tagged("url", UrlMessage)]
  }

  /** What `validatePhoneNumber` returns: the empty number is refused, silently. */
  predicate PhoneNumberAccepted(n: string) {
    n != [] && IsPhoneNumber(n)
  }

  /** What `validatePhoneNumber` appends. */
  function PhoneNumberErrors(n: string): seq<string> {
    if n == [] || IsPhoneNumber(n) then [] else [Tagged("number", PhoneNumberMessage)]
  }

  /** `validateNumericField` */
  function NumericErrors(v: int, field: string, lo: int, hi: int): seq<string> {
    if v < lo || v > hi then [Tagged(field, RangeMessage(lo, hi))] else []
  }

  /** `validateDoubleField`, for the integral bounds it is called with. */
  function RealErrors(v: real, field: string, lo: int, hi: int): seq<string> {
    if v < lo as real || v > hi as real then [Tagged(field, RealRangeMessage(lo, hi))] else []
  }

  /** The enum validators: accept exactly the listed strings. */
  function EnumErrors(v: string, field: string, allowed: seq<string>): seq<string> {
    if v in allowed then [] else [Tagged(field, OneOfMessage(allowed))]
  }

  /** A check the record validator runs only under a condition (`if (x && strlen(x) > 0)`). */
  function When(c: bool, errs: seq<string>): seq<string> {
    if c then errs else []
  }

  /** `validateId` fails with exactly one error, and passes exactly on valid ids. */
  lemma IdErrorsCharacterized(id: string, field: string)
    ensures |IdErrors(id, field)| <= 1
    ensures IdErrors(id, field) == [] <==> IsValidId(id)
    ensures id == [] ==> IdErrors(id, field) == [Tagged(field, RequiredMessage)]
    ensures 0 < |id| && |id| > MaxIdLength ==> IdErrors(id, field) == [Tagged(field, TooLongMessage(MaxIdLength))]
  {
  }

  /** The enum checks accept exactly their listed strings. */
  lemma EnumErrorsCharacterized(v: string, field: string, allowed: seq<string>)
    ensures EnumErrors(v, field, allowed) == [] <==> v in allowed
    ensures v !in allowed ==> EnumErrors(v, field, allowed) == [Tagged(field, OneOfMessage(allowed))]
  {
  }

  /** The e-mail check passes exactly on the empty address and on addresses the pattern matches. */
  lemma EmailErrorsCharacterized(e: string)
    ensures EmailErrors(e) == [] <==> (e != [] ==> EmailShape(e))
  {
    EmailMatchesPattern(e);
  }

  /** The URL check passes exactly on the empty URL and on http:// or https:// URLs. */
  lemma UrlErrorsCharacterized(u: string)
    ensures UrlErrors(u) == [] <==> (u != [] ==> StartsWith(u, "http://") || StartsWith(u, "https://"))
  {
    UrlAcceptedIsPrefix(u);
  }

  /** The phone-number check passes exactly on numbers the pattern matches. */
  lemma PhoneNumberCharacterized(n: string)
    ensures PhoneNumberAccepted(n) <==> n != [] && PhoneShape(n)
    ensures PhoneNumberErrors(n) == [] <==> (n != [] ==> PhoneShape(n))
    ensures !PhoneNumberAccepted(n) && PhoneNumberErrors(n) == [] ==> n == []
  {
    PhoneMatchesPattern(n);
  }

  // ---------------------------------------------------------------------------
  // The nine record validators
  // ---------------------------------------------------------------------------

  /** The cross-field age rule of `validateService`. */
  function AgeRangeErrors(minimumAge: int, maximumAge: int): seq<string> {
    if minimumAge >= 0 && maximumAge >= 0 && minimumAge > maximumAge
    then [Tagged("age_range", AgeRangeMessage)] else []
  }

  /** The extension bound of `validatePhone`. */
  function ExtensionErrors(extension: int): seq<string> {
    if extension < 0 || extension > MaxExtension then [Tagged("extension", ExtensionMessage)] else []
  }

  /** A phone names at least one of the five records it may belong to. */
  predicate HasReference(p: Phone) {
    p.locationId != [] || p.serviceId != [] || p.organizationId != []
    || p.contactId != [] || p.serviceAtLocationId != []
  }

  /** The errors `validateOrganization` leaves in the list, in check order. */
  function OrganizationErrors(o: Organization): seq<string> {
    IdErrors(o.id, "id")
    + RequiredErrors(o.name, "name")
    + OptionalErrors(o.alternateName, "alternate_name", MaxNameLength)
    + OptionalErrors(o.description, "description", MaxDescriptionLength)
    + OptionalErrors(o.email, "email", MaxEmailLength)
    + OptionalErrors(o.website, "website", MaxUrlLength)
    + OptionalErrors(o.logo, "logo", MaxUrlLength)
    + OptionalErrors(o.uri, "uri", MaxUrlLength)
    + When(o.email != [], EmailErrors(o.email))
    + When(o.website != [], UrlErrors(o.website))
    + When(o.yearIncorporated > 0, NumericErrors(o.yearIncorporated, "year_incorporated", MinYear, MaxYear))
    + When(o.taxStatus != [], EnumErrors(o.taxStatus, "tax_status", TaxStatuses))
    + When(o.legalStatus != [], EnumErrors(o.legalStatus, "legal_status", LegalStatuses))
    + When(o.parentOrganizationId != [], IdErrors(o.parentOrganizationId, "parent_organization_id"))
  }

  /** The errors `validateProgram` leaves in the list, in check order. */
  function ProgramErrors(p: Program): seq<string> {
    IdErrors(p.id, "id")
    + RequiredErrors(p.organizationId, "organization_id")
    + RequiredErrors(p.name, "name")
    + OptionalErrors(p.alternateName, "alternate_name", MaxNameLength)
    + OptionalErrors(p.description, "description", MaxDescriptionLength)
    + IdErrors(p.organizationId, "organization_id")
  }

  /** The errors `validateService` leaves in the list, in check order. */
  function ServiceErrors(s: Service): seq<string> {
    ServiceFieldErrors(s)
    + AgeRangeErrors(s.minimumAge, s.maximumAge)
    + ServiceKeyErrors(s)
  }

  /** The per-field checks of `validateService`, which run before the age rule. */
  function ServiceFieldErrors(s: Service): seq<string> {
    IdErrors(s.id, "id")
    + RequiredErrors(s.organizationId, "organization_id")
    + RequiredErrors(s.name, "name")
    + OptionalErrors(s.alternateName, "alternate_name", MaxNameLength)
    + OptionalErrors(s.description, "description", MaxDescriptionLength)
    + OptionalErrors(s.url, "url", MaxUrlLength)
    + OptionalErrors(s.email, "email", MaxEmailLength)
    + When(s.email != [], EmailErrors(s.email))
    + When(s.url != [], UrlErrors(s.url))
    + When(s.status != [], EnumErrors(s.status, "status", ServiceStatuses))
  }

  /** The foreign-key checks of `validateService`, which run after the age rule. */
  function ServiceKeyErrors(s: Service): seq<string> {
    IdErrors(s.organizationId, "organization_id")
    + When(s.programId != [], IdErrors(s.programId, "program_id"))
  }

  /** The errors `validateLocation` leaves in the list, in check order. */
  function LocationErrors(l: Location): seq<string> {
    IdErrors(l.id, "id")
    + OptionalErrors(l.organizationId, "organization_id", MaxIdLength)
    + OptionalErrors(l.name, "name", MaxNameLength)
    + OptionalErrors(l.alternateName, "alternate_name", MaxNameLength)
    + OptionalErrors(l.description, "description", MaxDescriptionLength)
    + OptionalErrors(l.transportation, "transportation", 500)
    + When(l.latitude != 0.0, RealErrors(l.latitude, "latitude", -90, 90))
    + When(l.longitude != 0.0, RealErrors(l.longitude, "longitude", -180, 180))
    + When(l.organizationId != [], IdErrors(l.organizationId, "organization_id"))
  }

  /** The errors `validatePhone` leaves in the list, in check order. */
  function PhoneErrors(p: Phone, strict: bool): seq<string> {
    IdErrors(p.id, "id")
    + RequiredErrors(p.number, "number")
    + PhoneNumberErrors(p.number)
    + When(p.phoneType != [], EnumErrors(p.phoneType, "type", PhoneTypes))
    + ExtensionErrors(p.extension)
    + OptionalErrors(p.description, "description", 500)
    + When(p.locationId != [], IdErrors(p.locationId, "location_id"))
    + When(p.serviceId != [], IdErrors(p.serviceId, "service_id"))
    + When(p.organizationId != [], IdErrors(p.organizationId, "organization_id"))
    + When(p.contactId != [], IdErrors(p.contactId, "contact_id"))
    + When(p.serviceAtLocationId != [], IdErrors(p.serviceAtLocationId, "service_at_location_id"))
    + When(!HasReference(p) && strict, [ReferenceRequiredMessage])
  }

  /** The errors `validateContact` leaves in the list, in check order. */
  function ContactErrors(c: Contact): seq<string> {
    IdErrors(c.id, "id")
    + OptionalErrors(c.name, "name", MaxNameLength)
    + OptionalErrors(c.title, "title", 100)
    + OptionalErrors(c.department, "department", 100)
    + OptionalErrors(c.email, "email", MaxEmailLength)
    + When(c.email != [], EmailErrors(c.email))
    + When(c.organizationId != [], IdErrors(c.organizationId, "organization_id"))
    + When(c.serviceId != [], IdErrors(c.serviceId, "service_id"))
  }

  /** The errors `validateAddress` leaves in the list, in check order. */
  function AddressErrors(a: Address): seq<string> {
    IdErrors(a.id, "id")
    + RequiredErrors(a.locationId, "location_id")
    + OptionalErrors(a.address1, "address_1", 200)
    + OptionalErrors(a.city, "city", 100)
    + OptionalErrors(a.stateProvince, "state_province", 100)
    + OptionalErrors(a.postalCode, "postal_code", 20)
    + OptionalErrors(a.country, "country", 100)
    + When(a.addressType != [], EnumErrors(a.addressType, "address_type", AddressTypes))
    + IdErrors(a.locationId, "location_id")
  }

  /** The errors `validateServiceAtLocation` leaves in the list, in check order. */
  function ServiceAtLocationErrors(x: ServiceAtLocation): seq<string> {
    IdErrors(x.id, "id")
    + RequiredErrors(x.serviceId, "service_id")
    + RequiredErrors(x.locationId, "location_id")
    + OptionalErrors(x.description, "description", MaxDescriptionLength)
    + IdErrors(x.serviceId, "service_id")
    + IdErrors(x.locationId, "location_id")
  }

  /** The errors `validateSchedule` leaves in the list, in check order. */
  function ScheduleErrors(x: Schedule): seq<string> {
    IdErrors(x.id, "id")
    + OptionalErrors(x.description, "description", MaxDescriptionLength)
    + When(x.freq != [], EnumErrors(x.freq, "freq", Frequencies))
    + When(x.opensAt != [], OptionalErrors(x.opensAt, "opens_at", 20))
    + When(x.closesAt != [], OptionalErrors(x.closesAt, "closes_at", 20))
  }

  // ---------------------------------------------------------------------------
  // Declarative validity, and the lemmas tying it to the error lists
  // ---------------------------------------------------------------------------

  /** A URL the check accepts: it begins with a scheme prefix. */
  predicate HttpUrl(u: string) {
    StartsWith(u, "http://") || StartsWith(u, "https://")
  }

  ghost predicate ValidOrganization(o: Organization) {
    IsValidId(o.id) && o.name != []
    && |o.alternateName| <= MaxNameLength && |o.description| <= MaxDescriptionLength
    && |o.email| <= MaxEmailLength && |o.website| <= MaxUrlLength
    && |o.logo| <= MaxUrlLength && |o.uri| <= MaxUrlLength
    && (o.email != [] ==> EmailShape(o.email))
    && (o.website != [] ==> HttpUrl(o.website))
    && (o.yearIncorporated > 0 ==> MinYear <= o.yearIncorporated <= MaxYear)
    && (o.taxStatus != [] ==> o.taxStatus in TaxStatuses)
    && (o.legalStatus != [] ==> o.legalStatus in LegalStatuses)
    && (o.parentOrganizationId != [] ==> IsValidId(o.parentOrganizationId))
  }

  ghost predicate ValidProgram(p: Program) {
    IsValidId(p.id) && IsValidId(p.organizationId) && p.name != []
    && |p.alternateName| <= MaxNameLength && |p.description| <= MaxDescriptionLength
  }

  ghost predicate ValidService(s: Service) {
    IsValidId(s.id) && IsValidId(s.organizationId) && s.name != []
    && |s.alternateName| <= MaxNameLength && |s.description| <= MaxDescriptionLength
    && |s.url| <= MaxUrlLength && |s.email| <= MaxEmailLength
    && (s.email != [] ==> EmailShape(s.email))
    && (s.url != [] ==> HttpUrl(s.url))
    && (s.status != [] ==> s.status in ServiceStatuses)
    && !(s.minimumAge >= 0 && s.maximumAge >= 0 && s.minimumAge > s.maximumAge)
    && (s.programId != [] ==> IsValidId(s.programId))
  }

  ghost predicate ValidLocation(l: Location) {
    IsValidId(l.id)
    && |l.organizationId| <= MaxIdLength && |l.name| <= MaxNameLength
    && |l.alternateName| <= MaxNameLength && |l.description| <= MaxDescriptionLength
    && |l.transportation| <= 500
    && -90.0 <= l.latitude <= 90.0 && -180.0 <= l.longitude <= 180.0
    && (l.organizationId != [] ==> IsValidId(l.organizationId))
  }

  ghost predicate ValidPhone(p: Phone, strict: bool) {
    IsValidId(p.id) && p.number != [] && PhoneShape(p.number)
    && (p.phoneType != [] ==> p.phoneType in PhoneTypes)
    && 0 <= p.extension <= MaxExtension
    && |p.description| <= 500
    && (p.locationId != [] ==> IsValidId(p.locationId))
    && (p.serviceId != [] ==> IsValidId(p.serviceId))
    && (p.organizationId != [] ==> IsValidId(p.organizationId))
    && (p.contactId != [] ==> IsValidId(p.contactId))
    && (p.serviceAtLocationId != [] ==> IsValidId(p.serviceAtLocationId))
    && (strict ==> HasReference(p))
  }

  ghost predicate ValidContact(c: Contact) {
    IsValidId(c.id)
    && |c.name| <= MaxNameLength && |c.title| <= 100 && |c.department| <= 100
    && |c.email| <= MaxEmailLength
    && (c.email != [] ==> EmailShape(c.email))
    && (c.organizationId != [] ==> IsValidId(c.organizationId))
    && (c.serviceId != [] ==> IsValidId(c.serviceId))
  }

  ghost predicate ValidAddress(a: Address) {
    IsValidId(a.id) && IsValidId(a.locationId)
    && |a.address1| <= 200 && |a.city| <= 100 && |a.stateProvince| <= 100
    && |a.postalCode| <= 20 && |a.country| <= 100
    && (a.addressType != [] ==> a.addressType in AddressTypes)
  }

  ghost predicate ValidServiceAtLocation(x: ServiceAtLocation) {
    IsValidId(x.id) && IsValidId(x.serviceId) && IsValidId(x.locationId)
    && |x.description| <= MaxDescriptionLength
  }

  ghost predicate ValidSchedule(x: Schedule) {
    IsValidId(x.id) && |x.description| <= MaxDescriptionLength
    && (x.freq != [] ==> x.freq in Frequencies)
    && |x.opensAt| <= 20 && |x.closesAt| <= 20
  }

  lemma OrganizationErrorsEmptyIff(o: Organization)
    ensures OrganizationErrors(o) == [] <==> ValidOrganization(o)
  {
    IdErrorsCharacterized(o.id, "id");
    IdErrorsCharacterized(o.parentOrganizationId, "parent_organization_id");
    EmailErrorsCharacterized(o.email);
    UrlErrorsCharacterized(o.website);
  }

  lemma ProgramErrorsEmptyIff(p: Program)
    ensures ProgramErrors(p) == [] <==> ValidProgram(p)
  {
    IdErrorsCharacterized(p.id, "id");
    IdErrorsCharacterized(p.organizationId, "organization_id");
  }

  lemma ServiceErrorsEmptyIff(s: Service)
    ensures ServiceErrors(s) == [] <==> ValidService(s)
  {
    IdErrorsCharacterized(s.id, "id");
    IdErrorsCharacterized(s.organizationId, "organization_id");
    IdErrorsCharacterized(s.programId, "program_id");
    EmailErrorsCharacterized(s.email);
    UrlErrorsCharacterized(s.url);
  }

  lemma LocationErrorsEmptyIff(l: Location)
    ensures LocationErrors(l) == [] <==> ValidLocation(l)
  {
    IdErrorsCharacterized(l.id, "id");
    IdErrorsCharacterized(l.organizationId, "organization_id");
  }

  lemma PhoneErrorsEmptyIff(p: Phone, strict: bool)
    ensures PhoneErrors(p, strict) == [] <==> ValidPhone(p, strict)
  {
    IdErrorsCharacterized(p.id, "id");
    IdErrorsCharacterized(p.locationId, "location_id");
    IdErrorsCharacterized(p.serviceId, "service_id");
    IdErrorsCharacterized(p.organizationId, "organization_id");
    IdErrorsCharacterized(p.contactId, "contact_id");
    IdErrorsCharacterized(p.serviceAtLocationId, "service_at_location_id");
    PhoneNumberCharacterized(p.number);
  }

  lemma ContactErrorsEmptyIff(c: Contact)
    ensures ContactErrors(c) == [] <==> ValidContact(c)
  {
    IdErrorsCharacterized(c.id, "id");
    IdErrorsCharacterized(c.organizationId, "organization_id");
    IdErrorsCharacterized(c.serviceId, "service_id");
    EmailErrorsCharacterized(c.email);
  }

  lemma AddressErrorsEmptyIff(a: Address)
    ensures AddressErrors(a) == [] <==> ValidAddress(a)
  {
    IdErrorsCharacterized(a.id, "id");
    IdErrorsCharacterized(a.locationId, "location_id");
  }

  lemma ServiceAtLocationErrorsEmptyIff(x: ServiceAtLocation)
    ensures ServiceAtLocationErrors(x) == [] <==> ValidServiceAtLocation(x)
  {
    IdErrorsCharacterized(x.id, "id");
    IdErrorsCharacterized(x.serviceId, "service_id");
    IdErrorsCharacterized(x.locationId, "location_id");
  }

  lemma ScheduleErrorsEmptyIff(x: Schedule)
    ensures ScheduleErrors(x) == [] <==> ValidSchedule(x)
  {
    IdErrorsCharacterized(x.id, "id");
  }

  // ---------------------------------------------------------------------------
  // Which check an error came from
  // ---------------------------------------------------------------------------

  predicate NoColon(f: string) {
    forall i :: 0 <= i < |f| ==> f[i] != ':'
  }

  /** The field name an error message carries: the text before its first ':'. */
  function FieldOf(e: string): Option<string> {
    match IndexOf(e, ':')
    case None => None
    case Some(i) => Some(e[..i])
  }

  /** The field of a tagged message is read back exactly, provided the name has no ':'. */
  lemma FieldOfTagged(f: string, m: string)
    requires NoColon(f)
    ensures FieldOf(Tagged(f, m)) == Some(f)
    ensures Tagged(f, m)[..|f|] == f
  {
    var e := Tagged(f, m);
    assert e[|f|] == ':';
    assert e[..|f|] == f;
    assert IndexOf(e, ':') == Some(|f|);
  }

  /** Every error in `errs` is tagged with field `f`. */
  predicate TaggedWith(errs: seq<string>, f: string) {
    forall k :: 0 <= k < |errs| ==> FieldOf(errs[k]) == Some(f)
  }

  /** Each helper tags its errors with the field it was given. */
  lemma HelpersTag(v: string, f: string, max: nat, allowed: seq<string>)
    requires NoColon(f)
    ensures TaggedWith(IdErrors(v, f), f)
    ensures TaggedWith(RequiredErrors(v, f), f)
    ensures TaggedWith(OptionalErrors(v, f, max), f)
    ensures TaggedWith(EnumErrors(v, f, allowed), f)
  {
    IdErrorsTag(v, f);
    if max > 0 && |v| > max {
      FieldOfTagged(f, TooLongMessage(max));
    }
    if v !in allowed {
      FieldOfTagged(f, OneOfMessage(allowed));
    }
    if v == [] {
      FieldOfTagged(f, RequiredMessage);
    }
  }

  lemma IdErrorsTag(v: string, f: string)
    requires NoColon(f)
    ensures TaggedWith(IdErrors(v, f), f)
  {
    if v == [] {
      FieldOfTagged(f, RequiredMessage);
    } else if |v| > MaxIdLength {
      FieldOfTagged(f, TooLongMessage(MaxIdLength));
    } else if !AllIdChars(v) {
      FieldOfTagged(f, BadIdCharsMessage);
    }
  }

  /** An error tagged with another field, or with none, is not among `errs`. */
  lemma NotTaggedNotIn(x: string, errs: seq<string>, f: string)
    requires TaggedWith(errs, f) && FieldOf(x) != Some(f)
    ensures x !in errs
  {
  }

  /** A message tagged with `f` begins with `f`'s first character. */
  lemma TaggedFirstChar(errs: seq<string>, f: string, e: string)
    requires TaggedWith(errs, f) && f != [] && e in errs
    ensures e != [] && e[0] == f[0]
  {
    var k :| 0 <= k < |errs| && errs[k] == e;
    var i := IndexOf(e, ':').value;
    assert e[..i] == f;
  }

  /** An error that does not begin with `f`'s first character is appended by none of `f`'s helpers. */
  lemma HeadNotInHelpers(x: string, v: string, f: string, max: nat, allowed: seq<string>)
    requires f != [] && (x == [] || x[0] != f[0])
    ensures x !in IdErrors(v, f) && x !in RequiredErrors(v, f)
    ensures x !in OptionalErrors(v, f, max) && x !in EnumErrors(v, f, allowed)
  {
    assert Tagged(f, RequiredMessage)[0] == f[0];
    assert Tagged(f, TooLongMessage(MaxIdLength))[0] == f[0];
    assert Tagged(f, BadIdCharsMessage)[0] == f[0];
    assert Tagged(f, TooLongMessage(max))[0] == f[0];
    assert Tagged(f, OneOfMessage(allowed))[0] == f[0];
  }

  /**
   * Service reports "age_range" exactly when both ages are given (non-negative) and the
   * minimum exceeds the maximum.
   */
  lemma ServiceAgeRule(s: Service)
    ensures Tagged("age_range", AgeRangeMessage) in ServiceErrors(s)
        <==> s.minimumAge >= 0 && s.maximumAge >= 0 && s.minimumAge > s.maximumAge
  {
    var x := Tagged("age_range", AgeRangeMessage);
    AgeNotFromFields(s);
    assert x !in ServiceKeyErrors(s) by {
      assert x[0] == 'a';
      HeadNotInHelpers(x, s.organizationId, "organization_id", 0, []);
      HeadNotInHelpers(x, s.programId, "program_id", 0, []);
    }
  }

  /** No per-field check of a service produces the age error. */
  lemma AgeNotFromFields(s: Service)
    ensures Tagged("age_range", AgeRangeMessage) !in ServiceFieldErrors(s)
  {
    var x := Tagged("age_range", AgeRangeMessage);
    assert x[0] == 'a' && x[1] == 'g';
    AgeHeadNotInNames(x, s);
    AgeHeadNotInContact(x, s);
  }

  /** An error beginning "ag" comes from none of the id, name and free-text checks of a service. */
  lemma AgeHeadNotInNames(x: string, s: Service)
    requires |x| >= 2 && x[0] == 'a' && x[1] == 'g'
    ensures x !in IdErrors(s.id, "id") && x !in RequiredErrors(s.organizationId, "organization_id")
    ensures x !in RequiredErrors(s.name, "name")
    ensures x !in OptionalErrors(s.alternateName, "alternate_name", MaxNameLength)
    ensures x !in OptionalErrors(s.description, "description", MaxDescriptionLength)
  {
    HeadNotInHelpers(x, s.id, "id", 0, []);
    HeadNotInHelpers(x, s.organizationId, "organization_id", 0, []);
    HeadNotInHelpers(x, s.name, "name", 0, []);
    HeadNotInHelpers(x, s.description, "description", MaxDescriptionLength, []);
    assert x !in OptionalErrors(s.alternateName, "alternate_name", MaxNameLength) by {
      assert Tagged("alternate_name", TooLongMessage(MaxNameLength))[1] == 'l';
    }
  }

  /** An error beginning "a" comes from none of the URL, e-mail and status checks of a service. */
  lemma AgeHeadNotInContact(x: string, s: Service)
    requires |x| >= 1 && x[0] == 'a'
    ensures x !in OptionalErrors(s.url, "url", MaxUrlLength)
    ensures x !in OptionalErrors(s.email, "email", MaxEmailLength)
    ensures x !in EmailErrors(s.email) && x !in UrlErrors(s.url)
    ensures x !in EnumErrors(s.status, "status", ServiceStatuses)
  {
    HeadNotInHelpers(x, s.url, "url", MaxUrlLength, []);
    HeadNotInHelpers(x, s.email, "email", MaxEmailLength, []);
    HeadNotInHelpers(x, s.status, "status", 0, ServiceStatuses);
    HeadNotInFormats(x, s.email, s.url);
  }

  /** An error that begins with neither 'e' nor 'u' comes from neither format check. */
  lemma HeadNotInFormats(x: string, email: string, url: string)
    requires x == [] || (x[0] != 'e' && x[0] != 'u')
    ensures x !in EmailErrors(email) && x !in UrlErrors(url)
  {
    assert Tagged("email", EmailMessage)[0] == 'e';
    assert Tagged("url", UrlMessage)[0] == 'u';
  }

  /** Phone reports "extension" exactly when the extension is outside 0..99999. */
  lemma PhoneExtensionRule(p: Phone, strict: bool)
    ensures Tagged("extension", ExtensionMessage) in PhoneErrors(p, strict)
        <==> p.extension < 0 || p.extension > MaxExtension
  {
    var x := Tagged("extension", ExtensionMessage);
    assert x[0] == 'e';
    HeadNotInHelpers(x, p.id, "id", 0, []);
    HeadNotInHelpers(x, p.number, "number", 0, []);
    HeadNotInHelpers(x, p.phoneType, "type", 0, PhoneTypes);
    HeadNotInHelpers(x, p.description, "description", 500, []);
    HeadNotInHelpers(x, p.locationId, "location_id", 0, []);
    HeadNotInHelpers(x, p.serviceId, "service_id", 0, []);
    HeadNotInHelpers(x, p.organizationId, "organization_id", 0, []);
    HeadNotInHelpers(x, p.contactId, "contact_id", 0, []);
    HeadNotInHelpers(x, p.serviceAtLocationId, "service_at_location_id", 0, []);
    assert x != Tagged("number", PhoneNumberMessage) by { assert Tagged("number", PhoneNumberMessage)[0] == 'n'; }
    assert x != ReferenceRequiredMessage by { assert ReferenceRequiredMessage[0] == 'A'; }
  }

  /**
   * Phone reports the untagged "At least one reference ..." error exactly when strict mode
   * is on and all five reference ids are empty.
   */
  lemma PhoneReferenceRule(p: Phone, strict: bool)
    ensures ReferenceRequiredMessage in PhoneErrors(p, strict) <==> strict && !HasReference(p)
  {
    var x := ReferenceRequiredMessage;
    assert x[0] == 'A';
    HeadNotInHelpers(x, p.id, "id", 0, []);
    HeadNotInHelpers(x, p.number, "number", 0, []);
    HeadNotInHelpers(x, p.phoneType, "type", 0, PhoneTypes);
    HeadNotInHelpers(x, p.description, "description", 500, []);
    HeadNotInHelpers(x, p.locationId, "location_id", 0, []);
    HeadNotInHelpers(x, p.serviceId, "service_id", 0, []);
    HeadNotInHelpers(x, p.organizationId, "organization_id", 0, []);
    HeadNotInHelpers(x, p.contactId, "contact_id", 0, []);
    HeadNotInHelpers(x, p.serviceAtLocationId, "service_at_location_id", 0, []);
    assert x != Tagged("number", PhoneNumberMessage) by { assert Tagged("number", PhoneNumberMessage)[0] == 'n'; }
    assert x != Tagged("extension", ExtensionMessage) by { assert Tagged("extension", ExtensionMessage)[0] == 'e'; }
  }

  /**
   * Strict mode changes the phone result only by the reference error, which it appends
   * last when no reference is given.
   */
  lemma PhoneStrictOnlyAddsReference(p: Phone)
    ensures PhoneErrors(p, true) == PhoneErrors(p, false) + When(!HasReference(p), [ReferenceRequiredMessage])
  {
    var prefix := PhoneErrors(p, false);
    assert PhoneErrors(p, false) == prefix + [];
  }

  /**
   * A program with an empty organization_id gets the "is required" error twice: once from
   * the required check and once from the foreign-key check, both tagged organization_id.
   */
  lemma ProgramMissingOrganizationTwice(p: Program)
    requires p.organizationId == []
    ensures multiset(ProgramErrors(p))[Tagged("organization_id", RequiredMessage)] == 2
  {
    var x := Tagged("organization_id", RequiredMessage);
    var a := IdErrors(p.id, "id");
    var b, c, d := RequiredErrors(p.name, "name"),
      OptionalErrors(p.alternateName, "alternate_name", MaxNameLength),
      OptionalErrors(p.description, "description", MaxDescriptionLength);
    ProgramErrorsWithoutOrganization(p);
    assert x[0] == 'o';
    OtherFieldNotIn(x, p.id, "id", 0);
    OtherFieldNotIn(x, p.name, "name", 0);
    OtherFieldNotIn(x, p.alternateName, "alternate_name", MaxNameLength);
    OtherFieldNotIn(x, p.description, "description", MaxDescriptionLength);
    CountedTwice(a, b + c + d, x);
  }

  /** Without an organization_id the required check and the foreign-key check each give one error. */
  lemma ProgramErrorsWithoutOrganization(p: Program)
    requires p.organizationId == []
    ensures var x := Tagged("organization_id", RequiredMessage);
      ProgramErrors(p) == IdErrors(p.id, "id") + [x]
        + (RequiredErrors(p.name, "name") + OptionalErrors(p.alternateName, "alternate_name", MaxNameLength)
           + OptionalErrors(p.description, "description", MaxDescriptionLength)) + [x]
  {
  }

  /** A message that does not start like field `f` is none of the string helpers' errors for `f`. */
  lemma OtherFieldNotIn(x: string, v: string, f: string, max: nat)
    requires f != [] && x != [] && x[0] != f[0]
    ensures x !in IdErrors(v, f) && x !in RequiredErrors(v, f) && x !in OptionalErrors(v, f, max)
  {
  }

  /** An element put twice between sequences that do not hold it occurs twice. */
  lemma CountedTwice<T>(a: seq<T>, c: seq<T>, x: T)
    requires x !in a && x !in c
    ensures multiset(a + [x] + c + [x])[x] == 2
  {
    assert multiset(a + [x] + c + [x]) == multiset(a) + multiset{x} + multiset(c) + multiset{x};
  }
}
