/**
 * `HsdsValidator`: an object holding the error list of the last validation and the
 * strict-mode flag. Each record validator clears the list, runs every check of its record
 * type in order (none stops at the first failure), and answers whether all checks passed.
 * The error list each call leaves behind is the matching `HsdsRules` function of the record.
 */
module HsdsValidation {
  import opened Text
  import opened HsdsRecords
  import opened HsdsRules

  class Validator {
    /** `last_errors_` */
    var lastErrors: seq<string>
    /** `strict_mode_` */
    var strictMode: bool

    /** A new validator has no errors and is not strict. */
    constructor()
      ensures lastErrors == [] && !strictMode
    {
      lastErrors := [];
      strictMode := false;
    }

    // -------------------------------------------------------------------------
    // Error list and configuration
    // -------------------------------------------------------------------------

    /** `getLastErrors` */
    method GetLastErrors() returns (errs: seq<string>)
      ensures errs == lastErrors
    {
      errs := lastErrors;
    }

    /** `clearErrors` */
    method ClearErrors()
      modifies this
      ensures lastErrors == [] && strictMode == old(strictMode)
    {
      lastErrors := [];
    }

    /** `setStrictMode`: nothing but the flag changes. */
    method SetStrictMode(strict: bool)
      modifies this
      ensures strictMode == strict && lastErrors == old(lastErrors)
    {
      strictMode := strict;
    }

    /** `isStrictMode` */
    method IsStrictMode() returns (strict: bool)
      ensures strict == strictMode
    {
      strict := strictMode;
    }

    /** `getLastErrorsAsString`: the errors in order, separated by "; ". */
    method GetLastErrorsAsString() returns (r: string)
      ensures r == Join(lastErrors, "; ")
    {
      r := [];
      var i := 0;
      while i < |lastErrors|
        invariant 0 <= i <= |lastErrors|
        invariant r == Join(lastErrors[..i], "; ")
      {
        if i > 0 {
          r := r + "; ";
        }
        r := r + lastErrors[i];
        assert lastErrors[..i + 1] == lastErrors[..i] + [lastErrors[i]];
        JoinSnoc(lastErrors[..i], lastErrors[i], "; ");
        i := i + 1;
      }
      assert lastErrors[..i] == lastErrors;
    }

    /** `addError` */
    method AddError(e: string)
      modifies this
      ensures lastErrors == old(lastErrors) + [e] && strictMode == old(strictMode)
    {
      lastErrors := lastErrors + [e];
    }

    /** `addFieldError`: the message is prefixed with the field name and ": ". */
    method AddFieldError(field: string, e: string)
      modifies this
      ensures lastErrors == old(lastErrors) + [Tagged(field, e)] && strictMode == old(strictMode)
    {
      AddError(field + ": " + e);
    }

    // -------------------------------------------------------------------------
    // Helpers: each appends what its rule function says and reports success
    // -------------------------------------------------------------------------

    /** `validateId` (and `validateForeignKey`, which only forwards to it). */
    method ValidateId(id: string, field: string) returns (ok: bool)
      modifies this
      ensures lastErrors == old(lastErrors) + IdErrors(id, field)
      ensures ok <==> IsValidId(id)
      ensures ok <==> |lastErrors| == |old(lastErrors)|
      ensures strictMode == old(strictMode)
    {
      if id == [] {
        AddFieldError(field, RequiredMessage);
        return false;
      }
      if |id| > MaxIdLength {
        AddFieldError(field, TooLongMessage(MaxIdLength));
        return false;
      }
      if !AllIdChars(id) {
        AddFieldError(field, BadIdCharsMessage);
        return false;
      }
      return true;
    }

    /** `validateRequiredString` */
    method ValidateRequiredString(v: string, field: string) returns (ok: bool)
      modifies this
      ensures lastErrors == old(lastErrors) + RequiredErrors(v, field)
      ensures ok <==> v != []
      ensures ok <==> |lastErrors| == |old(lastErrors)|
      ensures strictMode == old(strictMode)
    {
      if v == [] {
        AddFieldError(field, RequiredMessage);
        return false;
      }
      return true;
    }

    /** `validateOptionalString`; a maximum of 0 means unbounded. */
    method ValidateOptionalString(v: string, field: string, max: nat) returns (ok: bool)
      modifies this
      ensures lastErrors == old(lastErrors) + OptionalErrors(v, field, max)
      ensures ok <==> (max > 0 ==> |v| <= max)
      ensures ok <==> |lastErrors| == |old(lastErrors)|
      ensures strictMode == old(strictMode)
    {
      if max > 0 && |v| > max {
        AddFieldError(field, TooLongMessage(max));
        return false;
      }
      return true;
    }

    /** `validateEmail` */
    method ValidateEmail(e: string) returns (ok: bool)
      modifies this
      ensures lastErrors == old(lastErrors) + EmailErrors(e)
      ensures ok <==> (e != [] ==> EmailShape(e))
      ensures ok <==> |lastErrors| == |old(lastErrors)|
      ensures strictMode == old(strictMode)
    {
      EmailMatchesPattern(e);
      if e == [] {
        return true;
      }
      if !IsEmail(e) {
        AddFieldError("email", EmailMessage);
        return false;
      }
      return true;
    }

    /** `validateUrl(const char*)` */
    method ValidateUrl(u: string) returns (ok: bool)
      modifies this
      ensures lastErrors == old(lastErrors) + UrlErrors(u)
      ensures ok <==> (u != [] ==> HttpUrl(u))
      ensures ok <==> |lastErrors| == |old(lastErrors)|
      ensures strictMode == old(strictMode)
    {
      UrlAcceptedIsPrefix(u);
      if u == [] {
        return true;
      }
      if !UrlAccepted(u) {
        AddFieldError("url", UrlMessage);
        return false;
      }
      return true;
    }

    /** `validatePhoneNumber`: the empty number fails without an error of its own. */
    method ValidatePhoneNumber(n: string) returns (ok: bool)
      modifies this
      ensures lastErrors == old(lastErrors) + PhoneNumberErrors(n)
      ensures ok <==> PhoneNumberAccepted(n)
      ensures n != [] ==> (ok <==> |lastErrors| == |old(lastErrors)|)
      ensures strictMode == old(strictMode)
    {
      if n == [] {
        return false;
      }
      if !IsPhoneNumber(n) {
        AddFieldError("number", PhoneNumberMessage);
        return false;
      }
      return true;
    }

    /** `validateNumericField` */
    method ValidateNumericField(v: int, field: string, lo: int, hi: int) returns (ok: bool)
      modifies this
      ensures lastErrors == old(lastErrors) + NumericErrors(v, field, lo, hi)
      ensures ok <==> lo <= v <= hi
      ensures ok <==> |lastErrors| == |old(lastErrors)|
      ensures strictMode == old(strictMode)
    {
      if v < lo || v > hi {
        AddFieldError(field, RangeMessage(lo, hi));
        return false;
      }
      return true;
    }

    /** `validateDoubleField`, for the integral bounds it is called with. */
    method ValidateDoubleField(v: real, field: string, lo: int, hi: int) returns (ok: bool)
      modifies this
      ensures lastErrors == old(lastErrors) + RealErrors(v, field, lo, hi)
      ensures ok <==> lo as real <= v <= hi as real
      ensures ok <==> |lastErrors| == |old(lastErrors)|
      ensures strictMode == old(strictMode)
    {
      if v < lo as real || v > hi as real {
        AddFieldError(field, RealRangeMessage(lo, hi));
        return false;
      }
      return true;
    }

    /**
     * The enum validators (`validateTaxStatus`, `validateLegalStatus`,
     * `validateServiceStatus`, `validatePhoneType`, `validateAddressType`,
     * `validateScheduleFrequency`): a scan of the allowed list.
     */
    method ValidateOneOf(v: string, field: string, allowed: seq<string>) returns (ok: bool)
      modifies this
      ensures lastErrors == old(lastErrors) + EnumErrors(v, field, allowed)
      ensures ok <==> v in allowed
      ensures ok <==> |lastErrors| == |old(lastErrors)|
      ensures strictMode == old(strictMode)
    {
      for i := 0 to |allowed|
        invariant v !in allowed[..i]
      {
        if v == allowed[i] {
          return true;
        }
        assert allowed[..i + 1] == allowed[..i] + [allowed[i]];
      }
      assert allowed[..|allowed|] == allowed;
      AddFieldError(field, OneOfMessage(allowed));
      return false;
    }

    // -------------------------------------------------------------------------
    // Checks the record validators run only on a present (non-empty) field,
    // the `if (x && strlen(x) > 0)` guards of the C++ code
    // -------------------------------------------------------------------------

    /** A foreign key checked only when given. */
    method ValidateIdIfPresent(id: string, field: string) returns (ok: bool)
      modifies this
      ensures lastErrors == old(lastErrors) + When(id != [], IdErrors(id, field))
      ensures ok <==> (id != [] ==> IsValidId(id))
      ensures ok <==> |lastErrors| == |old(lastErrors)|
      ensures strictMode == old(strictMode)
    {
      ok := true;
      if id != [] {
        ok := ValidateId(id, field);
      }
    }

    /** An enum field checked only when given. */
    method ValidateOneOfIfPresent(v: string, field: string, allowed: seq<string>) returns (ok: bool)
      modifies this
      ensures lastErrors == old(lastErrors) + When(v != [], EnumErrors(v, field, allowed))
      ensures ok <==> (v != [] ==> v in allowed)
      ensures ok <==> |lastErrors| == |old(lastErrors)|
      ensures strictMode == old(strictMode)
    {
      ok := true;
      if v != [] {
        ok := ValidateOneOf(v, field, allowed);
      }
    }

    /** An e-mail address checked only when given. */
    method ValidateEmailIfPresent(e: string) returns (ok: bool)
      modifies this
      ensures lastErrors == old(lastErrors) + When(e != [], EmailErrors(e))
      ensures ok <==> (e != [] ==> EmailShape(e))
      ensures ok <==> |lastErrors| == |old(lastErrors)|
      ensures strictMode == old(strictMode)
    {
      ok := true;
      if e != [] {
        ok := ValidateEmail(e);
      }
    }

    /** A URL checked only when given. */
    method ValidateUrlIfPresent(u: string) returns (ok: bool)
      modifies this
      ensures lastErrors == old(lastErrors) + When(u != [], UrlErrors(u))
      ensures ok <==> (u != [] ==> HttpUrl(u))
      ensures ok <==> |lastErrors| == |old(lastErrors)|
      ensures strictMode == old(strictMode)
    {
      ok := true;
      if u != [] {
        ok := ValidateUrl(u);
      }
    }

    /** A length bound checked only when the field is given. */
    method ValidateOptionalStringIfPresent(v: string, field: string, max: nat) returns (ok: bool)
      modifies this
      ensures lastErrors == old(lastErrors) + When(v != [], OptionalErrors(v, field, max))
      ensures ok <==> (v != [] && max > 0 ==> |v| <= max)
      ensures ok <==> |lastErrors| == |old(lastErrors)|
      ensures strictMode == old(strictMode)
    {
      ok := true;
      if v != [] {
        ok := ValidateOptionalString(v, field, max);
      }
    }

    /** A year checked only when positive (`if (x > 0)`). */
    method ValidateNumericFieldIfPositive(v: int, field: string, lo: int, hi: int) returns (ok: bool)
      modifies this
      ensures lastErrors == old(lastErrors) + When(v > 0, NumericErrors(v, field, lo, hi))
      ensures ok <==> (v > 0 ==> lo <= v <= hi)
      ensures ok <==> |lastErrors| == |old(lastErrors)|
      ensures strictMode == old(strictMode)
    {
      ok := true;
      if v > 0 {
        ok := ValidateNumericField(v, field, lo, hi);
      }
    }

    /** A coordinate checked only when non-zero (`if (x != 0.0)`). */
    method ValidateDoubleFieldIfSet(v: real, field: string, lo: int, hi: int) returns (ok: bool)
      modifies this
      ensures lastErrors == old(lastErrors) + When(v != 0.0, RealErrors(v, field, lo, hi))
      ensures ok <==> (v != 0.0 ==> lo as real <= v <= hi as real)
      ensures ok <==> |lastErrors| == |old(lastErrors)|
      ensures strictMode == old(strictMode)
    {
      ok := true;
      if v != 0.0 {
        ok := ValidateDoubleField(v, field, lo, hi);
      }
    }

    // -------------------------------------------------------------------------
    // The cross-field rules written inline in the record validators
    // -------------------------------------------------------------------------

    /** The age rule of `validateService`: only two known ages can clash. */
    method CheckAgeRange(minimumAge: int, maximumAge: int) returns (ok: bool)
      modifies this
      ensures lastErrors == old(lastErrors) + AgeRangeErrors(minimumAge, maximumAge)
      ensures ok <==> !(minimumAge >= 0 && maximumAge >= 0 && minimumAge > maximumAge)
      ensures ok <==> |lastErrors| == |old(lastErrors)|
      ensures strictMode == old(strictMode)
    {
      ok := true;
      if minimumAge >= 0 && maximumAge >= 0 {
        if minimumAge > maximumAge {
          AddFieldError("age_range", AgeRangeMessage);
          ok := false;
        }
      }
    }

    /** The extension bound of `validatePhone`. */
    method CheckExtension(extension: int) returns (ok: bool)
      modifies this
      ensures lastErrors == old(lastErrors) + ExtensionErrors(extension)
      ensures ok <==> 0 <= extension <= MaxExtension
      ensures ok <==> |lastErrors| == |old(lastErrors)|
      ensures strictMode == old(strictMode)
    {
      ok := true;
      if extension < 0 || extension > MaxExtension {
        AddFieldError("extension", ExtensionMessage);
        ok := false;
      }
    }

    /** The closing rule of `validatePhone`: in strict mode a phone must name a record. */
    method RequireReference(hasReference: bool) returns (ok: bool)
      modifies this
      ensures lastErrors == old(lastErrors) + When(!hasReference && strictMode, [ReferenceRequiredMessage])
      ensures ok <==> hasReference || !strictMode
      ensures ok <==> |lastErrors| == |old(lastErrors)|
      ensures strictMode == old(strictMode)
    {
      ok := true;
      if !hasReference && strictMode {
        AddError(ReferenceRequiredMessage);
        ok := false;
      }
    }

    // -------------------------------------------------------------------------
    // The nine record validators
    // -------------------------------------------------------------------------

    /** `validateOrganization`, in four groups of checks. */
    method ValidateOrganization(o: Organization) returns (valid: bool)
      modifies this
      ensures lastErrors == OrganizationErrors(o)
      ensures valid <==> lastErrors == []
      ensures strictMode == old(strictMode)
    {
      ClearErrors();
      var ok0 := CheckOrganizationNames(o);
      EmptyPlus(IdErrors(o.id, "id"));
      var ok1 := CheckOrganizationContactLengths(o);
      var ok2 := CheckOrganizationFormats(o);
      var ok3 := CheckOrganizationStatuses(o);
      valid := ok0 && ok1 && ok2 && ok3;
    }

    /** The id, the name and the other free-text fields of an organization. */
    method CheckOrganizationNames(o: Organization) returns (ok: bool)
      modifies this
      ensures lastErrors == old(lastErrors) + IdErrors(o.id, "id") + RequiredErrors(o.name, "name") + OptionalErrors(o.alternateName, "alternate_name", MaxNameLength) + OptionalErrors(o.description, "description", MaxDescriptionLength)
      ensures ok <==> |lastErrors| == |old(lastErrors)|
      ensures strictMode == old(strictMode)
    {
      var ok0 := ValidateId(o.id, "id");
      var ok1 := ValidateRequiredString(o.name, "name");
      var ok2 := ValidateOptionalString(o.alternateName, "alternate_name", MaxNameLength);
      var ok3 := ValidateOptionalString(o.description, "description", MaxDescriptionLength);
      ok := ok0 && ok1 && ok2 && ok3;
    }

    /** The length bounds of an organization's e-mail, website, logo and URI. */
    method CheckOrganizationContactLengths(o: Organization) returns (ok: bool)
      modifies this
      ensures lastErrors == old(lastErrors) + OptionalErrors(o.email, "email", MaxEmailLength) + OptionalErrors(o.website, "website", MaxUrlLength) + OptionalErrors(o.logo, "logo", MaxUrlLength) + OptionalErrors(o.uri, "uri", MaxUrlLength)
      ensures ok <==> |lastErrors| == |old(lastErrors)|
      ensures strictMode == old(strictMode)
    {
      var ok0 := ValidateOptionalString(o.email, "email", MaxEmailLength);
      var ok1 := ValidateOptionalString(o.website, "website", MaxUrlLength);
      var ok2 := ValidateOptionalString(o.logo, "logo", MaxUrlLength);
      var ok3 := ValidateOptionalString(o.uri, "uri", MaxUrlLength);
      ok := ok0 && ok1 && ok2 && ok3;
    }

    /** The formats of an organization's e-mail and website and the range of its year. */
    method CheckOrganizationFormats(o: Organization) returns (ok: bool)
      modifies this
      ensures lastErrors == old(lastErrors) + When(o.email != [], EmailErrors(o.email)) + When(o.website != [], UrlErrors(o.website)) + When(o.yearIncorporated > 0, NumericErrors(o.yearIncorporated, "year_incorporated", MinYear, MaxYear))
      ensures ok <==> |lastErrors| == |old(lastErrors)|
      ensures strictMode == old(strictMode)
    {
      var ok0 := ValidateEmailIfPresent(o.email);
      var ok1 := ValidateUrlIfPresent(o.website);
      var ok2 := ValidateNumericFieldIfPositive(o.yearIncorporated, "year_incorporated", MinYear, MaxYear);
      ok := ok0 && ok1 && ok2;
    }

    /** An organization's tax and legal status and its parent. */
    method CheckOrganizationStatuses(o: Organization) returns (ok: bool)
      modifies this
      ensures lastErrors == old(lastErrors) + When(o.taxStatus != [], EnumErrors(o.taxStatus, "tax_status", TaxStatuses)) + When(o.legalStatus != [], EnumErrors(o.legalStatus, "legal_status", LegalStatuses)) + When(o.parentOrganizationId != [], IdErrors(o.parentOrganizationId, "parent_organization_id"))
      ensures ok <==> |lastErrors| == |old(lastErrors)|
      ensures strictMode == old(strictMode)
    {
      var ok0 := ValidateOneOfIfPresent(o.taxStatus, "tax_status", TaxStatuses);
      var ok1 := ValidateOneOfIfPresent(o.legalStatus, "legal_status", LegalStatuses);
      var ok2 := ValidateIdIfPresent(o.parentOrganizationId, "parent_organization_id");
      ok := ok0 && ok1 && ok2;
    }

    /** `validateProgram`, in two groups of checks. */
    method ValidateProgram(p: Program) returns (valid: bool)
      modifies this
      ensures lastErrors == ProgramErrors(p)
      ensures valid <==> lastErrors == []
      ensures strictMode == old(strictMode)
    {
      ClearErrors();
      var ok0 := CheckProgramRequired(p);
      EmptyPlus(IdErrors(p.id, "id"));
      var ok1 := CheckProgramOptional(p);
      valid := ok0 && ok1;
    }

    /** The required fields of a program. */
    method CheckProgramRequired(p: Program) returns (ok: bool)
      modifies this
      ensures lastErrors == old(lastErrors) + IdErrors(p.id, "id") + RequiredErrors(p.organizationId, "organization_id") + RequiredErrors(p.name, "name")
      ensures ok <==> |lastErrors| == |old(lastErrors)|
      ensures strictMode == old(strictMode)
    {
      var ok0 := ValidateId(p.id, "id");
      var ok1 := ValidateRequiredString(p.organizationId, "organization_id");
      var ok2 := ValidateRequiredString(p.name, "name");
      ok := ok0 && ok1 && ok2;
    }

    /** The optional fields of a program and its organization key. */
    method CheckProgramOptional(p: Program) returns (ok: bool)
      modifies this
      ensures lastErrors == old(lastErrors) + OptionalErrors(p.alternateName, "alternate_name", MaxNameLength) + OptionalErrors(p.description, "description", MaxDescriptionLength) + IdErrors(p.organizationId, "organization_id")
      ensures ok <==> |lastErrors| == |old(lastErrors)|
      ensures strictMode == old(strictMode)
    {
      var ok0 := ValidateOptionalString(p.alternateName, "alternate_name", MaxNameLength);
      var ok1 := ValidateOptionalString(p.description, "description", MaxDescriptionLength);
      var ok2 := ValidateId(p.organizationId, "organization_id");
      ok := ok0 && ok1 && ok2;
    }

    /** `validateService`; the age rule sits between the field checks and the foreign keys. */
    method ValidateService(s: Service) returns (valid: bool)
      modifies this
      ensures lastErrors == ServiceErrors(s)
      ensures valid <==> lastErrors == []
      ensures strictMode == old(strictMode)
    {
      ClearErrors();
      var ok0 := CheckServiceNames(s);
      EmptyPlus(IdErrors(s.id, "id"));
      var ok1 := CheckServiceContact(s);
      assert lastErrors == ServiceFieldErrors(s);
      var ok2 := CheckAgeRange(s.minimumAge, s.maximumAge);
      var ok3 := CheckServiceKeys(s);
      valid := ok0 && ok1 && ok2 && ok3;
    }

    /** The id, the required fields and the free text of a service. */
    method CheckServiceNames(s: Service) returns (ok: bool)
      modifies this
      ensures lastErrors == old(lastErrors) + IdErrors(s.id, "id") + RequiredErrors(s.organizationId, "organization_id") + RequiredErrors(s.name, "name") + OptionalErrors(s.alternateName, "alternate_name", MaxNameLength) + OptionalErrors(s.description, "description", MaxDescriptionLength)
      ensures ok <==> |lastErrors| == |old(lastErrors)|
      ensures strictMode == old(strictMode)
    {
      var ok0 := ValidateId(s.id, "id");
      var ok1 := ValidateRequiredString(s.organizationId, "organization_id");
      var ok2 := ValidateRequiredString(s.name, "name");
      var ok3 := ValidateOptionalString(s.alternateName, "alternate_name", MaxNameLength);
      var ok4 := ValidateOptionalString(s.description, "description", MaxDescriptionLength);
      ok := ok0 && ok1 && ok2 && ok3 && ok4;
    }

    /** The URL, e-mail and status of a service. */
    method CheckServiceContact(s: Service) returns (ok: bool)
      modifies this
      ensures lastErrors == old(lastErrors) + OptionalErrors(s.url, "url", MaxUrlLength) + OptionalErrors(s.email, "email", MaxEmailLength) + When(s.email != [], EmailErrors(s.email)) + When(s.url != [], UrlErrors(s.url)) + When(s.status != [], EnumErrors(s.status, "status", ServiceStatuses))
      ensures ok <==> |lastErrors| == |old(lastErrors)|
      ensures strictMode == old(strictMode)
    {
      var ok0 := ValidateOptionalString(s.url, "url", MaxUrlLength);
      var ok1 := ValidateOptionalString(s.email, "email", MaxEmailLength);
      var ok2 := ValidateEmailIfPresent(s.email);
      var ok3 := ValidateUrlIfPresent(s.url);
      var ok4 := ValidateOneOfIfPresent(s.status, "status", ServiceStatuses);
      ok := ok0 && ok1 && ok2 && ok3 && ok4;
    }

    /** The foreign keys of a service. */
    method CheckServiceKeys(s: Service) returns (ok: bool)
      modifies this
      ensures lastErrors == old(lastErrors) + ServiceKeyErrors(s)
      ensures ok <==> |lastErrors| == |old(lastErrors)|
      ensures strictMode == old(strictMode)
    {
      var ok0 := ValidateId(s.organizationId, "organization_id");
      var ok1 := ValidateIdIfPresent(s.programId, "program_id");
      ok := ok0 && ok1;
    }

    /** `validateLocation`, in two groups of checks. */
    method ValidateLocation(l: Location) returns (valid: bool)
      modifies this
      ensures lastErrors == LocationErrors(l)
      ensures valid <==> lastErrors == []
      ensures strictMode == old(strictMode)
    {
      ClearErrors();
      var ok0 := CheckLocationText(l);
      EmptyPlus(IdErrors(l.id, "id"));
      var ok1 := CheckLocationPlace(l);
      valid := ok0 && ok1;
    }

    /** The id and the text fields of a location. */
    method CheckLocationText(l: Location) returns (ok: bool)
      modifies this
      ensures lastErrors == old(lastErrors) + IdErrors(l.id, "id") + OptionalErrors(l.organizationId, "organization_id", MaxIdLength) + OptionalErrors(l.name, "name", MaxNameLength) + OptionalErrors(l.alternateName, "alternate_name", MaxNameLength) + OptionalErrors(l.description, "description", MaxDescriptionLength)
      ensures ok <==> |lastErrors| == |old(lastErrors)|
      ensures strictMode == old(strictMode)
    {
      var ok0 := ValidateId(l.id, "id");
      var ok1 := ValidateOptionalString(l.organizationId, "organization_id", MaxIdLength);
      var ok2 := ValidateOptionalString(l.name, "name", MaxNameLength);
      var ok3 := ValidateOptionalString(l.alternateName, "alternate_name", MaxNameLength);
      var ok4 := ValidateOptionalString(l.description, "description", MaxDescriptionLength);
      ok := ok0 && ok1 && ok2 && ok3 && ok4;
    }

    /** The transportation note, the coordinates and the organization of a location. */
    method CheckLocationPlace(l: Location) returns (ok: bool)
      modifies this
      ensures lastErrors == old(lastErrors) + OptionalErrors(l.transportation, "transportation", 500) + When(l.latitude != 0.0, RealErrors(l.latitude, "latitude", -90, 90)) + When(l.longitude != 0.0, RealErrors(l.longitude, "longitude", -180, 180)) + When(l.organizationId != [], IdErrors(l.organizationId, "organization_id"))
      ensures ok <==> |lastErrors| == |old(lastErrors)|
      ensures strictMode == old(strictMode)
    {
      var ok0 := ValidateOptionalString(l.transportation, "transportation", 500);
      var ok1 := ValidateDoubleFieldIfSet(l.latitude, "latitude", -90, 90);
      var ok2 := ValidateDoubleFieldIfSet(l.longitude, "longitude", -180, 180);
      var ok3 := ValidateIdIfPresent(l.organizationId, "organization_id");
      ok := ok0 && ok1 && ok2 && ok3;
    }

    /** `validatePhone`; the reference rule applies only in strict mode. */
    method ValidatePhone(p: Phone) returns (valid: bool)
      modifies this
      ensures lastErrors == PhoneErrors(p, strictMode)
      ensures valid <==> lastErrors == []
      ensures strictMode == old(strictMode)
    {
      ClearErrors();
      var ok0 := CheckPhoneNumber(p);
      EmptyPlus(IdErrors(p.id, "id"));
      var ok1 := CheckPhoneDetails(p);
      var ok2, hasReference := CheckPhoneReferences(p);
      var ok3 := RequireReference(hasReference);
      valid := ok0 && ok1 && ok2 && ok3;
    }

    /** The id, the number and the type of a phone. */
    method CheckPhoneNumber(p: Phone) returns (ok: bool)
      modifies this
      ensures lastErrors == old(lastErrors) + IdErrors(p.id, "id") + RequiredErrors(p.number, "number") + PhoneNumberErrors(p.number) + When(p.phoneType != [], EnumErrors(p.phoneType, "type", PhoneTypes))
      ensures ok <==> |lastErrors| == |old(lastErrors)|
      ensures strictMode == old(strictMode)
    {
      var ok0 := ValidateId(p.id, "id");
      var ok1 := ValidateRequiredString(p.number, "number");
      var ok2 := ValidatePhoneNumber(p.number);
      var ok3 := ValidateOneOfIfPresent(p.phoneType, "type", PhoneTypes);
      ok := ok0 && ok1 && ok2 && ok3;
    }

    /** The extension and the description of a phone. */
    method CheckPhoneDetails(p: Phone) returns (ok: bool)
      modifies this
      ensures lastErrors == old(lastErrors) + ExtensionErrors(p.extension) + OptionalErrors(p.description, "description", 500)
      ensures ok <==> |lastErrors| == |old(lastErrors)|
      ensures strictMode == old(strictMode)
    {
      var ok0 := CheckExtension(p.extension);
      var ok1 := ValidateOptionalString(p.description, "description", 500);
      ok := ok0 && ok1;
    }

    /** The five optional references of a phone, noting whether any is given. */
    method CheckPhoneReferences(p: Phone) returns (ok: bool, hasReference: bool)
      modifies this
      ensures lastErrors == old(lastErrors) + When(p.locationId != [], IdErrors(p.locationId, "location_id")) + When(p.serviceId != [], IdErrors(p.serviceId, "service_id")) + When(p.organizationId != [], IdErrors(p.organizationId, "organization_id")) + When(p.contactId != [], IdErrors(p.contactId, "contact_id")) + When(p.serviceAtLocationId != [], IdErrors(p.serviceAtLocationId, "service_at_location_id"))
      ensures ok <==> |lastErrors| == |old(lastErrors)|
      ensures hasReference == HasReference(p)
      ensures strictMode == old(strictMode)
    {
      hasReference := false;
      if p.locationId != [] {
        hasReference := true;
      }
      var ok0 := ValidateIdIfPresent(p.locationId, "location_id");
      if p.serviceId != [] {
        hasReference := true;
      }
      var ok1 := ValidateIdIfPresent(p.serviceId, "service_id");
      if p.organizationId != [] {
        hasReference := true;
      }
      var ok2 := ValidateIdIfPresent(p.organizationId, "organization_id");
      if p.contactId != [] {
        hasReference := true;
      }
      var ok3 := ValidateIdIfPresent(p.contactId, "contact_id");
      if p.serviceAtLocationId != [] {
        hasReference := true;
      }
      var ok4 := ValidateIdIfPresent(p.serviceAtLocationId, "service_at_location_id");
      ok := ok0 && ok1 && ok2 && ok3 && ok4;
    }

    /** `validateContact`, in two groups of checks. */
    method ValidateContact(c: Contact) returns (valid: bool)
      modifies this
      ensures lastErrors == ContactErrors(c)
      ensures valid <==> lastErrors == []
      ensures strictMode == old(strictMode)
    {
      ClearErrors();
      var ok0 := CheckContactText(c);
      EmptyPlus(IdErrors(c.id, "id"));
      var ok1 := CheckContactLinks(c);
      valid := ok0 && ok1;
    }

    /** The id and the text fields of a contact. */
    method CheckContactText(c: Contact) returns (ok: bool)
      modifies this
      ensures lastErrors == old(lastErrors) + IdErrors(c.id, "id") + OptionalErrors(c.name, "name", MaxNameLength) + OptionalErrors(c.title, "title", 100) + OptionalErrors(c.department, "department", 100)
      ensures ok <==> |lastErrors| == |old(lastErrors)|
      ensures strictMode == old(strictMode)
    {
      var ok0 := ValidateId(c.id, "id");
      var ok1 := ValidateOptionalString(c.name, "name", MaxNameLength);
      var ok2 := ValidateOptionalString(c.title, "title", 100);
      var ok3 := ValidateOptionalString(c.department, "department", 100);
      ok := ok0 && ok1 && ok2 && ok3;
    }

    /** The e-mail and the foreign keys of a contact. */
    method CheckContactLinks(c: Contact) returns (ok: bool)
      modifies this
      ensures lastErrors == old(lastErrors) + OptionalErrors(c.email, "email", MaxEmailLength) + When(c.email != [], EmailErrors(c.email)) + When(c.organizationId != [], IdErrors(c.organizationId, "organization_id")) + When(c.serviceId != [], IdErrors(c.serviceId, "service_id"))
      ensures ok <==> |lastErrors| == |old(lastErrors)|
      ensures strictMode == old(strictMode)
    {
      var ok0 := ValidateOptionalString(c.email, "email", MaxEmailLength);
      var ok1 := ValidateEmailIfPresent(c.email);
      var ok2 := ValidateIdIfPresent(c.organizationId, "organization_id");
      var ok3 := ValidateIdIfPresent(c.serviceId, "service_id");
      ok := ok0 && ok1 && ok2 && ok3;
    }

    /** `validateAddress`, in two groups of checks. */
    method ValidateAddress(a: Address) returns (valid: bool)
      modifies this
      ensures lastErrors == AddressErrors(a)
      ensures valid <==> lastErrors == []
      ensures strictMode == old(strictMode)
    {
      ClearErrors();
      var ok0 := CheckAddressStreet(a);
      EmptyPlus(IdErrors(a.id, "id"));
      var ok1 := CheckAddressRegion(a);
      valid := ok0 && ok1;
    }

    /** The id, the location and the street and city of an address. */
    method CheckAddressStreet(a: Address) returns (ok: bool)
      modifies this
      ensures lastErrors == old(lastErrors) + IdErrors(a.id, "id") + RequiredErrors(a.locationId, "location_id") + OptionalErrors(a.address1, "address_1", 200) + OptionalErrors(a.city, "city", 100)
      ensures ok <==> |lastErrors| == |old(lastErrors)|
      ensures strictMode == old(strictMode)
    {
      var ok0 := ValidateId(a.id, "id");
      var ok1 := ValidateRequiredString(a.locationId, "location_id");
      var ok2 := ValidateOptionalString(a.address1, "address_1", 200);
      var ok3 := ValidateOptionalString(a.city, "city", 100);
      ok := ok0 && ok1 && ok2 && ok3;
    }

    /** The region, postal code, country, type and location key of an address. */
    method CheckAddressRegion(a: Address) returns (ok: bool)
      modifies this
      ensures lastErrors == old(lastErrors) + OptionalErrors(a.stateProvince, "state_province", 100) + OptionalErrors(a.postalCode, "postal_code", 20) + OptionalErrors(a.country, "country", 100) + When(a.addressType != [], EnumErrors(a.addressType, "address_type", AddressTypes)) + IdErrors(a.locationId, "location_id")
      ensures ok <==> |lastErrors| == |old(lastErrors)|
      ensures strictMode == old(strictMode)
    {
      var ok0 := ValidateOptionalString(a.stateProvince, "state_province", 100);
      var ok1 := ValidateOptionalString(a.postalCode, "postal_code", 20);
      var ok2 := ValidateOptionalString(a.country, "country", 100);
      var ok3 := ValidateOneOfIfPresent(a.addressType, "address_type", AddressTypes);
      var ok4 := ValidateId(a.locationId, "location_id");
      ok := ok0 && ok1 && ok2 && ok3 && ok4;
    }

    /** `validateServiceAtLocation`, in two groups of checks. */
    method ValidateServiceAtLocation(x: ServiceAtLocation) returns (valid: bool)
      modifies this
      ensures lastErrors == ServiceAtLocationErrors(x)
      ensures valid <==> lastErrors == []
      ensures strictMode == old(strictMode)
    {
      ClearErrors();
      var ok0 := CheckServiceAtLocationRequired(x);
      EmptyPlus(IdErrors(x.id, "id"));
      var ok1 := CheckServiceAtLocationKeys(x);
      valid := ok0 && ok1;
    }

    /** The required fields of a service-at-location link. */
    method CheckServiceAtLocationRequired(x: ServiceAtLocation) returns (ok: bool)
      modifies this
      ensures lastErrors == old(lastErrors) + IdErrors(x.id, "id") + RequiredErrors(x.serviceId, "service_id") + RequiredErrors(x.locationId, "location_id")
      ensures ok <==> |lastErrors| == |old(lastErrors)|
      ensures strictMode == old(strictMode)
    {
      var ok0 := ValidateId(x.id, "id");
      var ok1 := ValidateRequiredString(x.serviceId, "service_id");
      var ok2 := ValidateRequiredString(x.locationId, "location_id");
      ok := ok0 && ok1 && ok2;
    }

    /** The description and the two foreign keys of a link. */
    method CheckServiceAtLocationKeys(x: ServiceAtLocation) returns (ok: bool)
      modifies this
      ensures lastErrors == old(lastErrors) + OptionalErrors(x.description, "description", MaxDescriptionLength) + IdErrors(x.serviceId, "service_id") + IdErrors(x.locationId, "location_id")
      ensures ok <==> |lastErrors| == |old(lastErrors)|
      ensures strictMode == old(strictMode)
    {
      var ok0 := ValidateOptionalString(x.description, "description", MaxDescriptionLength);
      var ok1 := ValidateId(x.serviceId, "service_id");
      var ok2 := ValidateId(x.locationId, "location_id");
      ok := ok0 && ok1 && ok2;
    }

    /** `validateSchedule`, in two groups of checks. */
    method ValidateSchedule(x: Schedule) returns (valid: bool)
      modifies this
      ensures lastErrors == ScheduleErrors(x)
      ensures valid <==> lastErrors == []
      ensures strictMode == old(strictMode)
    {
      ClearErrors();
      var ok0 := CheckScheduleText(x);
      EmptyPlus(IdErrors(x.id, "id"));
      var ok1 := CheckScheduleTimes(x);
      valid := ok0 && ok1;
    }

    /** The id, description and frequency of a schedule. */
    method CheckScheduleText(x: Schedule) returns (ok: bool)
      modifies this
      ensures lastErrors == old(lastErrors) + IdErrors(x.id, "id") + OptionalErrors(x.description, "description", MaxDescriptionLength) + When(x.freq != [], EnumErrors(x.freq, "freq", Frequencies))
      ensures ok <==> |lastErrors| == |old(lastErrors)|
      ensures strictMode == old(strictMode)
    {
      var ok0 := ValidateId(x.id, "id");
      var ok1 := ValidateOptionalString(x.description, "description", MaxDescriptionLength);
      var ok2 := ValidateOneOfIfPresent(x.freq, "freq", Frequencies);
      ok := ok0 && ok1 && ok2;
    }

    /** The opening and closing times of a schedule. */
    method CheckScheduleTimes(x: Schedule) returns (ok: bool)
      modifies this
      ensures lastErrors == old(lastErrors) + When(x.opensAt != [], OptionalErrors(x.opensAt, "opens_at", 20)) + When(x.closesAt != [], OptionalErrors(x.closesAt, "closes_at", 20))
      ensures ok <==> |lastErrors| == |old(lastErrors)|
      ensures strictMode == old(strictMode)
    {
      var ok0 := ValidateOptionalStringIfPresent(x.opensAt, "opens_at", 20);
      var ok1 := ValidateOptionalStringIfPresent(x.closesAt, "closes_at", 20);
      ok := ok0 && ok1;
    }
    /**
     * The fifteen stub validators (`validateAttribute` ... `validateUrl(const UrlInfo&)`):
     * they accept every record and leave the error list alone.
     */
    method ValidateMinorRecord(r: Record) returns (valid: bool)
      requires WellFormed(r) && IsMinorTopic(TopicOf(r))
      ensures valid
    {
      valid := true;
    }
  }

  /** The error list a validator starts from is empty. */
  lemma EmptyPlus(errs: seq<string>)
    ensures [] + errs == errs
  {
  }
}
