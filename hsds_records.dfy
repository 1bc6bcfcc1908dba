/**
 * The HSDS (Human Services Data Specification) records the CommUnity publisher validates and
 * publishes, the 24 DDS topics they travel on, and the provenance stamp (`dmp_source_id`)
 * the publisher writes into every outgoing copy.
 *
 * Only the members the validator, the JSON decoders and the publisher touch are modelled.
 * IDL strings are never null, so every string member is a plain `string`.
 */
module HsdsRecords {
  import opened Wrappers

  datatype Organization = Organization(
    id: string, name: string, alternateName: string, description: string,
    email: string, website: string, logo: string, uri: string,
    yearIncorporated: int, taxStatus: string, legalStatus: string,
    parentOrganizationId: string, dmpSourceId: string)

  datatype Program = Program(
    id: string, organizationId: string, name: string, alternateName: string,
    description: string, dmpSourceId: string)

  datatype Service = Service(
    id: string, organizationId: string, programId: string, name: string,
    alternateName: string, description: string, url: string, email: string,
    status: string, minimumAge: int, maximumAge: int, dmpSourceId: string)

  /** Latitude and longitude are IDL doubles; the model reads them as exact reals. */
  datatype Location = Location(
    id: string, organizationId: string, name: string, alternateName: string,
    description: string, transportation: string, latitude: real, longitude: real,
    dmpSourceId: string)

  datatype Phone = Phone(
    id: string, number: string, phoneType: string, extension: int, description: string,
    locationId: string, serviceId: string, organizationId: string, contactId: string,
    serviceAtLocationId: string, dmpSourceId: string)

  datatype Contact = Contact(
    id: string, name: string, title: string, department: string, email: string,
    organizationId: string, serviceId: string, dmpSourceId: string)

  datatype Address = Address(
    id: string, locationId: string, address1: string, city: string, stateProvince: string,
    postalCode: string, country: string, addressType: string, dmpSourceId: string)

  datatype ServiceAtLocation = ServiceAtLocation(
    id: string, serviceId: string, locationId: string, description: string, dmpSourceId: string)

  datatype Schedule = Schedule(
    id: string, description: string, freq: string, opensAt: string, closesAt: string,
    dmpSourceId: string)

  /** A default-constructed record: empty strings, and zero for the numeric members. */
  const EmptyOrganization := Organization([], [], [], [], [], [], [], [], 0, [], [], [], [])
  const EmptyProgram := Program([], [], [], [], [], [])
  const EmptyService := Service([], [], [], [], [], [], [], [], [], 0, 0, [])
  const EmptyLocation := Location([], [], [], [], [], [], 0.0, 0.0, [])

  /** The 24 HSDS topics, in the order the publisher sets them up. */
  datatype Topic =
    | OrganizationTopic | ProgramTopic | ServiceTopic | LocationTopic | PhoneTopic
    | ContactTopic | AddressTopic | ServiceAtLocationTopic | ScheduleTopic
    | AttributeInfoTopic | FundingTopic | ServiceAreaTopic | RequiredDocumentTopic
    | LanguageTopic | AccessibilityTopic | TaxonomyTermTopic | MetadataTopic
    | MetaTableDescriptionTopic | CostOptionTopic | OrganizationIdentifierTopic
    | TaxonomyTopic | ServiceCapacityTopic | UnitTopic | UrlInfoTopic

  /** The DDS topic name. */
  function TopicName(t: Topic): string {
    match t
    case OrganizationTopic => "Organization"
    case ProgramTopic => "Program"
    case ServiceTopic => "Service"
    case LocationTopic => "Location"
    case PhoneTopic => "Phone"
    case ContactTopic => "Contact"
    case AddressTopic => "Address"
    case ServiceAtLocationTopic => "ServiceAtLocation"
    case ScheduleTopic => "Schedule"
    case AttributeInfoTopic => "AttributeInfo"
    case FundingTopic => "Funding"
    case ServiceAreaTopic => "ServiceArea"
    case RequiredDocumentTopic => "RequiredDocument"
    case LanguageTopic => "Language"
    case AccessibilityTopic => "Accessibility"
    case TaxonomyTermTopic => "TaxonomyTerm"
    case MetadataTopic => "Metadata"
    case MetaTableDescriptionTopic => "MetaTableDescription"
    case CostOptionTopic => "CostOption"
    case OrganizationIdentifierTopic => "OrganizationIdentifier"
    case TaxonomyTopic => "Taxonomy"
    case ServiceCapacityTopic => "ServiceCapacity"
    case UnitTopic => "Unit"
    case UrlInfoTopic => "UrlInfo"
  }

  /** The registered type name, "HSDS::" followed by the topic name. */
  function TypeName(t: Topic): string {
    "HSDS::" + TopicName(t)
  }

  /** The topic table the publisher walks when it creates topics and writers. */
  const AllTopics: seq<Topic> := [
    OrganizationTopic, ProgramTopic, ServiceTopic, LocationTopic, PhoneTopic,
    ContactTopic, AddressTopic, ServiceAtLocationTopic, ScheduleTopic,
    AttributeInfoTopic, FundingTopic, ServiceAreaTopic, RequiredDocumentTopic,
    LanguageTopic, AccessibilityTopic, TaxonomyTermTopic, MetadataTopic,
    MetaTableDescriptionTopic, CostOptionTopic, OrganizationIdentifierTopic,
    TaxonomyTopic, ServiceCapacityTopic, UnitTopic, UrlInfoTopic]

  /** The topic names, in table order. */
  function TopicNames(): seq<string> {
    seq(|AllTopics|, i requires 0 <= i < |AllTopics| => TopicName(AllTopics[i]))
  }

  /** Where a topic sits in the table. */
  function TopicIndex(t: Topic): (i: nat)
    ensures i < |AllTopics| && AllTopics[i] == t
  {
    match t
    case OrganizationTopic => 0
    case ProgramTopic => 1
    case ServiceTopic => 2
    case LocationTopic => 3
    case PhoneTopic => 4
    case ContactTopic => 5
    case AddressTopic => 6
    case ServiceAtLocationTopic => 7
    case ScheduleTopic => 8
    case AttributeInfoTopic => 9
    case FundingTopic => 10
    case ServiceAreaTopic => 11
    case RequiredDocumentTopic => 12
    case LanguageTopic => 13
    case AccessibilityTopic => 14
    case TaxonomyTermTopic => 15
    case MetadataTopic => 16
    case MetaTableDescriptionTopic => 17
    case CostOptionTopic => 18
    case OrganizationIdentifierTopic => 19
    case TaxonomyTopic => 20
    case ServiceCapacityTopic => 21
    case UnitTopic => 22
    case UrlInfoTopic => 23
  }

  /** The topic a name denotes (the inverse of `TopicName`), chosen among the names of its length. */
  function TopicNamed(name: string): Option<Topic> {
    match |name|
    case 4 => if name == "Unit" then Some(UnitTopic) else None
    case 5 => if name == "Phone" then Some(PhoneTopic) else None
    case 7 =>
      if name == "Program" then Some(ProgramTopic)
      else if name == "Service" then Some(ServiceTopic)
      else if name == "Contact" then Some(ContactTopic)
      else if name == "Address" then Some(AddressTopic)
      else if name == "Funding" then Some(FundingTopic)
      else if name == "UrlInfo" then Some(UrlInfoTopic)
      else None
    case 8 =>
      if name == "Location" then Some(LocationTopic)
      else if name == "Schedule" then Some(ScheduleTopic)
      else if name == "Language" then Some(LanguageTopic)
      else if name == "Metadata" then Some(MetadataTopic)
      else if name == "Taxonomy" then Some(TaxonomyTopic)
      else None
    case 10 => if name == "CostOption" then Some(CostOptionTopic) else None
    case 11 => if name == "ServiceArea" then Some(ServiceAreaTopic) else None
    case 12 =>
      if name == "Organization" then Some(OrganizationTopic)
      else if name == "TaxonomyTerm" then Some(TaxonomyTermTopic)
      else None
    case 13 =>
      if name == "AttributeInfo" then Some(AttributeInfoTopic)
      else if name == "Accessibility" then Some(AccessibilityTopic)
      else None
    case 15 => if name == "ServiceCapacity" then Some(ServiceCapacityTopic) else None
    case 16 => if name == "RequiredDocument" then Some(RequiredDocumentTopic) else None
    case 17 => if name == "ServiceAtLocation" then Some(ServiceAtLocationTopic) else None
    case 20 => if name == "MetaTableDescription" then Some(MetaTableDescriptionTopic) else None
    case 22 => if name == "OrganizationIdentifier" then Some(OrganizationIdentifierTopic) else None
    case _ => None
  }

  /** Looking a topic's name up gives the topic back. */
  lemma TopicNameRoundTrip(t: Topic)
    ensures TopicNamed(TopicName(t)) == Some(t)
  {
    match t
    case ProgramTopic | ServiceTopic | ContactTopic | AddressTopic | FundingTopic | UrlInfoTopic =>
      SevenLetterNamesRoundTrip(t);
    case LocationTopic | ScheduleTopic | LanguageTopic | MetadataTopic | TaxonomyTopic =>
      EightLetterNamesRoundTrip(t);
    case _ =>
  }

  lemma SevenLetterNamesRoundTrip(t: Topic)
    requires t.ProgramTopic? || t.ServiceTopic? || t.ContactTopic? || t.AddressTopic?
      || t.FundingTopic? || t.UrlInfoTopic?
    ensures TopicNamed(TopicName(t)) == Some(t)
  {
  }

  lemma EightLetterNamesRoundTrip(t: Topic)
    requires t.LocationTopic? || t.ScheduleTopic? || t.LanguageTopic? || t.MetadataTopic? || t.TaxonomyTopic?
    ensures TopicNamed(TopicName(t)) == Some(t)
  {
  }

  /** The table lists all 24 topics. */
  lemma TopicTableComplete()
    ensures |AllTopics| == 24
    ensures forall t: Topic :: t in AllTopics
  {
    forall t: Topic ensures t in AllTopics {
      assert AllTopics[TopicIndex(t)] == t;
    }
  }

  /** `TopicIndex` inverts the table. */
  lemma TopicIndexOfTable(i: nat)
    requires i < |AllTopics|
    ensures TopicIndex(AllTopics[i]) == i
  {
    if i < 8 {
      TopicIndexOfFirstEight(i);
    } else if i < 16 {
      TopicIndexOfMiddleEight(i);
    } else {
      TopicIndexOfLastEight(i);
    }
  }

  /** `TopicIndex` inverts the first eight entries. */
  lemma TopicIndexOfFirstEight(i: nat)
    requires 0 <= i < 8
    ensures TopicIndex(AllTopics[i]) == i
  {
    if i == 0 {
    } else if i == 1 {
    } else if i == 2 {
    } else if i == 3 {
    } else if i == 4 {
    } else if i == 5 {
    } else if i == 6 {
    }
  }

  /** `TopicIndex` inverts the next eight entries. */
  lemma TopicIndexOfMiddleEight(i: nat)
    requires 8 <= i < 16
    ensures TopicIndex(AllTopics[i]) == i
  {
    if i == 8 {
    } else if i == 9 {
    } else if i == 10 {
    } else if i == 11 {
    } else if i == 12 {
    } else if i == 13 {
    } else if i == 14 {
    }
  }

  /** `TopicIndex` inverts the last eight entries. */
  lemma TopicIndexOfLastEight(i: nat)
    requires 16 <= i < 24
    ensures TopicIndex(AllTopics[i]) == i
  {
    if i == 16 {
    } else if i == 17 {
    } else if i == 18 {
    } else if i == 19 {
    } else if i == 20 {
    } else if i == 21 {
    } else if i == 22 {
    }
  }

  /** The table lists each topic once. */
  lemma TopicTableDistinct(i: nat, j: nat)
    requires i < j < |AllTopics|
    ensures AllTopics[i] != AllTopics[j]
  {
    TopicIndexOfTable(i);
    TopicIndexOfTable(j);
  }

  /** Distinct topics have distinct names, so each name keys at most one writer. */
  lemma TopicNameInjective(s: Topic, t: Topic)
    ensures TopicName(s) == TopicName(t) ==> s == t
  {
    TopicNameRoundTrip(s);
    TopicNameRoundTrip(t);
  }

  /** The type name ends in the topic name, so no two topics register the same type. */
  lemma TypeNameInjective(s: Topic, t: Topic)
    ensures |TypeName(t)| > 6 && TypeName(t)[..6] == "HSDS::" && TypeName(t)[6..] == TopicName(t)
    ensures TypeName(s) == TypeName(t) ==> s == t
  {
    assert TypeName(s)[6..] == TopicName(s);
    assert TypeName(t)[6..] == TopicName(t);
    TopicNameInjective(s, t);
  }

  /** The name column of the table names every topic once. */
  lemma TopicNamesDistinct(i: nat, j: nat)
    requires i < j < |TopicNames()|
    ensures TopicNames()[i] != TopicNames()[j]
  {
    TopicTableDistinct(i, j);
    TopicNameInjective(AllTopics[i], AllTopics[j]);
  }

  /** Every topic's name is in the name column, at the topic's own position. */
  lemma TopicNamesComplete(t: Topic)
    ensures |TopicNames()| == 24 && TopicNames()[TopicIndex(t)] == TopicName(t)
  {
  }

  /**
   * One record of any of the 24 HSDS types. The fifteen types the validator and the decoders
   * never inspect are kept as a topic and a map of member values.
   */
  datatype Record =
    | OrganizationRecord(organization: Organization)
    | ProgramRecord(program: Program)
    | ServiceRecord(service: Service)
    | LocationRecord(location: Location)
    | PhoneRecord(phone: Phone)
    | ContactRecord(contact: Contact)
    | AddressRecord(address: Address)
    | ServiceAtLocationRecord(serviceAtLocation: ServiceAtLocation)
    | ScheduleRecord(schedule: Schedule)
    | OtherRecord(topic: Topic, members: map<string, string>, dmpSourceId: string)

  /** The topic `publishX` sends a record on. */
  function TopicOf(r: Record): Topic {
    match r
    case OrganizationRecord(_) => OrganizationTopic
    case ProgramRecord(_) => ProgramTopic
    case ServiceRecord(_) => ServiceTopic
    case LocationRecord(_) => LocationTopic
    case PhoneRecord(_) => PhoneTopic
    case ContactRecord(_) => ContactTopic
    case AddressRecord(_) => AddressTopic
    case ServiceAtLocationRecord(_) => ServiceAtLocationTopic
    case ScheduleRecord(_) => ScheduleTopic
    case OtherRecord(t, _, _) => t
  }

  /** The fifteen topics held as `OtherRecord`s. */
  predicate IsMinorTopic(t: Topic) {
    t !in AllTopics[..9]
  }

  /** An `OtherRecord` stands only for one of the fifteen minor types. */
  predicate WellFormed(r: Record) {
    r.OtherRecord? ==> IsMinorTopic(r.topic)
  }

  /** The record's `dmp_source_id`. */
  function SourceId(r: Record): string {
    match r
    case OrganizationRecord(x) => x.dmpSourceId
    case ProgramRecord(x) => x.dmpSourceId
    case ServiceRecord(x) => x.dmpSourceId
    case LocationRecord(x) => x.dmpSourceId
    case PhoneRecord(x) => x.dmpSourceId
    case ContactRecord(x) => x.dmpSourceId
    case AddressRecord(x) => x.dmpSourceId
    case ServiceAtLocationRecord(x) => x.dmpSourceId
    case ScheduleRecord(x) => x.dmpSourceId
    case OtherRecord(_, _, s) => s
  }

  /** `injectNonRepudiation`: the copy's `dmp_source_id` becomes the publisher's DMP id. */
  function Inject(r: Record, dmpId: string): (s: Record)
    ensures SourceId(s) == dmpId
    ensures TopicOf(s) == TopicOf(r)
    ensures WellFormed(s) == WellFormed(r)
  {
    match r
    case OrganizationRecord(x) => OrganizationRecord(x.(dmpSourceId := dmpId))
    case ProgramRecord(x) => ProgramRecord(x.(dmpSourceId := dmpId))
    case ServiceRecord(x) => ServiceRecord(x.(dmpSourceId := dmpId))
    case LocationRecord(x) => LocationRecord(x.(dmpSourceId := dmpId))
    case PhoneRecord(x) => PhoneRecord(x.(dmpSourceId := dmpId))
    case ContactRecord(x) => ContactRecord(x.(dmpSourceId := dmpId))
    case AddressRecord(x) => AddressRecord(x.(dmpSourceId := dmpId))
    case ServiceAtLocationRecord(x) => ServiceAtLocationRecord(x.(dmpSourceId := dmpId))
    case ScheduleRecord(x) => ScheduleRecord(x.(dmpSourceId := dmpId))
    case OtherRecord(t, m, _) => OtherRecord(t, m, dmpId)
  }

  /**
   * Injection changes nothing but the stamp: putting the caller's own stamp back gives the
   * caller's record, a second injection overrides the first, and two records with the same
   * injected copy differ at most in their stamps.
   */
  lemma InjectOnlyStamps(r: Record, a: string, b: string)
    ensures Inject(Inject(r, a), SourceId(r)) == r
    ensures Inject(Inject(r, a), b) == Inject(r, b)
    ensures Inject(Inject(r, a), a) == Inject(r, a)
  {
    match r
    case OrganizationRecord(x) =>
    case ProgramRecord(x) =>
    case ServiceRecord(x) =>
    case LocationRecord(x) =>
    case PhoneRecord(x) =>
    case ContactRecord(x) =>
    case AddressRecord(x) =>
    case ServiceAtLocationRecord(x) =>
    case ScheduleRecord(x) =>
    case OtherRecord(t, m, s) =>
  }

  /** Two records whose injected copies agree differ at most in their stamps. */
  lemma InjectIdentifiesContent(r: Record, s: Record, a: string)
    requires Inject(r, a) == Inject(s, a)
    ensures r == Inject(s, SourceId(r))
  {
    InjectOnlyStamps(r, a, a);
    InjectOnlyStamps(s, a, a);
    calc {
      r;
      Inject(Inject(r, a), SourceId(r));
      Inject(Inject(s, a), SourceId(r));
      { InjectOnlyStamps(s, a, SourceId(r)); }
      Inject(s, SourceId(r));
    }
  }
}
