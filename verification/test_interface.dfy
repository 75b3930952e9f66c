/** Building the body of a test-interface request that asks the booking system
    to create an opportunity of a given type matching a test criterion.
    `getTestDataRequirements` (with the harvest start time folded in) is not
    part of this model; it is the parameter `requirementsFor`. */
module TestInterfaceOpportunities {
  import opened Wrappers
  import opened Json

  const ContextList: Value := Arr([Str("https://openactive.io/"), Str("https://openactive.io/test-interface")])
  const CriteriaPrefix: string := "https://openactive.io/test-interface#"

  /** The nine opportunity types a test-interface opportunity can be built for. */
  const OpportunityTypes: set<string> := {
    "ScheduledSession", "FacilityUseSlot", "IndividualFacilityUseSlot",
    "CourseInstance", "CourseInstanceSubEvent", "HeadlineEvent",
    "HeadlineEventSubEvent", "Event", "OnDemandEvent"
  }

  // ---------------------------------------------------------------------------
  // The shape of each type, as a table

  /** The `@type` of the built opportunity. */
  function TopLevelType(opportunityType: string): string {
    if opportunityType in {"FacilityUseSlot", "IndividualFacilityUseSlot"} then "Slot"
    else if opportunityType in {"CourseInstanceSubEvent", "HeadlineEventSubEvent", "Event"} then "Event"
    else opportunityType
  }

  /** The key and `@type` of the nested parent object, for types that have one. */
  function Parent(opportunityType: string): Option<(string, string)> {
    match opportunityType
    case "ScheduledSession" => Some(("superEvent", "SessionSeries"))
    case "FacilityUseSlot" => Some(("facilityUse", "FacilityUse"))
    case "IndividualFacilityUseSlot" => Some(("facilityUse", "IndividualFacilityUse"))
    case "CourseInstanceSubEvent" => Some(("superEvent", "CourseInstance"))
    case "HeadlineEventSubEvent" => Some(("superEvent", "HeadlineEvent"))
    case _ => None
  }

  /** Slots name their seller `provider`; everything else `organizer`. */
  function SellerKey(opportunityType: string): string {
    if opportunityType in {"FacilityUseSlot", "IndividualFacilityUseSlot"} then "provider" else "organizer"
  }

  /** The one key besides `@type` that the type-specific part sets: the
      parent's key when there is a parent, the seller's key otherwise. */
  function HomeKey(parent: Option<(string, string)>, sellerKey: string): string {
    if parent.Some? then parent.value.0 else sellerKey
  }

  /** `container[key]` holds the seller object exactly when the seller id is
      truthy, and is `undefined` otherwise. */
  ghost predicate SellerAt(container: Value, key: string, sellerId: Value, sellerType: Value) {
    && container.Obj?
    && key in container.fields
    && (Truthy(sellerId) ==> container.fields[key] == Obj(map["@type" := sellerType, "@id" := sellerId]))
    && (!Truthy(sellerId) ==> container.fields[key] == Undefined)
  }

  // ---------------------------------------------------------------------------
  // The builder

  function Seller(sellerId: Value, sellerType: Value): Value {
    if Truthy(sellerId) then Obj(map["@type" := sellerType, "@id" := sellerId]) else Undefined
  }

  /** The type-specific part of the body: its `@type` and the seller,
      directly or inside the parent object. */
  function TypeSpecificPart(opportunityType: string, seller: Value): (r: Option<map<string, Value>>)
    ensures r.Some? <==> opportunityType in OpportunityTypes
    ensures r.Some? ==>
              && r.value.Keys == {"@type", HomeKey(Parent(opportunityType), SellerKey(opportunityType))}
              && r.value.Keys * FieldKeys == {}
              && "@type" in r.value && r.value["@type"] == Str(TopLevelType(opportunityType))
              && (Parent(opportunityType).None? ==>
                    SellerKey(opportunityType) in r.value && r.value[SellerKey(opportunityType)] == seller)
              && (Parent(opportunityType).Some? ==>
                    var (key, parentType) := Parent(opportunityType).value;
                    && key in r.value
                    && r.value[key] == Obj(map["@type" := Str(parentType), SellerKey(opportunityType) := seller]))
  {
    match opportunityType
    case "ScheduledSession" =>
      Some(map["@type" := Str("ScheduledSession"),
               "superEvent" := Obj(map["@type" := Str("SessionSeries"), "organizer" := seller])])
    case "FacilityUseSlot" =>
      Some(map["@type" := Str("Slot"),
               "facilityUse" := Obj(map["@type" := Str("FacilityUse"), "provider" := seller])])
    case "IndividualFacilityUseSlot" =>
      Some(map["@type" := Str("Slot"),
               "facilityUse" := Obj(map["@type" := Str("IndividualFacilityUse"), "provider" := seller])])
    case "CourseInstance" =>
      Some(map["@type" := Str("CourseInstance"), "organizer" := seller])
    case "CourseInstanceSubEvent" =>
      Some(map["@type" := Str("Event"),
               "superEvent" := Obj(map["@type" := Str("CourseInstance"), "organizer" := seller])])
    case "HeadlineEvent" =>
      Some(map["@type" := Str("HeadlineEvent"), "organizer" := seller])
    case "HeadlineEventSubEvent" =>
      Some(map["@type" := Str("Event"),
               "superEvent" := Obj(map["@type" := Str("HeadlineEvent"), "organizer" := seller])])
    case "Event" =>
      Some(map["@type" := Str("Event"), "organizer" := seller])
    case "OnDemandEvent" =>
      Some(map["@type" := Str("OnDemandEvent"), "organizer" := seller])
    case _ =>
      None
  }

  /** The keys every body shares, whatever its type. */
  const FieldKeys: set<string> := {
    "@context", "test:testOpportunityCriteria",
    "test:testOpportunityDataRequirements", "test:testOfferDataRequirements"
  }

  /** A parameter declared with the default `null` takes it when the argument
      is `undefined`. */
  function OrNull(arg: Value): (r: Value)
    ensures !arg.Undefined? ==> r == arg
    ensures Nullish(r) <==> Nullish(arg)
  {
    if arg.Undefined? then Null else arg
  }

  /** `createTestInterfaceOpportunity`. `sellerId` and `sellerType` default to
      `null` when omitted. The type-specific part comes first and the shared
      fields are spread after it. */
  function CreateTestInterfaceOpportunity(opportunityType: string, criteria: string,
                                          sellerId: Value, sellerType: Value,
                                          requirementsFor: string -> Value): (r: Result<Value>)
    ensures Nullish(requirementsFor(criteria)) ==> r == Err(TypeError)
    ensures !Nullish(requirementsFor(criteria)) && opportunityType !in OpportunityTypes ==>
              r == Err(UnrecognisedOpportunityType)
    ensures r.Ok? <==> !Nullish(requirementsFor(criteria)) && opportunityType in OpportunityTypes
    ensures r.Ok? ==> WellShaped(TopLevelType(opportunityType), Parent(opportunityType), SellerKey(opportunityType),
                                 criteria, OrNull(sellerId), OrNull(sellerType), requirementsFor(criteria), r.value)
  {
    var sellerId := OrNull(sellerId);
    var sellerType := OrNull(sellerType);
    var reqs := requirementsFor(criteria);
    var opportunityRequirements :- Get(reqs, "test:testOpportunityDataRequirements");
    // the first read has not thrown, so `reqs` is an object and this one cannot
    var offerRequirements := Member(reqs, "test:testOfferDataRequirements");
    var fields := map[
      "@context" := ContextList,
      "test:testOpportunityCriteria" := Str(CriteriaPrefix + criteria),
      "test:testOpportunityDataRequirements" := opportunityRequirements,
      "test:testOfferDataRequirements" := offerRequirements
    ];
    var seller := Seller(sellerId, sellerType);
    var part := TypeSpecificPart(opportunityType, seller);
    if part.None? then Err(UnrecognisedOpportunityType)
    else
      BodyIsWellShaped(TopLevelType(opportunityType), Parent(opportunityType), SellerKey(opportunityType),
                       criteria, sellerId, sellerType, reqs, part.value, fields);
      Ok(Obj(part.value + fields))
  }

  /** What a built body looks like, given the row of the type table for its
      type (`top`, `parent`, `sellerKey`): its `@type` is `top`, the shared
      fields carry the context, the criterion IRI and the two data
      requirements, and the seller sits under `sellerKey`, either in the body
      itself or in the parent object, which carries the parent's `@type`. */
  ghost predicate WellShaped(top: string, parent: Option<(string, string)>, sellerKey: string,
                             criteria: string, sellerId: Value, sellerType: Value, reqs: Value, v: Value) {
    && v.Obj?
    && v.fields.Keys == {"@type", HomeKey(parent, sellerKey)} + FieldKeys
    && Member(v, "@type") == Str(top)
    && Member(v, "@context") == ContextList
    && Member(v, "test:testOpportunityCriteria") == Str(CriteriaPrefix + criteria)
    && Member(v, "test:testOpportunityDataRequirements") == Member(reqs, "test:testOpportunityDataRequirements")
    && Member(v, "test:testOfferDataRequirements") == Member(reqs, "test:testOfferDataRequirements")
    && (parent.None? ==> SellerAt(v, sellerKey, sellerId, sellerType))
    && (parent.Some? ==>
          && Member(Member(v, parent.value.0), "@type") == Str(parent.value.1)
          && SellerAt(Member(v, parent.value.0), sellerKey, sellerId, sellerType))
  }

  lemma BodyIsWellShaped(top: string, parent: Option<(string, string)>, sellerKey: string,
                         criteria: string, sellerId: Value, sellerType: Value,
                         reqs: Value, part: map<string, Value>, fields: map<string, Value>)
    requires part.Keys == {"@type", HomeKey(parent, sellerKey)}
    requires part.Keys * FieldKeys == {}
    requires sellerKey != "@type"
    requires "@type" in part && part["@type"] == Str(top)
    requires parent.None? ==> sellerKey in part && part[sellerKey] == Seller(sellerId, sellerType)
    requires parent.Some? ==>
               && parent.value.0 in part
               && part[parent.value.0] == Obj(map["@type" := Str(parent.value.1), sellerKey := Seller(sellerId, sellerType)])
    requires fields == map[
      "@context" := ContextList,
      "test:testOpportunityCriteria" := Str(CriteriaPrefix + criteria),
      "test:testOpportunityDataRequirements" := Member(reqs, "test:testOpportunityDataRequirements"),
      "test:testOfferDataRequirements" := Member(reqs, "test:testOfferDataRequirements")
    ]
    ensures WellShaped(top, parent, sellerKey, criteria, sellerId, sellerType, reqs, Obj(part + fields))
  {
    MergedMembers(part, fields);
    if parent.Some? {
      var p := Obj(map["@type" := Str(parent.value.1), sellerKey := Seller(sellerId, sellerType)]);
      assert Member(p, "@type") == Str(parent.value.1);
    }
  }

  /** Spreading `fields` after `part`, when their keys are disjoint, keeps
      every member of both. */
  lemma MergedMembers(part: map<string, Value>, fields: map<string, Value>)
    requires part.Keys * fields.Keys == {}
    ensures forall k :: k in part ==> Member(Obj(part + fields), k) == part[k]
    ensures forall k :: k in fields ==> Member(Obj(part + fields), k) == fields[k]
  {
    forall k | k in part
      ensures Member(Obj(part + fields), k) == part[k]
    {
      assert k !in part.Keys * fields.Keys;
    }
  }

  // ---------------------------------------------------------------------------
  // Reading the type back

  /** The opportunity type a built body describes, from its `@type` and the
      `@type` of its parent object. */
  function ClassifyOpportunity(v: Value): Option<string> {
    var top := Member(v, "@type");
    if top == Str("Slot") then
      var parentType := Member(Member(v, "facilityUse"), "@type");
      if parentType == Str("FacilityUse") then Some("FacilityUseSlot")
      else if parentType == Str("IndividualFacilityUse") then Some("IndividualFacilityUseSlot")
      else None
    else if top == Str("Event") then
      var parentType := Member(Member(v, "superEvent"), "@type");
      if parentType == Str("CourseInstance") then Some("CourseInstanceSubEvent")
      else if parentType == Str("HeadlineEvent") then Some("HeadlineEventSubEvent")
      else Some("Event")
    else if top.Str? && top.s in {"ScheduledSession", "CourseInstance", "HeadlineEvent", "OnDemandEvent"} then
      Some(top.s)
    else None
  }

  /** A body shaped by the row of a recognised type is classified as that type. */
  lemma ClassifyByTable(opportunityType: string, criteria: string, sellerId: Value, sellerType: Value,
                        reqs: Value, v: Value)
    requires opportunityType in OpportunityTypes
    requires WellShaped(TopLevelType(opportunityType), Parent(opportunityType), SellerKey(opportunityType),
                        criteria, sellerId, sellerType, reqs, v)
    ensures ClassifyOpportunity(v) == Some(opportunityType)
  {
    if opportunityType == "Event" {
      assert "superEvent" !in v.fields;
    }
  }

  /** The nine shapes are told apart by their `@type`s alone: the opportunity
      type the body was built for can be read back from it. */
  lemma OpportunityTypeReadBack(opportunityType: string, criteria: string,
                                sellerId: Value, sellerType: Value, requirementsFor: string -> Value)
    ensures var r := CreateTestInterfaceOpportunity(opportunityType, criteria, sellerId, sellerType,
                                                    requirementsFor);
            r.Ok? ==> ClassifyOpportunity(r.value) == Some(opportunityType)
  {
    var r := CreateTestInterfaceOpportunity(opportunityType, criteria, sellerId, sellerType, requirementsFor);
    if r.Ok? {
      ClassifyByTable(opportunityType, criteria, OrNull(sellerId), OrNull(sellerType), requirementsFor(criteria), r.value);
    }
  }

  /** Where the body keeps its seller: under the seller key of the parent
      object, or of the body itself when the type has no parent. */
  function SellerOf(opportunityType: string, v: Value): Value {
    var parent := Parent(opportunityType);
    if parent.Some? then Member(Member(v, parent.value.0), SellerKey(opportunityType))
    else Member(v, SellerKey(opportunityType))
  }

  /** With a truthy seller id and the seller type omitted, the seller object
      is typed `null`, the parameter's default, not `undefined`. */
  lemma OmittedSellerTypeIsNull(opportunityType: string, criteria: string, sellerId: Value,
                                requirementsFor: string -> Value)
    ensures var r := CreateTestInterfaceOpportunity(opportunityType, criteria, sellerId, Undefined,
                                                    requirementsFor);
            r.Ok? && Truthy(sellerId) ==>
              SellerOf(opportunityType, r.value) == Obj(map["@type" := Null, "@id" := sellerId])
  {
  }
}
