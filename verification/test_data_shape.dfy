/** The constructors of test-data shape expressions: JSON-LD node constraints
    tagged with their `@type`, built by spreading the caller's requirements
    after the tag (and after the fixed `datatype`, for the specific
    constructors), so that the requirements win on a key clash. */
module TestDataShape {
  import opened Wrappers
  import opened Json

  /** A shape expression: a JSON object, as its fields. */
  type Shape = map<string, Value>

  /** `{...a, ...b}`: the keys of both, `b`'s value on a clash. */
  function Spread(a: Shape, b: Shape): (r: Shape)
    ensures r.Keys == a.Keys + b.Keys
    ensures forall k :: k in b ==> r[k] == b[k]
    ensures forall k :: k in a && k !in b ==> r[k] == a[k]
  {
    a + b
  }

  /** The shape with its `@type` removed. */
  function Untag(s: Shape): Shape {
    s - {"@type"}
  }

  // ---------------------------------------------------------------------------
  // Generic requirements

  /** `testOpportunityDataShapeExpression`: a copy of the requirements. */
  function TestOpportunityDataShapeExpression(requirements: Shape): (r: Shape)
    ensures r == requirements
  {
    Spread(map[], requirements)
  }

  /** `testOfferDataShapeExpression`: a copy of the requirements. */
  function TestOfferDataShapeExpression(requirements: Shape): (r: Shape)
    ensures r == requirements
  {
    Spread(map[], requirements)
  }

  // ---------------------------------------------------------------------------
  // Node constraints and their tags

  /** The kinds of node constraint the module builds. */
  datatype Kind = DateRangeKind | NumericKind | OptionKind | ArrayKind | NullKind

  /** The `@type` tag of each kind. The numeric one has no `test:` prefix. */
  function TagOf(kind: Kind): string {
    match kind
    case DateRangeKind => "test:DateRangeNodeConstraint"
    case NumericKind => "NumericNodeConstraint"
    case OptionKind => "test:OptionNodeConstraint"
    case ArrayKind => "test:ArrayConstraint"
    case NullKind => "test:NullNodeConstraint"
  }

  /** The kind a shape's `@type` names, if any. */
  function KindOf(s: Shape): Option<Kind> {
    if "@type" !in s then None
    else match s["@type"]
      case Str("test:DateRangeNodeConstraint") => Some(DateRangeKind)
      case Str("NumericNodeConstraint") => Some(NumericKind)
      case Str("test:OptionNodeConstraint") => Some(OptionKind)
      case Str("test:ArrayConstraint") => Some(ArrayKind)
      case Str("test:NullNodeConstraint") => Some(NullKind)
      case _ => None
  }

  /** `{'@type': TagOf(kind), ...requirements}`. */
  function NodeConstraint(kind: Kind, requirements: Shape): (r: Shape)
    ensures r.Keys == requirements.Keys + {"@type"}
    ensures forall k :: k in requirements ==> r[k] == requirements[k]
    ensures "@type" !in requirements ==> KindOf(r) == Some(kind)
    ensures Untag(r) == Untag(requirements)
  {
    Spread(map["@type" := Str(TagOf(kind))], requirements)
  }

  /** The tag names the kind it was built for, and nothing else: a node
      constraint built without an `@type` in its requirements is the tag put
      back on the requirements, and its kind can be read back from it. */
  lemma {:induction false} NodeConstraintRoundTrip(kind: Kind, other: Kind, requirements: Shape)
    requires "@type" !in requirements
    ensures Untag(NodeConstraint(kind, requirements)) == requirements
    ensures NodeConstraint(kind, requirements)["@type"] == Str(TagOf(kind))
    ensures TagOf(kind) == TagOf(other) ==> kind == other
  {
    assert Untag(requirements) == requirements;
    match kind
    case DateRangeKind =>
    case NumericKind =>
    case OptionKind =>
    case ArrayKind =>
    case NullKind =>
  }

  /** `dateRange`. */
  function DateRange(requirements: Shape): (r: Shape)
    ensures r.Keys == requirements.Keys + {"@type"}
    ensures forall k :: k in requirements ==> r[k] == requirements[k]
    ensures "@type" !in requirements ==> r["@type"] == Str("test:DateRangeNodeConstraint")
  {
    NodeConstraint(DateRangeKind, requirements)
  }

  /** `quantitativeValue`. */
  function QuantitativeValue(requirements: Shape): (r: Shape)
    ensures r.Keys == requirements.Keys + {"@type"}
    ensures forall k :: k in requirements ==> r[k] == requirements[k]
    ensures "@type" !in requirements ==> r["@type"] == Str("NumericNodeConstraint")
  {
    NodeConstraint(NumericKind, requirements)
  }

  /** `optionNodeConstraint`. */
  function OptionNodeConstraint(requirements: Shape): (r: Shape)
    ensures r.Keys == requirements.Keys + {"@type"}
    ensures forall k :: k in requirements ==> r[k] == requirements[k]
    ensures "@type" !in requirements ==> r["@type"] == Str("test:OptionNodeConstraint")
  {
    NodeConstraint(OptionKind, requirements)
  }

  /** `arrayConstraint`. */
  function ArrayConstraint(requirements: Shape): (r: Shape)
    ensures r.Keys == requirements.Keys + {"@type"}
    ensures forall k :: k in requirements ==> r[k] == requirements[k]
    ensures "@type" !in requirements ==> r["@type"] == Str("test:ArrayConstraint")
  {
    NodeConstraint(ArrayKind, requirements)
  }

  /** `FREE_PRICE_QUANTITATIVE_VALUE`. */
  const FreePriceQuantitativeValue: Shape := QuantitativeValue(map["maxinclusive" := Num(0.0)])

  /** `NON_FREE_PRICE_QUANTITATIVE_VALUE`: at least one hundredth. */
  const NonFreePriceQuantitativeValue: Shape := QuantitativeValue(map["mininclusive" := Num(0.01)])

  /** `BLOCKED_FIELD`. */
  const BlockedField: Shape := map["@type" := Str("test:NullNodeConstraint")]

  /** The three constant shapes, in full. */
  lemma ConstantShapes()
    ensures FreePriceQuantitativeValue ==
            map["@type" := Str("NumericNodeConstraint"), "maxinclusive" := Num(0.0)]
    ensures NonFreePriceQuantitativeValue ==
            map["@type" := Str("NumericNodeConstraint"), "mininclusive" := Num(0.01)]
    ensures BlockedField.Keys == {"@type"} && KindOf(BlockedField) == Some(NullKind)
  {
  }

  // ---------------------------------------------------------------------------
  // Specific constraints

  /** `r` is the `kind` constraint over `requirements` with `dataType` filled
      in: the requirements' keys plus `@type` and `datatype`, every
      requirement kept, and the tag and datatype wherever the requirements do
      not set their own. */
  predicate WithDatatype(r: Shape, kind: Kind, dataType: string, requirements: Shape) {
    && r.Keys == requirements.Keys + {"@type", "datatype"}
    && (forall k :: k in requirements ==> r[k] == requirements[k])
    && ("@type" !in requirements ==> r["@type"] == Str(TagOf(kind)))
    && ("datatype" !in requirements ==> r["datatype"] == Str(dataType))
  }

  /** `kind` constraint over `{datatype, ...requirements}`. */
  function Specific(kind: Kind, dataType: string, requirements: Shape): (r: Shape)
    ensures WithDatatype(r, kind, dataType, requirements)
  {
    NodeConstraint(kind, Spread(map["datatype" := Str(dataType)], requirements))
  }

  /** `eventStatusOptionNodeConstraint`. */
  function EventStatusOptionNodeConstraint(requirements: Shape): (r: Shape)
    ensures WithDatatype(r, OptionKind, "schema:EventStatusType", requirements)
  {
    Specific(OptionKind, "schema:EventStatusType", requirements)
  }

  /** `requiredStatusTypeOptionNodeConstraint`. */
  function RequiredStatusTypeOptionNodeConstraint(requirements: Shape): (r: Shape)
    ensures WithDatatype(r, OptionKind, "oa:RequiredStatusType", requirements)
  {
    Specific(OptionKind, "oa:RequiredStatusType", requirements)
  }

  /** `advanceBookingOptionNodeConstraint` and `prepaymentOptionNodeConstraint`
      are the required-status constructor itself. */
  const AdvanceBookingOptionNodeConstraint: Shape -> Shape := RequiredStatusTypeOptionNodeConstraint
  const PrepaymentOptionNodeConstraint: Shape -> Shape := RequiredStatusTypeOptionNodeConstraint

  /** `taxModeOptionNodeConstraint`. */
  function TaxModeOptionNodeConstraint(requirements: Shape): (r: Shape)
    ensures WithDatatype(r, OptionKind, "oa:TaxMode", requirements)
  {
    Specific(OptionKind, "oa:TaxMode", requirements)
  }

  /** `availableChannelArrayConstraint`. */
  function AvailableChannelArrayConstraint(requirements: Shape): (r: Shape)
    ensures WithDatatype(r, ArrayKind, "oa:AvailableChannelType", requirements)
  {
    Specific(ArrayKind, "oa:AvailableChannelType", requirements)
  }

  /** `openBookingFlowRequirementArrayConstraint`. */
  function OpenBookingFlowRequirementArrayConstraint(requirements: Shape): (r: Shape)
    ensures WithDatatype(r, ArrayKind, "oa:OpenBookingFlowRequirement", requirements)
  {
    Specific(ArrayKind, "oa:OpenBookingFlowRequirement", requirements)
  }

  /** `termsOfServiceArrayConstraint`: exactly the three fields. */
  function TermsOfServiceArrayConstraint(minLength: real): (r: Shape)
    ensures r == map["@type" := Str("test:ArrayConstraint"), "datatype" := Str("oa:Terms"),
                     "minLength" := Num(minLength)]
  {
    ArrayConstraint(map["datatype" := Str("oa:Terms"), "minLength" := Num(minLength)])
  }
}
