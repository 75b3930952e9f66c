# OpenActive test suite: capacity assertions, request templates and request state

This project models, in Dafny, the small pieces of pure logic that the
OpenActive test suite uses to drive and check a booking system under test:

- **Expected capacity** (`CapacityRules`, `AssertOpportunityCapacity`). An
  opportunity's remaining capacity after a booking stage can be expected to
  be unchanged, decremented by the number of times the opportunity was
  booked, or incremented for the cancelled order-item positions. A decision
  table picks the stage (C1, C2 or B) that should consume capacity from the
  two leasing feature flags. The capacity-assertion flow stage groups the
  opportunity-feed responses by opportunity `@id` and issues one GetMatch
  request per distinct opportunity, reusing it for every response with that
  id.
- **Broker state** (`BrokerState`). The get-or-create map of locked
  opportunity ids per test dataset, the union of all locked ids, and the
  validator worker pool slot.
- **Request templates and shapes** (`C1Req`, `TestInterfaceOpportunities`,
  `TestDataShape`), over a JSON-like `Json.Value`:
  - the standard C1 (OrderQuote) request and its three variants;
  - the test-interface opportunity body for each of the nine opportunity
    types;
  - the tagged node-constraint constructors of test-data shape expressions.
- **Request state** (`RequestState`). The 2xx check on stored responses, the
  memoised order uuid, and the getters that read ids and prices out of
  stored response bodies.

JavaScript semantics the modelled code relies on are made explicit in `Json`:

- `undefined` is distinct from `null`, and both are nullish.
- Truthiness follows JavaScript.
- A property read throws a `TypeError` on a nullish receiver (`Json.Get`).
- Optional chaining `?.` yields `undefined` instead of throwing
  (`Json.OptionalGet`).
- `v[0]` is modelled by `Json.First`.

Thrown errors are the `Err` case of `Wrappers.Result`. `assertIsNotNullish`
failures are `NullishAssertion`. The test interface's "Unrecognised
opportunity type" error is `UnrecognisedOpportunityType`.

Calls into code that is not part of this model become parameters:

| source call | parameter |
|---|---|
| `getRemainingCapacity` | `remaining: Value -> int` |
| the caller-supplied expected-capacity function | `f: ExpectedCapacity` |
| `getTestDataRequirements` with the harvest start time | `requirementsFor: string -> Value` |
| `createPaymentPart(false)` | `payment: Value` |
| the uuid generator | `generated: string`, or a sequence of them |
| the `IMPLEMENTED_FEATURES` leasing flags | `Features` |
| the validator worker pool | the type parameter `P` |

`advanceBookingOptionNodeConstraint` and `prepaymentOptionNodeConstraint` are
the constants `TestDataShape.AdvanceBookingOptionNodeConstraint` and
`TestDataShape.PrepaymentOptionNodeConstraint`. Both are bound to the
required-status constructor itself, as in
`packages/test-interface-criteria/src/testDataShape.js` lines 119-120.

## Model

| member | source | states |
|---|---|---|
| CapacityRules.Intersection | packages/openactive-integration-tests/test/helpers/flow-stages/assert-opportunity-capacity.js:186 | lodash `intersection` of two position lists is duplicate-free and holds exactly the values common to both lists |
| CapacityRules.IntersectionLength | packages/openactive-integration-tests/test/helpers/flow-stages/assert-opportunity-capacity.js:186-187 | the number of intersecting positions is the number of distinct positions the two lists share |
| CapacityRules.Apply | packages/openactive-integration-tests/test/helpers/flow-stages/assert-opportunity-capacity.js:155-189 | the three expected-capacity functions: unchanged gives the remaining capacity, decremented gives a value that the count brings back up to the remaining capacity, and incremented exceeds the remaining capacity by the number of distinct positions shared by the given positions and the order items |
| CapacityRules.IncrementedCapacity | packages/openactive-integration-tests/test/helpers/flow-stages/assert-opportunity-capacity.js:184-189 | incremented capacity is the remaining capacity plus the number of distinct positions common to the given positions and the opportunity's order items; it is never below the remaining capacity, equals it when the two position sets are disjoint, and exceeds it by at most the number of distinct given positions |
| CapacityRules.AfterC1 | packages/openactive-integration-tests/test/helpers/flow-stages/assert-opportunity-capacity.js:198-203 | after C1 the decremented rule applies exactly when success is expected and C1 is the table's decrementing stage (anonymous leasing on); otherwise the unchanged rule applies |
| CapacityRules.AfterC2 | packages/openactive-integration-tests/test/helpers/flow-stages/assert-opportunity-capacity.js:209-214 | after C2 the decremented rule applies exactly when success is expected and C2 is the decrementing stage (named leasing without anonymous leasing); otherwise the unchanged rule applies |
| CapacityRules.AfterBook | packages/openactive-integration-tests/test/helpers/flow-stages/assert-opportunity-capacity.js:220-225 | after B the decremented rule applies exactly when success is expected and B is the decrementing stage (no leasing); otherwise the unchanged rule applies |
| CapacityRules.ExactlyOneStageDecrements | packages/openactive-integration-tests/test/helpers/flow-stages/assert-opportunity-capacity.js:198-225 | for every combination of the two leasing flags, a successful flow has exactly one of C1, C2 and B decrementing capacity, and a failing flow has all three keep capacity unchanged |
| AssertOpportunityCapacity.OpportunityOf | packages/openactive-integration-tests/test/helpers/flow-stages/assert-opportunity-capacity.js:232-236 | the opportunity is `response.body?.data`. A nullish response throws a TypeError and a nullish opportunity fails the nullish assertion; otherwise the result is that non-nullish value |
| AssertOpportunityCapacity.Opportunities | packages/openactive-integration-tests/test/helpers/flow-stages/assert-opportunity-capacity.js:35-37 | every response's opportunity is read in order; the result fails exactly when some response has none, and the error is that of the first such response |
| AssertOpportunityCapacity.CountIsMultiplicity | packages/openactive-integration-tests/test/helpers/flow-stages/assert-opportunity-capacity.js:39-40 | the filtered count for an id is the multiplicity of that id among the responses' opportunity ids, and it is at least one exactly for the ids that occur |
| AssertOpportunityCapacity.UniqById | packages/openactive-integration-tests/test/helpers/flow-stages/assert-opportunity-capacity.js:35-38 | lodash `uniqBy` by `@id` yields opportunities with pairwise distinct ids, and its ids are exactly the ids of the input |
| AssertOpportunityCapacity.UniqByIdKeepsFirst | packages/openactive-integration-tests/test/helpers/flow-stages/assert-opportunity-capacity.js:35-38 | every opportunity `uniqBy` keeps is the first one in the input carrying its id |
| AssertOpportunityCapacity.UniqByIdSnoc | packages/openactive-integration-tests/test/helpers/flow-stages/assert-opportunity-capacity.js:35-38 | appending one opportunity to the input extends the unique list by that opportunity exactly when its id has not been seen |
| AssertOpportunityCapacity.MatchingItems | packages/openactive-integration-tests/test/helpers/flow-stages/assert-opportunity-capacity.js:41-42 | the filtered order items are order items whose `orderedItem['@id']` is the id; the list is non-empty exactly when some order item matches, and its head is the first match |
| AssertOpportunityCapacity.MatchingItemsComplete | packages/openactive-integration-tests/test/helpers/flow-stages/assert-opportunity-capacity.js:41-42 | the filter drops nothing it should keep: each order item booking the id occurs among the matches exactly as often as among the order items, and no other order item occurs |
| AssertOpportunityCapacity.MatchingItemsSnoc | packages/openactive-integration-tests/test/helpers/flow-stages/assert-opportunity-capacity.js:41-42 | appending an order item extends the matches by that item exactly when it books the id, so the matches keep the order items' order |
| AssertOpportunityCapacity.ReadItemIds | packages/openactive-integration-tests/test/helpers/flow-stages/assert-opportunity-capacity.js:41 | the filter's strict reads of `item.orderedItem['@id']`, first to last, fail exactly when some `orderedItem` is nullish, and then with a TypeError; otherwise they yield every order item's id, in order |
| AssertOpportunityCapacity.KeepMatching | packages/openactive-integration-tests/test/helpers/flow-stages/assert-opportunity-capacity.js:41 | keeping the order items whose read id is the opportunity's id gives exactly the matching order items, in order |
| AssertOpportunityCapacity.OrderItemsFor | packages/openactive-integration-tests/test/helpers/flow-stages/assert-opportunity-capacity.js:41 | the filter throws exactly when some order item's `orderedItem` is nullish, and the error is a TypeError; otherwise it returns the matching order items |
| AssertOpportunityCapacity.BuildEntries | packages/openactive-integration-tests/test/helpers/flow-stages/assert-opportunity-capacity.js:38-50 | building the map over the unique opportunities succeeds exactly when the order items can be read and every unique opportunity has a matching order item; the keys are the unique ids, each mapped to its opportunity, first matching order item and expected capacity. A failure is the TypeError of an unreadable order item, or else the nullish assertion for an opportunity without a match |
| AssertOpportunityCapacity.GetMatchRequestInfoByOpportunityId | packages/openactive-integration-tests/test/helpers/flow-stages/assert-opportunity-capacity.js:34-51 | the map's keys are exactly the distinct opportunity ids among the responses. Each id maps to the opportunity of its first response, the first order item booking it, and the expected capacity computed from its count (at least one) and its order items. The function fails exactly when a response has no opportunity, an order item cannot be read, or some id has no matching order item. The error is that of the first response without an opportunity; otherwise a TypeError when an order item cannot be read, and the nullish assertion when all can |
| AssertOpportunityCapacity.IssueRequests | packages/openactive-integration-tests/test/helpers/flow-stages/assert-opportunity-capacity.js:73-86 | the walk answers response `i` with the GetMatch request for opportunity `i`, and sends exactly the requests for the first opportunity of each id, in order of first appearance |
| AssertOpportunityCapacity.RunAssertOpportunityCapacity | packages/openactive-integration-tests/test/helpers/flow-stages/assert-opportunity-capacity.js:61-86 | the output has one awaited request per response, in order, each for that response's own opportunity id and each among those issued. One request is issued per distinct opportunity id, no id twice. The run fails exactly when the grouping step fails, with the same error, so the second nullish assertion never fires |
| AssertOpportunityCapacity.IssuedFacts | packages/openactive-integration-tests/test/helpers/flow-stages/assert-opportunity-capacity.js:76-84 | every awaited request carries its response's opportunity id and is one of the issued requests; the issued requests are as many as the distinct ids, with pairwise distinct ids |
| AssertOpportunityCapacity.UnchangedExpectation | packages/openactive-integration-tests/test/helpers/flow-stages/assert-opportunity-capacity.js:39-44 | under the unchanged rule, each opportunity's expected capacity is its remaining capacity, however many responses carry it |
| AssertOpportunityCapacity.IncrementedExpectation | packages/openactive-integration-tests/test/helpers/flow-stages/assert-opportunity-capacity.js:39-44 | under the incremented rule, each opportunity's expected capacity is its remaining capacity plus the number of distinct given positions held by the order items booking it, so never below the remaining capacity |
| AssertOpportunityCapacity.DecrementedExpectation | packages/openactive-integration-tests/test/helpers/flow-stages/assert-opportunity-capacity.js:39-44 | under the decremented rule, each opportunity's expected capacity is its remaining capacity minus the number of responses carrying it, hence strictly below the remaining capacity |
| BrokerState.GetLockedOpportunityIdsInTestDataset | packages/openactive-broker-microservice/src/state.js:189-194 | afterwards the map has the dataset, and the result is its set. A new dataset is bound to the empty set and no other entry changes; a known dataset leaves the state unchanged |
| BrokerState.GetLockedIsIdempotent | packages/openactive-broker-microservice/src/state.js:189-194 | a second call for the same dataset returns the same state and set, and the call never changes which ids are locked |
| BrokerState.GetAllLockedOpportunityIds | packages/openactive-broker-microservice/src/state.js:196-198 | an id is in the result exactly when some dataset's locked set contains it |
| BrokerState.GetGlobalValidatorWorkerPool | packages/openactive-broker-microservice/src/state.js:207-209 | the getter returns the stored pool; in the initial state it returns none, the initial `null` |
| BrokerState.SetGlobalValidatorWorkerPool | packages/openactive-broker-microservice/src/state.js:203-205 | the getter then returns the pool just set, and the locked-id map is unchanged |
| BrokerState.RunFromInitial | packages/openactive-broker-microservice/src/state.js:203-209 | from start-up, over any sequence of calls, the pool getter returns the pool most recently set, or none (the initial `null`) if none was; the locked map holds exactly the datasets asked for |
| C1Req.OrderItemEntry | packages/openactive-integration-tests/test/templates/c1-req.js:50-61 | each entry has exactly the keys `@type`, `position`, `acceptedOffer` and `orderedItem`. Its type is OrderItem and its position is the item's position; the offer carries the item's offer id, and the ordered item carries the item's opportunity type and id |
| C1Req.OrderItemEntries | packages/openactive-integration-tests/test/templates/c1-req.js:50-61 | there is one entry per order item, in order |
| C1Req.StandardC1Req | packages/openactive-integration-tests/test/templates/c1-req.js:23-64 | the standard request has exactly its seven top-level keys. Its `@context` is `https://openactive.io/`, its type is OrderQuote and its broker role is AgentBroker. It carries the fixed broker, the seller with the given id, one entry per order item, and the payment part |
| C1Req.ReadOrderItemsOfEntries | packages/openactive-integration-tests/test/templates/c1-req.js:50-61 | reading the entries back yields the order items they were built from |
| C1Req.StandardC1ReqRoundTrip | packages/openactive-integration-tests/test/templates/c1-req.js:23-64 | reading the standard request back yields its template data, including the seller id and every order item's position, offer id and opportunity type and id; its type, broker role and payment are fixed |
| C1Req.NoBrokerNameC1Req | packages/openactive-integration-tests/test/templates/c1-req.js:71-74 | the request has the standard request's keys and values except `broker`; the broker has the standard broker's keys minus `name`, each with its standard value |
| C1Req.NullInEveryEntry | packages/openactive-integration-tests/test/templates/c1-req.js:81-88 | nulling a key in every entry keeps every other top-level member and one entry per order item; in each entry the key is `null` and every other key keeps its standard value |
| C1Req.StandardC1WithoutOrderedItem | packages/openactive-integration-tests/test/templates/c1-req.js:81-88 | every entry's `orderedItem` is `null` and nothing else changes; in particular each entry keeps its `acceptedOffer` |
| C1Req.AcceptedOfferTemplateKeepsAcceptedOffer | packages/openactive-integration-tests/test/templates/c1-req.js:95-102 | the no-accepted-offer template as written produces the same request as the no-ordered-item template, and for a one-item order the accepted offer is still present |
| C1Req.StandardC1WithoutAcceptedOfferAsWritten | packages/openactive-integration-tests/test/templates/c1-req.js:95-102 | the template as written nulls every entry's `orderedItem` and changes nothing else |
| C1Req.StandardC1WithoutAcceptedOffer | packages/openactive-integration-tests/test/templates/c1-req.js:90-102 | corrected template: every entry's `acceptedOffer` is `null` and nothing else changes; in particular each entry keeps its `orderedItem` |
| C1Req.LookupRef | packages/openactive-integration-tests/test/templates/c1-req.js:104-109 | the table holds exactly the four refs `standard`, `noBrokerName`, `noOrderedItem` and `noAcceptedOffer`, and the template found under a name is named by it |
| C1Req.CreateC1Req | packages/openactive-integration-tests/test/templates/c1-req.js:104-112 | calling an entry of the table fails exactly for a name outside the four refs; every request it builds is an OrderQuote with the AgentBroker role and the given seller id |
| C1Req.CreateByName | packages/openactive-integration-tests/test/templates/c1-req.js:104-109 | each of the four ref names selects its own template from the table |
| C1Req.StandardEntries | packages/openactive-integration-tests/test/templates/c1-req.js:104-106 | the `standard` entry builds the request that reads back to its template data, and the `noBrokerName` entry the request without the broker's name |
| C1Req.NoOrderedItemEntry | packages/openactive-integration-tests/test/templates/c1-req.js:81-108 | the `noOrderedItem` entry nulls every entry's `orderedItem` and keeps everything else |
| C1Req.NoAcceptedOfferEntry | packages/openactive-integration-tests/test/templates/c1-req.js:95-109 | the `noAcceptedOffer` entry, as written, also nulls every entry's `orderedItem` and builds the very same request as `noOrderedItem` |
| C1Req.TemplateKeepsHeader | packages/openactive-integration-tests/test/templates/c1-req.js:24-49 | every template keeps the standard request's type, broker role and seller id |
| TestInterfaceOpportunities.TypeSpecificPart | packages/openactive-integration-tests/test/helpers/test-interface-opportunities.js:34-105 | the type-specific part exists exactly for the nine recognised types. It holds the top-level `@type` and one more key: the seller under `provider` or `organizer`, or the parent object with its `@type` and the seller. Its keys are disjoint from the shared fields |
| TestInterfaceOpportunities.CreateTestInterfaceOpportunity | packages/openactive-integration-tests/test/helpers/test-interface-opportunities.js:18-107 | omitted (`undefined`) `sellerId` and `sellerType` default to `null`. A nullish requirements object throws a TypeError, and an unrecognised type fails with the unrecognised-type error; otherwise the body is built. It has exactly the top-level `@type`, its home key and the four shared fields. `@context` is the fixed two-element list, and the criterion is the test-interface IRI prefix plus the criterion name. The two data requirements are copied unchanged. The seller object `{@type, @id}` sits under `provider` for slots and `organizer` otherwise, in the body or in the parent with its `@type`, exactly when the seller id is truthy |
| TestInterfaceOpportunities.OmittedSellerTypeIsNull | packages/openactive-integration-tests/test/helpers/test-interface-opportunities.js:18-32 | with a truthy seller id and the seller type omitted, the seller object is `{'@type': null, '@id': sellerId}` |
| TestInterfaceOpportunities.BodyIsWellShaped | packages/openactive-integration-tests/test/helpers/test-interface-opportunities.js:21-103 | spreading the shared fields after a type-specific part with disjoint keys gives a body of the shape above |
| TestInterfaceOpportunities.ClassifyByTable | packages/openactive-integration-tests/test/helpers/test-interface-opportunities.js:35-103 | a body shaped by the table row of a recognised type is classified as that type by its top-level and parent `@type`s alone |
| TestInterfaceOpportunities.OpportunityTypeReadBack | packages/openactive-integration-tests/test/helpers/test-interface-opportunities.js:34-103 | the nine built shapes are pairwise distinguishable: the opportunity type a body was built for is recovered from its `@type`s |
| RequestState.IsResponse20x | packages/openactive-integration-tests/test/helpers/request-state.js:7-13 | false when the response or its HTTP part is missing; otherwise true exactly when the status code is in the 2xx class |
| RequestState.ResponseSucceeded | packages/openactive-integration-tests/test/helpers/request-state.js:111-214 | each of the five success flags is the 2xx check of its own stage's stored response |
| RequestState.FlagsAreIndependent | packages/openactive-integration-tests/test/helpers/request-state.js:111-214 | storing a response for one stage leaves every other stage's success flag unchanged and sets its own to the 2xx check of the new response |
| RequestState.Store | packages/openactive-integration-tests/test/helpers/request-state.js:149-155 | storing a stage's response sets that stage's slot only and keeps the cached uuid |
| RequestState.Uuid | packages/openactive-integration-tests/test/helpers/request-state.js:27-32 | a truthy cached uuid is returned without change; otherwise the generated one is returned and cached; nothing else in the state changes |
| RequestState.CachedUuidIsStable | packages/openactive-integration-tests/test/helpers/request-state.js:27-32 | once a truthy uuid is cached, any number of further reads return it and leave the state unchanged, whatever the generator would produce |
| RequestState.UuidIsMemoised | packages/openactive-integration-tests/test/helpers/request-state.js:27-32 | from a state without a uuid, if the first generated uuid is non-empty, then every read in a sequence returns it and the generator is used once |
| RequestState.EmptyUuidIsRegenerated | packages/openactive-integration-tests/test/helpers/request-state.js:27-32 | an empty generated uuid is falsy, so the next read generates again |
| RequestState.OpportunityType | packages/openactive-integration-tests/test/helpers/request-state.js:115-119 | `undefined` without a GetMatch response; otherwise the strict read of `body.data['@type']`, throwing on a nullish body |
| RequestState.OpportunityId | packages/openactive-integration-tests/test/helpers/request-state.js:121-125 | `undefined` without a GetMatch response; otherwise the strict read of `body.data['@id']` |
| RequestState.OfferId | packages/openactive-integration-tests/test/helpers/request-state.js:127-137 | `undefined` without a GetMatch response. For a `Slot` it is the strict read of `data.offers[0]['@id']`. Otherwise a failed read of `data.superEvent.offers` is the error; when that value is not `undefined` the result is the read of `data.superEvent.offers[0]['@id']`, else of `data.offers[0]['@id']` |
| RequestState.SellerId | packages/openactive-integration-tests/test/helpers/request-state.js:139-147 | `undefined` without a GetMatch response; `data.facilityUse.provider['@id']` for a `Slot`, `data.superEvent.organizer['@id']` for any other type; a TypeError whenever the type cannot be read |
| RequestState.TotalPaymentDue | packages/openactive-integration-tests/test/helpers/request-state.js:161-167 | the strict read of `totalPaymentDue.price` from the C2 response when there is one, otherwise from the C1 response, otherwise `undefined` |
| RequestState.C2TakesPrecedence | packages/openactive-integration-tests/test/helpers/request-state.js:161-167 | once a C2 response is stored, the order in which C1 and C2 were stored does not matter and the price comes from C2 |
| RequestState.OrderItemId | packages/openactive-integration-tests/test/helpers/request-state.js:193-202 | `undefined` without a B response. When the body and its `orderedItem` are truthy it is the read of `orderedItem[0]['@id']`, else the literal `NONE`. It throws exactly when that first ordered item is nullish |
| TestDataShape.TestOpportunityDataShapeExpression | packages/test-interface-criteria/src/testDataShape.js:19-23 | the result equals the requirements |
| TestDataShape.TestOfferDataShapeExpression | packages/test-interface-criteria/src/testDataShape.js:29-33 | the result equals the requirements |
| TestDataShape.NodeConstraint | packages/test-interface-criteria/src/testDataShape.js:39-89 | the keys are the requirements' keys plus `@type`, and every requirement is kept, winning over the tag on a clash. Without an `@type` requirement the tag names the kind; the untagged result equals the untagged requirements |
| TestDataShape.NodeConstraintRoundTrip | packages/test-interface-criteria/src/testDataShape.js:39-89 | removing the tag from a constraint built without an `@type` requirement gives the requirements back; the tag is that of the kind, and distinct kinds have distinct tags |
| TestDataShape.DateRange | packages/test-interface-criteria/src/testDataShape.js:39-44 | the keys are the requirements' keys plus `@type`; every requirement is kept with its value, `@type` included, and without an `@type` requirement the tag is `test:DateRangeNodeConstraint` |
| TestDataShape.QuantitativeValue | packages/test-interface-criteria/src/testDataShape.js:50-55 | the keys are the requirements' keys plus `@type`; every requirement is kept with its value, `@type` included, and without an `@type` requirement the tag is `NumericNodeConstraint` |
| TestDataShape.OptionNodeConstraint | packages/test-interface-criteria/src/testDataShape.js:71-76 | the keys are the requirements' keys plus `@type`; every requirement is kept with its value, `@type` included, and without an `@type` requirement the tag is `test:OptionNodeConstraint` |
| TestDataShape.ArrayConstraint | packages/test-interface-criteria/src/testDataShape.js:84-89 | the keys are the requirements' keys plus `@type`; every requirement is kept with its value, `@type` included, and without an `@type` requirement the tag is `test:ArrayConstraint` |
| TestDataShape.ConstantShapes | packages/test-interface-criteria/src/testDataShape.js:57-94 | the free-price constraint is exactly a numeric constraint with `maxinclusive` 0, and the non-free one with `mininclusive` 0.01; the blocked field has only the key `@type`, naming the null constraint |
| TestDataShape.Specific | packages/test-interface-criteria/src/testDataShape.js:101-153 | a specific constraint has the requirements' keys plus `@type` and `datatype`, keeps every requirement, and carries the tag and the fixed datatype wherever the requirements do not set their own |
| TestDataShape.EventStatusOptionNodeConstraint | packages/test-interface-criteria/src/testDataShape.js:101-106 | an option constraint with datatype `schema:EventStatusType`, requirements winning |
| TestDataShape.RequiredStatusTypeOptionNodeConstraint | packages/test-interface-criteria/src/testDataShape.js:112-117 | an option constraint with datatype `oa:RequiredStatusType`, requirements winning |
| TestDataShape.TaxModeOptionNodeConstraint | packages/test-interface-criteria/src/testDataShape.js:126-131 | an option constraint with datatype `oa:TaxMode`, requirements winning |
| TestDataShape.AvailableChannelArrayConstraint | packages/test-interface-criteria/src/testDataShape.js:137-142 | an array constraint with datatype `oa:AvailableChannelType`, requirements winning |
| TestDataShape.OpenBookingFlowRequirementArrayConstraint | packages/test-interface-criteria/src/testDataShape.js:148-153 | an array constraint with datatype `oa:OpenBookingFlowRequirement`, requirements winning |
| TestDataShape.TermsOfServiceArrayConstraint | packages/test-interface-criteria/src/testDataShape.js:159-164 | exactly the three fields `@type` `test:ArrayConstraint`, `datatype` `oa:Terms` and `minLength` |

## Left out

- Broker feed harvesting, row-store ingestion, listeners, caches and order-uuid tracking are left out. `state.js` only imports them, and their code is not part of this model. The rest of the broker `state` object is likewise left out: its empty maps, configuration, auth key manager and progress bars.
- The asynchronous `RequestState` methods are left out because they are network I/O: `createOpportunity`, `getOrder`, `getDatasetSite`, `getMatch`, the `put*` methods, `cancelOrder` and `deleteOrder`. `RequestState.Store` stands for the assignment each performs once its request returns. The `log` method and the `rpdeItem` getter are also left out.
- The flow-stage wiring of `AssertOpportunityCapacityFlowStage` is left out: its constructor, test hooks and success checks. The `Promise.all` awaiting is also left out: a GetMatch request is represented by its arguments, and the walk by the requests each response awaits.
- Object identity is not modelled. Opportunity ids are compared structurally; JavaScript `===` compares object ids by reference, which coincides for the string ids the suite uses.
- Object key order is not kept: objects are maps.
- Numbers are exact reals, so `0.01` is exact. Integer positions and counts are unbounded.
- Ramda `dissocPath` is modelled on the path the template uses (both keys present on objects). Its behaviour on non-object receivers and integer keys is not modelled.
- The template literals in `createStandardC1Req` that stringify the offer and opportunity ids are not modelled. The template data carries strings, so a nullish `acceptedOffer` or `orderedItem` in the input, which would throw there, cannot be expressed.
- Property reads on arrays and strings yield `undefined` (`Json.Member`); `length` and the other built-in members are not modelled.
- A stored chakram response is always a truthy object, so "stored" is `Some`. The status code is an integer; a string-valued status code and the JavaScript comparison coercions are not modelled.
- C1Req.CreateC1Req: only own keys of the template table are modelled. A name inherited from `Object.prototype` (`constructor`, `toString` and the like) gives an error in the model, while in JavaScript it would call that inherited function. Callers pass the `C1ReqTemplateRef` names declared at line 112.
- BrokerState.GetLockedOpportunityIdsInTestDataset: the returned set is a value, not the live mutable set stored in the map, so later mutation through it is not modelled.
- The opaque calls listed above are parameters. `getTestDataRequirements` is never examined beyond the two fields read from its result. The uuid generator's output is not constrained.

## Findings

| source | as written | input that shows it | evidently intended | confidence | as-written member | corrected member |
|---|---|---|---|---|---|---|
| packages/openactive-integration-tests/test/templates/c1-req.js:95-102 | `createStandardC1WithoutAcceptedOffer` sets every entry's `orderedItem` to `null`, exactly like `createStandardC1WithoutOrderedItem`; `acceptedOffer` is kept | any template data with one order item: the built request still carries its accepted offer | every entry's `acceptedOffer` set to `null`, as the template's name and doc comment ("missing OrderItem.AcceptedOffer") say | high, not executed | C1Req.StandardC1WithoutAcceptedOfferAsWritten, shown by C1Req.AcceptedOfferTemplateKeepsAcceptedOffer | C1Req.StandardC1WithoutAcceptedOffer |

The template table of the model (`C1Req.ApplyTemplate`, used by
`C1Req.CreateC1Req`) follows the program as written: its `noAcceptedOffer`
entry is `C1Req.StandardC1WithoutAcceptedOfferAsWritten`. The corrected
template `C1Req.StandardC1WithoutAcceptedOffer` stands on its own, with its
property proved, and no other member uses it.
