/** The pure getters of the integration tests' per-test request state: the
    2xx check on stored responses, the memoised order uuid, and the accessors
    that dig ids and prices out of stored response bodies. The asynchronous
    methods that store the responses perform network I/O and are not part of
    this model; a state here is the record of what they have stored. */
module RequestState {
  import opened Wrappers
  import opened Json

  /** The HTTP part of a chakram response. */
  datatype Http = Http(statusCode: int)

  /** A stored chakram response: the raw HTTP response (absent when the request
      never got one) and the parsed body. A stored response object is always
      truthy, so "stored" and "truthy" coincide. */
  datatype ChakramResponse = ChakramResponse(response: Option<Http>, body: Value)

  /** What the request state holds: the cached uuid (`undefined` until the
      first read) and one slot per stage of the booking flow. */
  datatype RequestState = RequestState(
    uuidCache: Value,
    apiResponse: Option<ChakramResponse>,
    c1Response: Option<ChakramResponse>,
    c2Response: Option<ChakramResponse>,
    bResponse: Option<ChakramResponse>,
    uResponse: Option<ChakramResponse>)

  const Initial: RequestState := RequestState(Undefined, None, None, None, None, None)

  // ---------------------------------------------------------------------------
  // Success of a stored response

  /** The status code is in the 2xx class. */
  predicate Is2xx(statusCode: int) {
    statusCode / 100 == 2
  }

  /** `isResponse20x`: false without a response or without its HTTP part;
      otherwise whether the status code lies in [200, 300). */
  function IsResponse20x(response: Option<ChakramResponse>): (r: bool)
    ensures r <==> response.Some? && response.value.response.Some? &&
                   Is2xx(response.value.response.value.statusCode)
  {
    if response.None? || response.value.response.None? then false
    else
      var statusCode := response.value.response.value.statusCode;
      statusCode >= 200 && statusCode < 300
  }

  /** The stages whose responses the state stores. */
  datatype Stage = GetMatch | C1 | C2 | B | U

  function Stored(st: RequestState, stage: Stage): Option<ChakramResponse> {
    match stage
    case GetMatch => st.apiResponse
    case C1 => st.c1Response
    case C2 => st.c2Response
    case B => st.bResponse
    case U => st.uResponse
  }

  /** `getMatchResponseSucceeded`, `C1ResponseSucceeded`,
      `C2ResponseSucceeded`, `BResponseSucceeded` and `UResponseSucceeded`:
      each flag is the 2xx check of its own stage's response and of no other. */
  function ResponseSucceeded(st: RequestState, stage: Stage): (r: bool)
    ensures r <==> Stored(st, stage).Some? && Stored(st, stage).value.response.Some? &&
                   Is2xx(Stored(st, stage).value.response.value.statusCode)
  {
    IsResponse20x(Stored(st, stage))
  }

  /** Storing a response for one stage does not change another stage's flag. */
  lemma {:induction false} FlagsAreIndependent(st: RequestState, stage: Stage, other: Stage, response: ChakramResponse)
    requires stage != other
    ensures ResponseSucceeded(Store(st, stage, response), other) == ResponseSucceeded(st, other)
    ensures ResponseSucceeded(Store(st, stage, response), stage) == IsResponse20x(Some(response))
  {
    assert Stored(Store(st, stage, response), other) == Stored(st, other);
  }

  /** What the asynchronous methods do to the state once their request returns. */
  function Store(st: RequestState, stage: Stage, response: ChakramResponse): (r: RequestState)
    ensures Stored(r, stage) == Some(response)
    ensures forall other :: other != stage ==> Stored(r, other) == Stored(st, other)
    ensures r.uuidCache == st.uuidCache
  {
    match stage
    case GetMatch => st.(apiResponse := Some(response))
    case C1 => st.(c1Response := Some(response))
    case C2 => st.(c2Response := Some(response))
    case B => st.(bResponse := Some(response))
    case U => st.(uResponse := Some(response))
  }

  // ---------------------------------------------------------------------------
  // The memoised uuid

  /** The `uuid` getter. `generated` is what the uuid generator would return
      if it were called; it is used only when the cache is falsy. */
  function Uuid(st: RequestState, generated: string): (r: (RequestState, Value))
    ensures Truthy(st.uuidCache) ==> r == (st, st.uuidCache)
    ensures !Truthy(st.uuidCache) ==> r.1 == Str(generated)
    ensures r.0.uuidCache == r.1
    ensures r.0.(uuidCache := st.uuidCache) == st
  {
    if Truthy(st.uuidCache) then (st, st.uuidCache)
    else (st.(uuidCache := Str(generated)), Str(generated))
  }

  /** Reads the uuid once per entry of `generated`, threading the state; entry
      `i` is what the generator would return at the `i`-th read. */
  function ReadUuids(st: RequestState, generated: seq<string>): (RequestState, seq<Value>)
    decreases |generated|
  {
    if |generated| == 0 then (st, [])
    else
      var (st1, u) := Uuid(st, generated[0]);
      var (st2, us) := ReadUuids(st1, generated[1..]);
      (st2, [u] + us)
  }

  /** Once a truthy uuid is cached, every later read returns it and the state
      does not change, whatever the generator would have produced. */
  lemma {:induction false} CachedUuidIsStable(st: RequestState, generated: seq<string>)
    requires Truthy(st.uuidCache)
    ensures ReadUuids(st, generated).0 == st
    ensures |ReadUuids(st, generated).1| == |generated|
    ensures forall i :: 0 <= i < |generated| ==> ReadUuids(st, generated).1[i] == st.uuidCache
    decreases |generated|
  {
    if |generated| > 0 {
      CachedUuidIsStable(st, generated[1..]);
    }
  }

  /** From a state with no uuid, the first read generates one; if it is
      non-empty every later read returns that same uuid. */
  lemma {:induction false} UuidIsMemoised(st: RequestState, generated: seq<string>)
    requires !Truthy(st.uuidCache)
    requires |generated| > 0 && generated[0] != ""
    ensures ReadUuids(st, generated).0 == st.(uuidCache := Str(generated[0]))
    ensures |ReadUuids(st, generated).1| == |generated|
    ensures forall i :: 0 <= i < |generated| ==> ReadUuids(st, generated).1[i] == Str(generated[0])
  {
    var st1 := st.(uuidCache := Str(generated[0]));
    assert Uuid(st, generated[0]) == (st1, Str(generated[0]));
    CachedUuidIsStable(st1, generated[1..]);
  }

  /** An empty generated uuid is falsy, so it is not kept: the next read
      calls the generator again. */
  lemma EmptyUuidIsRegenerated(st: RequestState, next: string)
    requires !Truthy(st.uuidCache)
    ensures Uuid(Uuid(st, "").0, next).1 == Str(next)
  {
  }

  // ---------------------------------------------------------------------------
  // Paths read by the getters

  const DataType: seq<Step> := [Key("data"), Key("@type")]
  const DataId: seq<Step> := [Key("data"), Key("@id")]
  const DataOffersId: seq<Step> := [Key("data"), Key("offers"), Index0, Key("@id")]
  const SuperEventOffers: seq<Step> := [Key("data"), Key("superEvent"), Key("offers")]
  const SuperEventOffersId: seq<Step> := SuperEventOffers + [Index0, Key("@id")]
  const ProviderId: seq<Step> := [Key("data"), Key("facilityUse"), Key("provider"), Key("@id")]
  const OrganizerId: seq<Step> := [Key("data"), Key("superEvent"), Key("organizer"), Key("@id")]
  const TotalPrice: seq<Step> := [Key("totalPaymentDue"), Key("price")]

  /** Reads a path from a stored body; `undefined` when nothing is stored. */
  function ReadStored(response: Option<ChakramResponse>, path: seq<Step>): Result<Value> {
    if response.None? then Ok(Undefined) else ReadPath(response.value.body, path)
  }

  // ---------------------------------------------------------------------------
  // The getters

  /** `opportunityType`: `body.data["@type"]` of the GetMatch response. */
  function OpportunityType(st: RequestState): (r: Result<Value>)
    ensures r == ReadStored(st.apiResponse, DataType)
  {
    if st.apiResponse.None? then Ok(Undefined)
    else
      var data :- Get(st.apiResponse.value.body, "data");
      Get(data, "@type")
  }

  /** `opportunityId`: `body.data["@id"]` of the GetMatch response. */
  function OpportunityId(st: RequestState): (r: Result<Value>)
    ensures r == ReadStored(st.apiResponse, DataId)
  {
    if st.apiResponse.None? then Ok(Undefined)
    else
      var data :- Get(st.apiResponse.value.body, "data");
      Get(data, "@id")
  }

  /** `offerId`: for a `Slot`, the first of the opportunity's own offers;
      otherwise the first of the parent's offers when the parent has an
      `offers` member that is not `undefined`, else the first of the
      opportunity's own offers. A missing parent throws. */
  function OfferId(st: RequestState): (r: Result<Value>)
    ensures st.apiResponse.None? ==> r == Ok(Undefined)
    ensures st.apiResponse.Some? && ReadStored(st.apiResponse, DataType) == Ok(Str("Slot")) ==>
              r == ReadStored(st.apiResponse, DataOffersId)
    ensures st.apiResponse.Some? && ReadStored(st.apiResponse, DataType) != Ok(Str("Slot")) ==>
              match ReadStored(st.apiResponse, SuperEventOffers)
              case Err(e) => r == Err(e)
              case Ok(offers) =>
                if offers != Undefined then r == ReadStored(st.apiResponse, SuperEventOffersId)
                else r == ReadStored(st.apiResponse, DataOffersId)
  {
    if st.apiResponse.None? then Ok(Undefined)
    else
      var body := st.apiResponse.value.body;
      var data :- Get(body, "data");
      var opportunityType :- Get(data, "@type");
      // `data` has been read from, so further reads from it cannot throw
      if opportunityType == Str("Slot") then
        var offers := Member(data, "offers");
        var offer :- First(offers);
        Get(offer, "@id")
      else
        var superEvent := Member(data, "superEvent");
        var superOffers :- Get(superEvent, "offers");
        if superOffers != Undefined then
          ReadPathAppend(body, SuperEventOffers, [Index0, Key("@id")]);
          var offer :- First(superOffers);
          Get(offer, "@id")
        else
          var offers := Member(data, "offers");
          var offer :- First(offers);
          Get(offer, "@id")
  }

  /** `sellerId`: the provider of a `Slot`'s facility use, otherwise the
      organizer of the parent event. */
  function SellerId(st: RequestState): (r: Result<Value>)
    ensures st.apiResponse.None? ==> r == Ok(Undefined)
    ensures st.apiResponse.Some? && ReadStored(st.apiResponse, DataType) == Ok(Str("Slot")) ==>
              r == ReadStored(st.apiResponse, ProviderId)
    ensures st.apiResponse.Some? && ReadStored(st.apiResponse, DataType).Ok? &&
            ReadStored(st.apiResponse, DataType) != Ok(Str("Slot")) ==>
              r == ReadStored(st.apiResponse, OrganizerId)
    ensures ReadStored(st.apiResponse, DataType).Err? ==> r == Err(TypeError)
  {
    if st.apiResponse.None? then Ok(Undefined)
    else
      var data :- Get(st.apiResponse.value.body, "data");
      var opportunityType :- Get(data, "@type");
      // `data` has been read from, so further reads from it cannot throw
      if opportunityType == Str("Slot") then
        var facilityUse := Member(data, "facilityUse");
        var provider :- Get(facilityUse, "provider");
        Get(provider, "@id")
      else
        var superEvent := Member(data, "superEvent");
        var organizer :- Get(superEvent, "organizer");
        Get(organizer, "@id")
  }

  /** `totalPaymentDue`: the price from the C2 response when there is one,
      otherwise from the C1 response, otherwise `undefined`. */
  function TotalPaymentDue(st: RequestState): (r: Result<Value>)
    ensures st.c2Response.Some? ==> r == ReadStored(st.c2Response, TotalPrice)
    ensures st.c2Response.None? ==> r == ReadStored(st.c1Response, TotalPrice)
  {
    var response := if st.c2Response.Some? then st.c2Response else st.c1Response;
    if response.None? then Ok(Undefined)
    else
      var totalPaymentDue :- Get(response.value.body, "totalPaymentDue");
      Get(totalPaymentDue, "price")
  }

  /** Once a C2 response is stored, the C1 response no longer matters. */
  lemma C2TakesPrecedence(st: RequestState, c1: ChakramResponse, c2: ChakramResponse)
    ensures TotalPaymentDue(Store(Store(st, C1, c1), C2, c2)) == TotalPaymentDue(Store(Store(st, C2, c2), C1, c1))
    ensures TotalPaymentDue(Store(Store(st, C1, c1), C2, c2)) == ReadPath(c2.body, TotalPrice)
  {
  }

  /** `orderItemId`: `undefined` without a B response; the `@id` of the first
      ordered item when the body and its `orderedItem` are truthy; the
      literal "NONE" otherwise. It throws only when that first item is
      missing or nullish. */
  function OrderItemId(st: RequestState): (r: Result<Value>)
    ensures st.bResponse.None? ==> r == Ok(Undefined)
    ensures st.bResponse.Some? ==>
              var body := st.bResponse.value.body;
              if Truthy(body) && Truthy(Member(body, "orderedItem")) then
                r == ReadPath(body, [Key("orderedItem"), Index0, Key("@id")])
              else r == Ok(Str("NONE"))
    ensures r.Err? <==> st.bResponse.Some? && Truthy(st.bResponse.value.body) &&
                        Truthy(Member(st.bResponse.value.body, "orderedItem")) &&
                        First(Member(st.bResponse.value.body, "orderedItem")).Ok? &&
                        Nullish(First(Member(st.bResponse.value.body, "orderedItem")).value)
  {
    if st.bResponse.None? then Ok(Undefined)
    else
      var body := st.bResponse.value.body;
      if Truthy(body) && Truthy(Member(body, "orderedItem")) then
        // a truthy receiver is not nullish, so indexing it cannot throw
        var item := First(Member(body, "orderedItem")).value;
        Get(item, "@id")
      else Ok(Str("NONE"))
  }
}
