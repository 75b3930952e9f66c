/** The C1 (OrderQuote) request templates of the integration tests: the
    standard request built from a seller and a list of order items, and the
    variants that remove or null one part of it. `createPaymentPart(false)` is
    not part of this model; its result is the parameter `payment`. */
module C1Req {
  import opened Wrappers
  import opened Json

  /** One order item of the template data. */
  datatype OrderItemData = OrderItemData(position: int, acceptedOfferId: string,
                                         orderedItemType: string, orderedItemId: string)

  /** The data the templates are filled from. */
  datatype C1ReqTemplateData = C1ReqTemplateData(sellerId: string, orderItems: seq<OrderItemData>)

  /** The fixed description of the test broker. */
  function BrokerFields(): map<string, Value> {
    map[
      "@type" := Str("Organization"),
      "name" := Str("MyFitnessApp"),
      "url" := Str("https://myfitnessapp.example.com"),
      "description" := Str("A fitness app for all the community"),
      "logo" := Obj(map["@type" := Str("ImageObject"),
                        "url" := Str("http://data.myfitnessapp.org.uk/images/logo.png")]),
      "address" := Obj(map[
        "@type" := Str("PostalAddress"),
        "streetAddress" := Str("Alan Peacock Way"),
        "addressLocality" := Str("Village East"),
        "addressRegion" := Str("Middlesbrough"),
        "postalCode" := Str("TS4 3AE"),
        "addressCountry" := Str("GB")])
    ]
  }

  /** The keys of every order-item entry. */
  const EntryKeys: set<string> := {"@type", "position", "acceptedOffer", "orderedItem"}

  /** The request entry for one order item. */
  function OrderItemEntry(item: OrderItemData): (r: Value)
    ensures r.Obj? && r.fields.Keys == EntryKeys
    ensures r.fields["@type"] == Str("OrderItem")
    ensures r.fields["position"] == Num(item.position as real)
    ensures r.fields["acceptedOffer"] == Obj(map["@type" := Str("Offer"), "@id" := Str(item.acceptedOfferId)])
    ensures r.fields["orderedItem"] == Obj(map["@type" := Str(item.orderedItemType), "@id" := Str(item.orderedItemId)])
  {
    Obj(map[
      "@type" := Str("OrderItem"),
      "position" := Num(item.position as real),
      "acceptedOffer" := Obj(map["@type" := Str("Offer"), "@id" := Str(item.acceptedOfferId)]),
      "orderedItem" := Obj(map["@type" := Str(item.orderedItemType), "@id" := Str(item.orderedItemId)])
    ])
  }

  function OrderItemEntries(items: seq<OrderItemData>): (r: seq<Value>)
    ensures |r| == |items|
    ensures forall i :: 0 <= i < |items| ==> r[i] == OrderItemEntry(items[i])
  {
    seq(|items|, i requires 0 <= i < |items| => OrderItemEntry(items[i]))
  }

  /** The top-level keys of every C1 request. */
  const RequestKeys: set<string> :=
    {"@context", "@type", "brokerRole", "broker", "seller", "orderedItem", "payment"}

  /** `createStandardC1Req`. Its members are listed once here so that the
      lemmas about the templates need not look inside the literal. */
  function StandardC1Req(data: C1ReqTemplateData, payment: Value): (r: Value)
    ensures r.Obj? && r.fields.Keys == RequestKeys
    ensures r.fields["@context"] == Str("https://openactive.io/")
    ensures r.fields["@type"] == Str("OrderQuote")
    ensures r.fields["brokerRole"] == Str("https://openactive.io/AgentBroker")
    ensures r.fields["broker"] == Obj(BrokerFields())
    ensures r.fields["seller"] == Obj(map["@type" := Str("Organization"), "@id" := Str(data.sellerId)])
    ensures r.fields["orderedItem"] == Arr(OrderItemEntries(data.orderItems))
    ensures r.fields["payment"] == payment
  {
    Obj(map[
      "@context" := Str("https://openactive.io/"),
      "@type" := Str("OrderQuote"),
      "brokerRole" := Str("https://openactive.io/AgentBroker"),
      "broker" := Obj(BrokerFields()),
      "seller" := Obj(map["@type" := Str("Organization"), "@id" := Str(data.sellerId)]),
      "orderedItem" := Arr(OrderItemEntries(data.orderItems)),
      "payment" := payment
    ])
  }

  // ---------------------------------------------------------------------------
  // Reading a request back

  function ReadString(v: Value): Option<string> {
    if v.Str? then Some(v.s) else None
  }

  function ReadInt(v: Value): Option<int> {
    if v.Num? && v.n.Floor as real == v.n then Some(v.n.Floor) else None
  }

  /** The order item an entry describes, if it is well formed. */
  function ReadOrderItem(v: Value): Option<OrderItemData> {
    var position := ReadInt(Member(v, "position"));
    var offerId := ReadString(Member(Member(v, "acceptedOffer"), "@id"));
    var itemType := ReadString(Member(Member(v, "orderedItem"), "@type"));
    var itemId := ReadString(Member(Member(v, "orderedItem"), "@id"));
    if position.Some? && offerId.Some? && itemType.Some? && itemId.Some?
    then Some(OrderItemData(position.value, offerId.value, itemType.value, itemId.value))
    else None
  }

  function ReadOrderItems(vs: seq<Value>): Option<seq<OrderItemData>>
    decreases |vs|
  {
    if |vs| == 0 then Some([])
    else
      var head := ReadOrderItem(vs[0]);
      var tail := ReadOrderItems(vs[1..]);
      if head.Some? && tail.Some? then Some([head.value] + tail.value) else None
  }

  /** The template data a C1 request carries: its seller id and order items. */
  function ReadC1Req(req: Value): Option<C1ReqTemplateData> {
    var sellerId := ReadString(Member(Member(req, "seller"), "@id"));
    var entries := Member(req, "orderedItem");
    if sellerId.Some? && entries.Arr? then
      var items := ReadOrderItems(entries.items);
      if items.Some? then Some(C1ReqTemplateData(sellerId.value, items.value)) else None
    else None
  }

  lemma {:induction false} ReadOrderItemsOfEntries(items: seq<OrderItemData>)
    ensures ReadOrderItems(OrderItemEntries(items)) == Some(items)
    decreases |items|
  {
    if |items| > 0 {
      assert OrderItemEntries(items)[1..] == OrderItemEntries(items[1..]);
      ReadOrderItemsOfEntries(items[1..]);
      assert ReadOrderItem(OrderItemEntry(items[0])) == Some(items[0]);
      assert items == [items[0]] + items[1..];
    }
  }

  /** The standard request carries its template data back out unchanged: the
      seller id, and every order item's position, offer id, opportunity type
      and opportunity id, in order. Its type and broker role are fixed. */
  lemma StandardC1ReqRoundTrip(data: C1ReqTemplateData, payment: Value)
    ensures ReadC1Req(StandardC1Req(data, payment)) == Some(data)
    ensures Member(StandardC1Req(data, payment), "@type") == Str("OrderQuote")
    ensures Member(StandardC1Req(data, payment), "brokerRole") == Str("https://openactive.io/AgentBroker")
    ensures Member(StandardC1Req(data, payment), "payment") == payment
  {
    ReadOrderItemsOfEntries(data.orderItems);
  }

  // ---------------------------------------------------------------------------
  // Variants

  /** Ramda `dissoc` on a string key: a copy of an object without the key.
      Receivers that are not objects are returned unchanged. */
  function Dissoc(k: string, v: Value): Value {
    if v.Obj? then Obj(v.fields - {k}) else v
  }

  /** Ramda `assoc` on a string key: a copy of an object with the key set. */
  function Assoc(k: string, x: Value, v: Value): Value {
    if v.Obj? then Obj(v.fields[k := x]) else Obj(map[k := x])
  }

  /** Ramda `dissocPath` over string keys: removes the last key of the path,
      rebuilding the objects along it; when some intermediate value is
      nullish the input is returned unchanged. */
  function DissocPath(path: seq<string>, v: Value): Value
    decreases |path|
  {
    if |path| == 0 then v
    else if |path| == 1 then Dissoc(path[0], v)
    else
      var child := Member(v, path[0]);
      if Nullish(child) then v else Assoc(path[0], DissocPath(path[1..], child), v)
  }

  /** `createNoBrokerNameC1Req`: the standard request whose broker lacks the
      `name` key; every other key of the request and of the broker is kept. */
  function NoBrokerNameC1Req(data: C1ReqTemplateData, payment: Value): (r: Value)
    ensures var std := StandardC1Req(data, payment);
            && r.Obj?
            && r.fields.Keys == std.fields.Keys
            && (forall k :: k in std.fields && k != "broker" ==> r.fields[k] == std.fields[k])
            && r.fields["broker"].Obj?
            && r.fields["broker"].fields.Keys == std.fields["broker"].fields.Keys - {"name"}
            && (forall k :: k in r.fields["broker"].fields ==>
                  r.fields["broker"].fields[k] == std.fields["broker"].fields[k])
  {
    DissocPath(["broker", "name"], StandardC1Req(data, payment))
  }

  /** Sets `key` to `null` in every object of the list. */
  function NullEach(entries: seq<Value>, key: string): (r: seq<Value>)
    ensures |r| == |entries|
    ensures forall i :: 0 <= i < |entries| && entries[i].Obj? ==>
              r[i] == Obj(entries[i].fields[key := Null])
  {
    seq(|entries|, i requires 0 <= i < |entries| =>
          if entries[i].Obj? then Obj(entries[i].fields[key := Null]) else entries[i])
  }

  /** The standard request with `key` nulled in every order-item entry. */
  function NullInEveryEntry(data: C1ReqTemplateData, payment: Value, key: string): (r: Value)
    ensures NullsInEveryEntry(data, payment, key, r)
  {
    var req := StandardC1Req(data, payment);
    var entries := OrderItemEntries(data.orderItems);
    assert forall i :: 0 <= i < |entries| ==> entries[i].Obj?;
    Obj(req.fields["orderedItem" := Arr(NullEach(entries, key))])
  }

  /** What it means to null `key` in every entry of the standard request: the
      same top-level keys with the same values except `orderedItem`, one entry
      per order item, and in each entry `key` is `null` while every other key
      keeps its standard value. */
  ghost predicate NullsInEveryEntry(data: C1ReqTemplateData, payment: Value, key: string, r: Value) {
    var std := StandardC1Req(data, payment);
    && r.Obj?
    && r.fields.Keys == std.fields.Keys
    && (forall k :: k in std.fields && k != "orderedItem" ==> r.fields[k] == std.fields[k])
    && r.fields["orderedItem"].Arr?
    && |r.fields["orderedItem"].items| == |data.orderItems|
    && forall i :: 0 <= i < |data.orderItems| ==>
         var e := r.fields["orderedItem"].items[i];
         var s := OrderItemEntry(data.orderItems[i]);
         && e.Obj?
         && e.fields.Keys == s.fields.Keys + {key}
         && e.fields[key] == Null
         && forall k :: k in s.fields && k != key ==> e.fields[k] == s.fields[k]
  }

  /** `createStandardC1WithoutOrderedItem`: every entry's `orderedItem` is
      `null`; its `position` and `acceptedOffer` are kept. */
  function StandardC1WithoutOrderedItem(data: C1ReqTemplateData, payment: Value): (r: Value)
    ensures NullsInEveryEntry(data, payment, "orderedItem", r)
    ensures forall i :: 0 <= i < |data.orderItems| ==>
              Member(r.fields["orderedItem"].items[i], "acceptedOffer") ==
              Obj(map["@type" := Str("Offer"), "@id" := Str(data.orderItems[i].acceptedOfferId)])
  {
    NullInEveryEntry(data, payment, "orderedItem")
  }

  /** `createStandardC1WithoutAcceptedOffer` as the source writes it: it nulls
      `orderedItem`, exactly like the template before it. */
  function StandardC1WithoutAcceptedOfferAsWritten(data: C1ReqTemplateData, payment: Value): (r: Value)
    ensures NullsInEveryEntry(data, payment, "orderedItem", r)
  {
    NullInEveryEntry(data, payment, "orderedItem")
  }

  /** The as-written template is indistinguishable from the no-ordered-item
      one, and with one order item its accepted offer is still there. */
  lemma AcceptedOfferTemplateKeepsAcceptedOffer()
    ensures forall data: C1ReqTemplateData, payment: Value ::
              StandardC1WithoutAcceptedOfferAsWritten(data, payment) == StandardC1WithoutOrderedItem(data, payment)
    ensures var data := C1ReqTemplateData("seller", [OrderItemData(0, "offer", "ScheduledSession", "session")]);
            Member(StandardC1WithoutAcceptedOfferAsWritten(data, Null).fields["orderedItem"].items[0],
                   "acceptedOffer")
            == Obj(map["@type" := Str("Offer"), "@id" := Str("offer")])
  {
    var data := C1ReqTemplateData("seller", [OrderItemData(0, "offer", "ScheduledSession", "session")]);
    var r := StandardC1WithoutAcceptedOfferAsWritten(data, Null);
    assert r == StandardC1WithoutOrderedItem(data, Null);
  }

  /** The C1 request with every entry's `acceptedOffer` nulled, as the
      template's name and description intend; `position` and `orderedItem`
      are kept. The template table keeps the program's behaviour and does not
      use it. */
  function StandardC1WithoutAcceptedOffer(data: C1ReqTemplateData, payment: Value): (r: Value)
    ensures NullsInEveryEntry(data, payment, "acceptedOffer", r)
    ensures forall i :: 0 <= i < |data.orderItems| ==>
              Member(r.fields["orderedItem"].items[i], "orderedItem") ==
              Obj(map["@type" := Str(data.orderItems[i].orderedItemType),
                      "@id" := Str(data.orderItems[i].orderedItemId)])
  {
    NullInEveryEntry(data, payment, "acceptedOffer")
  }

  // ---------------------------------------------------------------------------
  // The template table

  datatype TemplateRef = Standard | NoBrokerName | NoOrderedItem | NoAcceptedOffer

  function RefName(ref: TemplateRef): string {
    match ref
    case Standard => "standard"
    case NoBrokerName => "noBrokerName"
    case NoOrderedItem => "noOrderedItem"
    case NoAcceptedOffer => "noAcceptedOffer"
  }

  /** `c1ReqTemplates[name]`: the template a name refers to, if any. */
  function LookupRef(name: string): (r: Option<TemplateRef>)
    ensures r.Some? <==> name in {"standard", "noBrokerName", "noOrderedItem", "noAcceptedOffer"}
    ensures r.Some? ==> RefName(r.value) == name
  {
    if name == "standard" then Some(Standard)
    else if name == "noBrokerName" then Some(NoBrokerName)
    else if name == "noOrderedItem" then Some(NoOrderedItem)
    else if name == "noAcceptedOffer" then Some(NoAcceptedOffer)
    else None
  }

  /** Every template is found under its own name. */
  lemma LookupRefName(ref: TemplateRef)
    ensures LookupRef(RefName(ref)) == Some(ref)
  {
  }

  /** Builds the request of a template, as the program's table does: the
      `noAcceptedOffer` entry is the template as written. */
  function ApplyTemplate(ref: TemplateRef, data: C1ReqTemplateData, payment: Value): Value {
    match ref
    case Standard => StandardC1Req(data, payment)
    case NoBrokerName => NoBrokerNameC1Req(data, payment)
    case NoOrderedItem => StandardC1WithoutOrderedItem(data, payment)
    case NoAcceptedOffer => StandardC1WithoutAcceptedOfferAsWritten(data, payment)
  }

  /** Calling `c1ReqTemplates[name](data)`: a TypeError when the name refers
      to no template. */
  function CreateC1Req(name: string, data: C1ReqTemplateData, payment: Value): (r: Result<Value>)
    ensures r.Err? <==> name !in {"standard", "noBrokerName", "noOrderedItem", "noAcceptedOffer"}
    ensures r.Ok? ==> && Member(r.value, "@type") == Str("OrderQuote")
                      && Member(r.value, "brokerRole") == Str("https://openactive.io/AgentBroker")
                      && Member(Member(r.value, "seller"), "@id") == Str(data.sellerId)
  {
    match LookupRef(name)
    case None => Err(TypeError)
    case Some(ref) =>
      TemplateKeepsHeader(ref, data, payment);
      Ok(ApplyTemplate(ref, data, payment))
  }

  /** Calling the table under a template's own name builds that template. */
  lemma CreateByName(ref: TemplateRef, data: C1ReqTemplateData, payment: Value)
    ensures CreateC1Req(RefName(ref), data, payment) == Ok(ApplyTemplate(ref, data, payment))
  {
    LookupRefName(ref);
  }

  /** The `standard` entry builds the request that reads back to its data, and
      `noBrokerName` the one without the broker's name. */
  lemma StandardEntries(data: C1ReqTemplateData, payment: Value)
    ensures CreateC1Req("standard", data, payment).Ok?
    ensures ReadC1Req(CreateC1Req("standard", data, payment).value) == Some(data)
    ensures CreateC1Req("noBrokerName", data, payment) == Ok(NoBrokerNameC1Req(data, payment))
  {
    CreateByName(Standard, data, payment);
    CreateByName(NoBrokerName, data, payment);
    StandardC1ReqRoundTrip(data, payment);
  }

  /** The `noOrderedItem` entry nulls every entry's `orderedItem` and keeps
      its `acceptedOffer`. */
  lemma NoOrderedItemEntry(data: C1ReqTemplateData, payment: Value)
    ensures var r := CreateC1Req("noOrderedItem", data, payment);
            r.Ok? && NullsInEveryEntry(data, payment, "orderedItem", r.value)
  {
    CreateByName(NoOrderedItem, data, payment);
  }

  /** The `noAcceptedOffer` entry builds the same request as `noOrderedItem`. */
  lemma NoAcceptedOfferEntry(data: C1ReqTemplateData, payment: Value)
    ensures var r := CreateC1Req("noAcceptedOffer", data, payment);
            && r.Ok?
            && NullsInEveryEntry(data, payment, "orderedItem", r.value)
            && r == CreateC1Req("noOrderedItem", data, payment)
  {
    CreateByName(NoOrderedItem, data, payment);
    CreateByName(NoAcceptedOffer, data, payment);
  }

  /** Every template keeps the request's type, broker role and seller. */
  lemma TemplateKeepsHeader(ref: TemplateRef, data: C1ReqTemplateData, payment: Value)
    ensures var r := ApplyTemplate(ref, data, payment);
            && Member(r, "@type") == Str("OrderQuote")
            && Member(r, "brokerRole") == Str("https://openactive.io/AgentBroker")
            && Member(Member(r, "seller"), "@id") == Str(data.sellerId)
  {
    var std := StandardC1Req(data, payment);
    var r := ApplyTemplate(ref, data, payment);
    assert "@type" in std.fields && "brokerRole" in std.fields && "seller" in std.fields;
    assert r.Obj? && r.fields["@type"] == std.fields["@type"] && r.fields["brokerRole"] == std.fields["brokerRole"]
           && r.fields["seller"] == std.fields["seller"];
  }
}
