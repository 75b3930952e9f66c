/** The pure core of the capacity-assertion flow stage: grouping the
    opportunity-feed responses by opportunity `@id` into the information each
    GetMatch request needs, and issuing one GetMatch request per distinct
    opportunity while answering every response slot. The HTTP call itself is
    not part of this model; a request is represented by its arguments. */
module AssertOpportunityCapacity {
  import opened Wrappers
  import opened Json
  import opened CapacityRules

  /** The caller-supplied expected-capacity function. */
  type ExpectedCapacity = (Value, CapacityArgs) -> int

  /** What the grouping step stores per opportunity `@id`. */
  datatype MatchInfo = MatchInfo(opportunity: Value, orderItem: OrderItem, expectedCapacity: int)

  /** The arguments of one GetMatch request (the cache flag is always set). */
  datatype GetMatchRequest = GetMatchRequest(opportunityId: Value, position: int, expectedCapacity: int)

  /** `awaited[i]` is the request whose answer replaces response `i`;
      `issued` lists the requests actually sent, in the order sent. */
  datatype RunOutput = RunOutput(awaited: seq<GetMatchRequest>, issued: seq<GetMatchRequest>)

  // ---------------------------------------------------------------------------
  // Reading opportunities out of feed responses

  /** `response.body?.data`, asserted not to be nullish. */
  function OpportunityOf(response: Value): (r: Result<Value>)
    ensures r.Ok? <==> !Nullish(response) && !Nullish(OptionalGet(Member(response, "body"), "data"))
    ensures r.Ok? ==> r.value == OptionalGet(Member(response, "body"), "data") && !Nullish(r.value)
    ensures r.Err? && Nullish(response) ==> r.error == TypeError
    ensures r.Err? && !Nullish(response) ==> r.error == NullishAssertion
  {
    var body :- Get(response, "body");
    var data := OptionalGet(body, "data");
    if Nullish(data) then Err(NullishAssertion) else Ok(data)
  }

  /** The opportunity of every response, in order; the first response without
      one decides the error. */
  function Opportunities(responses: seq<Value>): (r: Result<seq<Value>>)
    ensures r.Ok? <==> forall i :: 0 <= i < |responses| ==> OpportunityOf(responses[i]).Ok?
    ensures r.Ok? ==> |r.value| == |responses|
    ensures r.Ok? ==> forall i :: 0 <= i < |responses| ==> r.value[i] == OpportunityOf(responses[i]).value
    ensures r.Err? ==> exists i :: 0 <= i < |responses| && OpportunityOf(responses[i]).Err?
                                   && r.error == OpportunityOf(responses[i]).error
                                   && forall j :: 0 <= j < i ==> OpportunityOf(responses[j]).Ok?
    decreases |responses|
  {
    if |responses| == 0 then Ok([])
    else
      var head :- OpportunityOf(responses[0]);
      var tail := Opportunities(responses[1..]);
      if tail.Err? then
        assert forall j :: 1 <= j < |responses| ==> responses[j] == responses[1..][j - 1];
        Err(tail.error)
      else
        Ok([head] + tail.value)
  }

  function IdOf(opportunity: Value): Value {
    Member(opportunity, "@id")
  }

  /** The set of opportunity ids occurring in `s`. */
  function Ids(s: seq<Value>): (r: set<Value>)
    decreases |s|
  {
    if |s| == 0 then {} else {IdOf(s[0])} + Ids(s[1..])
  }

  /** The id of every element is among the ids. */
  lemma IdsContains(s: seq<Value>)
    ensures forall k :: 0 <= k < |s| ==> IdOf(s[k]) in Ids(s)
    ensures Ids(s) == {} <==> |s| == 0
  {
    forall k | 0 <= k < |s| ensures IdOf(s[k]) in Ids(s) {
      InIds(s, IdOf(s[k]));
    }
  }

  lemma {:induction false} InIds(s: seq<Value>, id: Value)
    ensures id in Ids(s) <==> exists i :: 0 <= i < |s| && IdOf(s[i]) == id
    decreases |s|
  {
    if |s| > 0 {
      InIds(s[1..], id);
      assert forall i :: 1 <= i < |s| ==> s[i] == s[1..][i - 1];
      if id in Ids(s[1..]) {
        var i :| 0 <= i < |s[1..]| && IdOf(s[1..][i]) == id;
        assert IdOf(s[i + 1]) == id;
      }
    }
  }

  lemma {:induction false} IdsAppend(s: seq<Value>, t: seq<Value>)
    ensures Ids(s + t) == Ids(s) + Ids(t)
    decreases |s|
  {
    if |s| == 0 {
      assert s + t == t;
    } else {
      assert (s + t)[0] == s[0];
      assert (s + t)[1..] == s[1..] + t;
      IdsAppend(s[1..], t);
    }
  }

  predicate DistinctIds(s: seq<Value>) {
    forall i, j :: 0 <= i < j < |s| ==> IdOf(s[i]) != IdOf(s[j])
  }

  /** Where the first opportunity with id `id` sits in `s`. */
  function FirstIndex(s: seq<Value>, id: Value): (r: nat)
    requires id in Ids(s)
    ensures r < |s| && IdOf(s[r]) == id
    ensures forall j :: 0 <= j < r ==> IdOf(s[j]) != id
    decreases |s|
  {
    if IdOf(s[0]) == id then 0
    else
      1 + FirstIndex(s[1..], id)
  }

  /** The number of opportunities in `s` carrying `id` (the filtered length). */
  function CountId(s: seq<Value>, id: Value): (r: nat)
    ensures r <= |s|
    decreases |s|
  {
    if |s| == 0 then 0
    else (if IdOf(s[0]) == id then 1 else 0) + CountId(s[1..], id)
  }

  function IdSeq(s: seq<Value>): (r: seq<Value>)
    ensures |r| == |s|
    ensures forall i :: 0 <= i < |s| ==> r[i] == IdOf(s[i])
    decreases |s|
  {
    if |s| == 0 then [] else [IdOf(s[0])] + IdSeq(s[1..])
  }

  /** The count is the multiplicity of `id` among the ids, and it is positive
      exactly for the ids that occur. */
  lemma {:induction false} CountIsMultiplicity(s: seq<Value>, id: Value)
    ensures CountId(s, id) == multiset(IdSeq(s))[id]
    ensures CountId(s, id) >= 1 <==> id in Ids(s)
    decreases |s|
  {
    if |s| > 0 {
      CountIsMultiplicity(s[1..], id);
      assert IdSeq(s) == [IdOf(s[0])] + IdSeq(s[1..]);
      assert multiset(IdSeq(s)) == multiset{IdOf(s[0])} + multiset(IdSeq(s[1..]));
    }
  }

  /** Lodash `uniqBy` keyed by `@id`: the first opportunity of every id not in
      `seen`, in the order of first occurrence. */
  function UniqById(s: seq<Value>, seen: set<Value>): (r: seq<Value>)
    ensures DistinctIds(r)
    ensures Ids(r) == Ids(s) - seen
    decreases |s|
  {
    if |s| == 0 then []
    else if IdOf(s[0]) in seen then
      UniqById(s[1..], seen)
    else
      var rest := UniqById(s[1..], seen + {IdOf(s[0])});
      var r := [s[0]] + rest;
      assert r[1..] == rest;
      IdsContains(rest);
      r
  }

  /** Each opportunity the unique list keeps is the first one in `s` with its id. */
  lemma {:induction false} UniqByIdKeepsFirst(s: seq<Value>, seen: set<Value>)
    ensures forall k :: 0 <= k < |UniqById(s, seen)| ==>
              var r := UniqById(s, seen);
              IdOf(r[k]) in Ids(s) && r[k] == s[FirstIndex(s, IdOf(r[k]))]
    decreases |s|
  {
    if |s| > 0 {
      var r := UniqById(s, seen);
      var seen' := if IdOf(s[0]) in seen then seen else seen + {IdOf(s[0])};
      var rest := UniqById(s[1..], seen');
      UniqByIdKeepsFirst(s[1..], seen');
      IdsContains(rest);
      forall k | 0 <= k < |r|
        ensures IdOf(r[k]) in Ids(s) && r[k] == s[FirstIndex(s, IdOf(r[k]))]
      {
        if IdOf(s[0]) !in seen && k == 0 {
          assert r[0] == s[0];
        } else {
          var j := if IdOf(s[0]) in seen then k else k - 1;
          assert r[k] == rest[j];
          FirstIndexTail(s, IdOf(rest[j]));
        }
      }
    }
  }

  /** Past a first element with another id, the first index is one further
      along the tail. */
  lemma FirstIndexTail(s: seq<Value>, id: Value)
    requires |s| > 0 && id in Ids(s[1..]) && IdOf(s[0]) != id
    ensures id in Ids(s) && FirstIndex(s, id) == 1 + FirstIndex(s[1..], id)
  {
  }

  /** Appending one opportunity extends the unique list by it exactly when its
      id is new. */
  lemma {:induction false} UniqByIdSnoc(s: seq<Value>, x: Value, seen: set<Value>)
    ensures UniqById(s + [x], seen) ==
            UniqById(s, seen) + (if IdOf(x) in seen + Ids(s) then [] else [x])
    decreases |s|
  {
    if |s| == 0 {
      assert s + [x] == [x];
      assert UniqById([x][1..], seen + {IdOf(x)}) == [];
    } else {
      assert (s + [x])[0] == s[0];
      assert (s + [x])[1..] == s[1..] + [x];
      assert Ids(s) == {IdOf(s[0])} + Ids(s[1..]);
      if IdOf(s[0]) in seen {
        UniqByIdSnoc(s[1..], x, seen);
        assert seen + Ids(s[1..]) == seen + Ids(s);
      } else {
        var seen' := seen + {IdOf(s[0])};
        UniqByIdSnoc(s[1..], x, seen');
        assert seen' + Ids(s[1..]) == seen + Ids(s);
        assert UniqById(s + [x], seen) == [s[0]] + UniqById(s[1..] + [x], seen');
      }
    }
  }

  // ---------------------------------------------------------------------------
  // Order items per opportunity

  /** Every order item's `orderedItem` can have its `@id` read. */
  predicate ItemsReadable(items: seq<OrderItem>) {
    forall i :: 0 <= i < |items| ==> !Nullish(items[i].orderedItem)
  }

  /** The order items whose `orderedItem['@id']` is `id`, in order. */
  function MatchingItems(items: seq<OrderItem>, id: Value): (r: seq<OrderItem>)
    ensures forall it :: it in r ==> it in items && IdOf(it.orderedItem) == id
    ensures |r| > 0 <==> exists i :: 0 <= i < |items| && IdOf(items[i].orderedItem) == id
    ensures |r| > 0 ==> exists i :: 0 <= i < |items| && r[0] == items[i]
                                    && (forall j :: 0 <= j < i ==> IdOf(items[j].orderedItem) != id)
    decreases |items|
  {
    if |items| == 0 then []
    else
      var rest := MatchingItems(items[1..], id);
      assert forall i :: 1 <= i < |items| ==> items[i] == items[1..][i - 1];
      if IdOf(items[0].orderedItem) == id then [items[0]] + rest else rest
  }

  /** Nothing matching is dropped: every order item with the id occurs among
      the matches as often as among the order items, and no other does. */
  lemma {:induction false} MatchingItemsComplete(items: seq<OrderItem>, id: Value, it: OrderItem)
    ensures multiset(MatchingItems(items, id))[it] ==
            if IdOf(it.orderedItem) == id then multiset(items)[it] else 0
    decreases |items|
  {
    if |items| > 0 {
      MatchingItemsComplete(items[1..], id, it);
      assert items == [items[0]] + items[1..];
      assert multiset(items) == multiset{items[0]} + multiset(items[1..]);
      var rest := MatchingItems(items[1..], id);
      if IdOf(items[0].orderedItem) == id {
        assert MatchingItems(items, id) == [items[0]] + rest;
        assert multiset([items[0]] + rest) == multiset{items[0]} + multiset(rest);
      } else {
        assert MatchingItems(items, id) == rest;
      }
    }
  }

  /** Appending an order item extends the matches by it exactly when it
      matches: together with the empty case this fixes the filter's order. */
  lemma {:induction false} MatchingItemsSnoc(items: seq<OrderItem>, x: OrderItem, id: Value)
    ensures MatchingItems(items + [x], id) ==
            MatchingItems(items, id) + (if IdOf(x.orderedItem) == id then [x] else [])
    decreases |items|
  {
    var tail := if IdOf(x.orderedItem) == id then [x] else [];
    if |items| == 0 {
      assert items + [x] == [x];
      assert [x][1..] == [];
      assert MatchingItems([x], id) == tail + MatchingItems([], id);
    } else {
      assert (items + [x])[0] == items[0];
      assert (items + [x])[1..] == items[1..] + [x];
      MatchingItemsSnoc(items[1..], x, id);
      var before := MatchingItems(items[1..], id);
      var rest := MatchingItems(items[1..] + [x], id);
      assert rest == before + tail;
      if IdOf(items[0].orderedItem) == id {
        assert MatchingItems(items + [x], id) == [items[0]] + rest;
        assert MatchingItems(items, id) == [items[0]] + before;
        ConsAssoc(items[0], before, tail);
      } else {
        assert MatchingItems(items + [x], id) == rest;
        assert MatchingItems(items, id) == before;
      }
    }
  }

  lemma ConsAssoc<T>(a: T, b: seq<T>, c: seq<T>)
    ensures [a] + (b + c) == ([a] + b) + c
  {
  }

  predicate HasMatch(items: seq<OrderItem>, id: Value) {
    exists i :: 0 <= i < |items| && IdOf(items[i].orderedItem) == id
  }

  /** The reads `item.orderedItem['@id']` the filter makes, one order item
      after the other: the TypeError of the first nullish `orderedItem`, or
      every order item's id, in order. */
  function ReadItemIds(items: seq<OrderItem>): (r: Result<seq<Value>>)
    ensures r.Ok? <==> ItemsReadable(items)
    ensures r.Ok? ==> |r.value| == |items| && forall i :: 0 <= i < |items| ==> r.value[i] == IdOf(items[i].orderedItem)
    ensures r.Err? ==> r.error == TypeError
    decreases |items|
  {
    if |items| == 0 then Ok([])
    else
      var itemId :- Get(items[0].orderedItem, "@id");
      var rest :- ReadItemIds(items[1..]);
      assert forall i :: 1 <= i < |items| ==> items[i] == items[1..][i - 1];
      Ok([itemId] + rest)
  }

  /** Keeps the order items whose read id is `id`, in order. */
  function KeepMatching(items: seq<OrderItem>, ids: seq<Value>, id: Value): (r: seq<OrderItem>)
    requires |ids| == |items| && forall i :: 0 <= i < |items| ==> ids[i] == IdOf(items[i].orderedItem)
    ensures r == MatchingItems(items, id)
    decreases |items|
  {
    if |items| == 0 then []
    else
      assert forall i :: 1 <= i < |items| ==> items[i] == items[1..][i - 1] && ids[i] == ids[1..][i - 1];
      var rest := KeepMatching(items[1..], ids[1..], id);
      if ids[0] == id then [items[0]] + rest else rest
  }

  /** `orderItems.filter(item => item.orderedItem['@id'] === id)`: the reads
      run first to last and the first nullish `orderedItem` throws; otherwise
      the order items whose id read is `id` are kept, in order. */
  function OrderItemsFor(items: seq<OrderItem>, id: Value): (r: Result<seq<OrderItem>>)
    ensures r.Ok? <==> ItemsReadable(items)
    ensures r.Ok? ==> r.value == MatchingItems(items, id)
    ensures r.Err? ==> r.error == TypeError
  {
    var ids :- ReadItemIds(items);
    Ok(KeepMatching(items, ids, id))
  }

  // ---------------------------------------------------------------------------
  // Grouping

  /** The entry the grouping step builds for one unique opportunity. */
  function Entry(f: ExpectedCapacity, opps: seq<Value>, items: seq<OrderItem>, opp: Value): MatchInfo
    requires HasMatch(items, IdOf(opp))
  {
    var forThis := MatchingItems(items, IdOf(opp));
    MatchInfo(opp, forThis[0], f(opp, CapacityArgs(CountId(opps, IdOf(opp)), forThis)))
  }

  /** Builds the entry of every unique opportunity, failing at the first one
      without a matching order item. */
  function BuildEntries(f: ExpectedCapacity, opps: seq<Value>, items: seq<OrderItem>, uniques: seq<Value>)
    : (r: Result<map<Value, MatchInfo>>)
    requires DistinctIds(uniques)
    ensures r.Ok? <==> (|uniques| == 0 || ItemsReadable(items))
                       && forall k :: 0 <= k < |uniques| ==> HasMatch(items, IdOf(uniques[k]))
    ensures r.Ok? ==> r.value.Keys == Ids(uniques)
    ensures r.Ok? ==> forall k :: 0 <= k < |uniques| ==>
                        IdOf(uniques[k]) in r.value
                        && r.value[IdOf(uniques[k])] == Entry(f, opps, items, uniques[k])
    ensures r.Err? ==> r.error == if ItemsReadable(items) then NullishAssertion else TypeError
    decreases |uniques|
  {
    if |uniques| == 0 then Ok(map[])
    else
      IdsContains(uniques);
      var opp := uniques[0];
      var forThis :- OrderItemsFor(items, IdOf(opp));
      if |forThis| == 0 then Err(NullishAssertion)
      else
        AllMatchedCons(items, uniques);
        var rest :- BuildEntries(f, opps, items, uniques[1..]);
        InsertEntry(f, opps, items, uniques, rest);
        Ok(map[IdOf(opp) := Entry(f, opps, items, opp)] + rest)
  }

  /** Every unique opportunity has a match exactly when the first one has and
      every later one has. */
  lemma AllMatchedCons(items: seq<OrderItem>, uniques: seq<Value>)
    requires |uniques| > 0
    ensures (forall k :: 0 <= k < |uniques| ==> HasMatch(items, IdOf(uniques[k]))) <==>
            HasMatch(items, IdOf(uniques[0])) &&
            forall k :: 0 <= k < |uniques[1..]| ==> HasMatch(items, IdOf(uniques[1..][k]))
  {
    assert forall k :: 1 <= k < |uniques| ==> uniques[k] == uniques[1..][k - 1];
  }

  /** Adding the first unique opportunity's entry to the entries of the rest
      gives the entries of all of them. */
  lemma InsertEntry(f: ExpectedCapacity, opps: seq<Value>, items: seq<OrderItem>, uniques: seq<Value>,
                    rest: map<Value, MatchInfo>)
    requires |uniques| > 0 && DistinctIds(uniques)
    requires forall k :: 0 <= k < |uniques| ==> HasMatch(items, IdOf(uniques[k]))
    requires rest.Keys == Ids(uniques[1..])
    requires forall k :: 0 <= k < |uniques| - 1 ==>
               IdOf(uniques[1..][k]) in rest && rest[IdOf(uniques[1..][k])] == Entry(f, opps, items, uniques[1..][k])
    ensures var m := map[IdOf(uniques[0]) := Entry(f, opps, items, uniques[0])] + rest;
            && m.Keys == Ids(uniques)
            && forall k :: 0 <= k < |uniques| ==>
                 IdOf(uniques[k]) in m && m[IdOf(uniques[k])] == Entry(f, opps, items, uniques[k])
  {
    assert IdOf(uniques[0]) !in rest by {
      InIds(uniques[1..], IdOf(uniques[0]));
    }
    var m := map[IdOf(uniques[0]) := Entry(f, opps, items, uniques[0])] + rest;
    assert m.Keys == {IdOf(uniques[0])} + Ids(uniques[1..]);
    forall k | 0 <= k < |uniques|
      ensures IdOf(uniques[k]) in m && m[IdOf(uniques[k])] == Entry(f, opps, items, uniques[k])
    {
      if k > 0 {
        assert uniques[k] == uniques[1..][k - 1];
        assert IdOf(uniques[k]) != IdOf(uniques[0]);
      }
    }
  }

  /** `getGetMatchRequestInfoByOpportunityId`: for every distinct opportunity
      `@id` among the responses, the opportunity of its first response, the
      first order item booking it and the expected capacity computed from how
      often it occurs and which order items book it. */
  function GetMatchRequestInfoByOpportunityId(f: ExpectedCapacity, responses: seq<Value>, items: seq<OrderItem>)
    : (r: Result<map<Value, MatchInfo>>)
    ensures r.Ok? <==> Opportunities(responses).Ok?
                       && (|responses| == 0 || ItemsReadable(items))
                       && forall id :: id in Ids(Opportunities(responses).value) ==> HasMatch(items, id)
    ensures r.Ok? ==>
              var opps := Opportunities(responses).value;
              && r.value.Keys == Ids(opps)
              && forall id :: id in r.value ==>
                   && CountId(opps, id) >= 1
                   && HasMatch(items, id)
                   && r.value[id].opportunity == opps[FirstIndex(opps, id)]
                   && IdOf(r.value[id].opportunity) == id
                   && r.value[id].orderItem == MatchingItems(items, id)[0]
                   && r.value[id].expectedCapacity ==
                      f(r.value[id].opportunity, CapacityArgs(CountId(opps, id), MatchingItems(items, id)))
    ensures Opportunities(responses).Err? ==> r == Err(Opportunities(responses).error)
    ensures Opportunities(responses).Ok? && r.Err? ==>
              r.error == if ItemsReadable(items) then NullishAssertion else TypeError
  {
    var opps :- Opportunities(responses);
    var uniques := UniqById(opps, {});
    var r := BuildEntries(f, opps, items, uniques);
    GroupingFacts(f, opps, items, uniques, r);
    r
  }

  /** Carries the facts about one unique list over to the set of all ids. */
  lemma GroupingFacts(f: ExpectedCapacity, opps: seq<Value>, items: seq<OrderItem>,
                      uniques: seq<Value>, r: Result<map<Value, MatchInfo>>)
    requires uniques == UniqById(opps, {})
    requires r == BuildEntries(f, opps, items, uniques)
    ensures r.Ok? <==> (|opps| == 0 || ItemsReadable(items))
                       && forall id :: id in Ids(opps) ==> HasMatch(items, id)
    ensures r.Ok? ==>
              && r.value.Keys == Ids(opps)
              && forall id :: id in r.value ==>
                   && CountId(opps, id) >= 1
                   && HasMatch(items, id)
                   && r.value[id].opportunity == opps[FirstIndex(opps, id)]
                   && IdOf(r.value[id].opportunity) == id
                   && r.value[id].orderItem == MatchingItems(items, id)[0]
                   && r.value[id].expectedCapacity ==
                      f(r.value[id].opportunity, CapacityArgs(CountId(opps, id), MatchingItems(items, id)))
  {
    assert Ids(uniques) == Ids(opps);
    UniqByIdKeepsFirst(opps, {});
    forall id | id in Ids(opps)
      ensures exists k :: 0 <= k < |uniques| && IdOf(uniques[k]) == id
    {
      InIds(uniques, id);
    }
    if r.Ok? {
      forall id | id in r.value
        ensures CountId(opps, id) >= 1
        ensures HasMatch(items, id)
        ensures r.value[id].opportunity == opps[FirstIndex(opps, id)]
        ensures IdOf(r.value[id].opportunity) == id
        ensures r.value[id].orderItem == MatchingItems(items, id)[0]
        ensures r.value[id].expectedCapacity ==
                f(r.value[id].opportunity, CapacityArgs(CountId(opps, id), MatchingItems(items, id)))
      {
        CountIsMultiplicity(opps, id);
        var k :| 0 <= k < |uniques| && IdOf(uniques[k]) == id;
        assert r.value[id] == Entry(f, opps, items, uniques[k]);
      }
    }
  }

  // ---------------------------------------------------------------------------
  // Issuing GetMatch requests

  function RequestFor(info: MatchInfo): GetMatchRequest {
    GetMatchRequest(IdOf(info.opportunity), info.orderItem.position, info.expectedCapacity)
  }

  /** A list with pairwise distinct ids has as many elements as ids. */
  lemma {:induction false} DistinctIdsCardinality(s: seq<Value>)
    requires DistinctIds(s)
    ensures |Ids(s)| == |s|
    decreases |s|
  {
    if |s| > 0 {
      assert DistinctIds(s[1..]) by {
        assert forall i :: 1 <= i < |s| ==> s[i] == s[1..][i - 1];
      }
      DistinctIdsCardinality(s[1..]);
      InIds(s[1..], IdOf(s[0]));
    }
  }

  /** Every opportunity of `s` has an entry in `info`. */
  predicate Covered(info: map<Value, MatchInfo>, s: seq<Value>) {
    forall j :: 0 <= j < |s| ==> IdOf(s[j]) in info
  }

  /** The request for each opportunity of `s`, in order. */
  function RequestsFor(info: map<Value, MatchInfo>, s: seq<Value>): (r: seq<GetMatchRequest>)
    requires Covered(info, s)
    ensures |r| == |s|
    decreases |s|
  {
    if |s| == 0 then []
    else
      assert Covered(info, s[..|s| - 1]) by {
        assert forall j :: 0 <= j < |s| - 1 ==> s[..|s| - 1][j] == s[j];
      }
      RequestsFor(info, s[..|s| - 1]) + [RequestFor(info[IdOf(s[|s| - 1])])]
  }

  lemma RequestsForSnoc(info: map<Value, MatchInfo>, s: seq<Value>, x: Value)
    requires Covered(info, s) && IdOf(x) in info
    ensures Covered(info, s + [x])
    ensures RequestsFor(info, s + [x]) == RequestsFor(info, s) + [RequestFor(info[IdOf(x)])]
  {
    assert forall j :: 0 <= j < |s| ==> (s + [x])[j] == s[j];
    assert (s + [x])[..|s|] == s;
  }

  /** Entry `j` of the requests is the request for opportunity `j`. */
  lemma {:induction false} RequestsForIndex(info: map<Value, MatchInfo>, s: seq<Value>)
    requires Covered(info, s)
    ensures forall j :: 0 <= j < |s| ==> RequestsFor(info, s)[j] == RequestFor(info[IdOf(s[j])])
    decreases |s|
  {
    if |s| > 0 {
      var init := s[..|s| - 1];
      assert forall j :: 0 <= j < |init| ==> init[j] == s[j];
      RequestsForIndex(info, init);
    }
  }

  /** The walk of `runAssertOpportunityCapacity` over the opportunities of the
      responses: a GetMatch request is sent for an opportunity id the first
      time it is seen, and that request is reused for every later response
      with the same id. Every response awaits the request for its own
      opportunity, and the requests sent are those for the first opportunity
      of each id, in order of first appearance. */
  method IssueRequests(info: map<Value, MatchInfo>, opps: seq<Value>) returns (out: RunOutput)
    requires Covered(info, opps)
    ensures Covered(info, UniqById(opps, {}))
    ensures out.awaited == RequestsFor(info, opps)
    ensures out.issued == RequestsFor(info, UniqById(opps, {}))
  {
    var reusable: map<Value, GetMatchRequest> := map[];
    var awaited: seq<GetMatchRequest> := [];
    var issued: seq<GetMatchRequest> := [];
    ghost var uniques: seq<Value> := [];
    assert opps[..0] == [];
    for i := 0 to |opps|
      invariant Walked(info, opps, i, reusable, uniques, awaited, issued)
    {
      var id := IdOf(opps[i]);
      if id in reusable {
        WalkSeen(info, opps, i, reusable, uniques, awaited, issued);
        awaited := awaited + [reusable[id]];
      } else {
        WalkNew(info, opps, i, reusable, uniques, awaited, issued);
        var details := info[id];
        var request := GetMatchRequest(IdOf(details.opportunity), details.orderItem.position,
                                       details.expectedCapacity);
        reusable := reusable[id := request];
        issued := issued + [request];
        awaited := awaited + [request];
        uniques := uniques + [opps[i]];
      }
    }
    assert opps[..|opps|] == opps;
    out := RunOutput(awaited, issued);
  }

  /** The state of the walk after the first `i` responses: one reusable
      request per id seen so far, the unique list so far, the requests
      awaited so far, and the requests sent so far. */
  ghost predicate Walked(info: map<Value, MatchInfo>, opps: seq<Value>, i: nat,
                         reusable: map<Value, GetMatchRequest>, uniques: seq<Value>,
                         awaited: seq<GetMatchRequest>, issued: seq<GetMatchRequest>) {
    && i <= |opps|
    && Covered(info, opps[..i])
    && reusable.Keys == Ids(opps[..i])
    && (forall id :: id in reusable ==> id in info && reusable[id] == RequestFor(info[id]))
    && uniques == UniqById(opps[..i], {})
    && Covered(info, uniques)
    && awaited == RequestsFor(info, opps[..i])
    && issued == RequestsFor(info, uniques)
  }

  /** A step at an id already seen reuses its request. */
  lemma WalkSeen(info: map<Value, MatchInfo>, opps: seq<Value>, i: nat,
                 reusable: map<Value, GetMatchRequest>, uniques: seq<Value>,
                 awaited: seq<GetMatchRequest>, issued: seq<GetMatchRequest>)
    requires Covered(info, opps) && i < |opps|
    requires Walked(info, opps, i, reusable, uniques, awaited, issued)
    requires IdOf(opps[i]) in reusable
    ensures Walked(info, opps, i + 1, reusable, uniques, awaited + [reusable[IdOf(opps[i])]], issued)
  {
    PrefixStep(opps, i);
    RequestsForSnoc(info, opps[..i], opps[i]);
    assert Ids(opps[..i + 1]) == Ids(opps[..i]);
  }

  /** A step at a new id sends its request and adds the opportunity to the
      unique list. */
  lemma WalkNew(info: map<Value, MatchInfo>, opps: seq<Value>, i: nat,
                reusable: map<Value, GetMatchRequest>, uniques: seq<Value>,
                awaited: seq<GetMatchRequest>, issued: seq<GetMatchRequest>)
    requires Covered(info, opps) && i < |opps|
    requires Walked(info, opps, i, reusable, uniques, awaited, issued)
    requires IdOf(opps[i]) !in reusable
    ensures var request := RequestFor(info[IdOf(opps[i])]);
            Walked(info, opps, i + 1, reusable[IdOf(opps[i]) := request], uniques + [opps[i]],
                   awaited + [request], issued + [request])
  {
    var id := IdOf(opps[i]);
    var request := RequestFor(info[id]);
    PrefixStep(opps, i);
    RequestsForSnoc(info, opps[..i], opps[i]);
    RequestsForSnoc(info, uniques, opps[i]);
    var reusable' := reusable[id := request];
    assert reusable'.Keys == Ids(opps[..i + 1]);
    assert forall x :: x in reusable' ==> x in info && reusable'[x] == RequestFor(info[x]);
    assert uniques + [opps[i]] == UniqById(opps[..i + 1], {});
    assert awaited + [request] == RequestsFor(info, opps[..i + 1]);
    assert issued + [request] == RequestsFor(info, uniques + [opps[i]]);
  }

  /** How the ids and the unique list grow when the walk takes one more step. */
  lemma PrefixStep(opps: seq<Value>, i: nat)
    requires i < |opps|
    ensures opps[..i + 1] == opps[..i] + [opps[i]]
    ensures Ids(opps[..i + 1]) == Ids(opps[..i]) + {IdOf(opps[i])}
    ensures UniqById(opps[..i + 1], {}) ==
            UniqById(opps[..i], {}) + (if IdOf(opps[i]) in Ids(opps[..i]) then [] else [opps[i]])
  {
    assert opps[..i + 1] == opps[..i] + [opps[i]];
    IdsAppend(opps[..i], [opps[i]]);
    UniqByIdSnoc(opps[..i], opps[i], {});
  }

  /** `runAssertOpportunityCapacity` without the awaiting: the grouping step,
      then the walk. The lookup the source guards with a second nullish
      assertion always succeeds, so that assertion never fires. */
  method RunAssertOpportunityCapacity(f: ExpectedCapacity, responses: seq<Value>, items: seq<OrderItem>)
    returns (r: Result<RunOutput>)
    ensures r.Ok? <==> GetMatchRequestInfoByOpportunityId(f, responses, items).Ok?
    ensures r.Err? ==> r.error == GetMatchRequestInfoByOpportunityId(f, responses, items).error
    ensures r.Ok? ==>
              var opps := Opportunities(responses).value;
              var info := GetMatchRequestInfoByOpportunityId(f, responses, items).value;
              var out := r.value;
              && |out.awaited| == |responses|
              && (forall i :: 0 <= i < |responses| ==>
                    && IdOf(opps[i]) in info
                    && out.awaited[i] == RequestFor(info[IdOf(opps[i])])
                    && out.awaited[i].opportunityId == IdOf(opps[i])
                    && out.awaited[i] in out.issued)
              && |out.issued| == |Ids(opps)|
              && |out.issued| == |UniqById(opps, {})|
              && (forall k :: 0 <= k < |out.issued| ==>
                    out.issued[k] == RequestFor(info[IdOf(UniqById(opps, {})[k])]))
              && (forall j, k :: 0 <= j < k < |out.issued| ==>
                    out.issued[j].opportunityId != out.issued[k].opportunityId)
  {
    var info :- GetMatchRequestInfoByOpportunityId(f, responses, items);
    var opps := Opportunities(responses).value;
    IdsContains(opps);
    var out := IssueRequests(info, opps);
    RequestsForIndex(info, opps);
    RequestsForIndex(info, UniqById(opps, {}));
    IssuedFacts(info, opps, out.awaited, out.issued);
    r := Ok(out);
  }

  /** What the final state of the walk means. */
  lemma IssuedFacts(info: map<Value, MatchInfo>, opps: seq<Value>,
                    awaited: seq<GetMatchRequest>, issued: seq<GetMatchRequest>)
    requires forall id :: id in info ==> IdOf(info[id].opportunity) == id
    requires forall j :: 0 <= j < |opps| ==> IdOf(opps[j]) in info
    requires |awaited| == |opps|
    requires forall j :: 0 <= j < |opps| ==> awaited[j] == RequestFor(info[IdOf(opps[j])])
    requires |issued| == |UniqById(opps, {})|
    requires forall k :: 0 <= k < |issued| ==>
               IdOf(UniqById(opps, {})[k]) in info
               && issued[k] == RequestFor(info[IdOf(UniqById(opps, {})[k])])
    ensures forall i :: 0 <= i < |opps| ==> awaited[i].opportunityId == IdOf(opps[i]) && awaited[i] in issued
    ensures |issued| == |Ids(opps)|
    ensures forall j, k :: 0 <= j < k < |issued| ==> issued[j].opportunityId != issued[k].opportunityId
  {
    var uniques := UniqById(opps, {});
    assert forall k :: 0 <= k < |issued| ==> issued[k].opportunityId == IdOf(uniques[k]);
    DistinctIdsCardinality(uniques);
    forall i | 0 <= i < |opps|
      ensures awaited[i] in issued
    {
      IdsContains(opps);
      InIds(uniques, IdOf(opps[i]));
      var k :| 0 <= k < |uniques| && IdOf(uniques[k]) == IdOf(opps[i]);
      assert issued[k] == awaited[i];
    }
  }

  /** With the decremented rule, every opportunity is expected to have lost one
      place per response carrying it, which is at least one place. */
  lemma DecrementedExpectation(remaining: Value -> int, responses: seq<Value>, items: seq<OrderItem>, id: Value)
    ensures var r := GetMatchRequestInfoByOpportunityId((o, a) => Apply(Decremented, remaining, o, a),
                                                        responses, items);
            r.Ok? && id in r.value ==>
              && r.value[id].expectedCapacity ==
                 remaining(r.value[id].opportunity) - CountId(Opportunities(responses).value, id)
              && r.value[id].expectedCapacity < remaining(r.value[id].opportunity)
  {
    var f: ExpectedCapacity := (o, a) => Apply(Decremented, remaining, o, a);
    var r := GetMatchRequestInfoByOpportunityId(f, responses, items);
    if r.Ok? && id in r.value {
      var opps := Opportunities(responses).value;
      var e := r.value[id];
      var args := CapacityArgs(CountId(opps, id), MatchingItems(items, id));
      assert e.expectedCapacity == f(e.opportunity, args);
      assert f(e.opportunity, args) == Apply(Decremented, remaining, e.opportunity, args);
    }
  }

  /** With the unchanged rule, every opportunity is expected to keep exactly
      the capacity it had, however often it occurs. */
  lemma UnchangedExpectation(remaining: Value -> int, responses: seq<Value>, items: seq<OrderItem>, id: Value)
    ensures var r := GetMatchRequestInfoByOpportunityId((o, a) => Apply(Unchanged, remaining, o, a),
                                                        responses, items);
            r.Ok? && id in r.value ==>
              r.value[id].expectedCapacity == remaining(r.value[id].opportunity)
  {
    var f: ExpectedCapacity := (o, a) => Apply(Unchanged, remaining, o, a);
    var r := GetMatchRequestInfoByOpportunityId(f, responses, items);
    if r.Ok? && id in r.value {
      var opps := Opportunities(responses).value;
      var e := r.value[id];
      var args := CapacityArgs(CountId(opps, id), MatchingItems(items, id));
      assert e.expectedCapacity == f(e.opportunity, args);
      assert f(e.opportunity, args) == Apply(Unchanged, remaining, e.opportunity, args);
    }
  }

  /** With the incremented rule, every opportunity gains one place per distinct
      cancelled position held by an order item booking it, and never loses one. */
  lemma IncrementedExpectation(ps: seq<int>, remaining: Value -> int, responses: seq<Value>,
                               items: seq<OrderItem>, id: Value)
    ensures var r := GetMatchRequestInfoByOpportunityId((o, a) => Apply(IncrementedFor(ps), remaining, o, a),
                                                        responses, items);
            r.Ok? && id in r.value ==>
              && r.value[id].expectedCapacity ==
                 remaining(r.value[id].opportunity) + |ToSet(ps) * ToSet(Positions(MatchingItems(items, id)))|
              && r.value[id].expectedCapacity >= remaining(r.value[id].opportunity)
  {
    var f: ExpectedCapacity := (o, a) => Apply(IncrementedFor(ps), remaining, o, a);
    var r := GetMatchRequestInfoByOpportunityId(f, responses, items);
    if r.Ok? && id in r.value {
      var opps := Opportunities(responses).value;
      var e := r.value[id];
      var args := CapacityArgs(CountId(opps, id), MatchingItems(items, id));
      assert e.expectedCapacity == f(e.opportunity, args);
      assert f(e.opportunity, args) == Apply(IncrementedFor(ps), remaining, e.opportunity, args);
      IncrementedCapacity(ps, remaining, e.opportunity, args);
    }
  }
}
