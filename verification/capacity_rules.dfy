/** The expected-capacity rules of the capacity-assertion flow stage: how an
    opportunity's remaining capacity is expected to have moved after a booking
    stage, and which stage is expected to move it. `getRemainingCapacity` is
    not part of this model; it is the parameter `remaining`. */
module CapacityRules {
  import opened Json

  /** An order item as the flow stages carry it: its position in the order and
      the opportunity it books. */
  datatype OrderItem = OrderItem(position: int, orderedItem: Value)

  /** The extra arguments handed to an expected-capacity function: how often the
      opportunity occurs among the responses, and the order items booking it. */
  datatype CapacityArgs = CapacityArgs(count: nat, orderItems: seq<OrderItem>)

  /** The expected-capacity functions the flow stage returns as closures. */
  datatype CapacityRule =
    | Unchanged
    | Decremented
    | IncrementedFor(orderItemPositions: seq<int>)

  /** The booking stages whose success may consume capacity. */
  datatype Stage = C1 | C2 | Book

  /** The two leasing flags of the implemented-features configuration. */
  datatype Features = Features(anonymousLeasing: bool, namedLeasing: bool)

  /** Duplicate-free. */
  ghost predicate Distinct<T>(s: seq<T>) {
    forall i, j :: 0 <= i < j < |s| ==> s[i] != s[j]
  }

  function ToSet<T>(s: seq<T>): set<T> {
    set x | x in s
  }

  function Positions(items: seq<OrderItem>): (r: seq<int>)
    ensures |r| == |items|
    ensures forall i :: 0 <= i < |items| ==> r[i] == items[i].position
  {
    if |items| == 0 then [] else [items[0].position] + Positions(items[1..])
  }

  /** Lodash `intersection(a, b)`: the values of `a` that also occur in `b`,
      each once, in the order of their first occurrence in `a`. `seen` holds
      the values already emitted. */
  function IntersectionFrom(a: seq<int>, b: seq<int>, seen: set<int>): (r: seq<int>)
    ensures Distinct(r)
    ensures ToSet(r) == (ToSet(a) * ToSet(b)) - seen
    decreases |a|
  {
    if |a| == 0 then []
    else
      assert a == [a[0]] + a[1..];
      assert ToSet(a) == {a[0]} + ToSet(a[1..]);
      if a[0] in b && a[0] !in seen then
        var rest := IntersectionFrom(a[1..], b, seen + {a[0]});
        assert ToSet([a[0]] + rest) == {a[0]} + ToSet(rest);
        [a[0]] + rest
      else
        IntersectionFrom(a[1..], b, seen)
  }

  function Intersection(a: seq<int>, b: seq<int>): (r: seq<int>)
    ensures Distinct(r)
    ensures ToSet(r) == ToSet(a) * ToSet(b)
  {
    IntersectionFrom(a, b, {})
  }

  /** A duplicate-free sequence has as many elements as its set. */
  lemma {:induction false} DistinctCardinality<T>(s: seq<T>)
    requires Distinct(s)
    ensures |ToSet(s)| == |s|
  {
    if |s| > 0 {
      DistinctCardinality(s[1..]);
      assert ToSet(s) == ToSet(s[1..]) + {s[0]};
      assert s[0] !in ToSet(s[1..]);
    }
  }

  /** The length of the intersection is the number of distinct positions the
      two lists share. */
  lemma IntersectionLength(a: seq<int>, b: seq<int>)
    ensures |Intersection(a, b)| == |ToSet(a) * ToSet(b)|
  {
    DistinctCardinality(Intersection(a, b));
  }

  /** The expected capacity under a rule, given the remaining capacity the
      opportunity had when the order items were built. */
  function Apply(rule: CapacityRule, remaining: Value -> int, opportunity: Value, args: CapacityArgs): (r: int)
    ensures rule.Unchanged? ==> r == remaining(opportunity)
    ensures rule.Decremented? ==> r + args.count == remaining(opportunity)
    ensures rule.IncrementedFor? ==>
              r - remaining(opportunity) == |ToSet(rule.orderItemPositions) * ToSet(Positions(args.orderItems))|
  {
    match rule
    case Unchanged => remaining(opportunity)
    case Decremented => remaining(opportunity) - args.count
    case IncrementedFor(ps) =>
      IntersectionLength(ps, Positions(args.orderItems));
      remaining(opportunity) + |Intersection(ps, Positions(args.orderItems))|
  }

  /** Incremented capacity adds one per distinct position shared by the given
      positions and the opportunity's order items: never below the remaining
      capacity, equal to it when the two position sets are disjoint, and at
      most one above it per given position. */
  lemma IncrementedCapacity(ps: seq<int>, remaining: Value -> int, opportunity: Value, args: CapacityArgs)
    ensures Apply(IncrementedFor(ps), remaining, opportunity, args) ==
            remaining(opportunity) + |ToSet(ps) * ToSet(Positions(args.orderItems))|
    ensures Apply(IncrementedFor(ps), remaining, opportunity, args) >= remaining(opportunity)
    ensures ToSet(ps) !! ToSet(Positions(args.orderItems)) ==>
              Apply(IncrementedFor(ps), remaining, opportunity, args) == remaining(opportunity)
    ensures Apply(IncrementedFor(ps), remaining, opportunity, args) <= remaining(opportunity) + |ToSet(ps)|
  {
    IntersectionLength(ps, Positions(args.orderItems));
    var common := ToSet(ps) * ToSet(Positions(args.orderItems));
    if ToSet(ps) !! ToSet(Positions(args.orderItems)) {
      assert common == {};
    }
    assert common <= ToSet(ps);
    SubsetCardinality(common, ToSet(ps));
  }

  lemma SubsetCardinality(a: set<int>, b: set<int>)
    requires a <= b
    ensures |a| <= |b|
  {
    assert b == a + (b - a);
  }

  /** The decision table of which stage is expected to consume capacity: C1 when
      anonymous leasing is implemented, else C2 when named leasing is, else B. */
  function DecrementingStage(features: Features): Stage {
    if features.anonymousLeasing then C1
    else if features.namedLeasing then C2
    else Book
  }

  /** Rule to expect after C1. */
  function AfterC1(isExpectedToSucceed: bool, features: Features): (r: CapacityRule)
    ensures r == Decremented <==> isExpectedToSucceed && DecrementingStage(features) == C1
    ensures r != Decremented ==> r == Unchanged
  {
    if isExpectedToSucceed && features.anonymousLeasing then Decremented else Unchanged
  }

  /** Rule to expect after C2. */
  function AfterC2(isExpectedToSucceed: bool, features: Features): (r: CapacityRule)
    ensures r == Decremented <==> isExpectedToSucceed && DecrementingStage(features) == C2
    ensures r != Decremented ==> r == Unchanged
  {
    if isExpectedToSucceed && (!features.anonymousLeasing && features.namedLeasing)
    then Decremented else Unchanged
  }

  /** Rule to expect after B. */
  function AfterBook(isExpectedToSucceed: bool, features: Features): (r: CapacityRule)
    ensures r == Decremented <==> isExpectedToSucceed && DecrementingStage(features) == Book
    ensures r != Decremented ==> r == Unchanged
  {
    if isExpectedToSucceed && (!features.anonymousLeasing && !features.namedLeasing)
    then Decremented else Unchanged
  }

  function RuleAfter(stage: Stage, isExpectedToSucceed: bool, features: Features): CapacityRule {
    match stage
    case C1 => AfterC1(isExpectedToSucceed, features)
    case C2 => AfterC2(isExpectedToSucceed, features)
    case Book => AfterBook(isExpectedToSucceed, features)
  }

  /** Over a successful flow, exactly one of C1, C2 and B is expected to
      decrement capacity, whatever the leasing flags; over a failing flow none
      is, and all three expect the capacity unchanged. */
  lemma ExactlyOneStageDecrements(features: Features)
    ensures |set s: Stage | RuleAfter(s, true, features) == Decremented| == 1
    ensures forall s: Stage :: RuleAfter(s, false, features) == Unchanged
  {
    var d := set s: Stage | RuleAfter(s, true, features) == Decremented;
    assert d == {DecrementingStage(features)} by {
      forall s: Stage ensures s in d <==> s == DecrementingStage(features) {
      }
    }
  }
}
