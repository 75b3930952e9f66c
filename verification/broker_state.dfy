/** The small pure part of the broker's process-wide state: the locked
    opportunity ids per test dataset and the validator worker pool slot. The
    rest of that state (feeds, listeners, caches) is not part of this model.
    The state is passed explicitly; each operation returns the new state. */
module BrokerState {
  import opened Wrappers

  /** `P` is the type of the validator worker pool, which is not modelled. */
  datatype State<P> = State(lockedOpportunityIdsByTestDataset: map<string, set<string>>,
                            validatorWorkerPool: Option<P>)

  /** The state at start-up: no dataset has locked ids, no pool is set. */
  function Initial<P>(): State<P> {
    State(map[], None)
  }

  /** `x` is locked in some test dataset. */
  ghost predicate IsLocked(m: map<string, set<string>>, x: string) {
    exists d :: d in m && x in m[d]
  }

  /** `getLockedOpportunityIdsInTestDataset`: the locked set of dataset `d`,
      created empty on first use. Returns the new state and the set. */
  function GetLockedOpportunityIdsInTestDataset<P>(st: State<P>, d: string): (r: (State<P>, set<string>))
    ensures d in r.0.lockedOpportunityIdsByTestDataset
    ensures r.1 == r.0.lockedOpportunityIdsByTestDataset[d]
    ensures r.0.lockedOpportunityIdsByTestDataset.Keys == st.lockedOpportunityIdsByTestDataset.Keys + {d}
    ensures forall k :: k in st.lockedOpportunityIdsByTestDataset ==>
              r.0.lockedOpportunityIdsByTestDataset[k] == st.lockedOpportunityIdsByTestDataset[k]
    ensures d !in st.lockedOpportunityIdsByTestDataset ==> r.1 == {}
    ensures d in st.lockedOpportunityIdsByTestDataset ==> r.0 == st
    ensures r.0.validatorWorkerPool == st.validatorWorkerPool
  {
    var m := st.lockedOpportunityIdsByTestDataset;
    var m' := if d !in m then m[d := {}] else m;
    (st.(lockedOpportunityIdsByTestDataset := m'), m'[d])
  }

  /** Asking twice for the same dataset changes nothing the second time, and
      asking never changes which ids are locked. */
  lemma GetLockedIsIdempotent<P>(st: State<P>, d: string)
    ensures var (st1, s1) := GetLockedOpportunityIdsInTestDataset(st, d);
            GetLockedOpportunityIdsInTestDataset(st1, d) == (st1, s1)
    ensures var st1 := GetLockedOpportunityIdsInTestDataset(st, d).0;
            forall x :: IsLocked(st1.lockedOpportunityIdsByTestDataset, x) <==>
                        IsLocked(st.lockedOpportunityIdsByTestDataset, x)
  {
    var st1 := GetLockedOpportunityIdsInTestDataset(st, d).0;
    forall x | IsLocked(st1.lockedOpportunityIdsByTestDataset, x)
      ensures IsLocked(st.lockedOpportunityIdsByTestDataset, x)
    {
      var e :| e in st1.lockedOpportunityIdsByTestDataset && x in st1.lockedOpportunityIdsByTestDataset[e];
      assert e in st.lockedOpportunityIdsByTestDataset;
    }
  }

  /** `getAllLockedOpportunityIds`: the union of the locked sets of every test
      dataset. */
  method GetAllLockedOpportunityIds<P>(st: State<P>) returns (r: set<string>)
    ensures forall x :: x in r <==> IsLocked(st.lockedOpportunityIdsByTestDataset, x)
  {
    var m := st.lockedOpportunityIdsByTestDataset;
    r := {};
    var todo := m.Keys;
    while todo != {}
      invariant todo <= m.Keys
      invariant forall x :: x in r <==> exists d :: d in m.Keys - todo && x in m[d]
      decreases todo
    {
      var d :| d in todo;
      r := r + m[d];
      todo := todo - {d};
    }
  }

  /** `setGlobalValidatorWorkerPool`. */
  function SetGlobalValidatorWorkerPool<P>(st: State<P>, pool: P): (r: State<P>)
    ensures r.lockedOpportunityIdsByTestDataset == st.lockedOpportunityIdsByTestDataset
    ensures GetGlobalValidatorWorkerPool(r) == Some(pool)
  {
    st.(validatorWorkerPool := Some(pool))
  }

  /** `getGlobalValidatorWorkerPool`; `None` stands for the initial `null`. */
  function GetGlobalValidatorWorkerPool<P>(st: State<P>): (r: Option<P>)
    ensures st == Initial() ==> r.None?
    ensures r.Some? <==> st.validatorWorkerPool.Some?
    ensures r.Some? ==> r.value == st.validatorWorkerPool.value
  {
    st.validatorWorkerPool
  }

  /** The calls the module's callers can make on the state. */
  datatype Call<P> = SetPool(pool: P) | GetLocked(dataset: string)

  function Step<P>(st: State<P>, c: Call<P>): State<P> {
    match c
    case SetPool(p) => SetGlobalValidatorWorkerPool(st, p)
    case GetLocked(d) => GetLockedOpportunityIdsInTestDataset(st, d).0
  }

  /** The state after a sequence of calls, starting from `st`. */
  function Run<P>(st: State<P>, calls: seq<Call<P>>): State<P>
    decreases |calls|
  {
    if |calls| == 0 then st else Step(Run(st, calls[..|calls| - 1]), calls[|calls| - 1])
  }

  /** The pool passed by the last `SetPool` call, if any. */
  function LastPool<P>(calls: seq<Call<P>>): Option<P>
    decreases |calls|
  {
    if |calls| == 0 then None
    else if calls[|calls| - 1].SetPool? then Some(calls[|calls| - 1].pool)
    else LastPool(calls[..|calls| - 1])
  }

  /** The datasets named by the `GetLocked` calls. */
  function Datasets<P>(calls: seq<Call<P>>): set<string>
    decreases |calls|
  {
    if |calls| == 0 then {}
    else Datasets(calls[..|calls| - 1])
         + (if calls[|calls| - 1].GetLocked? then {calls[|calls| - 1].dataset} else {})
  }

  /** From start-up, the pool getter returns the value most recently set, or
      `null` if none was, and the locked map holds exactly the datasets asked
      for. */
  lemma {:induction false} RunFromInitial<P>(calls: seq<Call<P>>)
    ensures GetGlobalValidatorWorkerPool(Run(Initial<P>(), calls)) == LastPool(calls)
    ensures Run(Initial<P>(), calls).lockedOpportunityIdsByTestDataset.Keys == Datasets(calls)
    decreases |calls|
  {
    if |calls| > 0 {
      RunFromInitial(calls[..|calls| - 1]);
    }
  }
}
