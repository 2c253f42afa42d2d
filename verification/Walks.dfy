/** The fuzzing oracle: a budgeted, early-exiting walk of the call tree. */
module FuzzOracle {
  import opened Wrappers
  import opened Calls

  class OracleBudget {
    var depth: nat
    var calls: nat

    constructor ()
      ensures depth == 0 && calls == 0
    {
      depth, calls := 0, 0;
    }

    method Count() returns (r: Verdict)
      modifies this`calls
      ensures calls == if old(calls) == U32_MAX then old(calls) else old(calls) + 1
      ensures r == if old(calls) < MAX_NESTED_CALLS then Ok else Err(TooManyCalls)
    {
      if calls == U32_MAX { return Err(TooManyCalls); }
      calls := calls + 1;
      return if calls > MAX_NESTED_CALLS then Err(TooManyCalls) else Ok;
    }

    method Enter() returns (r: Verdict)
      modifies this`depth
      ensures depth == if old(depth) == U32_MAX then old(depth) else old(depth) + 1
      ensures r == if old(depth) < MAX_NESTED_LEVELS then Ok else Err(TooDeep)
    {
      if depth == U32_MAX { return Err(TooDeep); }
      depth := depth + 1;
      return if depth > MAX_NESTED_LEVELS then Err(TooDeep) else Ok;
    }

    /** The subtraction is unchecked in the source: the precondition is that it cannot underflow. */
    method Leave()
      requires 0 < depth
      modifies this`depth
      ensures depth == old(depth) - 1
    {
      depth := depth - 1;
    }

    /** Depth is restored by every outcome but TooDeep, which leaves exactly one level open. */
    twostate predicate Settled(r: Verdict, outcome: Scanned)
      reads this
    {
      && r == outcome.verdict
      && calls == outcome.calls
      && depth == old(depth) + (if r == Err(TooDeep) then 1 else 0)
    }
  }

  method OracleWalk(origin: Option<Origin>, call: RuntimeCall, budget: OracleBudget, tainted: bool) returns (r: Verdict)
    requires budget.depth <= MAX_NESTED_LEVELS
    modifies budget
    ensures budget.Settled(r, Scan(Preorder(call, origin, tainted, old(budget.depth)), old(budget.calls)))
    decreases call, 2
  {
    hide Scan, Preorder, PreorderAll;
    ScanNode(call, origin, tainted, budget.depth, budget.calls);
    r := budget.Count();
    if r.Err? { return; }
    match call {
      case Leaf(domain) =>
        if domain == Nobody {
          r := Err(NobodyCall);
        } else if domain.IsPrivileged() && tainted {
          r := Err(PrivilegedWrapper);
        } else if domain.AllowedFor(origin) {
          r := Ok;
        } else {
          r := Err(BadOrigin);
        }
      case UtilityBatch(calls) => r := OracleMany(origin, calls, budget, tainted);
      case UtilityBatchAll(calls) => r := OracleMany(origin, calls, budget, tainted);
      case UtilityForceBatch(calls) => r := OracleMany(origin, calls, budget, tainted);
      case UtilityWithWeight(inner) => r := OracleWrapped(origin, inner, budget, tainted);
      case Sudo(inner) => r := OracleWrapped(origin, inner, budget, tainted);
      case Proxy(inner) => r := OracleWrapped(origin, inner, budget, true);
      case ProxyAnnounced(inner) => r := OracleWrapped(origin, inner, budget, true);
      case MultisigAsMulti(inner) => r := OracleWrapped(origin, inner, budget, true);
      case MultisigAsMultiThreshold1(inner) => r := OracleWrapped(origin, inner, budget, true);
      case MultisigApproveAsMulti => r := Ok;
      case UtilityDispatchAs(_) => r := Err(DispatchAsDenied);
      case UtilityAsDerivative(_) => r := Err(DispatchAsDenied);
      case Scheduler(captured, inner) =>
        if !ValuesOrigin(captured) {
          r := Err(SchedulerDenied);
        } else {
          r := OracleWrapped(Some(captured), inner, budget, tainted);
        }
    }
  }

  method OracleMany(origin: Option<Origin>, calls: seq<RuntimeCall>, budget: OracleBudget,
                    tainted: bool) returns (r: Verdict)
    requires budget.depth <= MAX_NESTED_LEVELS
    modifies budget
    ensures budget.Settled(r, if old(budget.depth) < MAX_NESTED_LEVELS
                              then Scan(PreorderAll(calls, origin, tainted, old(budget.depth) + 1), old(budget.calls))
                              else Scanned(Err(TooDeep), old(budget.calls)))
    decreases calls, 1
  {
    hide Scan, Preorder, PreorderAll;
    ghost var d, c := budget.depth, budget.calls;
    r := budget.Enter();
    if r.Err? { return; }
    ScanEnds(calls, origin, tainted, d + 1, c);
    for i := 0 to |calls|
      invariant budget.depth == d + 1
      invariant r == Ok
      invariant Scan(PreorderAll(calls, origin, tainted, d + 1), c) ==
                Scan(PreorderAll(calls[i..], origin, tainted, d + 1), budget.calls)
    {
      ScanSibling(calls, i, origin, tainted, d + 1, budget.calls);
      r := OracleWalk(origin, calls[i], budget, tainted);
      if r.Err? {
        budget.Leave();
        return;
      }
    }
    ScanEnds(calls, origin, tainted, d + 1, budget.calls);
    budget.Leave();
  }

  method OracleWrapped(origin: Option<Origin>, call: RuntimeCall, budget: OracleBudget,
                       tainted: bool) returns (r: Verdict)
    requires budget.depth <= MAX_NESTED_LEVELS
    modifies budget
    ensures budget.Settled(r, if old(budget.depth) < MAX_NESTED_LEVELS
                              then Scan(Preorder(call, origin, tainted, old(budget.depth) + 1), old(budget.calls))
                              else Scanned(Err(TooDeep), old(budget.calls)))
    decreases call, 3
  {
    r := budget.Enter();
    if r.Err? { return; }
    r := OracleWalk(origin, call, budget, tainted);
    budget.Leave();
  }

  method OracleValidate(origin: Option<Origin>, call: RuntimeCall) returns (r: Verdict)
    ensures r == Scan(Preorder(call, origin, false, 0), 0).verdict
    ensures r.Ok? <==> IndependentAdmits(origin, call)
  {
    var budget := new OracleBudget();
    r := OracleWalk(origin, call, budget, false);
    WalkSucceedsIff(call, origin, false, 0, 0);
  }

  method OracleValidateBatch(origin: Option<Origin>, calls: seq<RuntimeCall>) returns (r: Verdict)
    ensures r == Scan(PreorderAll(calls, origin, false, 0), 0).verdict
    ensures r.Ok? <==>
            && NodeCountAll(calls) <= MAX_NESTED_CALLS
            && ContainerDepthMax(calls) <= MAX_NESTED_LEVELS
            && AdmissibleAll(calls, false, origin)
  {
    hide Scan, Preorder, PreorderAll;
    BatchSucceedsIff(calls, origin);
    var budget := new OracleBudget();
    r := Ok;
    ScanEnds(calls, origin, false, 0, 0);
    for i := 0 to |calls|
      invariant budget.depth == 0 && r == Ok && fresh(budget)
      invariant Scan(PreorderAll(calls, origin, false, 0), 0) ==
                Scan(PreorderAll(calls[i..], origin, false, 0), budget.calls)
    {
      ScanSibling(calls, i, origin, false, 0, budget.calls);
      r := OracleWalk(origin, calls[i], budget, false);
      if r.Err? { return; }
    }
    ScanEnds(calls, origin, false, 0, budget.calls);
  }
}

/** The production filter. It differs from the oracle in its bookkeeping on failure: a batch
    that fails does not leave its level, and leaving saturates at zero. */
module SafetyFilter {
  import opened Wrappers
  import opened Calls

  class Budget {
    var depth: nat
    var calls: nat

    constructor Root()
      ensures depth == 0 && calls == 0
    {
      depth, calls := 0, 0;
    }

    method Enter() returns (r: Verdict)
      modifies this`depth
      ensures depth == if old(depth) == U32_MAX then old(depth) else old(depth) + 1
      ensures r == if old(depth) < MAX_NESTED_LEVELS then Ok else Err(TooDeep)
    {
      if depth == U32_MAX { return Err(TooDeep); }
      depth := depth + 1;
      return if depth <= MAX_NESTED_LEVELS then Ok else Err(TooDeep);
    }

    method Leave()
      modifies this`depth
      ensures depth == if old(depth) == 0 then 0 else old(depth) - 1
    {
      depth := if depth == 0 then 0 else depth - 1;
    }

    method CountCall() returns (r: Verdict)
      modifies this`calls
      ensures calls == if old(calls) == U32_MAX then old(calls) else old(calls) + 1
      ensures r == if old(calls) < MAX_NESTED_CALLS then Ok else Err(TooManyCalls)
    {
      if calls == U32_MAX { return Err(TooManyCalls); }
      calls := calls + 1;
      return if calls <= MAX_NESTED_CALLS then Ok else Err(TooManyCalls);
    }

    /** Success restores the depth; failure never drops below it, so saturation never bites. */
    twostate predicate Reached(r: Verdict, outcome: Scanned)
      reads this
    {
      && r == outcome.verdict
      && calls == outcome.calls
      && (if r.Ok? then depth == old(depth) else old(depth) <= depth <= MAX_NESTED_LEVELS + 1)
    }
  }

  method ValidateInner(origin: Option<Origin>, call: RuntimeCall, budget: Budget, tainted: bool) returns (r: Verdict)
    requires budget.depth <= MAX_NESTED_LEVELS
    modifies budget
    ensures budget.Reached(r, Scan(Preorder(call, origin, tainted, old(budget.depth)), old(budget.calls)))
    decreases call, 2
  {
    hide Scan, Preorder, PreorderAll;
    ScanNode(call, origin, tainted, budget.depth, budget.calls);
    r := budget.CountCall();
    if r.Err? { return; }
    match call {
      case Leaf(domain) =>
        r := if domain == Nobody then Err(NobodyCall)
             else if domain.IsPrivileged() && tainted then Err(PrivilegedWrapper)
             else if domain.AllowedFor(origin) then Ok
             else Err(BadOrigin);
      case UtilityBatch(calls) => r := ValidateMany(origin, calls, budget, tainted);
      case UtilityBatchAll(calls) => r := ValidateMany(origin, calls, budget, tainted);
      case UtilityForceBatch(calls) => r := ValidateMany(origin, calls, budget, tainted);
      case UtilityWithWeight(inner) => r := ValidateWrapped(origin, inner, budget, tainted);
      case Proxy(inner) => r := ValidateWrapped(origin, inner, budget, true);
      case ProxyAnnounced(inner) => r := ValidateWrapped(origin, inner, budget, true);
      case MultisigAsMulti(inner) => r := ValidateWrapped(origin, inner, budget, true);
      case MultisigAsMultiThreshold1(inner) => r := ValidateWrapped(origin, inner, budget, true);
      case MultisigApproveAsMulti => r := Ok;
      case UtilityDispatchAs(_) => r := Err(DispatchAsDenied);
      case UtilityAsDerivative(_) => r := Err(DispatchAsDenied);
      case Scheduler(captured, inner) =>
        if !ValuesOrigin(captured) { return Err(SchedulerDenied); }
        r := ValidateWrapped(Some(captured), inner, budget, tainted);
      case Sudo(inner) => r := ValidateWrapped(origin, inner, budget, tainted);
    }
  }

  method ValidateMany(origin: Option<Origin>, calls: seq<RuntimeCall>, budget: Budget,
                      tainted: bool) returns (r: Verdict)
    requires budget.depth <= MAX_NESTED_LEVELS
    modifies budget
    ensures budget.Reached(r, if old(budget.depth) < MAX_NESTED_LEVELS
                              then Scan(PreorderAll(calls, origin, tainted, old(budget.depth) + 1), old(budget.calls))
                              else Scanned(Err(TooDeep), old(budget.calls)))
    decreases calls, 1
  {
    hide Scan, Preorder, PreorderAll;
    ghost var d, c := budget.depth, budget.calls;
    r := budget.Enter();
    if r.Err? { return; }
    ScanEnds(calls, origin, tainted, d + 1, c);
    for i := 0 to |calls|
      invariant budget.depth == d + 1
      invariant r == Ok
      invariant Scan(PreorderAll(calls, origin, tainted, d + 1), c) ==
                Scan(PreorderAll(calls[i..], origin, tainted, d + 1), budget.calls)
    {
      ScanSibling(calls, i, origin, tainted, d + 1, budget.calls);
      r := ValidateInner(origin, calls[i], budget, tainted);
      if r.Err? { return; }
    }
    ScanEnds(calls, origin, tainted, d + 1, budget.calls);
    budget.Leave();
  }

  method ValidateWrapped(origin: Option<Origin>, call: RuntimeCall, budget: Budget, tainted: bool) returns (r: Verdict)
    requires budget.depth <= MAX_NESTED_LEVELS
    modifies budget
    ensures budget.Reached(r, if old(budget.depth) < MAX_NESTED_LEVELS
                              then Scan(Preorder(call, origin, tainted, old(budget.depth) + 1), old(budget.calls))
                              else Scanned(Err(TooDeep), old(budget.calls)))
    decreases call, 3
  {
    r := budget.Enter();
    if r.Err? { return; }
    r := ValidateInner(origin, call, budget, tainted);
    budget.Leave();
  }

  method Validate(origin: Option<Origin>, call: RuntimeCall) returns (r: Verdict)
    ensures r == Scan(Preorder(call, origin, false, 0), 0).verdict
    ensures r.Ok? <==> IndependentAdmits(origin, call)
    ensures r.Ok? <==>
            && NodeCount(call) <= 16 && ContainerDepth(call) <= 4
            && !ContainsDispatchAs(call) && !SchedulesOtherOrigin(call) && !ContainsNobody(call)
            && !PrivilegedBelowWrapper(call, false) && LeavesOwned(call, origin)
    ensures r.Ok? && origin.None? ==> !ContainsUnscopedPrivileged(call, false)
  {
    var budget := new Budget.Root();
    r := ValidateInner(origin, call, budget, false);
    WalkSucceedsIff(call, origin, false, 0, 0);
    AdmissibleIff(call, false, origin);
    if r.Ok? {
      AdmissibleIsSafe(call, false, origin, false);
    }
  }

  /** The two boolean entry points, without and with an origin. */
  method Contains(call: RuntimeCall) returns (admitted: bool)
    ensures admitted <==> IndependentAdmits(None, call)
  {
    var r := Validate(None, call);
    admitted := r.Ok?;
  }

  method ContainsFor(origin: Origin, call: RuntimeCall) returns (admitted: bool)
    ensures admitted <==> IndependentAdmits(Some(origin), call)
  {
    var r := Validate(Some(origin), call);
    admitted := r.Ok?;
  }

  method ValidateBatch(origin: Option<Origin>, calls: seq<RuntimeCall>) returns (r: Verdict)
    ensures r == Scan(PreorderAll(calls, origin, false, 0), 0).verdict
    ensures r.Ok? <==>
            && NodeCountAll(calls) <= MAX_NESTED_CALLS
            && ContainerDepthMax(calls) <= MAX_NESTED_LEVELS
            && AdmissibleAll(calls, false, origin)
  {
    hide Scan, Preorder, PreorderAll;
    BatchSucceedsIff(calls, origin);
    var budget := new Budget.Root();
    r := Ok;
    ScanEnds(calls, origin, false, 0, 0);
    for i := 0 to |calls|
      invariant budget.depth == 0 && r == Ok && fresh(budget)
      invariant Scan(PreorderAll(calls, origin, false, 0), 0) ==
                Scan(PreorderAll(calls[i..], origin, false, 0), budget.calls)
    {
      ScanSibling(calls, i, origin, false, 0, budget.calls);
      r := ValidateInner(origin, calls[i], budget, false);
      if r.Err? { return; }
    }
    ScanEnds(calls, origin, false, 0, budget.calls);
  }
}

/** The differential fuzz target: every comparison it makes holds for every input. */
module WrapperDifferential {
  import opened Wrappers
  import opened Calls
  import FuzzOracle
  import SafetyFilter

  /** What the target computes for one top-level call, and the comparisons it makes. */
  method AgreesOnCall(origin: Option<Origin>, call: RuntimeCall)
    returns (filter: Verdict, oracle: Verdict, contained: bool, unsigned: Verdict)
    ensures filter == VerdictOn(call, origin) && unsigned == VerdictOn(call, None)
    ensures filter.Ok? <==> oracle.Ok?
    ensures filter.Err? && oracle.Err? ==> filter.error == oracle.error
    ensures filter.Ok? <==> IndependentAdmits(origin, call)
    ensures contained <==> filter.Ok?
    ensures unsigned.Ok? ==> !ContainsNobody(call) && !ContainsUnscopedPrivileged(call, false)
  {
    filter := SafetyFilter.Validate(origin, call);
    oracle := FuzzOracle.OracleValidate(origin, call);
    match origin {
      case None => contained := SafetyFilter.Contains(call);
      case Some(o) => contained := SafetyFilter.ContainsFor(o, call);
    }
    unsigned := SafetyFilter.Validate(None, call);
  }

  /** The whole case: every call on its own, then all of them on one budget. */
  method AssertWrapperCase(origin: Option<Origin>, calls: seq<RuntimeCall>)
    returns (filters: seq<Verdict>, batch: Verdict, oracleBatch: Verdict)
    ensures |filters| == |calls|
    ensures forall i :: 0 <= i < |calls| ==>
              filters[i] == VerdictOn(calls[i], origin) && (filters[i].Ok? <==> IndependentAdmits(origin, calls[i]))
    ensures batch.Ok? <==> oracleBatch.Ok?
    ensures batch.Ok? <==>
            && NodeCountAll(calls) <= MAX_NESTED_CALLS
            && ContainerDepthMax(calls) <= MAX_NESTED_LEVELS
            && AdmissibleAll(calls, false, origin)
  {
    hide VerdictOn, IndependentAdmits;
    filters := [];
    for i := 0 to |calls|
      invariant |filters| == i
      invariant forall j :: 0 <= j < i ==>
                  filters[j] == VerdictOn(calls[j], origin) && (filters[j].Ok? <==> IndependentAdmits(origin, calls[j]))
    {
      var filter, oracle, contained, unsigned := AgreesOnCall(origin, calls[i]);
      filters := filters + [filter];
    }
    batch := SafetyFilter.ValidateBatch(origin, calls);
    oracleBatch := FuzzOracle.OracleValidateBatch(origin, calls);
  }
}
