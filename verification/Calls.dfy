/** The call tree that the nested-call filter inspects, and the closed tables it is judged by. */
module Calls {
  import opened Wrappers

  datatype Origin =
    | FutarchyParam | FutarchyTreasury | FutarchyCode | FutarchyMeta
    | ConstitutionalValues | OracleResolution | GuardianHold | EmergencyPlaybook

  datatype CallDomain =
    | Public | Nobody | Param | Treasury | Code | Meta
    | ConstitutionalValues | OracleResolution | GuardianHold | EmergencyPlaybook | InternalRoot
  {
    predicate IsPrivileged() {
      !Public? && !Nobody?
    }

    predicate AllowedFor(origin: Option<Origin>) {
      match this
      case Public => true
      case Nobody => false
      case InternalRoot => false
      case Param => origin == Some(Origin.FutarchyParam)
      case Treasury => origin == Some(Origin.FutarchyTreasury)
      case Code => origin == Some(Origin.FutarchyCode)
      case Meta => origin == Some(Origin.FutarchyMeta)
      case ConstitutionalValues => origin == Some(Origin.ConstitutionalValues)
      case OracleResolution => origin == Some(Origin.OracleResolution)
      case GuardianHold => origin == Some(Origin.GuardianHold)
      case EmergencyPlaybook => origin == Some(Origin.EmergencyPlaybook)
    }
  }

  datatype RuntimeCall =
    | Leaf(domain: CallDomain)
    | UtilityBatch(calls: seq<RuntimeCall>)
    | UtilityBatchAll(calls: seq<RuntimeCall>)
    | UtilityForceBatch(calls: seq<RuntimeCall>)
    | UtilityDispatchAs(inner: RuntimeCall)
    | UtilityAsDerivative(inner: RuntimeCall)
    | UtilityWithWeight(inner: RuntimeCall)
    | Proxy(inner: RuntimeCall)
    | ProxyAnnounced(inner: RuntimeCall)
    | MultisigAsMulti(inner: RuntimeCall)
    | MultisigAsMultiThreshold1(inner: RuntimeCall)
    | MultisigApproveAsMulti
    | Scheduler(captured: Origin, inner: RuntimeCall)
    | Sudo(inner: RuntimeCall)
  {
    predicate IsBatch() {
      UtilityBatch? || UtilityBatchAll? || UtilityForceBatch?
    }

    predicate IsProxyish() {
      Proxy? || ProxyAnnounced? || MultisigAsMulti? || MultisigAsMultiThreshold1?
    }

    predicate IsDenied() {
      UtilityDispatchAs? || UtilityAsDerivative?
    }

    predicate IsTerminal() {
      Leaf? || MultisigApproveAsMulti?
    }

    /** The walk descends into this node, spending one nesting level. */
    predicate Enters() {
      !IsTerminal() && !IsDenied()
    }
  }

  /** A scheduler may only capture one of the two values origins. */
  predicate ValuesOrigin(o: Origin) {
    o == Origin.ConstitutionalValues || o == Origin.OracleResolution
  }

  datatype OracleError =
    | NobodyCall | BadOrigin | PrivilegedWrapper | DispatchAsDenied
    | SchedulerDenied | TooDeep | TooManyCalls

  datatype Verdict = Ok | Err(error: OracleError)

  const MAX_NESTED_LEVELS: nat := 4
  const MAX_NESTED_CALLS: nat := 16
  const U32_MAX: nat := 0xFFFF_FFFF

  // ---------- The declarative reading: separately computed tree properties ----------

  function NodeCount(call: RuntimeCall): nat
    decreases call, 1
  {
    match call
    case Leaf(_) => 1
    case UtilityBatch(cs) => 1 + NodeCountAll(cs)
    case UtilityBatchAll(cs) => 1 + NodeCountAll(cs)
    case UtilityForceBatch(cs) => 1 + NodeCountAll(cs)
    case UtilityDispatchAs(c) => 1 + NodeCount(c)
    case UtilityAsDerivative(c) => 1 + NodeCount(c)
    case UtilityWithWeight(c) => 1 + NodeCount(c)
    case Proxy(c) => 1 + NodeCount(c)
    case ProxyAnnounced(c) => 1 + NodeCount(c)
    case MultisigAsMulti(c) => 1 + NodeCount(c)
    case MultisigAsMultiThreshold1(c) => 1 + NodeCount(c)
    case MultisigApproveAsMulti => 1
    case Scheduler(_, c) => 1 + NodeCount(c)
    case Sudo(c) => 1 + NodeCount(c)
  }

  function NodeCountAll(calls: seq<RuntimeCall>): nat
    decreases calls, 0
  {
    if calls == [] then 0 else NodeCount(calls[0]) + NodeCountAll(calls[1..])
  }

  function ContainerDepth(call: RuntimeCall): nat
    decreases call, 1
  {
    match call
    case Leaf(_) => 0
    case UtilityBatch(cs) => 1 + ContainerDepthMax(cs)
    case UtilityBatchAll(cs) => 1 + ContainerDepthMax(cs)
    case UtilityForceBatch(cs) => 1 + ContainerDepthMax(cs)
    case UtilityDispatchAs(_) => 0
    case UtilityAsDerivative(_) => 0
    case UtilityWithWeight(c) => 1 + ContainerDepth(c)
    case Proxy(c) => 1 + ContainerDepth(c)
    case ProxyAnnounced(c) => 1 + ContainerDepth(c)
    case MultisigAsMulti(c) => 1 + ContainerDepth(c)
    case MultisigAsMultiThreshold1(c) => 1 + ContainerDepth(c)
    case MultisigApproveAsMulti => 0
    case Scheduler(_, c) => 1 + ContainerDepth(c)
    case Sudo(c) => 1 + ContainerDepth(c)
  }

  function ContainerDepthMax(calls: seq<RuntimeCall>): nat
    decreases calls, 0
  {
    if calls == [] then 0 else Max(ContainerDepth(calls[0]), ContainerDepthMax(calls[1..]))
  }

  predicate AdmissibleTree(call: RuntimeCall, underProxyish: bool, origin: Option<Origin>)
    decreases call, 1
  {
    match call
    case Leaf(d) => d != Nobody && !(d.IsPrivileged() && underProxyish) && d.AllowedFor(origin)
    case UtilityBatch(cs) => AdmissibleAll(cs, underProxyish, origin)
    case UtilityBatchAll(cs) => AdmissibleAll(cs, underProxyish, origin)
    case UtilityForceBatch(cs) => AdmissibleAll(cs, underProxyish, origin)
    case UtilityDispatchAs(_) => false
    case UtilityAsDerivative(_) => false
    case UtilityWithWeight(c) => AdmissibleTree(c, underProxyish, origin)
    case Proxy(c) => AdmissibleTree(c, true, origin)
    case ProxyAnnounced(c) => AdmissibleTree(c, true, origin)
    case MultisigAsMulti(c) => AdmissibleTree(c, true, origin)
    case MultisigAsMultiThreshold1(c) => AdmissibleTree(c, true, origin)
    case MultisigApproveAsMulti => true
    case Scheduler(o, c) => ValuesOrigin(o) && AdmissibleTree(c, underProxyish, Some(o))
    case Sudo(c) => AdmissibleTree(c, underProxyish, origin)
  }

  predicate AdmissibleAll(calls: seq<RuntimeCall>, underProxyish: bool, origin: Option<Origin>)
    decreases calls, 0
  {
    calls == [] || (AdmissibleTree(calls[0], underProxyish, origin) && AdmissibleAll(calls[1..], underProxyish, origin))
  }

  predicate IndependentAdmits(origin: Option<Origin>, call: RuntimeCall) {
    && NodeCount(call) <= MAX_NESTED_CALLS
    && ContainerDepth(call) <= MAX_NESTED_LEVELS
    && AdmissibleTree(call, false, origin)
  }

  predicate ContainsNobody(call: RuntimeCall)
    decreases call, 1
  {
    match call
    case Leaf(d) => d == Nobody
    case UtilityBatch(cs) => ContainsNobodyAny(cs)
    case UtilityBatchAll(cs) => ContainsNobodyAny(cs)
    case UtilityForceBatch(cs) => ContainsNobodyAny(cs)
    case UtilityDispatchAs(c) => ContainsNobody(c)
    case UtilityAsDerivative(c) => ContainsNobody(c)
    case UtilityWithWeight(c) => ContainsNobody(c)
    case Proxy(c) => ContainsNobody(c)
    case ProxyAnnounced(c) => ContainsNobody(c)
    case MultisigAsMulti(c) => ContainsNobody(c)
    case MultisigAsMultiThreshold1(c) => ContainsNobody(c)
    case MultisigApproveAsMulti => false
    case Scheduler(_, c) => ContainsNobody(c)
    case Sudo(c) => ContainsNobody(c)
  }

  predicate ContainsNobodyAny(calls: seq<RuntimeCall>)
    decreases calls, 0
  {
    calls != [] && (ContainsNobody(calls[0]) || ContainsNobodyAny(calls[1..]))
  }

  predicate ContainsUnscopedPrivileged(call: RuntimeCall, underScheduler: bool)
    decreases call, 1
  {
    match call
    case Leaf(d) => !underScheduler && d.IsPrivileged()
    case UtilityBatch(cs) => ContainsUnscopedPrivilegedAny(cs, underScheduler)
    case UtilityBatchAll(cs) => ContainsUnscopedPrivilegedAny(cs, underScheduler)
    case UtilityForceBatch(cs) => ContainsUnscopedPrivilegedAny(cs, underScheduler)
    case UtilityDispatchAs(c) => ContainsUnscopedPrivileged(c, underScheduler)
    case UtilityAsDerivative(c) => ContainsUnscopedPrivileged(c, underScheduler)
    case UtilityWithWeight(c) => ContainsUnscopedPrivileged(c, underScheduler)
    case Proxy(c) => ContainsUnscopedPrivileged(c, underScheduler)
    case ProxyAnnounced(c) => ContainsUnscopedPrivileged(c, underScheduler)
    case MultisigAsMulti(c) => ContainsUnscopedPrivileged(c, underScheduler)
    case MultisigAsMultiThreshold1(c) => ContainsUnscopedPrivileged(c, underScheduler)
    case MultisigApproveAsMulti => false
    case Scheduler(_, c) => ContainsUnscopedPrivileged(c, true)
    case Sudo(c) => ContainsUnscopedPrivileged(c, underScheduler)
  }

  predicate ContainsUnscopedPrivilegedAny(calls: seq<RuntimeCall>, underScheduler: bool)
    decreases calls, 0
  {
    calls != [] &&
    (ContainsUnscopedPrivileged(calls[0], underScheduler) || ContainsUnscopedPrivilegedAny(calls[1..], underScheduler))
  }

  // ---------- The operational reading: a scan of the preorder flattening ----------

  /** One node as the walk meets it: effective origin, taint and enclosing depth. */
  datatype Visit = Visit(node: RuntimeCall, origin: Option<Origin>, tainted: bool, depth: nat)

  function Preorder(call: RuntimeCall, origin: Option<Origin>, tainted: bool, depth: nat): seq<Visit>
    decreases call, 2
  {
    [Visit(call, origin, tainted, depth)] + Below(call, origin, tainted, depth + 1)
  }

  /** The flattening of a node's children, each under the origin and taint the node passes down. */
  function Below(call: RuntimeCall, origin: Option<Origin>, tainted: bool, depth: nat): seq<Visit>
    decreases call, 1
  {
    if call.IsTerminal() then []
    else if call.IsBatch() then PreorderAll(call.calls, origin, tainted, depth)
    else
      Preorder(call.inner, if call.Scheduler? then Some(call.captured) else origin, tainted || call.IsProxyish(), depth)
  }

  function PreorderAll(calls: seq<RuntimeCall>, origin: Option<Origin>, tainted: bool, depth: nat): seq<Visit>
    decreases calls, 0
  {
    if calls == [] then []
    else Preorder(calls[0], origin, tainted, depth) + PreorderAll(calls[1..], origin, tainted, depth)
  }

  /** The node's own rule, ignoring both budgets. */
  function OwnRule(v: Visit): Option<OracleError> {
    match v.node
    case Leaf(d) =>
      if d == Nobody then Some(NobodyCall)
      else if d.IsPrivileged() && v.tainted then Some(PrivilegedWrapper)
      else if d.AllowedFor(v.origin) then None
      else Some(BadOrigin)
    case UtilityDispatchAs(_) => Some(DispatchAsDenied)
    case UtilityAsDerivative(_) => Some(DispatchAsDenied)
    case Scheduler(o, _) => if ValuesOrigin(o) then None else Some(SchedulerDenied)
    case _ => None
  }

  /** Count limit first, then the node's own rule, then the depth limit. */
  function Judge(v: Visit, calls: nat): Option<OracleError> {
    if MAX_NESTED_CALLS <= calls then Some(TooManyCalls)
    else if OwnRule(v).Some? then OwnRule(v)
    else if v.node.Enters() && MAX_NESTED_LEVELS <= v.depth then Some(TooDeep)
    else None
  }

  datatype Scanned = Scanned(verdict: Verdict, calls: nat)

  /** Judge visits in order, one counted call each, stopping at the first offence. */
  function Scan(vs: seq<Visit>, calls: nat): Scanned {
    if vs == [] then Scanned(Ok, calls)
    else match Judge(vs[0], calls)
      case Some(e) => Scanned(Err(e), if calls == U32_MAX then calls else calls + 1)
      case None => Scan(vs[1..], calls + 1)
  }

  lemma {:induction false} ScanConcat(a: seq<Visit>, b: seq<Visit>, calls: nat)
    ensures var first := Scan(a, calls);
            Scan(a + b, calls) == if first.verdict.Ok? then Scan(b, first.calls) else first
  {
    if a == [] {
      assert a + b == b;
    } else {
      assert (a + b)[1..] == a[1..] + b;
      if Judge(a[0], calls).None? {
        ScanConcat(a[1..], b, calls + 1);
      }
    }
  }

  /** One node of the walk: it is judged first, and only a clean node is descended into. */
  lemma ScanNode(call: RuntimeCall, origin: Option<Origin>, tainted: bool, depth: nat, calls: nat)
    ensures var offence := Judge(Visit(call, origin, tainted, depth), calls);
            Scan(Preorder(call, origin, tainted, depth), calls) ==
            if offence.Some? then Scanned(Err(offence.value), if calls == U32_MAX then calls else calls + 1)
            else Scan(Below(call, origin, tainted, depth + 1), calls + 1)
    ensures call.IsTerminal() ==> Scan(Below(call, origin, tainted, depth + 1), calls + 1) == Scanned(Ok, calls + 1)
  {
    hide Judge;
    assert Preorder(call, origin, tainted, depth)[1..] == Below(call, origin, tainted, depth + 1);
  }

  /** One step along a list of siblings. */
  lemma ScanSibling(calls: seq<RuntimeCall>, i: nat, origin: Option<Origin>, tainted: bool, depth: nat, count: nat)
    requires i < |calls|
    ensures var first := Scan(Preorder(calls[i], origin, tainted, depth), count);
            Scan(PreorderAll(calls[i..], origin, tainted, depth), count) ==
            if first.verdict.Ok? then Scan(PreorderAll(calls[i + 1..], origin, tainted, depth), first.calls) else first
  {
    hide Preorder, Scan;
    assert calls[i..][0] == calls[i] && calls[i..][1..] == calls[i + 1..];
    ScanConcat(Preorder(calls[i], origin, tainted, depth), PreorderAll(calls[i + 1..], origin, tainted, depth), count);
  }

  lemma ScanEnds(calls: seq<RuntimeCall>, origin: Option<Origin>, tainted: bool, depth: nat, count: nat)
    ensures PreorderAll(calls[0..], origin, tainted, depth) == PreorderAll(calls, origin, tainted, depth)
    ensures Scan(PreorderAll(calls[|calls|..], origin, tainted, depth), count) == Scanned(Ok, count)
  {
    assert calls[0..] == calls && calls[|calls|..] == [];
  }

  /** Visit k breaks a rule with error e, and no earlier visit breaks any. */
  ghost predicate OffendsFirst(vs: seq<Visit>, calls: nat, k: nat, e: OracleError) {
    k < |vs| && Judge(vs[k], calls + k) == Some(e) && NoOffence(vs[..k], calls)
  }

  ghost predicate NoOffence(vs: seq<Visit>, calls: nat) {
    forall j: nat :: j < |vs| ==> Judge(vs[j], calls + j).None?
  }

  lemma {:induction false} OkHasNoOffence(vs: seq<Visit>, calls: nat)
    ensures Scan(vs, calls).verdict.Ok? <==> NoOffence(vs, calls)
    ensures Scan(vs, calls).verdict.Ok? ==> Scan(vs, calls).calls == calls + |vs|
  {
    if vs != [] && Judge(vs[0], calls).None? {
      var rest := vs[1..];
      OkHasNoOffence(rest, calls + 1);
      if NoOffence(vs, calls) {
        forall j: nat | j < |rest| ensures Judge(rest[j], calls + 1 + j).None? {
          assert Judge(vs[j + 1], calls + (j + 1)).None?;
        }
      }
      if NoOffence(rest, calls + 1) {
        forall j: nat | j < |vs| ensures Judge(vs[j], calls + j).None? {
          if j > 0 { assert Judge(rest[j - 1], calls + 1 + (j - 1)).None?; }
        }
      }
    }
  }

  /** A failing scan reports the first offence, having counted every visit up to and including it. */
  lemma ErrorIsFirstOffence(vs: seq<Visit>, calls: nat, k: nat, e: OracleError)
    requires OffendsFirst(vs, calls, k, e)
    ensures Scan(vs, calls) == Scanned(Err(e), if calls + k == U32_MAX then calls + k else calls + k + 1)
  {
    OkHasNoOffence(vs[..k], calls);
    ScanConcat(vs[..k], vs[k..], calls);
    assert vs == vs[..k] + vs[k..];
  }

  /** Conversely, every reported error has a first offending visit. */
  lemma {:induction false} ErrorHasFirstOffence(vs: seq<Visit>, calls: nat) returns (k: nat)
    requires Scan(vs, calls).verdict.Err?
    ensures OffendsFirst(vs, calls, k, Scan(vs, calls).verdict.error)
  {
    if Judge(vs[0], calls).Some? {
      k := 0;
    } else {
      var rest := vs[1..];
      var i := ErrorHasFirstOffence(rest, calls + 1);
      k := i + 1;
      assert rest[i] == vs[k];
      forall j: nat | j < |vs[..k]| ensures Judge(vs[..k][j], calls + j).None? {
        if j > 0 {
          assert Judge(rest[..i][j - 1], calls + 1 + (j - 1)).None?;
        }
      }
    }
  }

  // ---------- The two readings agree ----------

  predicate Clean(vs: seq<Visit>) {
    forall k :: 0 <= k < |vs| ==> OwnRule(vs[k]).None?
  }

  predicate Shallow(vs: seq<Visit>) {
    forall k :: 0 <= k < |vs| ==> vs[k].node.Enters() ==> vs[k].depth < MAX_NESTED_LEVELS
  }

  lemma SplitCleanShallow(a: seq<Visit>, b: seq<Visit>)
    ensures Clean(a + b) <==> Clean(a) && Clean(b)
    ensures Shallow(a + b) <==> Shallow(a) && Shallow(b)
  {
    var ab := a + b;
    assert forall k :: 0 <= k < |a| ==> a[k] == ab[k];
    assert forall k :: 0 <= k < |b| ==> b[k] == ab[|a| + k];
    assert forall k :: |a| <= k < |ab| ==> ab[k] == b[k - |a|];
  }

  lemma NodeCleanShallow(v: Visit)
    ensures Clean([v]) <==> OwnRule(v).None?
    ensures Shallow([v]) <==> (v.node.Enters() ==> v.depth < MAX_NESTED_LEVELS)
    ensures v.node.IsBatch() || v.node.UtilityWithWeight? || v.node.Sudo? || v.node.IsProxyish() ==> OwnRule(v).None?
    ensures v.node.IsTerminal() ==> (OwnRule(v).None? <==> AdmissibleTree(v.node, v.tainted, v.origin))
    ensures v.node.IsDenied() ==> OwnRule(v).Some?
    ensures v.node.Scheduler? ==> (OwnRule(v).None? <==> ValuesOrigin(v.node.captured))
  {
    assert [v][0] == v;
  }

  /** What the flattening says about a tree: its size, its admissibility, its depth. */
  lemma {:induction false} PreorderMeaning(call: RuntimeCall, origin: Option<Origin>, tainted: bool, depth: nat)
    ensures |Preorder(call, origin, tainted, depth)| == NodeCount(call)
    ensures Clean(Preorder(call, origin, tainted, depth)) <==> AdmissibleTree(call, tainted, origin)
    ensures depth <= MAX_NESTED_LEVELS && AdmissibleTree(call, tainted, origin) ==>
              (Shallow(Preorder(call, origin, tainted, depth)) <==> depth + ContainerDepth(call) <= MAX_NESTED_LEVELS)
    decreases call, 1
  {
    hide Clean, Shallow, Preorder, PreorderAll, NodeCount, NodeCountAll, AdmissibleTree, AdmissibleAll, ContainerDepth,
         ContainerDepthMax;
    if call.IsTerminal() {
      TerminalMeans(call, origin, tainted, depth);
    } else if call.IsBatch() {
      PreorderAllMeaning(call.calls, origin, tainted, depth + 1);
      BatchMeans(call, origin, tainted, depth);
    } else {
      PreorderMeaning(call.inner, if call.Scheduler? then Some(call.captured) else origin,
                      tainted || call.IsProxyish(), depth + 1);
      WrappedMeans(call, origin, tainted, depth);
    }
  }

  /** A flattening has this many visits, this verdict on their own rules and this container depth. */
  ghost predicate Means(vs: seq<Visit>, count: nat, admissible: bool, container: nat, depth: nat) {
    && |vs| == count && (Clean(vs) <==> admissible)
    && (depth <= MAX_NESTED_LEVELS && admissible ==> (Shallow(vs) <==> depth + container <= MAX_NESTED_LEVELS))
  }

  lemma TerminalMeans(call: RuntimeCall, origin: Option<Origin>, tainted: bool, depth: nat)
    requires call.IsTerminal()
    ensures Means(Preorder(call, origin, tainted, depth), NodeCount(call), AdmissibleTree(call, tainted, origin),
                  ContainerDepth(call), depth)
  {
    var here := Visit(call, origin, tainted, depth);
    NodeCleanShallow(here);
    assert Preorder(call, origin, tainted, depth) == [here];
    hide Clean, Shallow, OwnRule;
  }

  lemma BatchMeans(call: RuntimeCall, origin: Option<Origin>, tainted: bool, depth: nat)
    requires call.IsBatch()
    requires Means(PreorderAll(call.calls, origin, tainted, depth + 1), NodeCountAll(call.calls),
                   AdmissibleAll(call.calls, tainted, origin), ContainerDepthMax(call.calls), depth + 1)
    ensures Means(Preorder(call, origin, tainted, depth), NodeCount(call), AdmissibleTree(call, tainted, origin),
                  ContainerDepth(call), depth)
  {
    var here := Visit(call, origin, tainted, depth);
    NodeCleanShallow(here);
    SplitCleanShallow([here], PreorderAll(call.calls, origin, tainted, depth + 1));
    assert Preorder(call, origin, tainted, depth) == [here] + PreorderAll(call.calls, origin, tainted, depth + 1);
    hide Clean, Shallow, OwnRule, Preorder, PreorderAll, NodeCountAll, AdmissibleAll, ContainerDepthMax;
  }

  lemma WrappedMeans(call: RuntimeCall, origin: Option<Origin>, tainted: bool, depth: nat)
    requires !call.IsTerminal() && !call.IsBatch()
    requires var inside := if call.Scheduler? then Some(call.captured) else origin;
             var taint := tainted || call.IsProxyish();
             Means(Preorder(call.inner, inside, taint, depth + 1), NodeCount(call.inner),
                   AdmissibleTree(call.inner, taint, inside), ContainerDepth(call.inner), depth + 1)
    ensures Means(Preorder(call, origin, tainted, depth), NodeCount(call), AdmissibleTree(call, tainted, origin),
                  ContainerDepth(call), depth)
  {
    var here := Visit(call, origin, tainted, depth);
    var inside := if call.Scheduler? then Some(call.captured) else origin;
    var below := Preorder(call.inner, inside, tainted || call.IsProxyish(), depth + 1);
    NodeCleanShallow(here);
    SplitCleanShallow([here], below);
    assert Preorder(call, origin, tainted, depth) == [here] + below;
    hide Clean, Shallow, OwnRule, Preorder, PreorderAll;
  }

  lemma {:induction false} PreorderAllMeaning(calls: seq<RuntimeCall>, origin: Option<Origin>, tainted: bool,
                                              depth: nat)
    ensures |PreorderAll(calls, origin, tainted, depth)| == NodeCountAll(calls)
    ensures Clean(PreorderAll(calls, origin, tainted, depth)) <==> AdmissibleAll(calls, tainted, origin)
    ensures depth <= MAX_NESTED_LEVELS && AdmissibleAll(calls, tainted, origin) ==>
              (Shallow(PreorderAll(calls, origin, tainted, depth)) <==>
               depth + ContainerDepthMax(calls) <= MAX_NESTED_LEVELS)
    decreases calls, 0
  {
    if calls != [] {
      PreorderMeaning(calls[0], origin, tainted, depth);
      PreorderAllMeaning(calls[1..], origin, tainted, depth);
      SplitCleanShallow(Preorder(calls[0], origin, tainted, depth), PreorderAll(calls[1..], origin, tainted, depth));
    }
  }

  lemma ScanOkIff(vs: seq<Visit>, calls: nat)
    ensures Scan(vs, calls).verdict.Ok? <==> (vs == [] || calls + |vs| <= MAX_NESTED_CALLS) && Clean(vs) && Shallow(vs)
    ensures Scan(vs, calls).verdict.Ok? ==> Scan(vs, calls).calls == calls + |vs|
  {
    OkHasNoOffence(vs, calls);
    if vs != [] && NoOffence(vs, calls) {
      assert Judge(vs[|vs| - 1], calls + (|vs| - 1)).None?;
      forall k | 0 <= k < |vs|
        ensures OwnRule(vs[k]).None? && (vs[k].node.Enters() ==> vs[k].depth < MAX_NESTED_LEVELS)
      {
        assert Judge(vs[k], calls + k).None?;
      }
    }
  }

  /** From any budget whose depth is within the limit, the walk of one tree succeeds exactly
      when the remaining budget covers the tree and the tree is admissible. */
  lemma WalkSucceedsIff(call: RuntimeCall, origin: Option<Origin>, tainted: bool, depth: nat, calls: nat)
    requires depth <= MAX_NESTED_LEVELS
    ensures Scan(Preorder(call, origin, tainted, depth), calls).verdict.Ok? <==>
            && calls + NodeCount(call) <= MAX_NESTED_CALLS
            && depth + ContainerDepth(call) <= MAX_NESTED_LEVELS
            && AdmissibleTree(call, tainted, origin)
    ensures Scan(Preorder(call, origin, tainted, depth), calls).verdict.Ok? ==>
            Scan(Preorder(call, origin, tainted, depth), calls).calls == calls + NodeCount(call)
  {
    PreorderMeaning(call, origin, tainted, depth);
    ScanOkIff(Preorder(call, origin, tainted, depth), calls);
  }

  /** A shared-budget batch succeeds exactly when the counts sum within the limit, the deepest
      call is within the limit, and each call is admissible on its own. */
  lemma BatchSucceedsIff(calls: seq<RuntimeCall>, origin: Option<Origin>)
    ensures Scan(PreorderAll(calls, origin, false, 0), 0).verdict.Ok? <==>
            && NodeCountAll(calls) <= MAX_NESTED_CALLS
            && ContainerDepthMax(calls) <= MAX_NESTED_LEVELS
            && AdmissibleAll(calls, false, origin)
  {
    PreorderAllMeaning(calls, origin, false, 0);
    ScanOkIff(PreorderAll(calls, origin, false, 0), 0);
  }

  // ---------- What admission means, wrapper by wrapper ----------

  /** A privileged leaf stands below a proxy or a multisig, schedulers notwithstanding. */
  predicate PrivilegedBelowWrapper(call: RuntimeCall, below: bool)
    decreases call, 1
  {
    match call
    case Leaf(d) => below && d != Public && d != Nobody
    case UtilityBatch(cs) => PrivilegedBelowWrapperAny(cs, below)
    case UtilityBatchAll(cs) => PrivilegedBelowWrapperAny(cs, below)
    case UtilityForceBatch(cs) => PrivilegedBelowWrapperAny(cs, below)
    case UtilityDispatchAs(c) => PrivilegedBelowWrapper(c, below)
    case UtilityAsDerivative(c) => PrivilegedBelowWrapper(c, below)
    case UtilityWithWeight(c) => PrivilegedBelowWrapper(c, below)
    case Proxy(c) => PrivilegedBelowWrapper(c, true)
    case ProxyAnnounced(c) => PrivilegedBelowWrapper(c, true)
    case MultisigAsMulti(c) => PrivilegedBelowWrapper(c, true)
    case MultisigAsMultiThreshold1(c) => PrivilegedBelowWrapper(c, true)
    case MultisigApproveAsMulti => false
    case Scheduler(_, c) => PrivilegedBelowWrapper(c, below)
    case Sudo(c) => PrivilegedBelowWrapper(c, below)
  }

  predicate PrivilegedBelowWrapperAny(calls: seq<RuntimeCall>, below: bool)
    decreases calls, 0
  {
    calls != [] && (PrivilegedBelowWrapper(calls[0], below) || PrivilegedBelowWrapperAny(calls[1..], below))
  }

  /** A call would dispatch as somebody else. */
  predicate ContainsDispatchAs(call: RuntimeCall)
    decreases call, 1
  {
    match call
    case Leaf(_) => false
    case UtilityBatch(cs) => ContainsDispatchAsAny(cs)
    case UtilityBatchAll(cs) => ContainsDispatchAsAny(cs)
    case UtilityForceBatch(cs) => ContainsDispatchAsAny(cs)
    case UtilityDispatchAs(_) => true
    case UtilityAsDerivative(_) => true
    case UtilityWithWeight(c) => ContainsDispatchAs(c)
    case Proxy(c) => ContainsDispatchAs(c)
    case ProxyAnnounced(c) => ContainsDispatchAs(c)
    case MultisigAsMulti(c) => ContainsDispatchAs(c)
    case MultisigAsMultiThreshold1(c) => ContainsDispatchAs(c)
    case MultisigApproveAsMulti => false
    case Scheduler(_, c) => ContainsDispatchAs(c)
    case Sudo(c) => ContainsDispatchAs(c)
  }

  predicate ContainsDispatchAsAny(calls: seq<RuntimeCall>)
    decreases calls, 0
  {
    calls != [] && (ContainsDispatchAs(calls[0]) || ContainsDispatchAsAny(calls[1..]))
  }

  /** A scheduler captures an origin other than the two values origins. */
  predicate SchedulesOtherOrigin(call: RuntimeCall)
    decreases call, 1
  {
    match call
    case Leaf(_) => false
    case UtilityBatch(cs) => SchedulesOtherOriginAny(cs)
    case UtilityBatchAll(cs) => SchedulesOtherOriginAny(cs)
    case UtilityForceBatch(cs) => SchedulesOtherOriginAny(cs)
    case UtilityDispatchAs(c) => SchedulesOtherOrigin(c)
    case UtilityAsDerivative(c) => SchedulesOtherOrigin(c)
    case UtilityWithWeight(c) => SchedulesOtherOrigin(c)
    case Proxy(c) => SchedulesOtherOrigin(c)
    case ProxyAnnounced(c) => SchedulesOtherOrigin(c)
    case MultisigAsMulti(c) => SchedulesOtherOrigin(c)
    case MultisigAsMultiThreshold1(c) => SchedulesOtherOrigin(c)
    case MultisigApproveAsMulti => false
    case Scheduler(o, c) =>
      (o != Origin.ConstitutionalValues && o != Origin.OracleResolution) || SchedulesOtherOrigin(c)
    case Sudo(c) => SchedulesOtherOrigin(c)
  }

  predicate SchedulesOtherOriginAny(calls: seq<RuntimeCall>)
    decreases calls, 0
  {
    calls != [] && (SchedulesOtherOrigin(calls[0]) || SchedulesOtherOriginAny(calls[1..]))
  }

  /** Who may dispatch a domain: for each privileged domain one origin, and for internal root none. */
  predicate Owns(origin: Option<Origin>, d: CallDomain) {
    || d == Public
    || (d == Param && origin == Some(Origin.FutarchyParam))
    || (d == Treasury && origin == Some(Origin.FutarchyTreasury))
    || (d == Code && origin == Some(Origin.FutarchyCode))
    || (d == Meta && origin == Some(Origin.FutarchyMeta))
    || (d == CallDomain.ConstitutionalValues && origin == Some(Origin.ConstitutionalValues))
    || (d == CallDomain.OracleResolution && origin == Some(Origin.OracleResolution))
    || (d == CallDomain.GuardianHold && origin == Some(Origin.GuardianHold))
    || (d == CallDomain.EmergencyPlaybook && origin == Some(Origin.EmergencyPlaybook))
  }

  /** Every leaf but Nobody belongs to the origin it runs under: the nearest scheduler's, or else the given one. */
  predicate LeavesOwned(call: RuntimeCall, origin: Option<Origin>)
    decreases call, 1
  {
    match call
    case Leaf(d) => d == Nobody || Owns(origin, d)
    case UtilityBatch(cs) => LeavesOwnedAll(cs, origin)
    case UtilityBatchAll(cs) => LeavesOwnedAll(cs, origin)
    case UtilityForceBatch(cs) => LeavesOwnedAll(cs, origin)
    case UtilityDispatchAs(c) => LeavesOwned(c, origin)
    case UtilityAsDerivative(c) => LeavesOwned(c, origin)
    case UtilityWithWeight(c) => LeavesOwned(c, origin)
    case Proxy(c) => LeavesOwned(c, origin)
    case ProxyAnnounced(c) => LeavesOwned(c, origin)
    case MultisigAsMulti(c) => LeavesOwned(c, origin)
    case MultisigAsMultiThreshold1(c) => LeavesOwned(c, origin)
    case MultisigApproveAsMulti => true
    case Scheduler(o, c) => LeavesOwned(c, Some(o))
    case Sudo(c) => LeavesOwned(c, origin)
  }

  predicate LeavesOwnedAll(calls: seq<RuntimeCall>, origin: Option<Origin>)
    decreases calls, 0
  {
    calls == [] || (LeavesOwned(calls[0], origin) && LeavesOwnedAll(calls[1..], origin))
  }

  /** A tree is admissible exactly when all five hold of it; each names its wrappers and domains itself. */
  lemma {:induction false} AdmissibleIff(call: RuntimeCall, tainted: bool, origin: Option<Origin>)
    ensures AdmissibleTree(call, tainted, origin) <==>
            && !ContainsDispatchAs(call) && !SchedulesOtherOrigin(call) && !ContainsNobody(call)
            && !PrivilegedBelowWrapper(call, tainted) && LeavesOwned(call, origin)
    decreases call, 1
  {
    match call
    case Leaf(_) =>
    case MultisigApproveAsMulti =>
    case UtilityBatch(cs) => AdmissibleAllIff(cs, tainted, origin);
    case UtilityBatchAll(cs) => AdmissibleAllIff(cs, tainted, origin);
    case UtilityForceBatch(cs) => AdmissibleAllIff(cs, tainted, origin);
    case UtilityDispatchAs(_) =>
    case UtilityAsDerivative(_) =>
    case UtilityWithWeight(c) => AdmissibleIff(c, tainted, origin);
    case Proxy(c) => AdmissibleIff(c, true, origin);
    case ProxyAnnounced(c) => AdmissibleIff(c, true, origin);
    case MultisigAsMulti(c) => AdmissibleIff(c, true, origin);
    case MultisigAsMultiThreshold1(c) => AdmissibleIff(c, true, origin);
    case Scheduler(o, c) => AdmissibleIff(c, tainted, Some(o));
    case Sudo(c) => AdmissibleIff(c, tainted, origin);
  }

  lemma {:induction false} AdmissibleAllIff(calls: seq<RuntimeCall>, tainted: bool, origin: Option<Origin>)
    ensures AdmissibleAll(calls, tainted, origin) <==>
            && !ContainsDispatchAsAny(calls) && !SchedulesOtherOriginAny(calls) && !ContainsNobodyAny(calls)
            && !PrivilegedBelowWrapperAny(calls, tainted) && LeavesOwnedAll(calls, origin)
    decreases calls, 0
  {
    if calls != [] {
      AdmissibleIff(calls[0], tainted, origin);
      AdmissibleAllIff(calls[1..], tainted, origin);
    }
  }

  /** Owned by nobody, privileged leaves can only stand beneath a scheduler. */
  lemma {:induction false} OwnedIsScoped(call: RuntimeCall, origin: Option<Origin>, scheduled: bool)
    requires LeavesOwned(call, origin) && (origin.None? || scheduled)
    ensures !ContainsUnscopedPrivileged(call, scheduled)
    decreases call, 1
  {
    match call
    case Leaf(_) =>
    case MultisigApproveAsMulti =>
    case UtilityBatch(cs) => OwnedAllIsScoped(cs, origin, scheduled);
    case UtilityBatchAll(cs) => OwnedAllIsScoped(cs, origin, scheduled);
    case UtilityForceBatch(cs) => OwnedAllIsScoped(cs, origin, scheduled);
    case Scheduler(o, c) => OwnedIsScoped(c, Some(o), true);
    case _ => OwnedIsScoped(call.inner, origin, scheduled);
  }

  lemma {:induction false} OwnedAllIsScoped(calls: seq<RuntimeCall>, origin: Option<Origin>, scheduled: bool)
    requires LeavesOwnedAll(calls, origin) && (origin.None? || scheduled)
    ensures !ContainsUnscopedPrivilegedAny(calls, scheduled)
    decreases calls, 0
  {
    if calls != [] {
      OwnedIsScoped(calls[0], origin, scheduled);
      OwnedAllIsScoped(calls[1..], origin, scheduled);
    }
  }

  /** What admission rules out. */
  lemma AdmissibleIsSafe(call: RuntimeCall, tainted: bool, origin: Option<Origin>, scheduled: bool)
    requires AdmissibleTree(call, tainted, origin)
    ensures !ContainsNobody(call) && !PrivilegedBelowWrapper(call, tainted)
    ensures origin.None? || scheduled ==> !ContainsUnscopedPrivileged(call, scheduled)
  {
    AdmissibleIff(call, tainted, origin);
    if origin.None? || scheduled {
      OwnedIsScoped(call, origin, scheduled);
    }
  }

  // ---------- Which error ----------

  /** The verdict on a whole tree, from a fresh budget. */
  function VerdictOn(call: RuntimeCall, origin: Option<Origin>): Verdict {
    Scan(Preorder(call, origin, false, 0), 0).verdict
  }

  /** A leaf on its own: Nobody first, then the one origin that owns its domain. */
  lemma LeafVerdict(d: CallDomain, origin: Option<Origin>)
    ensures VerdictOn(Leaf(d), origin) ==
            if d == Nobody then Err(NobodyCall) else if Owns(origin, d) then Ok else Err(BadOrigin)
  {
    ScanNode(Leaf(d), origin, false, 0, 0);
  }

  /** Each of the four wrappers directly above a privileged leaf is refused for that, under every origin. */
  lemma WrappedPrivilegeVerdict(d: CallDomain, origin: Option<Origin>, call: RuntimeCall)
    requires d != Public && d != Nobody
    requires || call == Proxy(Leaf(d)) || call == ProxyAnnounced(Leaf(d))
             || call == MultisigAsMulti(Leaf(d)) || call == MultisigAsMultiThreshold1(Leaf(d))
    ensures VerdictOn(call, origin) == Err(PrivilegedWrapper)
  {
    ScanNode(call, origin, false, 0, 0);
    ScanNode(Leaf(d), origin, true, 1, 1);
  }

  /** A call that dispatches as another, or schedules for another origin, is refused at once. */
  lemma DeniedVerdict(o: Origin, inner: RuntimeCall, origin: Option<Origin>)
    ensures VerdictOn(UtilityDispatchAs(inner), origin) == Err(DispatchAsDenied)
    ensures VerdictOn(UtilityAsDerivative(inner), origin) == Err(DispatchAsDenied)
    ensures o != Origin.ConstitutionalValues && o != Origin.OracleResolution ==>
              VerdictOn(Scheduler(o, inner), origin) == Err(SchedulerDenied)
  {
    ScanNode(UtilityDispatchAs(inner), origin, false, 0, 0);
    ScanNode(UtilityAsDerivative(inner), origin, false, 0, 0);
    ScanNode(Scheduler(o, inner), origin, false, 0, 0);
  }

  /** An admissible tree fails only by its size: for depth if it is small enough, for number if it is shallow enough. */
  lemma SizeVerdict(call: RuntimeCall, origin: Option<Origin>)
    requires AdmissibleTree(call, false, origin)
    ensures NodeCount(call) <= 16 && ContainerDepth(call) > 4 ==> VerdictOn(call, origin) == Err(TooDeep)
    ensures NodeCount(call) > 16 && ContainerDepth(call) <= 4 ==> VerdictOn(call, origin) == Err(TooManyCalls)
    ensures NodeCount(call) <= 16 && ContainerDepth(call) <= 4 ==> VerdictOn(call, origin) == Ok
  {
    PreorderMeaning(call, origin, false, 0);
    WalkSucceedsIff(call, origin, false, 0, 0);
    var vs := Preorder(call, origin, false, 0);
    if VerdictOn(call, origin).Err? {
      var k := ErrorHasFirstOffence(vs, 0);
      assert OwnRule(vs[k]).None?;
    }
  }
}
