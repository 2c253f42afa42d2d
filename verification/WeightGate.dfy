/** The weight-regression gate: linear costs over a box of component values, compared at the top corner. */
module WeightGate {
  import opened Wrappers

  datatype Slope = Slope(refTime: nat, proofSize: nat)

  /** One generated component range; a weight's ranges are a dictionary, so names do not repeat. */
  datatype Range = Range(component: string, low: nat, high: nat)

  datatype FunctionWeight = FunctionWeight(
    refTime: nat, proofSize: nat, slopes: map<string, Slope>,
    dbReads: nat, dbWrites: nat, readSlopes: map<string, nat>, writeSlopes: map<string, nat>, ranges: seq<Range>)
  {
    ghost predicate Valid() { forall i, j :: 0 <= i < j < |ranges| ==> ranges[i].component != ranges[j].component }

    function Components(): set<string> { slopes.Keys + readSlopes.Keys + writeSlopes.Keys }

    function Ranged(): set<string> { Names(ranges) }

    function RefSlope(c: string): nat { if c in slopes then slopes[c].refTime else 0 }
    function ProofSlope(c: string): nat { if c in slopes then slopes[c].proofSize else 0 }
    function ReadSlope(c: string): nat { if c in readSlopes then readSlopes[c] else 0 }
    function WriteSlope(c: string): nat { if c in writeSlopes then writeSlopes[c] else 0 }
  }

  function Names(ranges: seq<Range>): set<string> { set i | 0 <= i < |ranges| :: ranges[i].component }

  datatype Totals = Totals(refTime: nat, proofSize: nat, dbReads: nat, dbWrites: nat)

  /** Slope times high bound, summed over the ranges. */
  function TopSum(ranges: seq<Range>, slope: string -> nat): nat {
    if ranges == [] then 0
    else
      var r := ranges[|ranges| - 1];
      TopSum(ranges[..|ranges| - 1], slope) + slope(r.component) * r.high
  }

  /** None when some linear component has no generated range. */
  function WorstCase(w: FunctionWeight): Option<Totals> {
    if !(w.Components() <= w.Ranged()) then None
    else Some(Totals(w.refTime + TopSum(w.ranges, w.RefSlope), w.proofSize + TopSum(w.ranges, w.ProofSlope),
                     w.dbReads + TopSum(w.ranges, w.ReadSlope), w.dbWrites + TopSum(w.ranges, w.WriteSlope)))
  }

  method WorstCaseTotals(w: FunctionWeight) returns (r: Option<Totals>)
    ensures r == WorstCase(w)
  {
    if !(w.Components() <= w.Ranged()) { return None; }
    var refTime, proofSize, dbReads, dbWrites := w.refTime, w.proofSize, w.dbReads, w.dbWrites;
    for i := 0 to |w.ranges|
      invariant refTime == w.refTime + TopSum(w.ranges[..i], w.RefSlope)
      invariant proofSize == w.proofSize + TopSum(w.ranges[..i], w.ProofSlope)
      invariant dbReads == w.dbReads + TopSum(w.ranges[..i], w.ReadSlope)
      invariant dbWrites == w.dbWrites + TopSum(w.ranges[..i], w.WriteSlope)
    {
      assert w.ranges[..i + 1][..i] == w.ranges[..i];
      var range := w.ranges[i];
      refTime := refTime + w.RefSlope(range.component) * range.high;
      proofSize := proofSize + w.ProofSlope(range.component) * range.high;
      dbReads := dbReads + w.ReadSlope(range.component) * range.high;
      dbWrites := dbWrites + w.WriteSlope(range.component) * range.high;
    }
    assert w.ranges[..|w.ranges|] == w.ranges;
    return Some(Totals(refTime, proofSize, dbReads, dbWrites));
  }

  // ---------- The weight expression itself: a fixed part plus one term per sloped component ----------

  ghost function SumOver(cs: set<string>, term: string -> nat): nat {
    if cs == {} then 0
    else
      var c :| c in cs;
      term(c) + SumOver(cs - {c}, term)
  }

  ghost function Term(slope: string -> nat, at: string -> nat): string -> nat { c => slope(c) * at(c) }

  /** The dispatch cost when each component c has the value at(c). */
  ghost function Cost(w: FunctionWeight, at: string -> nat): Totals {
    Totals(w.refTime + SumOver(w.slopes.Keys, Term(w.RefSlope, at)),
           w.proofSize + SumOver(w.slopes.Keys, Term(w.ProofSlope, at)),
           w.dbReads + SumOver(w.readSlopes.Keys, Term(w.ReadSlope, at)),
           w.dbWrites + SumOver(w.writeSlopes.Keys, Term(w.WriteSlope, at)))
  }

  ghost predicate InRange(w: FunctionWeight, at: string -> nat) {
    forall i :: 0 <= i < |w.ranges| ==> w.ranges[i].low <= at(w.ranges[i].component) <= w.ranges[i].high
  }

  lemma {:induction false} SumOverRemove(cs: set<string>, term: string -> nat, c: string)
    requires c in cs
    ensures SumOver(cs, term) == term(c) + SumOver(cs - {c}, term)
    decreases |cs|
  {
    var d :| d in cs && SumOver(cs, term) == term(d) + SumOver(cs - {d}, term);
    if d != c {
      SumOverRemove(cs - {d}, term, c);
      SumOverRemove(cs - {c}, term, d);
      assert cs - {d} - {c} == cs - {c} - {d};
    }
  }

  /** The same sum, taken along the ranges. */
  ghost function RangeSum(ranges: seq<Range>, cs: set<string>, term: string -> nat): nat {
    if ranges == [] then 0
    else
      var c := ranges[|ranges| - 1].component;
      RangeSum(ranges[..|ranges| - 1], cs, term) + (if c in cs then term(c) else 0)
  }

  lemma {:induction false} RangeSumIgnores(ranges: seq<Range>, cs: set<string>, term: string -> nat, c: string)
    requires c !in Names(ranges)
    ensures RangeSum(ranges, cs, term) == RangeSum(ranges, cs - {c}, term)
  {
    if ranges != [] {
      var init := ranges[..|ranges| - 1];
      assert forall i :: 0 <= i < |init| ==> init[i] == ranges[i];
      RangeSumIgnores(init, cs, term, c);
    }
  }

  lemma {:induction false} SumOverIsRangeSum(cs: set<string>, term: string -> nat, ranges: seq<Range>)
    requires cs <= Names(ranges)
    requires forall i, j :: 0 <= i < j < |ranges| ==> ranges[i].component != ranges[j].component
    ensures SumOver(cs, term) == RangeSum(ranges, cs, term)
    decreases |ranges|
  {
    if ranges == [] {
      assert cs == {};
    } else {
      var init, c := ranges[..|ranges| - 1], ranges[|ranges| - 1].component;
      NamesSnoc(ranges);
      SumOverIsRangeSum(cs - {c}, term, init);
      RangeSumIgnores(init, cs, term, c);
      if c in cs {
        SumOverRemove(cs, term, c);
      } else {
        assert cs - {c} == cs;
      }
    }
  }

  lemma NamesSnoc(ranges: seq<Range>)
    requires ranges != []
    ensures Names(ranges) == Names(ranges[..|ranges| - 1]) + {ranges[|ranges| - 1].component}
  {
    var init := ranges[..|ranges| - 1];
    forall d | d in Names(ranges) ensures d in Names(init) || d == ranges[|ranges| - 1].component {
      var i :| 0 <= i < |ranges| && ranges[i].component == d;
      assert i < |init| ==> init[i].component == d;
    }
    assert forall i :: 0 <= i < |init| ==> init[i] == ranges[i];
  }

  lemma Scaled(slope: nat, value: nat, high: nat)
    requires value <= high
    ensures slope * value <= slope * high
  {}

  lemma {:induction false} RangeSumWithinTop(ranges: seq<Range>, cs: set<string>, slope: string -> nat,
                                             at: string -> nat)
    requires forall i :: 0 <= i < |ranges| ==> at(ranges[i].component) <= ranges[i].high
    ensures RangeSum(ranges, cs, Term(slope, at)) <= TopSum(ranges, slope)
  {
    if ranges != [] {
      var r := ranges[|ranges| - 1];
      RangeSumWithinTop(ranges[..|ranges| - 1], cs, slope, at);
      Scaled(slope(r.component), at(r.component), r.high);
    }
  }

  lemma {:induction false} RangeSumAtTop(ranges: seq<Range>, cs: set<string>, slope: string -> nat, at: string -> nat)
    requires forall i :: 0 <= i < |ranges| ==> at(ranges[i].component) == ranges[i].high
    requires forall c :: c !in cs ==> slope(c) == 0
    ensures RangeSum(ranges, cs, Term(slope, at)) == TopSum(ranges, slope)
  {
    if ranges != [] {
      RangeSumAtTop(ranges[..|ranges| - 1], cs, slope, at);
    }
  }

  /** One quantity of a weight: its sloped part at any in-range values stays below the top corner. */
  lemma QuantityWithinTop(w: FunctionWeight, cs: set<string>, slope: string -> nat, at: string -> nat)
    requires w.Valid() && InRange(w, at) && cs <= w.Ranged()
    ensures SumOver(cs, Term(slope, at)) <= TopSum(w.ranges, slope)
  {
    SumOverIsRangeSum(cs, Term(slope, at), w.ranges);
    RangeSumWithinTop(w.ranges, cs, slope, at);
  }

  /** The worst case bounds the cost at every in-range choice of component values. */
  lemma WorstCaseDominates(w: FunctionWeight, at: string -> nat)
    requires w.Valid() && WorstCase(w).Some? && InRange(w, at)
    ensures var cost, top := Cost(w, at), WorstCase(w).value;
            && cost.refTime <= top.refTime && cost.proofSize <= top.proofSize
            && cost.dbReads <= top.dbReads && cost.dbWrites <= top.dbWrites
  {
    hide SumOver, TopSum;
    QuantityWithinTop(w, w.slopes.Keys, w.RefSlope, at);
    QuantityWithinTop(w, w.slopes.Keys, w.ProofSlope, at);
    QuantityWithinTop(w, w.readSlopes.Keys, w.ReadSlope, at);
    QuantityWithinTop(w, w.writeSlopes.Keys, w.WriteSlope, at);
  }

  lemma QuantityAtTop(w: FunctionWeight, cs: set<string>, slope: string -> nat, at: string -> nat)
    requires w.Valid() && cs <= w.Ranged()
    requires forall i :: 0 <= i < |w.ranges| ==> at(w.ranges[i].component) == w.ranges[i].high
    requires forall c :: c !in cs ==> slope(c) == 0
    ensures SumOver(cs, Term(slope, at)) == TopSum(w.ranges, slope)
  {
    SumOverIsRangeSum(cs, Term(slope, at), w.ranges);
    RangeSumAtTop(w.ranges, cs, slope, at);
  }

  /** The bound is attained: with every component at its high bound the cost is the worst case. */
  lemma WorstCaseAttained(w: FunctionWeight, at: string -> nat)
    requires w.Valid() && WorstCase(w).Some?
    requires forall i :: 0 <= i < |w.ranges| ==> at(w.ranges[i].component) == w.ranges[i].high
    ensures Cost(w, at) == WorstCase(w).value
  {
    hide SumOver, TopSum;
    QuantityAtTop(w, w.slopes.Keys, w.RefSlope, at);
    QuantityAtTop(w, w.slopes.Keys, w.ProofSlope, at);
    QuantityAtTop(w, w.readSlopes.Keys, w.ReadSlope, at);
    QuantityAtTop(w, w.writeSlopes.Keys, w.WriteSlope, at);
  }

  // ---------- Comparing two revisions ----------

  const LIMIT_NUMERATOR: nat := 110
  const LIMIT_DENOMINATOR: nat := 100
  const REF_TIME_FLOOR: nat := 1_000_000
  const PROOF_SIZE_FLOOR: nat := 1_024
  const DB_ACCESS_FLOOR: nat := 1

  function ExceedsLimit(base: nat, head: nat, floor: nat): (r: bool)
    ensures !r <==> head <= base + floor || LIMIT_DENOMINATOR * head <= LIMIT_NUMERATOR * base
  {
    if head <= base || head - base <= floor then false
    else head * LIMIT_DENOMINATOR > base * LIMIT_NUMERATOR
  }

  datatype Quantity = RefTime | ProofSize | Reads | Writes

  datatype Regression = Regression(quantity: Quantity, base: nat, head: nat)

  function OneRegression(q: Quantity, base: nat, head: nat, floor: nat): seq<Regression> {
    if ExceedsLimit(base, head, floor) then [Regression(q, base, head)] else []
  }

  /** None when either revision has a component without a range. */
  function CompareFunction(base: FunctionWeight, head: FunctionWeight): Option<seq<Regression>> {
    if WorstCase(base).None? || WorstCase(head).None? then None
    else
      var b, h := WorstCase(base).value, WorstCase(head).value;
      Some(OneRegression(RefTime, b.refTime, h.refTime, REF_TIME_FLOOR)
           + OneRegression(ProofSize, b.proofSize, h.proofSize, PROOF_SIZE_FLOOR)
           + OneRegression(Reads, b.dbReads, h.dbReads, DB_ACCESS_FLOOR)
           + OneRegression(Writes, b.dbWrites, h.dbWrites, DB_ACCESS_FLOOR))
  }

  /** At most the base plus its floor, or at most 110% of the base. */
  ghost predicate Tolerated(cost: nat, base: nat, floor: nat) {
    cost <= base + floor || 100 * cost <= 110 * base
  }

  function AmountOf(t: Totals, q: Quantity): nat {
    match q
    case RefTime => t.refTime
    case ProofSize => t.proofSize
    case Reads => t.dbReads
    case Writes => t.dbWrites
  }

  function FloorOf(q: Quantity): nat {
    match q
    case RefTime => 1_000_000
    case ProofSize => 1_024
    case Reads => 1
    case Writes => 1
  }

  /** Every linear component of a weight has a generated range. */
  ghost predicate Ranges(w: FunctionWeight) {
    forall c :: c in w.slopes || c in w.readSlopes || c in w.writeSlopes ==>
      exists i :: 0 <= i < |w.ranges| && w.ranges[i].component == c
  }

  /** One quantity of the head's worst case is beyond tolerance of the base's. */
  ghost predicate Worse(b: Totals, h: Totals, q: Quantity) {
    !Tolerated(AmountOf(h, q), AmountOf(b, q), FloorOf(q))
  }

  /** The records name exactly the quantities beyond tolerance, once each, with their own two totals. */
  ghost predicate Records(rs: seq<Regression>, b: Totals, h: Totals) {
    && (forall q :: Worse(b, h, q) <==> exists i :: 0 <= i < |rs| && rs[i].quantity == q)
    && (forall i :: 0 <= i < |rs| ==>
          rs[i].base == AmountOf(b, rs[i].quantity) && rs[i].head == AmountOf(h, rs[i].quantity))
    && (forall i, j :: 0 <= i < j < |rs| ==> rs[i].quantity != rs[j].quantity)
  }

  lemma RangesIff(w: FunctionWeight)
    ensures WorstCase(w).Some? <==> Ranges(w)
  {
    hide TopSum;
    if Ranges(w) {
      forall c | c in w.Components() ensures c in w.Ranged() {}
    }
    if w.Components() <= w.Ranged() {
      forall c | c in w.slopes || c in w.readSlopes || c in w.writeSlopes
        ensures exists i :: 0 <= i < |w.ranges| && w.ranges[i].component == c
      {
        assert c in w.Components();
      }
    }
  }

  ghost predicate RecordsOf(rs: seq<Regression>, base: FunctionWeight, head: FunctionWeight) {
    WorstCase(base).Some? && WorstCase(head).Some? && Records(rs, WorstCase(base).value, WorstCase(head).value)
  }

  /** The comparison of one function: possible exactly when both revisions have their ranges, and then it
      records exactly what is beyond tolerance. */
  lemma CompareFunctionIff(base: FunctionWeight, head: FunctionWeight)
    ensures CompareFunction(base, head).Some? <==> Ranges(base) && Ranges(head)
    ensures CompareFunction(base, head).Some? ==>
              RecordsOf(CompareFunction(base, head).value, base, head)
  {
    hide WorstCase, Ranges;
    RangesIff(base);
    RangesIff(head);
    if CompareFunction(base, head).Some? {
      var b, h := WorstCase(base).value, WorstCase(head).value;
      RecordsFour(OneRegression(RefTime, b.refTime, h.refTime, REF_TIME_FLOOR),
                  OneRegression(ProofSize, b.proofSize, h.proofSize, PROOF_SIZE_FLOOR),
                  OneRegression(Reads, b.dbReads, h.dbReads, DB_ACCESS_FLOOR),
                  OneRegression(Writes, b.dbWrites, h.dbWrites, DB_ACCESS_FLOOR), b, h);
    }
  }

  /** One quantity's part of the list. */
  ghost predicate RecordsOne(rs: seq<Regression>, q: Quantity, b: Totals, h: Totals) {
    rs == if Worse(b, h, q) then [Regression(q, AmountOf(b, q), AmountOf(h, q))] else []
  }

  lemma RecordsFour(x: seq<Regression>, y: seq<Regression>, z: seq<Regression>, w: seq<Regression>, b: Totals,
                    h: Totals)
    requires RecordsOne(x, RefTime, b, h) && RecordsOne(y, ProofSize, b, h)
    requires RecordsOne(z, Reads, b, h) && RecordsOne(w, Writes, b, h)
    ensures Records(x + y + z + w, b, h)
  {
    hide Worse;
    var rs := x + y + z + w;
    assert |x| == 1 ==> rs[0] == x[0];
    assert |y| == 1 ==> rs[|x|] == y[0];
    assert |z| == 1 ==> rs[|x| + |y|] == z[0];
    assert |w| == 1 ==> rs[|x| + |y| + |z|] == w[0];
    forall q ensures Worse(b, h, q) <==> exists i :: 0 <= i < |rs| && rs[i].quantity == q {
      match q
      case RefTime =>
      case ProofSize =>
      case Reads =>
      case Writes =>
    }
  }

  /** Something is recorded exactly when some quantity got worse. */
  lemma RecordedIff(base: FunctionWeight, head: FunctionWeight)
    ensures var rs := CompareFunction(base, head);
            && (rs.Some? && rs.value != [] <==> GotWorse(base, head))
            && (rs.Some? <==> Ranges(base) && Ranges(head))
            && (rs.Some? ==> RecordsOf(rs.value, base, head))
  {
    CompareFunctionIff(base, head);
    RangesIff(base);
    RangesIff(head);
    hide CompareFunction, WorstCase, Ranges, Worse;
    var rs := CompareFunction(base, head);
    if rs.Some? && rs.value != [] {
      assert Worse(WorstCase(base).value, WorstCase(head).value, rs.value[0].quantity);
    }
  }

  /** No record means every in-range head cost is tolerated against the base worst case. */
  lemma NoRegressionBounds(base: FunctionWeight, head: FunctionWeight, at: string -> nat)
    requires head.Valid() && CompareFunction(base, head) == Some([]) && InRange(head, at)
    ensures var cost, b := Cost(head, at), WorstCase(base).value;
            forall q :: Tolerated(AmountOf(cost, q), AmountOf(b, q), FloorOf(q))
  {
    CompareFunctionIff(base, head);
    RangesIff(base);
    RangesIff(head);
    hide Cost, WorstCase, CompareFunction, Ranges;
    WorstCaseDominates(head, at);
    var cost, b, h := Cost(head, at), WorstCase(base).value, WorstCase(head).value;
    forall q ensures Tolerated(AmountOf(cost, q), AmountOf(b, q), FloorOf(q)) {
      assert !Worse(b, h, q);
      assert AmountOf(cost, q) <= AmountOf(h, q);
    }
  }

  /** A revision's weight files, each a dictionary of functions. */
  type WeightFiles = map<string, map<string, FunctionWeight>>

  datatype Key = Key(path: string, name: string)

  const WHOLE_FILE := "*"

  /** What needs acknowledging: files gone, functions gone, functions regressed. */
  function Removed(base: WeightFiles, head: WeightFiles): set<Key> {
    (set p | p in base && p !in head :: Key(p, WHOLE_FILE))
    + (set p, f | p in base && p in head && f in base[p] && f !in head[p] :: Key(p, f))
  }

  /** A shared function whose head worst case is beyond tolerance in some quantity. */
  ghost predicate Regresses(base: WeightFiles, head: WeightFiles, p: string, f: string) {
    && p in base && p in head && f in base[p] && f in head[p]
    && GotWorse(base[p][f], head[p][f])
  }

  ghost predicate GotWorse(base: FunctionWeight, head: FunctionWeight) {
    && WorstCase(base).Some? && WorstCase(head).Some?
    && exists q :: Worse(WorstCase(base).value, WorstCase(head).value, q)
  }

  ghost function Regressed(base: WeightFiles, head: WeightFiles): set<Key> {
    set p, f | p in base && p in head && f in base[p] && f in head[p] && Regresses(base, head, p, f) :: Key(p, f)
  }

  /** Every function present in both revisions has all its ranges. */
  ghost predicate Comparable(base: WeightFiles, head: WeightFiles) {
    forall p :: p in base ==> PathComparable(base, head, p)
  }

  ghost predicate PathComparable(base: WeightFiles, head: WeightFiles, p: string) {
    p in base && p in head ==>
      forall f :: f in base[p] && f in head[p] ==> Ranges(base[p][f]) && Ranges(head[p][f])
  }

  datatype Comparison = Comparison(
    unacknowledged: map<Key, seq<Regression>>, acknowledged: map<Key, seq<Regression>>,
    unacknowledgedRemovals: set<Key>, acknowledgedRemovals: set<Key>, staleAcks: set<Key>)
  {
    predicate Passes() { unacknowledged == map[] && unacknowledgedRemovals == {} && staleAcks == {} }
  }

  // ---------- The comparison, path by path and function by function ----------

  /** What a finished comparison holds. */
  ghost predicate Describes(c: Comparison, base: WeightFiles, head: WeightFiles, acks: set<Key>, removed: set<Key>,
                            regressed: set<Key>) {
    && c.unacknowledged.Keys == regressed - acks && c.acknowledged.Keys == regressed * acks
    && c.unacknowledgedRemovals == removed - acks && c.acknowledgedRemovals == removed * acks
    && (forall k :: k in c.unacknowledged ==> Found(base, head, k, c.unacknowledged[k]))
    && (forall k :: k in c.acknowledged ==> Found(base, head, k, c.acknowledged[k]))
  }

  ghost predicate Found(base: WeightFiles, head: WeightFiles, k: Key, rs: seq<Regression>) {
    && Regresses(base, head, k.path, k.name)
    && RecordsOf(rs, base[k.path][k.name], head[k.path][k.name])
  }

  function AddRemoval(c: Comparison, k: Key, acks: set<Key>): Comparison {
    if k in acks then c.(acknowledgedRemovals := c.acknowledgedRemovals + {k})
    else c.(unacknowledgedRemovals := c.unacknowledgedRemovals + {k})
  }

  function AddRegression(c: Comparison, k: Key, rs: seq<Regression>, acks: set<Key>): Comparison {
    if k in acks then c.(acknowledged := c.acknowledged[k := rs]) else c.(unacknowledged := c.unacknowledged[k := rs])
  }

  lemma RemovalDescribed(c: Comparison, base: WeightFiles, head: WeightFiles, acks: set<Key>, removed: set<Key>,
                         regressed: set<Key>, k: Key)
    requires Describes(c, base, head, acks, removed, regressed)
    ensures Describes(AddRemoval(c, k, acks), base, head, acks, removed + {k}, regressed)
  {
    hide Found;
  }

  lemma RegressionDescribed(c: Comparison, base: WeightFiles, head: WeightFiles, acks: set<Key>, removed: set<Key>,
                            regressed: set<Key>, k: Key, rs: seq<Regression>)
    requires Describes(c, base, head, acks, removed, regressed) && Found(base, head, k, rs)
    ensures Describes(AddRegression(c, k, rs, acks), base, head, acks, removed, regressed + {k})
  {
    hide Found;
  }

  /** A set being worked through: what is left and what is done. */
  ghost predicate Parts(all: set<string>, left: set<string>, done: set<string>) {
    left !! done && left + done == all
  }

  lemma AllLeft(all: set<string>)
    ensures Parts(all, all, {})
  {}

  lemma TakeOne(all: set<string>, left: set<string>, done: set<string>, x: string)
    requires Parts(all, left, done) && x in left
    ensures Parts(all, left - {x}, done + {x}) && x !in done && |left - {x}| < |left|
  {}

  lemma AllTaken(all: set<string>, done: set<string>)
    requires Parts(all, {}, done)
    ensures done == all
  {}

  /** Removals and regressions found in one path's functions, among those listed. */
  function RemovedIn(base: WeightFiles, head: WeightFiles, p: string, fs: set<string>): set<Key>
    requires p in base && p in head
  {
    set f | f in fs && f in base[p] && f !in head[p] :: Key(p, f)
  }

  ghost function RegressedIn(base: WeightFiles, head: WeightFiles, p: string, fs: set<string>): set<Key>
    requires p in base && p in head
  {
    set f | f in fs && f in base[p] && f in head[p] && Regresses(base, head, p, f) :: Key(p, f)
  }

  /** Both revisions of a function have all their ranges, if both exist. */
  ghost predicate FunctionComparable(base: WeightFiles, head: WeightFiles, p: string, f: string) {
    p in base && p in head && f in base[p] && f in head[p] ==> Ranges(base[p][f]) && Ranges(head[p][f])
  }

  /** What the comparison holds once the listed functions of a path are done. */
  ghost predicate PathProgress(c: Comparison, base: WeightFiles, head: WeightFiles, p: string, acks: set<Key>,
                               removed: set<Key>, regressed: set<Key>, done: set<string>)
    requires p in base && p in head
  {
    && Describes(c, base, head, acks, removed + RemovedIn(base, head, p, done),
                 regressed + RegressedIn(base, head, p, done))
    && forall f :: f in done ==> FunctionComparable(base, head, p, f)
  }

  lemma NoProgress(c: Comparison, base: WeightFiles, head: WeightFiles, p: string, acks: set<Key>, removed: set<Key>,
                   regressed: set<Key>)
    requires p in base && p in head && Describes(c, base, head, acks, removed, regressed)
    ensures PathProgress(c, base, head, p, acks, removed, regressed, {})
  {
    hide Describes, RemovedIn, RegressedIn;
    NoFunctions(base, head, p);
    assert removed + {} == removed && regressed + {} == regressed;
  }

  lemma PathFinished(base: WeightFiles, head: WeightFiles, p: string)
    requires p in base && p in head
    ensures PathComparable(base, head, p) <==>
            forall f :: f in base[p].Keys + head[p].Keys ==> FunctionComparable(base, head, p, f)
  {
    hide Ranges;
    if forall f :: f in base[p].Keys + head[p].Keys ==> FunctionComparable(base, head, p, f) {
      forall f | f in base[p] && f in head[p] ensures Ranges(base[p][f]) && Ranges(head[p][f]) {
        assert FunctionComparable(base, head, p, f);
      }
    }
  }

  /** One function of a path present in both revisions. */
  method CompareOne(base: WeightFiles, head: WeightFiles, p: string, f: string, acks: set<Key>, c0: Comparison,
                    ghost removed: set<Key>, ghost regressed: set<Key>, ghost done: set<string>)
    returns (c: Comparison, ok: bool)
    requires p in base && p in head && PathProgress(c0, base, head, p, acks, removed, regressed, done)
    ensures ok <==> FunctionComparable(base, head, p, f)
    ensures ok ==> PathProgress(c, base, head, p, acks, removed, regressed, done + {f})
  {
    hide Describes, CompareFunction, RemovedIn, RegressedIn, Regresses, Found, AddRemoval, AddRegression, Ranges;
    c, ok := c0, true;
    var k := Key(p, f);
    FunctionStep(base, head, p, done, f);
    ghost var gone, worse := removed + RemovedIn(base, head, p, done), regressed + RegressedIn(base, head, p, done);
    assert removed + RemovedIn(base, head, p, done + {f}) == if f in base[p] && f !in head[p] then gone + {k} else gone;
    assert regressed + RegressedIn(base, head, p, done + {f}) ==
           if Regresses(base, head, p, f) then worse + {k} else worse;
    if f in base[p] && f !in head[p] {
      RemovalDescribed(c, base, head, acks, gone, worse, k);
      c := AddRemoval(c, k, acks);
    } else if f in base[p] {
      var rs := CompareFunction(base[p][f], head[p][f]);
      if rs.None? { return c, false; }
      if rs.value != [] {
        RegressionDescribed(c, base, head, acks, gone, worse, k, rs.value);
        c := AddRegression(c, k, rs.value, acks);
      }
    }
  }

  /** Every function named in either revision of a path. */
  method ComparePath(base: WeightFiles, head: WeightFiles, p: string, acks: set<Key>, c0: Comparison,
                     ghost removed: set<Key>, ghost regressed: set<Key>)
    returns (c: Comparison, ok: bool)
    requires p in base && p in head && Describes(c0, base, head, acks, removed, regressed)
    ensures ok <==> PathComparable(base, head, p)
    ensures ok ==> Describes(c, base, head, acks, removed + RemovedIn(base, head, p, base[p].Keys + head[p].Keys),
                             regressed + RegressedIn(base, head, p, base[p].Keys + head[p].Keys))
  {
    hide Describes, RemovedIn, RegressedIn, Parts, PathComparable, FunctionComparable;
    c, ok := c0, true;
    var left := base[p].Keys + head[p].Keys;
    ghost var all, done: set<string> := left, {};
    AllLeft(all);
    PathFinished(base, head, p);
    NoProgress(c, base, head, p, acks, removed, regressed);
    while left != {}
      invariant Parts(all, left, done)
      invariant PathProgress(c, base, head, p, acks, removed, regressed, done)
      invariant ok
      decreases |left|
    {
      var f :| f in left;
      TakeOne(all, left, done, f);
      c, ok := CompareOne(base, head, p, f, acks, c, removed, regressed, done);
      if !ok {
        StillIn(all, left, done, f);
        return;
      }
      left, done := left - {f}, done + {f};
    }
    AllTaken(all, done);
  }

  lemma StillIn(all: set<string>, left: set<string>, done: set<string>, f: string)
    requires Parts(all, left, done) && f in left
    ensures f in all
  {}

  lemma NoFunctions(base: WeightFiles, head: WeightFiles, p: string)
    requires p in base && p in head
    ensures RemovedIn(base, head, p, {}) == {} && RegressedIn(base, head, p, {}) == {}
  {}

  lemma FunctionStep(base: WeightFiles, head: WeightFiles, p: string, done: set<string>, f: string)
    requires p in base && p in head
    ensures RemovedIn(base, head, p, done + {f}) ==
            RemovedIn(base, head, p, done) + (if f in base[p] && f !in head[p] then {Key(p, f)} else {})
    ensures RegressedIn(base, head, p, done + {f}) ==
            RegressedIn(base, head, p, done) + (if Regresses(base, head, p, f) then {Key(p, f)} else {})
    ensures f in base[p] && f in head[p] ==>
              var rs := CompareFunction(base[p][f], head[p][f]);
              && (Regresses(base, head, p, f) <==> rs.Some? && rs.value != [])
              && (rs.Some? <==> FunctionComparable(base, head, p, f))
              && (rs.Some? && rs.value != [] ==> Found(base, head, Key(p, f), rs.value))
    ensures !(f in base[p] && f in head[p]) ==> !Regresses(base, head, p, f)
  {
    hide CompareFunction, GotWorse, RecordsOf, Ranges;
    if f in base[p] && f in head[p] {
      RecordedIff(base[p][f], head[p][f]);
    }
  }

  function RemovedAmong(base: WeightFiles, head: WeightFiles, ps: set<string>): set<Key> {
    (set p | p in ps && p in base && p !in head :: Key(p, WHOLE_FILE))
    + (set p, f | p in ps && p in base && p in head && f in base[p] && f !in head[p] :: Key(p, f))
  }

  ghost function RegressedAmong(base: WeightFiles, head: WeightFiles, ps: set<string>): set<Key> {
    set p, f | p in ps && p in base && p in head && f in base[p] && f in head[p] && Regresses(base, head, p, f)
             :: Key(p, f)
  }

  lemma PathStep(base: WeightFiles, head: WeightFiles, done: set<string>, p: string)
    ensures RemovedAmong(base, head, done + {p}) ==
            RemovedAmong(base, head, done) +
            (if p !in base then {} else if p !in head then {Key(p, WHOLE_FILE)}
             else RemovedIn(base, head, p, base[p].Keys + head[p].Keys))
    ensures RegressedAmong(base, head, done + {p}) ==
            RegressedAmong(base, head, done) +
            (if p in base && p in head then RegressedIn(base, head, p, base[p].Keys + head[p].Keys) else {})
  {
    hide CompareFunction, GotWorse;
  }

  /** What the comparison holds once the listed paths are done. */
  ghost predicate Progress(c: Comparison, base: WeightFiles, head: WeightFiles, acks: set<Key>, done: set<string>) {
    && Describes(c, base, head, acks, RemovedAmong(base, head, done), RegressedAmong(base, head, done))
    && forall p :: p in done ==> PathComparable(base, head, p)
  }

  /** One path of either revision. */
  method CompareFile(base: WeightFiles, head: WeightFiles, p: string, acks: set<Key>, c0: Comparison,
                     ghost done: set<string>)
    returns (c: Comparison, ok: bool)
    requires Progress(c0, base, head, acks, done)
    ensures ok <==> PathComparable(base, head, p)
    ensures ok ==> Progress(c, base, head, acks, done + {p})
  {
    hide Describes, CompareFunction, RemovedAmong, RegressedAmong, RemovedIn, RegressedIn, AddRemoval;
    c, ok := c0, true;
    PathStep(base, head, done, p);
    ghost var gone, worse := RemovedAmong(base, head, done), RegressedAmong(base, head, done);
    assert !(p in base && p in head) ==> RegressedAmong(base, head, done + {p}) == worse;
    assert p !in base ==> RemovedAmong(base, head, done + {p}) == gone;
    if p in base && p !in head {
      RemovalDescribed(c, base, head, acks, gone, worse, Key(p, WHOLE_FILE));
      c := AddRemoval(c, Key(p, WHOLE_FILE), acks);
    } else if p in base {
      c, ok := ComparePath(base, head, p, acks, c, gone, worse);
    }
  }

  /** The comparison of two revisions; None when a compared function lacks a range. */
  method CompareWeightSets(base: WeightFiles, head: WeightFiles, acks: set<Key>) returns (r: Option<Comparison>)
    ensures r.Some? <==> Comparable(base, head)
    ensures r.Some? ==>
              && Describes(r.value, base, head, acks, Removed(base, head), Regressed(base, head))
              && r.value.staleAcks == acks - (Removed(base, head) + Regressed(base, head))
  {
    hide Describes, RemovedAmong, RegressedAmong, Removed, Regressed, Parts, PathComparable;
    var c := Comparison(map[], map[], {}, {}, {});
    var left := base.Keys + head.Keys;
    ghost var all, done: set<string> := left, {};
    AllLeft(all);
    BlankDescribed(c, base, head, acks);
    while left != {}
      invariant Parts(all, left, done)
      invariant Progress(c, base, head, acks, done)
      decreases |left|
    {
      var p :| p in left;
      TakeOne(all, left, done, p);
      var ok;
      c, ok := CompareFile(base, head, p, acks, c, done);
      if !ok {
        NotComparable(base, head, p);
        return None;
      }
      left, done := left - {p}, done + {p};
    }
    AllTaken(all, done);
    AllPaths(base, head);
    ActiveKeys(c, base, head, acks);
    var stale := acks - (c.acknowledged.Keys + c.acknowledgedRemovals);
    Restale(c, stale, base, head, acks, Removed(base, head), Regressed(base, head));
    return Some(c.(staleAcks := stale));
  }

  lemma NotComparable(base: WeightFiles, head: WeightFiles, p: string)
    requires !PathComparable(base, head, p)
    ensures !Comparable(base, head)
  {}

  lemma BlankDescribed(c: Comparison, base: WeightFiles, head: WeightFiles, acks: set<Key>)
    requires c == Comparison(map[], map[], {}, {}, {})
    ensures Describes(c, base, head, acks, RemovedAmong(base, head, {}), RegressedAmong(base, head, {}))
  {}

  lemma AllPaths(base: WeightFiles, head: WeightFiles)
    ensures RemovedAmong(base, head, base.Keys + head.Keys) == Removed(base, head)
    ensures RegressedAmong(base, head, base.Keys + head.Keys) == Regressed(base, head)
  {
    hide CompareFunction, GotWorse;
  }

  /** The acknowledgements in use are those of something removed or regressed. */
  lemma ActiveKeys(c: Comparison, base: WeightFiles, head: WeightFiles, acks: set<Key>)
    requires Describes(c, base, head, acks, Removed(base, head), Regressed(base, head))
    ensures acks - (c.acknowledged.Keys + c.acknowledgedRemovals) ==
            acks - (Removed(base, head) + Regressed(base, head))
  {
    hide Removed, Regressed, Found;
  }

  lemma Restale(c: Comparison, stale: set<Key>, base: WeightFiles, head: WeightFiles, acks: set<Key>,
                removed: set<Key>, regressed: set<Key>)
    requires Describes(c, base, head, acks, removed, regressed)
    ensures Describes(c.(staleAcks := stale), base, head, acks, removed, regressed)
  {}

  // ---------- What the verdict means ----------

  /** The gate passes exactly when the acknowledged keys are the removed files, the removed functions
      and the regressed functions: nothing unacknowledged, and nothing acknowledged in vain. */
  lemma PassesIff(c: Comparison, base: WeightFiles, head: WeightFiles, acks: set<Key>)
    requires Describes(c, base, head, acks, Removed(base, head), Regressed(base, head))
    requires c.staleAcks == acks - (Removed(base, head) + Regressed(base, head))
    ensures c.Passes() <==> acks == Removed(base, head) + Regressed(base, head)
    ensures var active := c.acknowledged.Keys + c.acknowledgedRemovals;
            active !! c.staleAcks && active + c.staleAcks == acks
  {
    hide Removed, Regressed, Found;
    var removed, regressed := Removed(base, head), Regressed(base, head);
    assert c.unacknowledged == map[] <==> c.unacknowledged.Keys == {};
    assert regressed - acks == {} && removed - acks == {} && acks - (removed + regressed) == {} <==>
           acks == removed + regressed;
  }

  /** If the gate passes, every unacknowledged shared function is within tolerance everywhere in its box. */
  lemma PassBoundsEveryCost(c: Comparison, base: WeightFiles, head: WeightFiles, acks: set<Key>, p: string, f: string,
                            at: string -> nat)
    requires Comparable(base, head)
    requires Describes(c, base, head, acks, Removed(base, head), Regressed(base, head)) && c.Passes()
    requires p in base && p in head && f in base[p] && f in head[p] && Key(p, f) !in acks
    requires head[p][f].Valid() && InRange(head[p][f], at)
    ensures WorstCase(base[p][f]).Some?
    ensures var cost, b := Cost(head[p][f], at), WorstCase(base[p][f]).value;
            forall q :: Tolerated(AmountOf(cost, q), AmountOf(b, q), FloorOf(q))
  {
    hide Cost, WorstCase, CompareFunction, GotWorse, Ranges, Removed, Found;
    assert !Regresses(base, head, p, f) by {
      assert Key(p, f) !in c.unacknowledged.Keys;
      assert Key(p, f) !in Regressed(base, head);
    }
    assert PathComparable(base, head, p);
    RangesIff(base[p][f]);
    RecordedIff(base[p][f], head[p][f]);
    NoRegressionBounds(base[p][f], head[p][f], at);
  }
}
