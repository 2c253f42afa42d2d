/** The exporter's finalized-event counters: each block's events are counted exactly once or
    deliberately skipped, whatever order and gaps the finalized-head notifications arrive in. */
module FinalizedEvents {
  import opened Wrappers

  datatype Family = GuardianActions | UpgradesAuthorized | UpgradesApplied | KeeperBudgetLow | LmsrDomainRejections

  /** A decoded System.Events record; priceBound tells whether a failed extrinsic names the price-bound error. */
  datatype Record = Record(pallet: string, event: string, priceBound: bool)

  function FamilyOf(r: Record): Option<Family> {
    if r.pallet == "Guardian" && r.event == "GuardianAction" then Some(GuardianActions)
    else if r.pallet == "ExecutionGuard" && r.event == "UpgradeAuthorized" then Some(UpgradesAuthorized)
    else if r.pallet == "ExecutionGuard" && r.event == "UpgradeApplied" then Some(UpgradesApplied)
    else if r.pallet == "FutarchyTreasury" && r.event == "KeeperBudgetLow" then Some(KeeperBudgetLow)
    else if r.pallet == "System" && r.event == "ExtrinsicFailed" && r.priceBound then Some(LmsrDomainRejections)
    else None
  }

  /** How many records of a block belong to a family. */
  function Count(records: seq<Record>, f: Family): nat {
    if records == [] then 0
    else Count(records[..|records| - 1], f) + (if FamilyOf(records[|records| - 1]) == Some(f) then 1 else 0)
  }

  /** Which records each counter is about. */
  predicate Concerns(r: Record, f: Family) {
    match f
    case GuardianActions => r.pallet == "Guardian" && r.event == "GuardianAction"
    case UpgradesAuthorized => r.pallet == "ExecutionGuard" && r.event == "UpgradeAuthorized"
    case UpgradesApplied => r.pallet == "ExecutionGuard" && r.event == "UpgradeApplied"
    case KeeperBudgetLow => r.pallet == "FutarchyTreasury" && r.event == "KeeperBudgetLow"
    case LmsrDomainRejections => r.pallet == "System" && r.event == "ExtrinsicFailed" && r.priceBound
  }

  /** The places of a block's records that a counter is about. */
  ghost function Places(records: seq<Record>, f: Family): set<nat> {
    set i: nat | i < |records| && Concerns(records[i], f)
  }

  /** A counter counts exactly the records it is about: no family takes another's. */
  lemma {:induction false} CountIsPlaces(records: seq<Record>, f: Family)
    ensures Count(records, f) == |Places(records, f)|
  {
    hide Places, Concerns, FamilyOf;
    PlacesSnoc(records, f);
    if records != [] {
      CountIsPlaces(records[..|records| - 1], f);
      FamilyIsConcern(records[|records| - 1], f);
    }
  }

  lemma PlacesSnoc(records: seq<Record>, f: Family)
    ensures records == [] ==> Places(records, f) == {}
    ensures records != [] ==>
              var init, last := records[..|records| - 1], |records| - 1;
              && last !in Places(init, f)
              && Places(records, f) == Places(init, f) + (if Concerns(records[last], f) then {last} else {})
  {
    hide Concerns;
  }

  lemma FamilyIsConcern(r: Record, f: Family)
    ensures FamilyOf(r) == Some(f) <==> Concerns(r, f)
  {
    var a, b := "UpgradeAuthorized", "UpgradeApplied";
    assert a[8] != b[8];
    var g, e, k, s := "Guardian", "ExecutionGuard", "FutarchyTreasury", "System";
    assert g[0] != e[0] && g[0] != k[0] && g[0] != s[0] && e[0] != k[0] && e[0] != s[0] && k[0] != s[0];
  }

  /** The chain: the events of every finalized block. */
  type Chain = nat -> seq<Record>

  function CountOver(chain: Chain, blocks: seq<nat>, f: Family): nat {
    if blocks == [] then 0
    else CountOver(chain, blocks[..|blocks| - 1], f) + Count(chain(blocks[|blocks| - 1]), f)
  }

  const MAX_EVENT_CATCH_UP_BLOCKS: nat := 512

  /** How one scrape attempt goes. It may raise before the event domain is done, read the block's events or
      be refused them; the other domains add failures of their own, and a later one may still raise. */
  datatype Attempt =
    | Raised(otherFailures: nat)
    | Rejected(otherFailures: nat, raisedLate: bool)
    | Recorded(otherFailures: nat, raisedLate: bool)

  datatype Notification = Notification(block: nat, full: bool, attempts: nat -> Attempt)

  datatype Outcome = Returned(complete: bool) | Threw

  type Totals = map<Family, nat>

  /** Exporter state. The last three fields are history: which blocks were counted, which were given
      up, and how many error increments came from failing domains rather than from skipping. */
  datatype Progress = Progress(
    last: Option<nat>, totals: Totals, exported: Totals, errors: nat,
    processed: seq<nat>, skipped: seq<nat>, failures: nat)

  const ZERO: Totals := map f: Family | true :: 0

  const START := Progress(None, ZERO, ZERO, 0, [], [], 0)

  function Plus(totals: Totals, records: seq<Record>): Totals {
    map f | f in totals :: totals[f] + Count(records, f)
  }

  function Fail(p: Progress, n: nat): Progress { p.(errors := p.errors + n, failures := p.failures + n) }

  /** Counting one block. */
  function Count1(p: Progress, chain: Chain, block: nat): Progress {
    var totals := Plus(p.totals, chain(block));
    p.(last := Some(block), totals := totals, exported := totals, processed := p.processed + [block])
  }

  function Interval(low: nat, high: nat): seq<nat>
    requires low <= high
    decreases high
  {
    if low == high then [] else Interval(low, high - 1) + [high - 1]
  }

  /** Giving up the blocks before first. */
  function Skip(p: Progress, from: nat, first: nat): Progress
    requires 0 < first && from <= first
  {
    p.(last := Some(first - 1), errors := p.errors + (first - from), skipped := p.skipped + Interval(from, first))
  }

  /** The event domain does nothing for a block at or behind the cursor. */
  predicate Behind(p: Progress, block: nat) { p.last.Some? && block <= p.last.value }

  /** One scrape of a block. */
  function ScrapeOnce(p: Progress, chain: Chain, block: nat, a: Attempt): (Progress, Outcome) {
    if a.Raised? then (Fail(p, a.otherFailures), Threw)
    else
      var rejected := a.Rejected? && !Behind(p, block);
      var q := if Behind(p, block) then p
               else if rejected then Fail(p.(exported := map[]), 1)
               else Count1(p, chain, block);
      (Fail(q, a.otherFailures), if a.raisedLate then Threw else Returned(!rejected && a.otherFailures == 0))
  }

  /** The catch-up loop from current up to the notified head; it stops where the cursor did not follow. */
  function Sweep(p: Progress, chain: Chain, n: Notification, current: nat): (Progress, Outcome)
    decreases n.block + 1 - current
  {
    if n.block < current then (p, Returned(true))
    else
      var (q, r) := ScrapeOnce(p, chain, current, n.attempts(current));
      if r.Threw? then (q, r)
      else if q.last != Some(current) then (q, Returned(false))
      else
        var (end, rest) := Sweep(q, chain, n, current + 1);
        (end, if rest.Returned? then Returned(rest.complete && r.complete) else rest)
  }

  function FirstBlock(from: nat, block: nat): nat {
    if from + MAX_EVENT_CATCH_UP_BLOCKS <= block then block + 1 - MAX_EVENT_CATCH_UP_BLOCKS else from
  }

  function Process(p: Progress, chain: Chain, n: Notification): (Progress, Outcome) {
    if p.last.None? then Sweep(p, chain, n, n.block)
    else if n.block < p.last.value then (p, Returned(true))
    else if n.block == p.last.value then
      (if n.full then ScrapeOnce(p, chain, n.block, n.attempts(n.block)) else (p, Returned(true)))
    else
      var from := p.last.value + 1;
      var first := FirstBlock(from, n.block);
      Sweep(if first == from then p else Skip(p, from, first), chain, n, first)
  }

  function Run(p: Progress, chain: Chain, ns: seq<Notification>): Progress
    decreases |ns|
  {
    if ns == [] then p else Run(Process(p, chain, ns[0]).0, chain, ns[1..])
  }

  // ---------- The invariant ----------

  ghost predicate Increasing(s: seq<nat>) {
    forall i, j :: 0 <= i < j < |s| ==> s[i] < s[j]
  }

  /** Every block from the first processed to the last recorded is processed or skipped, never both. */
  ghost predicate Covers(p: Progress) {
    match p.last
    case None => p.processed == [] && p.skipped == []
    case Some(last) =>
      && p.processed != []
      && (forall b: nat :: (b in p.processed || b in p.skipped) <==> p.processed[0] <= b <= last)
      && (forall b :: !(b in p.processed && b in p.skipped))
  }

  ghost predicate Counts(p: Progress, chain: Chain) {
    && p.totals.Keys == ZERO.Keys
    && (forall f: Family :: f in p.totals && p.totals[f] == CountOver(chain, p.processed, f))
    && (p.exported == p.totals || p.exported == map[])
  }

  ghost predicate ExactlyOnce(p: Progress, chain: Chain) {
    && Increasing(p.processed) && Increasing(p.skipped)
    && Covers(p)
    && Counts(p, chain)
    && p.errors == |p.skipped| + p.failures
  }

  lemma IntervalIs(low: nat, high: nat)
    requires low <= high
    ensures |Interval(low, high)| == high - low
    ensures forall i :: 0 <= i < high - low ==> Interval(low, high)[i] == low + i
    ensures forall b: nat :: b in Interval(low, high) <==> low <= b < high
    decreases high
  {
    if low != high {
      IntervalIs(low, high - 1);
    }
  }

  lemma CountOverSnoc(chain: Chain, blocks: seq<nat>, b: nat, f: Family)
    ensures CountOver(chain, blocks + [b], f) == CountOver(chain, blocks, f) + Count(chain(b), f)
  {
    assert (blocks + [b])[..|blocks|] == blocks;
  }

  lemma FailKeeps(p: Progress, chain: Chain, n: nat)
    requires ExactlyOnce(p, chain)
    ensures ExactlyOnce(Fail(p, n), chain)
  {}

  lemma WithdrawKeeps(p: Progress, chain: Chain)
    requires ExactlyOnce(p, chain)
    ensures ExactlyOnce(p.(exported := map[]), chain)
  {}

  /** Appending blocks above everything in s keeps it increasing. */
  lemma IncreasingAppend(s: seq<nat>, t: seq<nat>, bound: nat)
    requires Increasing(s) && Increasing(t)
    requires (forall b :: b in s ==> b <= bound) && (forall b :: b in t ==> bound < b)
    ensures Increasing(s + t)
    ensures forall b :: b in s + t <==> b in s || b in t
  {
    assert forall i :: 0 <= i < |s| ==> s[i] in s;
    assert forall i :: 0 <= i < |t| ==> t[i] in t;
  }

  lemma CountKeeps(p: Progress, chain: Chain, block: nat)
    requires ExactlyOnce(p, chain)
    requires p.last.Some? ==> block == p.last.value + 1
    ensures ExactlyOnce(Count1(p, chain, block), chain)
  {
    var q := Count1(p, chain, block);
    if p.last.Some? {
      IncreasingAppend(p.processed, [block], p.last.value);
    }
    assert Covers(q);
    CountsKeeps(p, chain, block);
  }

  lemma CountsKeeps(p: Progress, chain: Chain, block: nat)
    requires Counts(p, chain)
    ensures Counts(Count1(p, chain, block), chain)
  {
    hide Count, CountOver;
    var q := Count1(p, chain, block);
    assert q.totals.Keys == p.totals.Keys;
    forall f: Family ensures f in q.totals && q.totals[f] == CountOver(chain, q.processed, f) {
      assert f in p.totals;
      CountOverSnoc(chain, p.processed, block, f);
    }
  }

  lemma SkipKeeps(p: Progress, chain: Chain, first: nat)
    requires ExactlyOnce(p, chain) && p.last.Some? && p.last.value + 1 <= first
    ensures ExactlyOnce(Skip(p, p.last.value + 1, first), chain)
  {
    hide Counts;
    IntervalIs(p.last.value + 1, first);
    IncreasingAppend(p.skipped, Interval(p.last.value + 1, first), p.last.value);
    var q := Skip(p, p.last.value + 1, first);
    assert |q.skipped| == |p.skipped| + (first - p.last.value - 1);
    assert forall b: nat :: b in q.skipped <==> b in p.skipped || p.last.value + 1 <= b < first;
    assert p.processed[0] in p.processed;
    forall b: nat ensures (b in q.processed || b in q.skipped) <==> q.processed[0] <= b <= first - 1 {
      assert (b in p.processed || b in p.skipped) <==> p.processed[0] <= b <= p.last.value;
    }
    CountsUnmoved(p, q, chain);
  }

  lemma CountsUnmoved(p: Progress, q: Progress, chain: Chain)
    requires Counts(p, chain) && q.totals == p.totals && q.processed == p.processed
    requires q.exported == p.exported || q.exported == map[]
    ensures Counts(q, chain)
  {}

  /** A scrape keeps the invariant, whether the block is next in line or already behind. */
  lemma ScrapeKeeps(p: Progress, chain: Chain, block: nat, a: Attempt)
    requires ExactlyOnce(p, chain)
    requires p.last.Some? ==> block <= p.last.value + 1
    ensures ExactlyOnce(ScrapeOnce(p, chain, block, a).0, chain)
  {
    hide ExactlyOnce, Fail, Count1;
    if a.Raised? || Behind(p, block) {
      FailKeeps(p, chain, a.otherFailures);
    } else if a.Rejected? {
      WithdrawKeeps(p, chain);
      FailKeeps(p.(exported := map[]), chain, 1);
      FailKeeps(Fail(p.(exported := map[]), 1), chain, a.otherFailures);
    } else {
      CountKeeps(p, chain, block);
      FailKeeps(Count1(p, chain, block), chain, a.otherFailures);
    }
  }

  lemma {:induction false} SweepKeeps(p: Progress, chain: Chain, n: Notification, current: nat)
    requires ExactlyOnce(p, chain)
    requires p.last.Some? ==> current == p.last.value + 1
    ensures ExactlyOnce(Sweep(p, chain, n, current).0, chain)
    decreases n.block + 1 - current
  {
    hide ExactlyOnce, ScrapeOnce;
    if current <= n.block {
      ScrapeKeeps(p, chain, current, n.attempts(current));
      var (q, r) := ScrapeOnce(p, chain, current, n.attempts(current));
      if r.Returned? && q.last == Some(current) {
        SweepKeeps(q, chain, n, current + 1);
      }
    }
  }

  /** One notification, of any kind, keeps the invariant. */
  lemma ProcessKeeps(p: Progress, chain: Chain, n: Notification)
    requires ExactlyOnce(p, chain)
    ensures ExactlyOnce(Process(p, chain, n).0, chain)
  {
    hide ExactlyOnce, Sweep, ScrapeOnce;
    if p.last.None? {
      SweepKeeps(p, chain, n, n.block);
    } else if n.block == p.last.value {
      ScrapeKeeps(p, chain, n.block, n.attempts(n.block));
    } else if p.last.value < n.block {
      var from := p.last.value + 1;
      var first := FirstBlock(from, n.block);
      if first == from {
        SweepKeeps(p, chain, n, from);
      } else {
        SkipKeeps(p, chain, first);
        SweepKeeps(Skip(p, from, first), chain, n, first);
      }
    }
  }

  /** For every sequence of notifications, each block is counted exactly once or deliberately skipped. */
  lemma {:induction false} RunIsExactlyOnce(p: Progress, chain: Chain, ns: seq<Notification>)
    requires ExactlyOnce(p, chain)
    ensures ExactlyOnce(Run(p, chain, ns), chain)
    decreases |ns|
  {
    hide ExactlyOnce, Process;
    if ns != [] {
      ProcessKeeps(p, chain, ns[0]);
      RunIsExactlyOnce(Process(p, chain, ns[0]).0, chain, ns[1..]);
    }
  }

  lemma StartIsExactlyOnce(chain: Chain)
    ensures ExactlyOnce(START, chain)
  {}

  /** What one scrape of a block ahead of the cursor does to the history. */
  lemma ScrapeAhead(p: Progress, chain: Chain, block: nat, a: Attempt)
    requires !Behind(p, block)
    ensures var (q, r) := ScrapeOnce(p, chain, block, a);
            && q.skipped == p.skipped
            && q.processed == (if a.Recorded? then p.processed + [block] else p.processed)
            && q.last == (if a.Recorded? then Some(block) else p.last)
            && q.exported == (if a.Recorded? then q.totals else if a.Rejected? then map[] else p.exported)
            && q.failures == p.failures + a.otherFailures + (if a.Rejected? then 1 else 0)
            && (r.Threw? <==> a.Raised? || a.raisedLate)
            && (r == Returned(true) <==> a == Recorded(0, false))
  {
    hide Plus;
  }

  /** Where a sweep stops: it counts the blocks from current up to stop, in order, and stops at the
      head, at a block that failed (which stays next in line), or just after one that raised late. */
  lemma {:induction false} SweepStops(p: Progress, chain: Chain, n: Notification, current: nat) returns (stop: nat)
    requires current <= n.block + 1 && !Behind(p, current)
    ensures current <= stop <= n.block + 1
    ensures var (q, r) := Sweep(p, chain, n, current);
            && q.processed == p.processed + Interval(current, stop) && q.skipped == p.skipped
            && q.last == (if stop == current then p.last else Some(stop - 1))
            && (stop <= n.block ==>
                  || !n.attempts(stop).Recorded?
                  || (current < stop && n.attempts(stop - 1).Recorded? && n.attempts(stop - 1).raisedLate))
            && (r == Returned(true) ==> stop == n.block + 1)
            && (r == Returned(true) <==> forall b :: current <= b <= n.block ==> n.attempts(b) == Recorded(0, false))
    decreases n.block + 1 - current
  {
    hide ScrapeOnce, Interval;
    stop := current;
    IntervalIs(current, current);
    assert p.processed + Interval(current, current) == p.processed;
    if current <= n.block {
      ScrapeAhead(p, chain, current, n.attempts(current));
      var (q, r) := ScrapeOnce(p, chain, current, n.attempts(current));
      if n.attempts(current).Recorded? {
        stop := current + 1;
        IntervalIs(current, current + 1);
        assert Interval(current, current + 1) == [current];
        if r.Returned? {
          stop := SweepStops(q, chain, n, current + 1);
          JoinInterval(p.processed, current, stop);
        }
      }
    }
  }

  lemma JoinInterval(s: seq<nat>, low: nat, high: nat)
    requires low < high
    ensures (s + [low]) + Interval(low + 1, high) == s + Interval(low, high)
  {
    IntervalIs(low, high);
    IntervalIs(low + 1, high);
    assert [low] + Interval(low + 1, high) == Interval(low, high);
  }

  /** A notification answered true leaves nothing behind: its head is at or below the last recorded
      block. In one call at most the window's worth of blocks is counted, and the cursor never moves back. */
  lemma ProcessCatchesUp(p: Progress, chain: Chain, n: Notification)
    requires ExactlyOnce(p, chain)
    ensures var (q, r) := Process(p, chain, n);
            && (r == Returned(true) ==> q.last.Some? && n.block <= q.last.value)
            && p.processed <= q.processed && |q.processed| <= |p.processed| + MAX_EVENT_CATCH_UP_BLOCKS
            && (p.last.Some? ==> q.last.Some? && p.last.value <= q.last.value)
  {
    hide ExactlyOnce, Sweep, Plus;
    if p.last.None? {
      var stop := SweepStops(p, chain, n, n.block);
      IntervalIs(n.block, stop);
    } else if p.last.value < n.block {
      var from := p.last.value + 1;
      var first := FirstBlock(from, n.block);
      var stop := SweepStops(if first == from then p else Skip(p, from, first), chain, n, first);
      IntervalIs(first, stop);
    }
  }

  /** Which blocks a notification gives up and where its catch-up starts: a head more than 512 blocks ahead
      of the cursor costs exactly the blocks at least 512 below it, and all later ones are taken in turn. */
  lemma ProcessSkips(p: Progress, chain: Chain, n: Notification) returns (start: nat, stop: nat)
    requires ExactlyOnce(p, chain)
    ensures start <= stop <= Max(start, n.block + 1)
    ensures var q := Process(p, chain, n).0;
            && q.processed == p.processed + Interval(start, stop)
            && (p.last.None? ==> q.skipped == p.skipped && start == n.block)
            && (p.last.Some? ==>
                  && (forall b :: b in q.skipped <==> b in p.skipped || p.last.value < b <= n.block - 512)
                  && (n.block - p.last.value <= 512 ==> q.skipped == p.skipped)
                  && start == Max(p.last.value + 1, if n.block < 512 then 0 else n.block - 511)
                  && (n.block <= p.last.value ==> stop == start))
            && q.errors - p.errors == (|q.skipped| - |p.skipped|) + (q.failures - p.failures)
    ensures Process(p, chain, n).1 == Returned(true) && (p.last.None? || p.last.value < n.block) ==> stop == n.block + 1
    ensures (p.last.None? || p.last.value < n.block) ==>
              (Process(p, chain, n).1 == Returned(true) <==>
               forall b :: start <= b <= n.block ==> n.attempts(b) == Recorded(0, false))
  {
    hide Sweep, Interval, Plus;
    ProcessKeeps(p, chain, n);
    if p.last.None? {
      start := n.block;
      stop := SweepStops(p, chain, n, n.block);
    } else if p.last.value < n.block {
      start := FirstBlock(p.last.value + 1, n.block);
      var first := if start == p.last.value + 1 then p else Skip(p, p.last.value + 1, start);
      IntervalIs(p.last.value + 1, start);
      stop := SweepStops(first, chain, n, start);
    } else {
      start := Max(p.last.value + 1, if n.block < 512 then 0 else n.block - 511);
      stop := start;
      IntervalIs(start, stop);
      assert p.processed + Interval(start, stop) == p.processed;
      ScrapeBehind(p, chain, n.block, n.attempts(n.block));
    }
  }

  /** A stale head, or a repeated one without a full scrape due, does nothing; a repeated one with it may
      only fail in the other domains. */
  lemma OldHeadsCountNothing(p: Progress, chain: Chain, n: Notification)
    requires p.last.Some? && n.block <= p.last.value
    ensures n.block < p.last.value || !n.full ==> Process(p, chain, n) == (p, Returned(true))
    ensures n.block == p.last.value && n.full ==>
              var (q, r) := Process(p, chain, n);
              var a := n.attempts(n.block);
              && q == p.(errors := p.errors + a.otherFailures, failures := p.failures + a.otherFailures)
              && (r == Returned(true) <==> !a.Raised? && !a.raisedLate && a.otherFailures == 0)
  {}

  /** A scrape of a block at or behind the cursor leaves the history alone. */
  lemma ScrapeBehind(p: Progress, chain: Chain, block: nat, a: Attempt)
    requires Behind(p, block)
    ensures var q := ScrapeOnce(p, chain, block, a).0;
            && q.processed == p.processed && q.skipped == p.skipped && q.last == p.last
            && q.totals == p.totals && q.exported == p.exported
  {}
}

/** The exporter object, whose fields survive from one notification to the next. */
module ChainExporters {
  import opened Wrappers
  import opened FinalizedEvents

  method Observe(records: seq<Record>) returns (observed: Totals)
    ensures observed.Keys == ZERO.Keys
    ensures forall f :: f in observed ==> observed[f] == Count(records, f) == |Places(records, f)|
  {
    observed := ZERO;
    for i := 0 to |records|
      invariant observed.Keys == ZERO.Keys
      invariant forall f :: f in observed ==> observed[f] == Count(records[..i], f)
    {
      assert records[..i + 1][..i] == records[..i];
      match FamilyOf(records[i]) {
        case Some(f) => observed := observed[f := observed[f] + 1];
        case None =>
      }
    }
    assert records[..|records|] == records;
    forall f ensures Count(records, f) == |Places(records, f)| {
      CountIsPlaces(records, f);
    }
  }

  method Accumulate(totals: Totals, records: seq<Record>) returns (updated: Totals)
    requires totals.Keys == ZERO.Keys
    ensures updated == Plus(totals, records)
  {
    hide Count, Places;
    var observed := Observe(records);
    updated := map f | f in totals :: totals[f] + observed[f];
  }

  class ChainExporter {
    var lastEventBlock: Option<nat>
    var eventTotals: Totals
    var exported: Totals
    var scrapeErrors: nat
    ghost var processed: seq<nat>
    ghost var skipped: seq<nat>
    ghost var failures: nat

    ghost function Progressed(): Progress
      reads this
    {
      Progress(lastEventBlock, eventTotals, exported, scrapeErrors, processed, skipped, failures)
    }

    constructor ()
      ensures Progressed() == START
    {
      lastEventBlock, eventTotals, exported, scrapeErrors := None, ZERO, ZERO, 0;
      processed, skipped, failures := [], [], 0;
    }

    /** Count a block's records by family, unless the block is at or behind the cursor; fails closed when
        the records cannot be read. */
    method Events(block: nat, chain: Chain, readable: bool) returns (ok: bool)
      requires eventTotals.Keys == ZERO.Keys
      modifies this
      ensures ok <==> old(Behind(Progressed(), block)) || readable
      ensures Progressed() == if old(Behind(Progressed(), block)) || !readable then old(Progressed())
                              else Count1(old(Progressed()), chain, block)
    {
      hide Plus;
      if lastEventBlock.Some? && block <= lastEventBlock.value { return true; }
      if !readable { return false; }
      eventTotals := Accumulate(eventTotals, chain(block));
      exported := eventTotals;
      lastEventBlock := Some(block);
      processed := processed + [block];
      ok := true;
    }

    /** A domain that failed. */
    method DomainFailed(n: nat)
      modifies this
      ensures Progressed() == Fail(old(Progressed()), n)
    {
      scrapeErrors, failures := scrapeErrors + n, failures + n;
    }

    /** One scrape of any block: the event domain, then the other domains. */
    method Scrape(block: nat, chain: Chain, attempt: Attempt) returns (r: Outcome)
      requires eventTotals.Keys == ZERO.Keys
      modifies this
      ensures (Progressed(), r) == ScrapeOnce(old(Progressed()), chain, block, attempt)
    {
      hide Plus;
      if attempt.Raised? {
        DomainFailed(attempt.otherFailures);
        return Threw;
      }
      var ok := Events(block, chain, attempt.Recorded?);
      if !ok {
        exported := map[];
        DomainFailed(1);
      }
      DomainFailed(attempt.otherFailures);
      r := if attempt.raisedLate then Threw else Returned(ok && attempt.otherFailures == 0);
    }

    method ProcessFinalized(chain: Chain, n: Notification) returns (r: Outcome)
      requires ExactlyOnce(Progressed(), chain)
      modifies this
      ensures (Progressed(), r) == Process(old(Progressed()), chain, n)
      ensures ExactlyOnce(Progressed(), chain)
    {
      hide ExactlyOnce, Sweep, ScrapeOnce;
      ProcessKeeps(Progressed(), chain, n);
      TotalsComplete(Progressed(), chain);
      var first := n.block;
      if lastEventBlock.Some? {
        if n.block < lastEventBlock.value { return Returned(true); }
        if n.block == lastEventBlock.value {
          if !n.full { return Returned(true); }
          r := Scrape(n.block, chain, n.attempts(n.block));
          return;
        }
        first := lastEventBlock.value + 1;
        var gap := n.block - first + 1;
        if gap > MAX_EVENT_CATCH_UP_BLOCKS {
          var excess := gap - MAX_EVENT_CATCH_UP_BLOCKS;
          skipped := skipped + Interval(first, first + excess);
          first := first + excess;
          scrapeErrors := scrapeErrors + excess;
          lastEventBlock := Some(first - 1);
        }
      }
      r := CatchUp(chain, n, first);
    }

    /** The loop over the blocks of the window, oldest first. */
    method CatchUp(chain: Chain, n: Notification, first: nat) returns (r: Outcome)
      requires eventTotals.Keys == ZERO.Keys && first <= n.block
      requires lastEventBlock.Some? ==> lastEventBlock.value + 1 == first
      modifies this
      ensures (Progressed(), r) == Sweep(old(Progressed()), chain, n, first)
    {
      hide Sweep, ScrapeOnce;
      var complete := true;
      var current := first;
      while current <= n.block
        invariant first <= current <= n.block + 1
        invariant eventTotals.Keys == ZERO.Keys
        invariant lastEventBlock.Some? ==> lastEventBlock.value + 1 == current
        invariant var whole := Sweep(old(Progressed()), chain, n, first);
                  var rest := Sweep(Progressed(), chain, n, current);
                  && whole.0 == rest.0
                  && whole.1 == if rest.1.Returned? then Returned(rest.1.complete && complete) else rest.1
      {
        ghost var before := Progressed();
        SweepStep(before, chain, n, current);
        r := Scrape(current, chain, n.attempts(current));
        if r.Threw? { return; }
        complete := r.complete && complete;
        if lastEventBlock != Some(current) {
          return Returned(false);
        }
        current := current + 1;
      }
      SweepEnds(Progressed(), chain, n);
      r := Returned(complete);
    }
  }

  lemma SweepEnds(p: Progress, chain: Chain, n: Notification)
    ensures Sweep(p, chain, n, n.block + 1) == (p, Returned(true))
  {}

  /** One turn of the loop, and that a scrape keeps a total for every family and the cursor in reach. */
  lemma SweepStep(p: Progress, chain: Chain, n: Notification, current: nat)
    requires current <= n.block
    ensures var (q, r) := ScrapeOnce(p, chain, current, n.attempts(current));
            && q.totals.Keys == p.totals.Keys
            && Sweep(p, chain, n, current) ==
               if r.Threw? then (q, r)
               else if q.last != Some(current) then (q, Returned(false))
               else
                 var (end, rest) := Sweep(q, chain, n, current + 1);
                 (end, if rest.Returned? then Returned(rest.complete && r.complete) else rest)
  {}

  lemma TotalsComplete(p: Progress, chain: Chain)
    requires ExactlyOnce(p, chain)
    ensures p.totals.Keys == ZERO.Keys
  {}
}
