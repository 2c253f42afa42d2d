/** The fuzz crate's mock ledger: a vector of (position, owner, balance) changed in place. */
module MockBalances {
  import opened Vaults

  datatype Instrument = BranchClaim | LongClaim | ShortClaim | YesClaim(gate: Gate) | NoClaim(gate: Gate)

  datatype PositionId =
    | Proposal(proposal: nat, branch: Branch, instrument: Instrument)
    | Epoch(epoch: nat, side: Side)

  const U128_MAX: nat := 0xFFFF_FFFF_FFFF_FFFF_FFFF_FFFF_FFFF_FFFF

  type u128 = x: int | 0 <= x <= U128_MAX

  datatype Entry = Entry(id: PositionId, owner: nat, balance: u128)


  /** The index of the first entry for this position and owner, or the length if there is none. */
  function Find(v: seq<Entry>, id: PositionId, who: nat): (i: nat)
    ensures i <= |v|
    ensures i < |v| ==> v[i].id == id && v[i].owner == who
    ensures forall j :: 0 <= j < i ==> !(v[j].id == id && v[j].owner == who)
  {
    if v == [] then 0 else if v[0].id == id && v[0].owner == who then 0 else 1 + Find(v[1..], id, who)
  }

  function BalanceOf(v: seq<Entry>, id: PositionId, who: nat): u128 {
    var i := Find(v, id, who);
    if i < |v| then v[i].balance else 0
  }

  /** One step of a ledger call. */
  datatype Step = Credit(id: PositionId, who: nat, amount: u128) | Debit(id: PositionId, who: nat, amount: u128)

  /** A step succeeds unless it would overflow, overdraw, or debit an entry that does not exist. */
  predicate Goes(v: seq<Entry>, s: Step) {
    var i := Find(v, s.id, s.who);
    match s
    case Credit(_, _, amount) => i < |v| ==> v[i].balance + amount <= U128_MAX
    case Debit(_, _, amount) => i < |v| && amount <= v[i].balance
  }

  function Taken(v: seq<Entry>, s: Step): seq<Entry>
    requires Goes(v, s)
  {
    var i := Find(v, s.id, s.who);
    match s
    case Credit(id, who, amount) =>
      if i < |v| then v[i := v[i].(balance := v[i].balance + amount)]
      else if amount > 0 then v + [Entry(id, who, amount)] else v
    case Debit(_, _, amount) => v[i := v[i].(balance := v[i].balance - amount)]
  }

  datatype Result = Result(balances: seq<Entry>, ok: bool)

  /** The steps in order, stopping at the first that fails and keeping what came before it. */
  function Exec(v: seq<Entry>, steps: seq<Step>): Result
    decreases |steps|
  {
    if steps == [] then Result(v, true)
    else if !Goes(v, steps[0]) then Result(v, false)
    else Exec(Taken(v, steps[0]), steps[1..])
  }

  datatype Op =
    | DoSplit(pid: nat, who: nat, amount: u128)
    | DoMerge(pid: nat, who: nat, amount: u128)
    | DoSplitScalar(pid: nat, branch: Branch, who: nat, amount: u128)
    | DoMergeScalar(pid: nat, branch: Branch, who: nat, amount: u128)
    | DoSplitGate(pid: nat, branch: Branch, gate: Gate, who: nat, amount: u128)
    | DoMergeGate(pid: nat, branch: Branch, gate: Gate, who: nat, amount: u128)
    | DoSplitBaseline(epoch: nat, who: nat, amount: u128)
    | DoMergeBaseline(epoch: nat, who: nat, amount: u128)
    | DoTransfer(id: PositionId, source: nat, destination: nat, amount: u128)

  function StepsOf(op: Op): seq<Step> {
    match op
    case DoSplit(pid, who, a) =>
      [Credit(Proposal(pid, Accept, BranchClaim), who, a), Credit(Proposal(pid, Reject, BranchClaim), who, a)]
    case DoMerge(pid, who, a) =>
      [Debit(Proposal(pid, Accept, BranchClaim), who, a), Debit(Proposal(pid, Reject, BranchClaim), who, a)]
    case DoSplitScalar(pid, b, who, a) =>
      [Debit(Proposal(pid, b, BranchClaim), who, a),
       Credit(Proposal(pid, b, LongClaim), who, a), Credit(Proposal(pid, b, ShortClaim), who, a)]
    case DoMergeScalar(pid, b, who, a) =>
      [Debit(Proposal(pid, b, LongClaim), who, a), Debit(Proposal(pid, b, ShortClaim), who, a),
       Credit(Proposal(pid, b, BranchClaim), who, a)]
    case DoSplitGate(pid, b, g, who, a) =>
      [Debit(Proposal(pid, b, BranchClaim), who, a),
       Credit(Proposal(pid, b, YesClaim(g)), who, a), Credit(Proposal(pid, b, NoClaim(g)), who, a)]
    case DoMergeGate(pid, b, g, who, a) =>
      [Debit(Proposal(pid, b, YesClaim(g)), who, a), Debit(Proposal(pid, b, NoClaim(g)), who, a),
       Credit(Proposal(pid, b, BranchClaim), who, a)]
    case DoSplitBaseline(epoch, who, a) => [Credit(Epoch(epoch, Long), who, a), Credit(Epoch(epoch, Short), who, a)]
    case DoMergeBaseline(epoch, who, a) => [Debit(Epoch(epoch, Long), who, a), Debit(Epoch(epoch, Short), who, a)]
    case DoTransfer(id, from, to, a) => [Debit(id, from, a), Credit(id, to, a)]
  }

  // ---------- The vector behaves as a map ----------

  /** At most one entry for each position and owner. */
  ghost predicate Unique(v: seq<Entry>) {
    forall i, j :: 0 <= i < j < |v| ==> v[i].id != v[j].id || v[i].owner != v[j].owner
  }

  lemma UniqueFind(v: seq<Entry>, i: nat)
    requires Unique(v) && i < |v|
    ensures Find(v, v[i].id, v[i].owner) == i
  {}

  function Change(s: Step): int { if s.Credit? then s.amount else 0 - s.amount }

  /** Steps rewrite balances in place or append, so keys stay put and stay unique. */
  lemma StepKeys(v: seq<Entry>, s: Step)
    requires Unique(v) && Goes(v, s)
    ensures var w := Taken(v, s);
            && Unique(w) && |v| <= |w|
            && (forall j :: 0 <= j < |v| ==> w[j].id == v[j].id && w[j].owner == v[j].owner)
            && (forall j :: 0 <= j < |v| && j != Find(v, s.id, s.who) ==> w[j] == v[j])
  {}

  /** A step moves the balance of its own position and owner, and no other. */
  lemma StepEffect(v: seq<Entry>, s: Step, id: PositionId, who: nat)
    requires Unique(v) && Goes(v, s)
    ensures Unique(Taken(v, s))
    ensures BalanceOf(Taken(v, s), id, who) == BalanceOf(v, id, who) + Own(s, id, who)
    ensures Find(v, id, who) < |v| ==> Find(Taken(v, s), id, who) < |Taken(v, s)|
    ensures Find(Taken(v, s), id, who) < |Taken(v, s)| ==>
            Find(v, id, who) < |v| || (s.id == id && s.who == who && s.amount > 0)
  {
    var w := Taken(v, s);
    StepKeys(v, s);
    var i := Find(v, id, who);
    hide Unique;
    if i < |v| {
      assert w[i].id == id && w[i].owner == who;
      UniqueFind(w, i);
    } else if |w| > |v| && s.id == id && s.who == who {
      assert w[|v|] == Entry(id, who, s.amount);
      UniqueFind(w, |v|);
    } else {
      assert |w| > |v| ==> w[|v|] == Entry(s.id, s.who, s.amount);
    }
  }

  /** What a step adds to one balance. */
  function Own(s: Step, id: PositionId, who: nat): int { if s.id == id && s.who == who then Change(s) else 0 }

  // ---------- Calls ----------

  /** What a list of steps adds to one balance. */
  function NetChange(steps: seq<Step>, id: PositionId, who: nat): int {
    if steps == [] then 0
    else Own(steps[0], id, who) + NetChange(steps[1..], id, who)
  }

  lemma {:induction false} ExecEffect(v: seq<Entry>, steps: seq<Step>)
    requires Unique(v)
    ensures Unique(Exec(v, steps).balances)
    ensures Exec(v, steps).ok ==>
              forall id, who :: BalanceOf(Exec(v, steps).balances, id, who) ==
                  BalanceOf(v, id, who) + NetChange(steps, id, who)
    decreases |steps|
  {
    hide Unique, Taken, BalanceOf, Goes;
    if steps != [] && Goes(v, steps[0]) {
      StepEffect(v, steps[0], steps[0].id, steps[0].who);
      ExecEffect(Taken(v, steps[0]), steps[1..]);
      forall id, who | Exec(v, steps).ok
        ensures BalanceOf(Exec(v, steps).balances, id, who) == BalanceOf(v, id, who) + NetChange(steps, id, who)
      {
        StepEffect(v, steps[0], id, who);
      }
    }
  }

  // ---------- Conservation per proposal ----------

  /** The sum of the balances whose position is counted. */
  function Total(v: seq<Entry>, counts: PositionId -> bool): nat {
    if v == [] then 0
    else Total(v[..|v| - 1], counts) + (if counts(v[|v| - 1].id) then v[|v| - 1].balance else 0)
  }

  lemma {:induction false} TotalUpdate(v: seq<Entry>, counts: PositionId -> bool, i: nat, balance: u128)
    requires i < |v|
    ensures Total(v[i := v[i].(balance := balance)], counts) ==
            Total(v, counts) + (if counts(v[i].id) then balance - v[i].balance else 0)
  {
    var w, n := v[i := v[i].(balance := balance)], |v| - 1;
    if i < n {
      TotalUpdate(v[..n], counts, i, balance);
      assert w[..n] == v[..n][i := v[..n][i].(balance := balance)];
    } else {
      assert w[..n] == v[..n];
    }
  }

  lemma StepTotal(v: seq<Entry>, s: Step, counts: PositionId -> bool)
    requires Goes(v, s)
    ensures Total(Taken(v, s), counts) == Total(v, counts) + Part(s, counts)
  {
    var i := Find(v, s.id, s.who);
    if i < |v| {
      TotalUpdate(v, counts, i, if s.Credit? then v[i].balance + s.amount else v[i].balance - s.amount);
    } else if s.amount > 0 {
      var w := v + [Entry(s.id, s.who, s.amount)];
      assert w[..|v|] == v;
    }
  }

  function Part(s: Step, counts: PositionId -> bool): int { if counts(s.id) then Change(s) else 0 }

  function NetTotal(steps: seq<Step>, counts: PositionId -> bool): int {
    if steps == [] then 0 else Part(steps[0], counts) + NetTotal(steps[1..], counts)
  }

  /** The steps a call got through. */
  function Done(v: seq<Entry>, steps: seq<Step>): seq<Step>
    decreases |steps|
  {
    if steps == [] || !Goes(v, steps[0]) then [] else [steps[0]] + Done(Taken(v, steps[0]), steps[1..])
  }

  /** Every call, successful or not, moves a total by exactly the steps it got through. */
  lemma {:induction false} ExecTotal(v: seq<Entry>, steps: seq<Step>, counts: PositionId -> bool)
    ensures Total(Exec(v, steps).balances, counts) == Total(v, counts) + NetTotal(Done(v, steps), counts)
    ensures Exec(v, steps).ok <==> Done(v, steps) == steps
    decreases |steps|
  {
    hide Taken, Goes, Total, Change;
    if steps != [] && Goes(v, steps[0]) {
      StepTotal(v, steps[0], counts);
      ExecTotal(Taken(v, steps[0]), steps[1..], counts);
      var rest := Done(Taken(v, steps[0]), steps[1..]);
      assert ([steps[0]] + rest)[1..] == rest;
      assert steps == [steps[0]] + steps[1..];
    }
  }

  /** A branch's claims: branch-USDC, one leg of each scalar pair, one leg of each gate pair. */
  function Claims(pid: nat, b: Branch): PositionId -> bool {
    (id: PositionId) =>
      && id.Proposal? && id.proposal == pid && id.branch == b
      && (id.instrument.BranchClaim? || id.instrument.LongClaim? || id.instrument.YesClaim?)
  }

  function Legs(pid: nat, b: Branch, leg: Instrument): PositionId -> bool {
    (id: PositionId) => id == Proposal(pid, b, leg)
  }

  ghost predicate Conserved(v: seq<Entry>, pid: nat) {
    && Total(v, Claims(pid, Accept)) == Total(v, Claims(pid, Reject))
    && (forall b :: Total(v, Legs(pid, b, LongClaim)) == Total(v, Legs(pid, b, ShortClaim)))
    && (forall b, g :: Total(v, Legs(pid, b, YesClaim(g))) == Total(v, Legs(pid, b, NoClaim(g))))
  }

  /** The net effect of a whole call on a total. */
  function OpNet(op: Op, counts: PositionId -> bool): int {
    var s := StepsOf(op);
    Part(s[0], counts) + Part(s[1], counts) + (if |s| == 3 then Part(s[2], counts) else 0)
  }

  lemma NetIsOpNet(op: Op, counts: PositionId -> bool)
    ensures NetTotal(StepsOf(op), counts) == OpNet(op, counts)
  {
    hide StepsOf, Part;
    var s := StepsOf(op);
    StepCount(op);
    assert s[1..][1..] == s[2..];
    assert NetTotal(s[1..], counts) == Part(s[1], counts) + NetTotal(s[2..], counts);
    if |s| == 3 {
      assert s[2..] == [s[2]] && [s[2]][1..] == [];
    }
  }

  lemma StepCount(op: Op)
    ensures 2 <= |StepsOf(op)| <= 3
  {}

  lemma CallTotal(v: seq<Entry>, op: Op, counts: PositionId -> bool)
    requires Exec(v, StepsOf(op)).ok
    ensures Total(Exec(v, StepsOf(op)).balances, counts) == Total(v, counts) + OpNet(op, counts)
  {
    hide StepsOf, Exec, Total, OpNet;
    ExecTotal(v, StepsOf(op), counts);
    NetIsOpNet(op, counts);
  }

  /** Every successful transfer, split and merge keeps every proposal conserved. */
  lemma CallConserves(v: seq<Entry>, op: Op, pid: nat)
    requires Conserved(v, pid) && Exec(v, StepsOf(op)).ok
    ensures Conserved(Exec(v, StepsOf(op)).balances, pid)
  {
    hide Exec, Total;
    CallTotal(v, op, Claims(pid, Accept));
    CallTotal(v, op, Claims(pid, Reject));
    ClaimsEven(op, pid);
    var w := Exec(v, StepsOf(op)).balances;
    forall b ensures Total(w, Legs(pid, b, LongClaim)) == Total(w, Legs(pid, b, ShortClaim)) {
      CallTotal(v, op, Legs(pid, b, LongClaim));
      CallTotal(v, op, Legs(pid, b, ShortClaim));
      LegsEven(op, pid, b, LongClaim, ShortClaim);
    }
    forall b, g ensures Total(w, Legs(pid, b, YesClaim(g))) == Total(w, Legs(pid, b, NoClaim(g))) {
      CallTotal(v, op, Legs(pid, b, YesClaim(g)));
      CallTotal(v, op, Legs(pid, b, NoClaim(g)));
      LegsEven(op, pid, b, YesClaim(g), NoClaim(g));
    }
  }

  lemma ClaimsEven(op: Op, pid: nat)
    ensures OpNet(op, Claims(pid, Accept)) == OpNet(op, Claims(pid, Reject))
  {}

  /** The two legs of a pair are created and destroyed together. */
  lemma LegsEven(op: Op, pid: nat, b: Branch, x: Instrument, y: Instrument)
    requires (x.LongClaim? && y.ShortClaim?) || (x.YesClaim? && y.NoClaim? && x.gate == y.gate)
    ensures OpNet(op, Legs(pid, b, x)) == OpNet(op, Legs(pid, b, y))
  {}

  // ---------- Conservation per epoch ----------

  function EpochLegs(epoch: nat, side: Side): PositionId -> bool {
    (id: PositionId) => id == Epoch(epoch, side)
  }

  ghost predicate EpochConserved(v: seq<Entry>, epoch: nat) {
    Total(v, EpochLegs(epoch, Long)) == Total(v, EpochLegs(epoch, Short))
  }

  /** Every successful call keeps every epoch's Long and Short totals equal. */
  lemma CallConservesEpoch(v: seq<Entry>, op: Op, epoch: nat)
    requires EpochConserved(v, epoch) && Exec(v, StepsOf(op)).ok
    ensures EpochConserved(Exec(v, StepsOf(op)).balances, epoch)
  {
    hide Exec, Total;
    CallTotal(v, op, EpochLegs(epoch, Long));
    CallTotal(v, op, EpochLegs(epoch, Short));
    EpochEven(op, epoch);
  }

  lemma EpochEven(op: Op, epoch: nat)
    ensures OpNet(op, EpochLegs(epoch, Long)) == OpNet(op, EpochLegs(epoch, Short))
  {}

  // ---------- Calls that fail half way ----------

  predicate OnProposal(op: Op, pid: nat) {
    match op
    case DoSplitBaseline(_, _, _) => false
    case DoMergeBaseline(_, _, _) => false
    case DoTransfer(id, _, _, _) => id.Proposal? && id.proposal == pid
    case _ => op.pid == pid
  }

  /** What the first k steps of a call add to a total. */
  function Partial(op: Op, k: nat, counts: PositionId -> bool): int {
    var s := StepsOf(op);
    (if k >= 1 then Part(s[0], counts) else 0) + (if k >= 2 then Part(s[1], counts) else 0)
  }

  lemma {:induction false} DoneIsPrefix(v: seq<Entry>, steps: seq<Step>)
    ensures |Done(v, steps)| <= |steps| && Done(v, steps) == steps[..|Done(v, steps)|]
    ensures steps != [] ==> (Done(v, steps) == [] <==> !Goes(v, steps[0]))
    decreases |steps|
  {
    hide Goes, Taken;
    if steps != [] && Goes(v, steps[0]) {
      DoneIsPrefix(Taken(v, steps[0]), steps[1..]);
    }
  }

  ghost predicate Moved(v: seq<Entry>, w: seq<Entry>, op: Op, k: nat, counts: PositionId -> bool) {
    Total(w, counts) == Total(v, counts) + Partial(op, k, counts)
  }

  /** A failed call moves each total by the steps before the one that failed. */
  lemma FailedTotal(v: seq<Entry>, op: Op, counts: PositionId -> bool)
    requires !Exec(v, StepsOf(op)).ok
    ensures var k := |Done(v, StepsOf(op))|;
            && k < |StepsOf(op)| && (k == 0 <==> !Goes(v, StepsOf(op)[0]))
            && Total(Exec(v, StepsOf(op)).balances, counts) == Total(v, counts) + Partial(op, k, counts)
  {
    hide StepsOf, Exec, Total, Part, Goes;
    var s := StepsOf(op);
    var d := Done(v, s);
    StepCount(op);
    ExecTotal(v, s, counts);
    DoneIsPrefix(v, s);
    assert s[..|s|] == s;
    PrefixNet(s, |d|, counts);
  }

  lemma PrefixNet(s: seq<Step>, k: nat, counts: PositionId -> bool)
    requires k < |s| <= 3
    ensures NetTotal(s[..k], counts) ==
            (if k >= 1 then Part(s[0], counts) else 0) + (if k >= 2 then Part(s[1], counts) else 0)
  {
    hide Part;
    var d := s[..k];
    if k == 1 {
      assert d[1..] == [] && d[0] == s[0];
    } else if k == 2 {
      assert d[1..] == [s[1]] && [s[1]][1..] == [] && d[0] == s[0];
      assert NetTotal([s[1]], counts) == Part(s[1], counts);
    }
  }

  /** The first k steps treat the two branches, or some pair of legs, unequally. */
  ghost predicate Lopsided(op: Op, k: nat, pid: nat) {
    || Partial(op, k, Claims(pid, Accept)) != Partial(op, k, Claims(pid, Reject))
    || (exists b :: Partial(op, k, Legs(pid, b, LongClaim)) != Partial(op, k, Legs(pid, b, ShortClaim)))
    || (exists b, g :: Partial(op, k, Legs(pid, b, YesClaim(g))) != Partial(op, k, Legs(pid, b, NoClaim(g))))
  }

  lemma PartOfProposalIsLopsided(op: Op, k: nat, pid: nat)
    requires OnProposal(op, pid) && op.amount > 0 && 1 <= k < |StepsOf(op)|
    ensures Lopsided(op, k, pid)
  {
    match op
    case DoSplit(_, _, _) =>
    case DoMerge(_, _, _) =>
    case DoSplitScalar(_, b, _, _) =>
      assert k == 2 ==> Partial(op, k, Legs(pid, b, LongClaim)) != Partial(op, k, Legs(pid, b, ShortClaim));
    case DoMergeScalar(_, b, _, _) =>
      assert k == 1 ==> Partial(op, k, Legs(pid, b, LongClaim)) != Partial(op, k, Legs(pid, b, ShortClaim));
    case DoSplitGate(_, b, g, _, _) =>
      assert k == 2 ==> Partial(op, k, Legs(pid, b, YesClaim(g))) != Partial(op, k, Legs(pid, b, NoClaim(g)));
    case DoMergeGate(_, b, g, _, _) =>
      assert k == 1 ==> Partial(op, k, Legs(pid, b, YesClaim(g))) != Partial(op, k, Legs(pid, b, NoClaim(g)));
    case DoTransfer(id, _, _, _) => MovedPartIsLopsided(op, pid);
  }

  lemma MovedPartIsLopsided(op: Op, pid: nat)
    requires op.DoTransfer? && op.id.Proposal? && op.id.proposal == pid && op.amount > 0
    ensures Lopsided(op, 1, pid)
  {
    var b := op.id.branch;
    match op.id.instrument
    case BranchClaim =>
    case LongClaim => assert Partial(op, 1, Legs(pid, b, LongClaim)) != Partial(op, 1, Legs(pid, b, ShortClaim));
    case ShortClaim => assert Partial(op, 1, Legs(pid, b, LongClaim)) != Partial(op, 1, Legs(pid, b, ShortClaim));
    case YesClaim(g) => assert Partial(op, 1, Legs(pid, b, YesClaim(g))) != Partial(op, 1, Legs(pid, b, NoClaim(g)));
    case NoClaim(g) => assert Partial(op, 1, Legs(pid, b, YesClaim(g))) != Partial(op, 1, Legs(pid, b, NoClaim(g)));
  }

  lemma OtherPartsAreNothing(op: Op, k: nat, pid: nat)
    requires !OnProposal(op, pid) || op.amount == 0 || k == 0
    ensures !Lopsided(op, k, pid)
  {
    hide Partial, OnProposal;
    forall c: PositionId -> bool | forall id :: c(id) ==> id.Proposal? && id.proposal == pid
      ensures Partial(op, k, c) == 0
    {
      ElsewhereIsNothing(op, k, pid, c);
    }
  }

  lemma ElsewhereIsNothing(op: Op, k: nat, pid: nat, counts: PositionId -> bool)
    requires !OnProposal(op, pid) || op.amount == 0 || k == 0
    requires forall id :: counts(id) ==> id.Proposal? && id.proposal == pid
    ensures Partial(op, k, counts) == 0
  {}

  /** No call is atomic. A failed call keeps a proposal conserved exactly when it is not on that proposal,
      its amount is zero, or its very first step was refused. */
  lemma FailedCallConservesIff(v: seq<Entry>, op: Op, pid: nat)
    requires Conserved(v, pid) && !Exec(v, StepsOf(op)).ok
    ensures Conserved(Exec(v, StepsOf(op)).balances, pid) <==>
            !OnProposal(op, pid) || op.amount == 0 || !Opens(v, op)
  {
    hide StepsOf, Exec, Total, Goes, Done, Partial, OnProposal, Opens;
    OpensIff(v, op);
    var w, k := Exec(v, StepsOf(op)).balances, |Done(v, StepsOf(op))|;
    FailedTotal(v, op, Claims(pid, Accept));
    FailedTotal(v, op, Claims(pid, Reject));
    forall b
      ensures Moved(v, w, op, k, Legs(pid, b, LongClaim)) && Moved(v, w, op, k, Legs(pid, b, ShortClaim))
    {
      FailedTotal(v, op, Legs(pid, b, LongClaim));
      FailedTotal(v, op, Legs(pid, b, ShortClaim));
    }
    forall b, g
      ensures Moved(v, w, op, k, Legs(pid, b, YesClaim(g))) && Moved(v, w, op, k, Legs(pid, b, NoClaim(g)))
    {
      FailedTotal(v, op, Legs(pid, b, YesClaim(g)));
      FailedTotal(v, op, Legs(pid, b, NoClaim(g)));
    }
    assert Conserved(w, pid) <==> !Lopsided(op, k, pid);
    if OnProposal(op, pid) && op.amount > 0 && Goes(v, StepsOf(op)[0]) {
      PartOfProposalIsLopsided(op, k, pid);
    } else {
      OtherPartsAreNothing(op, k, pid);
    }
  }

  predicate OnEpoch(op: Op, epoch: nat) {
    match op
    case DoSplitBaseline(e, _, _) => e == epoch
    case DoMergeBaseline(e, _, _) => e == epoch
    case DoTransfer(id, _, _, _) => id.Epoch? && id.epoch == epoch
    case _ => false
  }

  /** The same for an epoch's pair of legs. */
  lemma FailedCallConservesEpochIff(v: seq<Entry>, op: Op, epoch: nat)
    requires EpochConserved(v, epoch) && !Exec(v, StepsOf(op)).ok
    ensures EpochConserved(Exec(v, StepsOf(op)).balances, epoch) <==>
            !OnEpoch(op, epoch) || op.amount == 0 || !Opens(v, op)
  {
    OpensIff(v, op);
    hide Exec, Total, Goes, Done, Opens;
    FailedTotal(v, op, EpochLegs(epoch, Long));
    FailedTotal(v, op, EpochLegs(epoch, Short));
    EpochPart(op, |Done(v, StepsOf(op))|, epoch);
    hide StepsOf, Partial, OnEpoch;
  }

  lemma EpochPart(op: Op, k: nat, epoch: nat)
    requires k < |StepsOf(op)|
    ensures Partial(op, k, EpochLegs(epoch, Long)) == Partial(op, k, EpochLegs(epoch, Short)) <==>
            !OnEpoch(op, epoch) || op.amount == 0 || k == 0
  {
    if OnEpoch(op, epoch) {
      match op
      case DoSplitBaseline(_, _, _) =>
      case DoMergeBaseline(_, _, _) =>
      case DoTransfer(id, _, _, _) => assert id.side.Long? || id.side.Short?;
    } else {
      assert forall side :: Partial(op, k, EpochLegs(epoch, side)) == 0;
    }
  }

  // ---------- Runs ----------

  datatype Ran = Ran(balances: seq<Entry>, verdicts: seq<bool>)

  /** Calls one after the other; a failed call's steps stand and the run goes on. */
  function RunAll(v: seq<Entry>, ops: seq<Op>): Ran
    decreases |ops|
  {
    if ops == [] then Ran(v, [])
    else
      var r := Exec(v, StepsOf(ops[0]));
      var rest := RunAll(r.balances, ops[1..]);
      Ran(rest.balances, [r.ok] + rest.verdicts)
  }

  /** The call leaves nothing half done: it succeeds, moves nothing, or is refused at its first step. */
  ghost predicate Whole(v: seq<Entry>, op: Op) {
    Exec(v, StepsOf(op)).ok || op.amount == 0 || !Opens(v, op)
  }

  /** Along the run, every call of the given kind leaves nothing half done. */
  ghost predicate AllWhole(v: seq<Entry>, ops: seq<Op>, kind: Op -> bool)
    decreases |ops|
  {
    ops == [] ||
    ((kind(ops[0]) ==> Whole(v, ops[0])) && AllWhole(Exec(v, StepsOf(ops[0])).balances, ops[1..], kind))
  }

  function ProposalCalls(pid: nat): Op -> bool { (op: Op) => OnProposal(op, pid) }

  function EpochCalls(epoch: nat): Op -> bool { (op: Op) => OnEpoch(op, epoch) }

  /** A run whose calls on a proposal leave nothing half done, whatever else fails, keeps it conserved. */
  lemma {:induction false} RunConserves(v: seq<Entry>, ops: seq<Op>, pid: nat)
    requires Conserved(v, pid) && AllWhole(v, ops, ProposalCalls(pid))
    ensures Conserved(RunAll(v, ops).balances, pid)
    decreases |ops|
  {
    hide Conserved, Exec, StepsOf, OnProposal, Opens;
    if ops != [] {
      var r := Exec(v, StepsOf(ops[0]));
      if r.ok {
        CallConserves(v, ops[0], pid);
      } else {
        FailedCallConservesIff(v, ops[0], pid);
      }
      RunConserves(r.balances, ops[1..], pid);
    }
  }

  lemma {:induction false} RunConservesEpoch(v: seq<Entry>, ops: seq<Op>, epoch: nat)
    requires EpochConserved(v, epoch) && AllWhole(v, ops, EpochCalls(epoch))
    ensures EpochConserved(RunAll(v, ops).balances, epoch)
    decreases |ops|
  {
    hide EpochConserved, Exec, StepsOf, OnEpoch, Opens;
    if ops != [] {
      var r := Exec(v, StepsOf(ops[0]));
      if r.ok {
        CallConservesEpoch(v, ops[0], epoch);
      } else {
        FailedCallConservesEpochIff(v, ops[0], epoch);
      }
      RunConservesEpoch(r.balances, ops[1..], epoch);
    }
  }

  lemma {:induction false} SuccessIsWhole(v: seq<Entry>, ops: seq<Op>, kind: Op -> bool)
    requires forall i :: 0 <= i < |RunAll(v, ops).verdicts| ==> RunAll(v, ops).verdicts[i]
    ensures AllWhole(v, ops, kind)
    decreases |ops|
  {
    hide Exec, StepsOf, Opens;
    if ops != [] {
      var r := Exec(v, StepsOf(ops[0]));
      var all, rest := RunAll(v, ops).verdicts, RunAll(r.balances, ops[1..]).verdicts;
      assert all[0] == r.ok;
      assert forall i :: 0 <= i < |rest| ==> rest[i] == all[i + 1];
      SuccessIsWhole(r.balances, ops[1..], kind);
    }
  }

  /** One holder has the Accept claim and another the Reject claim: the first one's merge fails, yet
      destroys the Accept claim. */
  lemma FailedMergeExample(v: seq<Entry>, pid: nat, who: nat, other: nat, amount: u128)
    requires who != other && amount > 0
    requires v == [Entry(Proposal(pid, Accept, BranchClaim), who, amount),
                   Entry(Proposal(pid, Reject, BranchClaim), other, amount)]
    ensures Total(v, Claims(pid, Accept)) == Total(v, Claims(pid, Reject)) == amount
    ensures var r := Exec(v, StepsOf(DoMerge(pid, who, amount)));
            !r.ok && Total(r.balances, Claims(pid, Accept)) == 0 && Total(r.balances, Claims(pid, Reject)) == amount
  {
    var steps := StepsOf(DoMerge(pid, who, amount));
    ExecTwo(v, steps[0], steps[1]);
    var w := Taken(v, steps[0]);
    assert w == v[0 := v[0].(balance := 0)];
    ExecOne(w, steps[1]);
    TwoTotal(v[0], v[1], Claims(pid, Accept));
    TwoTotal(v[0], v[1], Claims(pid, Reject));
    TwoTotal(w[0], w[1], Claims(pid, Accept));
    TwoTotal(w[0], w[1], Claims(pid, Reject));
    assert v == [v[0], v[1]] && w == [w[0], w[1]];
    hide Total;
  }

  lemma TwoTotal(x: Entry, y: Entry, counts: PositionId -> bool)
    ensures Total([x, y], counts) == (if counts(x.id) then x.balance else 0) + (if counts(y.id) then y.balance else 0)
  {
    assert [x, y][..1] == [x] && [x][..0] == [];
    assert Total([x], counts) == if counts(x.id) then x.balance else 0;
  }

  // ---------- Merging undoes splitting ----------

  /** The merge that matches a split. */
  function Undo(op: Op): Op
    requires op.DoSplit? || op.DoSplitScalar? || op.DoSplitGate? || op.DoSplitBaseline?
  {
    match op
    case DoSplit(pid, who, a) => DoMerge(pid, who, a)
    case DoSplitScalar(pid, b, who, a) => DoMergeScalar(pid, b, who, a)
    case DoSplitGate(pid, b, g, who, a) => DoMergeGate(pid, b, g, who, a)
    case DoSplitBaseline(e, who, a) => DoMergeBaseline(e, who, a)
  }

  function OpChange(op: Op, id: PositionId, who: nat): int {
    var s := StepsOf(op);
    Own(s[0], id, who) + Own(s[1], id, who) + (if |s| == 3 then Own(s[2], id, who) else 0)
  }

  lemma NetIsOpChange(op: Op, id: PositionId, who: nat)
    ensures NetChange(StepsOf(op), id, who) == OpChange(op, id, who)
  {
    hide StepsOf, Own;
    var s := StepsOf(op);
    StepCount(op);
    NetOfTail(s, id, who);
    assert NetChange(s, id, who) == Own(s[0], id, who) + NetChange(s[1..], id, who);
  }

  lemma NetOfTail(s: seq<Step>, id: PositionId, who: nat)
    requires 2 <= |s| <= 3
    ensures NetChange(s[1..], id, who) == Own(s[1], id, who) + (if |s| == 3 then Own(s[2], id, who) else 0)
  {
    hide Own;
    var t := s[1..];
    assert NetChange(t, id, who) == Own(t[0], id, who) + NetChange(t[1..], id, who);
    if |s| == 3 {
      assert t[1..] == [s[2]];
      assert NetChange([s[2]], id, who) == Own(s[2], id, who) + NetChange([], id, who);
    } else {
      assert t[1..] == [];
    }
  }

  /** Each split followed by its matching merge, both successful, restores every balance. */
  lemma MergeUndoesSplit(v: seq<Entry>, op: Op)
    requires Unique(v) && (op.DoSplit? || op.DoSplitScalar? || op.DoSplitGate? || op.DoSplitBaseline?)
    requires Exec(v, StepsOf(op)).ok && Exec(Exec(v, StepsOf(op)).balances, StepsOf(Undo(op))).ok
    ensures var w := Exec(Exec(v, StepsOf(op)).balances, StepsOf(Undo(op))).balances;
            forall id, who :: BalanceOf(w, id, who) == BalanceOf(v, id, who)
  {
    hide Exec, Unique, BalanceOf;
    var w := Exec(v, StepsOf(op)).balances;
    ExecEffect(v, StepsOf(op));
    ExecEffect(w, StepsOf(Undo(op)));
    forall id, who ensures NetChange(StepsOf(op), id, who) + NetChange(StepsOf(Undo(op)), id, who) == 0 {
      NetIsOpChange(op, id, who);
      NetIsOpChange(Undo(op), id, who);
      ChangesCancel(op, id, who);
    }
  }

  lemma ChangesCancel(op: Op, id: PositionId, who: nat)
    requires op.DoSplit? || op.DoSplitScalar? || op.DoSplitGate? || op.DoSplitBaseline?
    ensures OpChange(op, id, who) + OpChange(Undo(op), id, who) == 0
  {}

  /** The two positions a split credits in pairs, which the matching merge debits first. */
  function PairOf(op: Op): (PositionId, PositionId)
    requires op.DoSplit? || op.DoSplitScalar? || op.DoSplitGate? || op.DoSplitBaseline?
  {
    match op
    case DoSplit(pid, _, _) => (Proposal(pid, Accept, BranchClaim), Proposal(pid, Reject, BranchClaim))
    case DoSplitScalar(pid, b, _, _) => (Proposal(pid, b, LongClaim), Proposal(pid, b, ShortClaim))
    case DoSplitGate(pid, b, g, _, _) => (Proposal(pid, b, YesClaim(g)), Proposal(pid, b, NoClaim(g)))
    case DoSplitBaseline(e, _, _) => (Epoch(e, Long), Epoch(e, Short))
  }

  predicate Present(v: seq<Entry>, id: PositionId, who: nat) { Find(v, id, who) < |v| }

  /** After a list of steps a position is present if it was before or was credited a positive amount. */
  lemma {:induction false} ExecPresence(v: seq<Entry>, steps: seq<Step>, id: PositionId, who: nat)
    requires Unique(v) && Exec(v, steps).ok
    ensures Present(Exec(v, steps).balances, id, who) <==>
            || Present(v, id, who)
            || exists i :: 0 <= i < |steps| && steps[i].id == id && steps[i].who == who && steps[i].amount > 0
    decreases |steps|
  {
    hide Unique, Taken, Goes, Find;
    if steps != [] {
      StepPresence(v, steps[0], id, who);
      ExecPresence(Taken(v, steps[0]), steps[1..], id, who);
      assert forall i :: 0 <= i < |steps[1..]| ==> steps[1..][i] == steps[i + 1];
      if i :| 0 <= i < |steps| && steps[i].id == id && steps[i].who == who && steps[i].amount > 0 {
        assert i > 0 ==> steps[1..][i - 1] == steps[i];
      }
    }
  }

  lemma StepPresence(v: seq<Entry>, s: Step, id: PositionId, who: nat)
    requires Unique(v) && Goes(v, s)
    ensures Unique(Taken(v, s))
    ensures Present(Taken(v, s), id, who) <==> Present(v, id, who) || (s.id == id && s.who == who && s.amount > 0)
  {
    hide Unique;
    StepEffect(v, s, id, who);
    if s.id == id && s.who == who && s.amount > 0 && !Present(v, id, who) {
      assert Taken(v, s)[|v|] == Entry(id, who, s.amount);
    }
  }

  /** After a successful split the matching merge succeeds exactly when the amount is positive or both
      paired entries already exist: a debit of nothing still needs an entry to debit. */
  lemma UndoGoesIff(v: seq<Entry>, op: Op)
    requires Unique(v) && (op.DoSplit? || op.DoSplitScalar? || op.DoSplitGate? || op.DoSplitBaseline?)
    requires Exec(v, StepsOf(op)).ok
    ensures var w := Exec(v, StepsOf(op)).balances;
            Exec(w, StepsOf(Undo(op))).ok <==>
            op.amount > 0 || (Present(v, PairOf(op).0, op.who) && Present(v, PairOf(op).1, op.who))
  {
    hide Unique, Exec, Find, StepsOf, PairOf, Goes, Present, OpChange, Undo, BalanceOf;
    var w, pair, undo := Exec(v, StepsOf(op)).balances, PairOf(op), StepsOf(Undo(op));
    PairPresence(v, op);
    UndoShape(op);
    ExecEffect(v, StepsOf(op));
    PairFunded(v, op);
    if Present(w, pair.0, op.who) && Present(w, pair.1, op.who) {
      if |undo| == 3 {
        NetIsOpChange(op, undo[2].id, op.who);
        assert BalanceOf(v, undo[2].id, op.who) <= U128_MAX;
      }
      UndoGoes(w, undo);
    } else {
      UndoStuck(w, undo, pair.0, pair.1, op.who, op.amount);
    }
  }

  /** On an empty ledger a baseline split of nothing succeeds and the matching merge fails. */
  lemma ZeroSplitExample(v: seq<Entry>, epoch: nat, who: nat)
    requires v == []
    ensures Exec(v, StepsOf(DoSplitBaseline(epoch, who, 0))) == Result(v, true)
    ensures !Exec(v, StepsOf(DoMergeBaseline(epoch, who, 0))).ok
  {
    var s := StepsOf(DoSplitBaseline(epoch, who, 0));
    ExecTwo(v, s[0], s[1]);
    ExecOne(v, s[1]);
    var u := StepsOf(DoMergeBaseline(epoch, who, 0));
    ExecTwo(v, u[0], u[1]);
  }

  lemma PairPresence(v: seq<Entry>, op: Op)
    requires Unique(v) && (op.DoSplit? || op.DoSplitScalar? || op.DoSplitGate? || op.DoSplitBaseline?)
    requires Exec(v, StepsOf(op)).ok
    ensures var w := Exec(v, StepsOf(op)).balances;
            && (Present(w, PairOf(op).0, op.who) <==> op.amount > 0 || Present(v, PairOf(op).0, op.who))
            && (Present(w, PairOf(op).1, op.who) <==> op.amount > 0 || Present(v, PairOf(op).1, op.who))
  {
    hide Unique, Exec, Find, StepsOf, PairOf, Present, OpChange;
    PairCredited(op);
    ExecPresence(v, StepsOf(op), PairOf(op).0, op.who);
    ExecPresence(v, StepsOf(op), PairOf(op).1, op.who);
  }

  lemma PairFunded(v: seq<Entry>, op: Op)
    requires Unique(v) && (op.DoSplit? || op.DoSplitScalar? || op.DoSplitGate? || op.DoSplitBaseline?)
    requires Exec(v, StepsOf(op)).ok
    ensures var w := Exec(v, StepsOf(op)).balances;
            BalanceOf(w, PairOf(op).0, op.who) >= op.amount && BalanceOf(w, PairOf(op).1, op.who) >= op.amount
  {
    hide Unique, Exec, Find, StepsOf, PairOf, OpChange, BalanceOf;
    ExecEffect(v, StepsOf(op));
    PairCredited(op);
    NetIsOpChange(op, PairOf(op).0, op.who);
    NetIsOpChange(op, PairOf(op).1, op.who);
  }

  /** A merge debits the pair, then credits back what the split debited. */
  lemma UndoShape(op: Op)
    requires op.DoSplit? || op.DoSplitScalar? || op.DoSplitGate? || op.DoSplitBaseline?
    ensures var u, pair := StepsOf(Undo(op)), PairOf(op);
            && 2 <= |u| <= 3 && pair.0 != pair.1
            && u[0] == Debit(pair.0, op.who, op.amount) && u[1] == Debit(pair.1, op.who, op.amount)
            && (|u| == 3 ==> && u[2] == Credit(u[2].id, op.who, op.amount) && u[2].id != pair.0 && u[2].id != pair.1
                             && OpChange(op, u[2].id, op.who) == 0 - op.amount)
  {}

  /** Two funded debits and a credit with room go through. */
  lemma UndoGoes(w: seq<Entry>, u: seq<Step>)
    requires Unique(w) && 2 <= |u| <= 3 && u[0].Debit? && u[1].Debit? && u[0].id != u[1].id
    requires Present(w, u[0].id, u[0].who) && u[0].amount <= BalanceOf(w, u[0].id, u[0].who)
    requires Present(w, u[1].id, u[1].who) && u[1].amount <= BalanceOf(w, u[1].id, u[1].who)
    requires |u| == 3 ==> && u[2].Credit? && u[2].id != u[0].id && u[2].id != u[1].id
                          && BalanceOf(w, u[2].id, u[2].who) + u[2].amount <= U128_MAX
    ensures Exec(w, u).ok
  {
    hide Unique, Exec, Find, Goes, Taken, BalanceOf, Present;
    var x, y := u[0], u[1];
    GoesOnBalance(w, x.id, x.who, x.amount);
    StepEffect(w, x, y.id, y.who);
    StepPresence(w, x, y.id, y.who);
    var w1 := Taken(w, x);
    GoesOnBalance(w1, y.id, y.who, y.amount);
    if |u| == 3 {
      var z := u[2];
      StepEffect(w, x, z.id, z.who);
      StepEffect(w1, y, z.id, z.who);
      CreditGoes(Taken(w1, y), z);
      ExecThree(w, x, y, z);
      assert u == [x, y, z];
    } else {
      ExecTwo(w, x, y);
      assert u == [x, y];
    }
  }

  lemma PairCredited(op: Op)
    requires op.DoSplit? || op.DoSplitScalar? || op.DoSplitGate? || op.DoSplitBaseline?
    ensures var s := StepsOf(op);
            && OpChange(op, PairOf(op).0, op.who) == op.amount && OpChange(op, PairOf(op).1, op.who) == op.amount
            && (exists i :: 0 <= i < |s| && s[i].id == PairOf(op).0 && s[i].who == op.who && s[i].amount == op.amount)
            && (exists i :: 0 <= i < |s| && s[i].id == PairOf(op).1 && s[i].who == op.who && s[i].amount == op.amount)
            && (forall i :: 0 <= i < |s| ==> s[i].amount == op.amount)
  {
    var s := StepsOf(op);
    var k := |s| - 2;
    assert s[k].id == PairOf(op).0 && s[k + 1].id == PairOf(op).1;
  }

  lemma GoesOnBalance(v: seq<Entry>, id: PositionId, who: nat, amount: u128)
    requires Present(v, id, who) && amount <= BalanceOf(v, id, who)
    ensures Goes(v, Debit(id, who, amount))
  {}

  lemma CreditGoes(v: seq<Entry>, s: Step)
    requires s.Credit? && BalanceOf(v, s.id, s.who) + s.amount <= U128_MAX
    ensures Goes(v, s)
  {}

  lemma ExecOne(v: seq<Entry>, x: Step)
    ensures Exec(v, [x]) == if Goes(v, x) then Result(Taken(v, x), true) else Result(v, false)
  {
    hide Goes, Taken;
    assert [x][1..] == [];
  }

  lemma ExecTwo(v: seq<Entry>, x: Step, y: Step)
    ensures Exec(v, [x, y]) == if Goes(v, x) then Exec(Taken(v, x), [y]) else Result(v, false)
    ensures Goes(v, x) && Goes(Taken(v, x), y) ==> Exec(v, [x, y]).ok
  {
    hide Goes, Taken;
    assert [x, y][1..] == [y];
    if Goes(v, x) {
      ExecOne(Taken(v, x), y);
    }
  }

  lemma ExecThree(v: seq<Entry>, x: Step, y: Step, z: Step)
    ensures Exec(v, [x, y, z]) == if Goes(v, x) then Exec(Taken(v, x), [y, z]) else Result(v, false)
    ensures Goes(v, x) && Goes(Taken(v, x), y) && Goes(Taken(Taken(v, x), y), z) ==> Exec(v, [x, y, z]).ok
  {
    hide Goes, Taken;
    assert [x, y, z][1..] == [y, z];
    if Goes(v, x) {
      ExecTwo(Taken(v, x), y, z);
    }
  }

  /** A missing entry stops the merge at its first or second debit. */
  lemma UndoStuck(w: seq<Entry>, undo: seq<Step>, a: PositionId, b: PositionId, who: nat, amount: u128)
    requires Unique(w) && |undo| >= 2 && undo[0] == Debit(a, who, amount) && undo[1] == Debit(b, who, amount)
    requires !Present(w, a, who) || !Present(w, b, who)
    ensures !Exec(w, undo).ok
  {
    hide Unique, Taken, Find;
    if Present(w, a, who) && Goes(w, undo[0]) {
      StepPresence(w, undo[0], b, who);
      var w1, rest := Taken(w, undo[0]), undo[1..];
      assert rest[0] == undo[1] && !Goes(w1, rest[0]);
      assert Exec(w, undo) == Exec(w1, rest) && !Exec(w1, rest).ok;
    } else {
      assert !Goes(w, undo[0]);
      assert Exec(w, undo) == Result(w, false);
    }
  }

  // ---------- The vector refines a plain map ----------

  datatype Key = Key(id: PositionId, who: nat)

  type Book = map<Key, u128>

  /** The map that a vector with unique entries stands for. */
  ghost function AsMap(v: seq<Entry>): Book
    requires Unique(v)
  {
    map i | 0 <= i < |v| :: Key(v[i].id, v[i].owner) := v[i].balance
  }

  /** A credit adds, or inserts a positive amount; a debit needs the key. */
  predicate MapGoes(b: Book, s: Step) {
    var k := Key(s.id, s.who);
    match s
    case Credit(_, _, amount) => k in b ==> b[k] + amount <= U128_MAX
    case Debit(_, _, amount) => k in b && amount <= b[k]
  }

  function MapTaken(b: Book, s: Step): Book
    requires MapGoes(b, s)
  {
    var k := Key(s.id, s.who);
    match s
    case Credit(_, _, amount) => if k in b then b[k := b[k] + amount] else if amount > 0 then b[k := amount] else b
    case Debit(_, _, amount) => b[k := b[k] - amount]
  }

  datatype MapResult = MapResult(book: Book, ok: bool)

  function MapExec(b: Book, steps: seq<Step>): MapResult
    decreases |steps|
  {
    if steps == [] then MapResult(b, true)
    else if !MapGoes(b, steps[0]) then MapResult(b, false)
    else MapExec(MapTaken(b, steps[0]), steps[1..])
  }

  datatype MapRan = MapRan(book: Book, verdicts: seq<bool>)

  function MapRun(b: Book, ops: seq<Op>): MapRan
    decreases |ops|
  {
    if ops == [] then MapRan(b, [])
    else
      var r := MapExec(b, StepsOf(ops[0]));
      var rest := MapRun(r.book, ops[1..]);
      MapRan(rest.book, [r.ok] + rest.verdicts)
  }

  lemma MapLookup(v: seq<Entry>, id: PositionId, who: nat)
    requires Unique(v)
    ensures Key(id, who) in AsMap(v) <==> Find(v, id, who) < |v|
    ensures Find(v, id, who) < |v| ==> AsMap(v)[Key(id, who)] == v[Find(v, id, who)].balance
  {
    var i := Find(v, id, who);
    if i < |v| {
      assert Key(v[i].id, v[i].owner) == Key(id, who);
    }
  }

  /** One step: the same verdict, and the same map after it. */
  lemma StepRefines(v: seq<Entry>, s: Step)
    requires Unique(v)
    ensures Goes(v, s) <==> MapGoes(AsMap(v), s)
    ensures Goes(v, s) ==> Unique(Taken(v, s)) && AsMap(Taken(v, s)) == MapTaken(AsMap(v), s)
  {
    MapLookup(v, s.id, s.who);
    if Goes(v, s) {
      StepKeys(v, s);
      StepMap(v, s);
    }
  }

  lemma StepMap(v: seq<Entry>, s: Step)
    requires Unique(v) && Goes(v, s) && MapGoes(AsMap(v), s) && Unique(Taken(v, s))
    ensures AsMap(Taken(v, s)) == MapTaken(AsMap(v), s)
  {
    hide Unique, AsMap, Find, Goes, Taken, MapGoes, MapTaken;
    var w, b := AsMap(Taken(v, s)), MapTaken(AsMap(v), s);
    forall k: Key ensures (k in w <==> k in b) && (k in w ==> w[k] == b[k]) {
      KeyAfterStep(v, s, k);
    }
    assert w.Keys == b.Keys;
  }

  lemma KeyAfterStep(v: seq<Entry>, s: Step, k: Key)
    requires Unique(v) && Goes(v, s) && MapGoes(AsMap(v), s) && Unique(Taken(v, s))
    ensures var w, b := AsMap(Taken(v, s)), MapTaken(AsMap(v), s);
            (k in w <==> k in b) && (k in w ==> w[k] == b[k])
  {
    hide Unique, AsMap, Find, Taken, Goes;
    var w := Taken(v, s);
    MapBalance(v, k);
    MapBalance(w, k);
    MapBalance(v, Key(s.id, s.who));
    StepEffect(v, s, k.id, k.who);
    StepPresence(v, s, k.id, k.who);
  }

  lemma MapBalance(v: seq<Entry>, k: Key)
    requires Unique(v)
    ensures k in AsMap(v) <==> Present(v, k.id, k.who)
    ensures k in AsMap(v) ==> AsMap(v)[k] == BalanceOf(v, k.id, k.who)
    ensures k !in AsMap(v) ==> BalanceOf(v, k.id, k.who) == 0
  {
    MapLookup(v, k.id, k.who);
  }

  /** A call, failures included: the same verdict and the same map. */
  lemma {:induction false} ExecRefines(v: seq<Entry>, steps: seq<Step>)
    requires Unique(v)
    ensures var r := Exec(v, steps);
            Unique(r.balances) && MapExec(AsMap(v), steps) == MapResult(AsMap(r.balances), r.ok)
    decreases |steps|
  {
    hide Unique, AsMap, Goes, Taken, MapGoes, MapTaken;
    if steps != [] {
      StepRefines(v, steps[0]);
      if Goes(v, steps[0]) {
        ExecRefines(Taken(v, steps[0]), steps[1..]);
      }
    }
  }

  /** Every run of calls, going on after failures: the plain map's verdicts and the plain map's contents. */
  lemma {:induction false} RunRefines(v: seq<Entry>, ops: seq<Op>)
    requires Unique(v)
    ensures var r := RunAll(v, ops);
            Unique(r.balances) && MapRun(AsMap(v), ops) == MapRan(AsMap(r.balances), r.verdicts)
    decreases |ops|
  {
    hide Unique, AsMap, Exec, MapExec, StepsOf;
    if ops != [] {
      ExecRefines(v, StepsOf(ops[0]));
      RunRefines(Exec(v, StepsOf(ops[0])).balances, ops[1..]);
    }
  }

  /** From the empty ledger: unique entries, the plain map's verdicts and contents and, if every call
      succeeded, every proposal and every epoch conserved. */
  lemma EveryRunFromEmpty(v: seq<Entry>, ops: seq<Op>, pid: nat, epoch: nat)
    requires v == []
    ensures var r := RunAll(v, ops);
            && Unique(r.balances) && MapRun(map[], ops) == MapRan(AsMap(r.balances), r.verdicts)
            && ((forall i :: 0 <= i < |r.verdicts| ==> r.verdicts[i]) ==>
                  Conserved(r.balances, pid) && EpochConserved(r.balances, epoch))
  {
    hide RunAll, MapRun, AllWhole;
    RunRefines(v, ops);
    assert AsMap(v) == map[];
    var r := RunAll(v, ops);
    if forall i :: 0 <= i < |r.verdicts| ==> r.verdicts[i] {
      SuccessIsWhole(v, ops, ProposalCalls(pid));
      SuccessIsWhole(v, ops, EpochCalls(epoch));
      RunConserves(v, ops, pid);
      RunConservesEpoch(v, ops, epoch);
    }
  }

  // ---------- The ledger object ----------

  class MockLedger {
    var balances: seq<Entry>

    constructor ()
      ensures balances == []
    {
      balances := [];
    }

    /** Scans for the entry of this position and owner. */
    method Locate(id: PositionId, who: nat) returns (i: nat)
      ensures i == Find(balances, id, who)
    {
      i := 0;
      while i < |balances| && !(balances[i].id == id && balances[i].owner == who)
        invariant i <= |balances|
        invariant forall j :: 0 <= j < i ==> !(balances[j].id == id && balances[j].owner == who)
      {
        i := i + 1;
      }
    }

    method Balance(id: PositionId, who: nat) returns (balance: u128)
      ensures balance == BalanceOf(balances, id, who)
    {
      var i := Locate(id, who);
      balance := if i < |balances| then balances[i].balance else 0;
    }

    method Credit(id: PositionId, who: nat, amount: u128) returns (ok: bool)
      modifies this
      ensures ok == Goes(old(balances), Step.Credit(id, who, amount))
      ensures balances == if ok then Taken(old(balances), Step.Credit(id, who, amount)) else old(balances)
    {
      var i := Locate(id, who);
      ok := true;
      if i < |balances| {
        var sum := balances[i].balance + amount;
        if sum > U128_MAX {
          return false;
        }
        balances := balances[i := balances[i].(balance := sum)];
      } else if amount > 0 {
        balances := balances + [Entry(id, who, amount)];
      }
    }

    method Debit(id: PositionId, who: nat, amount: u128) returns (ok: bool)
      modifies this
      ensures ok == Goes(old(balances), Step.Debit(id, who, amount))
      ensures balances == if ok then Taken(old(balances), Step.Debit(id, who, amount)) else old(balances)
    {
      var i := Locate(id, who);
      if i == |balances| || balances[i].balance < amount {
        return false;
      }
      balances := balances[i := balances[i].(balance := balances[i].balance - amount)];
      ok := true;
    }

    /** The calls run their steps in order; the first failure stops a call and keeps the steps before it. */
    method DoTransfer(id: PositionId, source: nat, destination: nat, amount: u128) returns (ok: bool)
      modifies this
      ensures Result(balances, ok) == Exec(old(balances), StepsOf(Op.DoTransfer(id, source, destination, amount)))
    {
      hide Taken, Goes, Find;
      ghost var v := balances;
      ExecTwo(v, Step.Debit(id, source, amount), Step.Credit(id, destination, amount));
      ok := this.Debit(id, source, amount);
      if ok {
        ExecOne(balances, Step.Credit(id, destination, amount));
        ok := this.Credit(id, destination, amount);
      }
    }

    method DoSplit(pid: nat, who: nat, amount: u128) returns (ok: bool)
      modifies this
      ensures Result(balances, ok) == Exec(old(balances), StepsOf(Op.DoSplit(pid, who, amount)))
    {
      hide Taken, Goes, Find;
      ghost var v := balances;
      ExecTwo(v, Step.Credit(Proposal(pid, Accept, BranchClaim), who, amount),
              Step.Credit(Proposal(pid, Reject, BranchClaim), who, amount));
      ok := this.Credit(Proposal(pid, Accept, BranchClaim), who, amount);
      if ok {
        ExecOne(balances, Step.Credit(Proposal(pid, Reject, BranchClaim), who, amount));
        ok := this.Credit(Proposal(pid, Reject, BranchClaim), who, amount);
      }
    }

    method DoMerge(pid: nat, who: nat, amount: u128) returns (ok: bool)
      modifies this
      ensures Result(balances, ok) == Exec(old(balances), StepsOf(Op.DoMerge(pid, who, amount)))
    {
      hide Taken, Goes, Find;
      ghost var v := balances;
      ExecTwo(v, Step.Debit(Proposal(pid, Accept, BranchClaim), who, amount),
              Step.Debit(Proposal(pid, Reject, BranchClaim), who, amount));
      ok := this.Debit(Proposal(pid, Accept, BranchClaim), who, amount);
      if ok {
        ExecOne(balances, Step.Debit(Proposal(pid, Reject, BranchClaim), who, amount));
        ok := this.Debit(Proposal(pid, Reject, BranchClaim), who, amount);
      }
    }

    method DoSplitScalar(pid: nat, branch: Branch, who: nat, amount: u128) returns (ok: bool)
      modifies this
      ensures Result(balances, ok) == Exec(old(balances), StepsOf(Op.DoSplitScalar(pid, branch, who, amount)))
    {
      hide Taken, Goes, Find;
      ghost var v := balances;
      ExecThree(v, Step.Debit(Proposal(pid, branch, BranchClaim), who, amount),
                Step.Credit(Proposal(pid, branch, LongClaim), who, amount),
                Step.Credit(Proposal(pid, branch, ShortClaim), who, amount));
      ok := this.Debit(Proposal(pid, branch, BranchClaim), who, amount);
      if ok {
        ExecTwo(balances, Step.Credit(Proposal(pid, branch, LongClaim), who, amount),
                Step.Credit(Proposal(pid, branch, ShortClaim), who, amount));
        ok := this.Credit(Proposal(pid, branch, LongClaim), who, amount);
      }
      if ok {
        ExecOne(balances, Step.Credit(Proposal(pid, branch, ShortClaim), who, amount));
        ok := this.Credit(Proposal(pid, branch, ShortClaim), who, amount);
      }
    }

    method DoMergeScalar(pid: nat, branch: Branch, who: nat, amount: u128) returns (ok: bool)
      modifies this
      ensures Result(balances, ok) == Exec(old(balances), StepsOf(Op.DoMergeScalar(pid, branch, who, amount)))
    {
      hide Taken, Goes, Find;
      ghost var v := balances;
      ExecThree(v, Step.Debit(Proposal(pid, branch, LongClaim), who, amount),
                Step.Debit(Proposal(pid, branch, ShortClaim), who, amount),
                Step.Credit(Proposal(pid, branch, BranchClaim), who, amount));
      ok := this.Debit(Proposal(pid, branch, LongClaim), who, amount);
      if ok {
        ExecTwo(balances, Step.Debit(Proposal(pid, branch, ShortClaim), who, amount),
                Step.Credit(Proposal(pid, branch, BranchClaim), who, amount));
        ok := this.Debit(Proposal(pid, branch, ShortClaim), who, amount);
      }
      if ok {
        ExecOne(balances, Step.Credit(Proposal(pid, branch, BranchClaim), who, amount));
        ok := this.Credit(Proposal(pid, branch, BranchClaim), who, amount);
      }
    }

    method DoSplitGate(pid: nat, branch: Branch, gate: Gate, who: nat, amount: u128) returns (ok: bool)
      modifies this
      ensures Result(balances, ok) == Exec(old(balances), StepsOf(Op.DoSplitGate(pid, branch, gate, who, amount)))
    {
      hide Taken, Goes, Find;
      ghost var v := balances;
      ExecThree(v, Step.Debit(Proposal(pid, branch, BranchClaim), who, amount),
                Step.Credit(Proposal(pid, branch, YesClaim(gate)), who, amount),
                Step.Credit(Proposal(pid, branch, NoClaim(gate)), who, amount));
      ok := this.Debit(Proposal(pid, branch, BranchClaim), who, amount);
      if ok {
        ExecTwo(balances, Step.Credit(Proposal(pid, branch, YesClaim(gate)), who, amount),
                Step.Credit(Proposal(pid, branch, NoClaim(gate)), who, amount));
        ok := this.Credit(Proposal(pid, branch, YesClaim(gate)), who, amount);
      }
      if ok {
        ExecOne(balances, Step.Credit(Proposal(pid, branch, NoClaim(gate)), who, amount));
        ok := this.Credit(Proposal(pid, branch, NoClaim(gate)), who, amount);
      }
    }

    method DoMergeGate(pid: nat, branch: Branch, gate: Gate, who: nat, amount: u128) returns (ok: bool)
      modifies this
      ensures Result(balances, ok) == Exec(old(balances), StepsOf(Op.DoMergeGate(pid, branch, gate, who, amount)))
    {
      hide Taken, Goes, Find;
      ghost var v := balances;
      ExecThree(v, Step.Debit(Proposal(pid, branch, YesClaim(gate)), who, amount),
                Step.Debit(Proposal(pid, branch, NoClaim(gate)), who, amount),
                Step.Credit(Proposal(pid, branch, BranchClaim), who, amount));
      ok := this.Debit(Proposal(pid, branch, YesClaim(gate)), who, amount);
      if ok {
        ExecTwo(balances, Step.Debit(Proposal(pid, branch, NoClaim(gate)), who, amount),
                Step.Credit(Proposal(pid, branch, BranchClaim), who, amount));
        ok := this.Debit(Proposal(pid, branch, NoClaim(gate)), who, amount);
      }
      if ok {
        ExecOne(balances, Step.Credit(Proposal(pid, branch, BranchClaim), who, amount));
        ok := this.Credit(Proposal(pid, branch, BranchClaim), who, amount);
      }
    }

    method DoSplitBaseline(epoch: nat, who: nat, amount: u128) returns (ok: bool)
      modifies this
      ensures Result(balances, ok) == Exec(old(balances), StepsOf(Op.DoSplitBaseline(epoch, who, amount)))
    {
      hide Taken, Goes, Find;
      ghost var v := balances;
      ExecTwo(v, Step.Credit(Epoch(epoch, Long), who, amount), Step.Credit(Epoch(epoch, Short), who, amount));
      ok := this.Credit(Epoch(epoch, Long), who, amount);
      if ok {
        ExecOne(balances, Step.Credit(Epoch(epoch, Short), who, amount));
        ok := this.Credit(Epoch(epoch, Short), who, amount);
      }
    }

    method DoMergeBaseline(epoch: nat, who: nat, amount: u128) returns (ok: bool)
      modifies this
      ensures Result(balances, ok) == Exec(old(balances), StepsOf(Op.DoMergeBaseline(epoch, who, amount)))
    {
      hide Taken, Goes, Find;
      ghost var v := balances;
      ExecTwo(v, Step.Debit(Epoch(epoch, Long), who, amount), Step.Debit(Epoch(epoch, Short), who, amount));
      ok := this.Debit(Epoch(epoch, Long), who, amount);
      if ok {
        ExecOne(balances, Step.Debit(Epoch(epoch, Short), who, amount));
        ok := this.Debit(Epoch(epoch, Short), who, amount);
      }
    }
  }

  // ---------- What every call changes, call by call ----------

  ghost function On(id: PositionId, who: nat, at: PositionId, holder: nat, change: int): int {
    if id == at && who == holder then change else 0
  }

  /** What a successful call adds to one holder's balance of one position. */
  ghost function CallTable(op: Op, id: PositionId, who: nat): int {
    match op
    case DoSplit(pid, h, a) =>
      On(id, who, Proposal(pid, Accept, BranchClaim), h, a) + On(id, who, Proposal(pid, Reject, BranchClaim), h, a)
    case DoMerge(pid, h, a) =>
      On(id, who, Proposal(pid, Accept, BranchClaim), h, 0 - a)
      + On(id, who, Proposal(pid, Reject, BranchClaim), h, 0 - a)
    case DoSplitScalar(pid, b, h, a) =>
      On(id, who, Proposal(pid, b, BranchClaim), h, 0 - a) + On(id, who, Proposal(pid, b, LongClaim), h, a)
      + On(id, who, Proposal(pid, b, ShortClaim), h, a)
    case DoMergeScalar(pid, b, h, a) =>
      On(id, who, Proposal(pid, b, BranchClaim), h, a) + On(id, who, Proposal(pid, b, LongClaim), h, 0 - a)
      + On(id, who, Proposal(pid, b, ShortClaim), h, 0 - a)
    case DoSplitGate(pid, b, g, h, a) =>
      On(id, who, Proposal(pid, b, BranchClaim), h, 0 - a) + On(id, who, Proposal(pid, b, YesClaim(g)), h, a)
      + On(id, who, Proposal(pid, b, NoClaim(g)), h, a)
    case DoMergeGate(pid, b, g, h, a) =>
      On(id, who, Proposal(pid, b, BranchClaim), h, a) + On(id, who, Proposal(pid, b, YesClaim(g)), h, 0 - a)
      + On(id, who, Proposal(pid, b, NoClaim(g)), h, 0 - a)
    case DoSplitBaseline(e, h, a) => On(id, who, Epoch(e, Long), h, a) + On(id, who, Epoch(e, Short), h, a)
    case DoMergeBaseline(e, h, a) => On(id, who, Epoch(e, Long), h, 0 - a) + On(id, who, Epoch(e, Short), h, 0 - a)
    case DoTransfer(at, from, to, a) => On(id, who, at, from, 0 - a) + On(id, who, at, to, a)
  }

  lemma OpChangeIsTable(op: Op, id: PositionId, who: nat)
    ensures OpChange(op, id, who) == CallTable(op, id, who)
  {}

  /** The first thing a call does, and the balance it needs: splits of a proposal or an epoch credit Accept or
      Long, other splits debit the branch claim, merges debit Accept, Long or Yes, transfers debit the source. */
  ghost predicate Opens(v: seq<Entry>, op: Op) {
    match op
    case DoSplit(pid, h, a) => HasRoom(v, Proposal(pid, Accept, BranchClaim), h, a)
    case DoMerge(pid, h, a) => Covers(v, Proposal(pid, Accept, BranchClaim), h, a)
    case DoSplitScalar(pid, b, h, a) => Covers(v, Proposal(pid, b, BranchClaim), h, a)
    case DoMergeScalar(pid, b, h, a) => Covers(v, Proposal(pid, b, LongClaim), h, a)
    case DoSplitGate(pid, b, _, h, a) => Covers(v, Proposal(pid, b, BranchClaim), h, a)
    case DoMergeGate(pid, b, g, h, a) => Covers(v, Proposal(pid, b, YesClaim(g)), h, a)
    case DoSplitBaseline(e, h, a) => HasRoom(v, Epoch(e, Long), h, a)
    case DoMergeBaseline(e, h, a) => Covers(v, Epoch(e, Long), h, a)
    case DoTransfer(id, from, _, a) => Covers(v, id, from, a)
  }

  ghost predicate HasRoom(v: seq<Entry>, id: PositionId, who: nat, a: u128) { BalanceOf(v, id, who) + a <= U128_MAX }

  ghost predicate Covers(v: seq<Entry>, id: PositionId, who: nat, a: u128) {
    Present(v, id, who) && a <= BalanceOf(v, id, who)
  }

  lemma OpensIff(v: seq<Entry>, op: Op)
    ensures Goes(v, StepsOf(op)[0]) <==> Opens(v, op)
  {
    hide Find;
  }

  /** What has changed when a call fails at its second step, or at its third. */
  ghost function FirstChange(op: Op, id: PositionId, who: nat): int {
    match op
    case DoSplit(pid, h, a) => On(id, who, Proposal(pid, Accept, BranchClaim), h, a)
    case DoMerge(pid, h, a) => On(id, who, Proposal(pid, Accept, BranchClaim), h, 0 - a)
    case DoSplitScalar(pid, b, h, a) => On(id, who, Proposal(pid, b, BranchClaim), h, 0 - a)
    case DoMergeScalar(pid, b, h, a) => On(id, who, Proposal(pid, b, LongClaim), h, 0 - a)
    case DoSplitGate(pid, b, _, h, a) => On(id, who, Proposal(pid, b, BranchClaim), h, 0 - a)
    case DoMergeGate(pid, b, g, h, a) => On(id, who, Proposal(pid, b, YesClaim(g)), h, 0 - a)
    case DoSplitBaseline(e, h, a) => On(id, who, Epoch(e, Long), h, a)
    case DoMergeBaseline(e, h, a) => On(id, who, Epoch(e, Long), h, 0 - a)
    case DoTransfer(at, from, _, a) => On(id, who, at, from, 0 - a)
  }

  ghost function SecondChange(op: Op, id: PositionId, who: nat): int {
    match op
    case DoSplitScalar(pid, b, h, a) => FirstChange(op, id, who) + On(id, who, Proposal(pid, b, LongClaim), h, a)
    case DoMergeScalar(pid, b, h, a) => FirstChange(op, id, who) + On(id, who, Proposal(pid, b, ShortClaim), h, 0 - a)
    case DoSplitGate(pid, b, g, h, a) => FirstChange(op, id, who) + On(id, who, Proposal(pid, b, YesClaim(g)), h, a)
    case DoMergeGate(pid, b, g, h, a) => FirstChange(op, id, who) + On(id, who, Proposal(pid, b, NoClaim(g)), h, 0 - a)
    case _ => CallTable(op, id, who)
  }

  /** Where a failed call leaves every balance: untouched if it could not open, and otherwise after its first
      step or after its second. */
  lemma FailedCallMeaning(v: seq<Entry>, op: Op)
    requires Unique(v) && !Exec(v, StepsOf(op)).ok
    ensures var w := Exec(v, StepsOf(op)).balances;
            && Unique(w)
            && (!Opens(v, op) ==> w == v)
            && (Opens(v, op) ==>
                  || (forall id, who :: BalanceOf(w, id, who) == BalanceOf(v, id, who) + FirstChange(op, id, who))
                  || (|StepsOf(op)| == 3 && forall id, who ::
                        BalanceOf(w, id, who) == BalanceOf(v, id, who) + SecondChange(op, id, who)))
  {
    OpensIff(v, op);
    ExecEffect(v, StepsOf(op));
    StepCount(op);
    hide Unique, Goes, Taken, Opens, StepsOf, BalanceOf;
    var s := StepsOf(op);
    if Goes(v, s[0]) {
      var w1 := Taken(v, s[0]);
      AfterOne(v, op);
      if !Goes(w1, s[1]) {
        assert s[1..][0] == s[1];
        assert Exec(v, s) == Exec(w1, s[1..]) == Result(w1, false);
      } else {
        AfterTwo(v, op);
        var w2 := Taken(w1, s[1]);
        assert s[1..][0] == s[1] && s[1..][1..] == s[2..];
        assert Exec(v, s) == Exec(w1, s[1..]) == Exec(w2, s[2..]);
        if |s| == 3 {
          assert s[2..] == [s[2]];
          ExecOne(w2, s[2]);
        }
      }
    }
  }

  lemma ChangesAreSteps(op: Op, id: PositionId, who: nat)
    ensures |StepsOf(op)| >= 2
    ensures Own(StepsOf(op)[0], id, who) == FirstChange(op, id, who)
    ensures Own(StepsOf(op)[0], id, who) + Own(StepsOf(op)[1], id, who) == SecondChange(op, id, who)
  {}

  lemma AfterOne(v: seq<Entry>, op: Op)
    requires Unique(v) && Goes(v, StepsOf(op)[0])
    ensures var w := Taken(v, StepsOf(op)[0]);
            && Unique(w)
            && forall id, who :: BalanceOf(w, id, who) == BalanceOf(v, id, who) + FirstChange(op, id, who)
  {
    hide Unique, Goes, Taken, BalanceOf, StepsOf, FirstChange, SecondChange, Own;
    StepCount(op);
    var s := StepsOf(op)[0];
    StepKeys(v, s);
    forall id, who ensures BalanceOf(Taken(v, s), id, who) == BalanceOf(v, id, who) + FirstChange(op, id, who) {
      StepEffect(v, s, id, who);
      ChangesAreSteps(op, id, who);
    }
  }

  lemma AfterTwo(v: seq<Entry>, op: Op)
    requires Unique(v) && Goes(v, StepsOf(op)[0]) && Goes(Taken(v, StepsOf(op)[0]), StepsOf(op)[1])
    ensures var w := Taken(Taken(v, StepsOf(op)[0]), StepsOf(op)[1]);
            forall id, who :: BalanceOf(w, id, who) == BalanceOf(v, id, who) + SecondChange(op, id, who)
  {
    hide Unique, Goes, Taken, BalanceOf, StepsOf, FirstChange, SecondChange, Own;
    StepCount(op);
    var s, u := StepsOf(op)[0], StepsOf(op)[1];
    StepKeys(v, s);
    var w1 := Taken(v, s);
    forall id, who ensures BalanceOf(Taken(w1, u), id, who) == BalanceOf(v, id, who) + SecondChange(op, id, who) {
      StepEffect(v, s, id, who);
      StepEffect(w1, u, id, who);
      ChangesAreSteps(op, id, who);
    }
  }

  /** What every call means: uniqueness survives failures too, and a success moves exactly the stated balances. */
  lemma CallMeaning(v: seq<Entry>, op: Op)
    ensures var r := Exec(v, StepsOf(op));
            && (Unique(v) ==> Unique(r.balances))
            && (Unique(v) && r.ok ==>
                  forall id, who :: BalanceOf(r.balances, id, who) == BalanceOf(v, id, who) + CallTable(op, id, who))
            && (r.ok ==> forall pid :: Conserved(v, pid) ==> Conserved(r.balances, pid))
  {
    hide Unique, Exec, Conserved, StepsOf, OpChange, CallTable, BalanceOf;
    var r := Exec(v, StepsOf(op));
    if Unique(v) {
      ExecEffect(v, StepsOf(op));
      forall id, who ensures NetChange(StepsOf(op), id, who) == CallTable(op, id, who) {
        NetIsOpChange(op, id, who);
        OpChangeIsTable(op, id, who);
      }
    }
    forall pid | Conserved(v, pid) && r.ok ensures Conserved(r.balances, pid) {
      CallConserves(v, op, pid);
    }
  }
}
