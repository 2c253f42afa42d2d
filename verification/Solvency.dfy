/** Why the vaults never fall short: escrow is kept between the exact value of the outstanding
    claims and that value plus less than one base unit for each floored redemption. */
module Solvency {
  import opened Wrappers
  import opened Decimals
  import opened Vaults

  lemma WorthAdds(m: nat, n: nat, share: nat)
    ensures Worth(m + n, share) == Worth(m, share) + Worth(n, share)
  {}

  /** A complete pair of legs is worth par, whatever the score. */
  lemma PairWorth(n: nat, s: Score)
    ensures Worth(n, s) + Worth(n, SCALE - s) == SCALE * n
  {}

  /** Value of the winning branch's claims, in units of 1 / SCALE. */
  ghost function SettledValue(p: Supply, outcomes: Outcomes, s: Score): nat
  {
    SCALE * (p.usdc + GateClaim(p.survival, outcomes.survival) + GateClaim(p.security, outcomes.security))
    + Worth(p.long, s) + Worth(p.short, SCALE - s)
  }

  /** Value of one branch's claims under VOID, in quarters: branch-USDC is worth a half, each leg a quarter. */
  ghost function BranchValue(p: Supply): nat {
    2 * p.usdc + p.long + p.short + p.survival.yes + p.survival.no + p.security.yes + p.security.no
  }

  ghost function VoidValue(v: Vault): nat { BranchValue(v.accept) + BranchValue(v.reject) }

  ghost predicate Balanced(v: Vault) {
    && v.accept.Identity() == v.escrowed == v.reject.Identity()
    && v.accept.Paired() && v.reject.Paired()
  }

  ghost predicate UnsettledPaired(p: Supply, outcomes: Outcomes) {
    && (outcomes.survival.None? ==> p.survival.yes == p.survival.no)
    && (outcomes.security.None? ==> p.security.yes == p.security.no)
  }

  /** The invariant of every reachable proposal vault; floors counts the floored redemptions so far. The
      value of settled claims is promised only while products with the score are exact. */
  ghost predicate Sound(v: Vault, floors: nat) {
    && v.escrowed + v.totalPayouts == v.collateralIn
    && v.accept.Backed() && v.reject.Backed()
    && (v.state.Open? || v.state.Resolved? ==> v.terminalRedemptions == 0)
    && (v.terminalRedemptions == 0 ==> Balanced(v))
    && v.accept.Identity() <= v.collateralIn && v.reject.Identity() <= v.collateralIn
    && (v.state.Voided? ==> VoidValue(v) <= 4 * v.escrowed <= VoidValue(v) + 3 * floors)
    && (v.state.ScalarSettled? ==>
          && UnsettledPaired(v.Of(v.state.winner), v.outcomes)
          && (v.collateralIn < AMOUNT_LIMIT ==>
                var value := SettledValue(v.Of(v.state.winner), v.outcomes, v.state.s);
                value <= SCALE * v.escrowed <= value + (SCALE - 1) * floors))
  }

  // ---------- Arithmetic ----------

  /** Pairs at par plus floored single legs is at most the legs' exact worth. */
  lemma LegsBound(long: nat, short: nat, s: Score)
    requires (long < AMOUNT_LIMIT && short < AMOUNT_LIMIT) || long == short
    ensures var pairs := Min(long, short);
            SCALE * (pairs + FloorProduct(long - pairs, s) + FloorProduct(short - pairs, SCALE - s))
            <= Worth(long, s) + Worth(short, SCALE - s)
  {
    hide FloorProduct;
    var pairs := Min(long, short);
    WorthAdds(pairs, long - pairs, s);
    WorthAdds(pairs, short - pairs, SCALE - s);
    PairWorth(pairs, s);
    hide Worth;
    LegFloored(long - pairs, s);
    LegFloored(short - pairs, SCALE - s);
  }

  lemma LegFloored(amount: nat, share: nat)
    requires share <= SCALE && (amount < AMOUNT_LIMIT || amount == 0)
    ensures SCALE * FloorProduct(amount, share) <= Worth(amount, share)
  {
    hide FloorProduct;
    FloorProductExact(amount, share);
  }

  lemma SettledBoundWithinValue(p: Supply, outcomes: Outcomes, s: Score)
    requires (p.long < AMOUNT_LIMIT && p.short < AMOUNT_LIMIT) || p.long == p.short
    ensures SCALE * SettledBound(p, outcomes, s) <= SettledValue(p, outcomes, s)
  {
    hide FloorProduct, Worth;
    LegsBound(p.long, p.short, s);
  }

  lemma VoidBoundWithinValue(a: Supply, r: Supply)
    ensures 4 * VoidBound(a, r) <= BranchValue(a) + BranchValue(r)
  {
    BranchVoidValue(a);
    BranchVoidValue(r);
  }

  lemma BranchVoidValue(p: Supply)
    ensures 2 * Effective(p) + 4 * Leftovers(p) <= BranchValue(p)
  {}

  // ---------- What the source's claim bound is ----------

  /** Only one side of a pair has legs left over, so flooring loses less than one unit in all. */
  lemma LegsBoundTight(long: nat, short: nat, s: Score)
    requires long < AMOUNT_LIMIT && short < AMOUNT_LIMIT
    ensures var pairs := Min(long, short);
            Worth(long, s) + Worth(short, SCALE - s)
            < SCALE * (pairs + FloorProduct(long - pairs, s) + FloorProduct(short - pairs, SCALE - s) + 1)
  {
    hide FloorProduct, FloorShare;
    var pairs := Min(long, short);
    WorthAdds(pairs, long - pairs, s);
    WorthAdds(pairs, short - pairs, SCALE - s);
    PairWorth(pairs, s);
    FloorProductExact(long - pairs, s);
    FloorProductExact(short - pairs, SCALE - s);
    NoWorth(s);
    hide Worth;
  }

  lemma NoWorth(share: nat)
    ensures Worth(0, share) == 0
  {}

  /** After settlement the claim bound is the exact worth of the winning claims, rounded down once. */
  lemma SettledBoundIsFloor(p: Supply, outcomes: Outcomes, s: Score)
    requires p.long < AMOUNT_LIMIT && p.short < AMOUNT_LIMIT
    ensures SCALE * SettledBound(p, outcomes, s) <= SettledValue(p, outcomes, s)
            < SCALE * (SettledBound(p, outcomes, s) + 1)
  {
    hide FloorProduct, Worth;
    LegsBound(p.long, p.short, s);
    LegsBoundTight(p.long, p.short, s);
  }

  lemma BaselineBoundIsFloor(v: BaselineVault)
    requires v.state.BaseSettled? && v.long < AMOUNT_LIMIT && v.short < AMOUNT_LIMIT
    ensures SCALE * v.ClaimBound() <= BaselineValue(v) < SCALE * (v.ClaimBound() + 1)
  {
    hide FloorProduct, Worth;
    LegsBound(v.long, v.short, v.state.s);
    LegsBoundTight(v.long, v.short, v.state.s);
  }

  /** Under VOID it is the worth of all claims, but for a half and six odd legs rounded down. */
  lemma VoidBoundNear(a: Supply, r: Supply)
    ensures 4 * VoidBound(a, r) <= BranchValue(a) + BranchValue(r) <= 4 * VoidBound(a, r) + 20
  {
    BranchVoidNear(a);
    BranchVoidNear(r);
    hide Leftovers, BranchValue, Effective;
  }

  lemma BranchVoidNear(p: Supply)
    ensures 2 * Effective(p) + 4 * Leftovers(p) <= BranchValue(p) <= 2 * Effective(p) + 4 * Leftovers(p) + 9
  {
    UnmatchedNear(p.long, p.short);
    UnmatchedNear(p.survival.yes, p.survival.no);
    UnmatchedNear(p.security.yes, p.security.no);
    hide Unmatched;
  }

  lemma UnmatchedNear(x: nat, y: nat)
    ensures 2 * Min(x, y) + 4 * Unmatched(x, y) <= x + y <= 2 * Min(x, y) + 4 * Unmatched(x, y) + 3
  {}

  /** Before settlement every unit of escrow is claimed, in each branch. */
  lemma LiveBoundIsEscrow(v: Vault, floors: nat)
    requires Sound(v, floors) && (v.state.Open? || v.state.Resolved?)
    ensures v.ClaimBound() == v.escrowed
  {
    hide SettledValue, VoidValue, Supply.Paired, Supply.Backed, Supply.Identity;
  }

  // ---------- The invariant implies the source's own assertion ----------

  lemma SoundConserves(v: Vault, floors: nat)
    requires Sound(v, floors) && v.Fits()
    ensures v.Conserves()
  {
    hide Worth, SettledValue, SettledBound, BranchValue, VoidBound;
    match v.state
    case Open =>
    case Resolved(w) =>
    case Voided =>
      VoidBoundWithinValue(v.accept, v.reject);
    case ScalarSettled(w, s) =>
      SettledBoundWithinValue(v.Of(w), v.outcomes, s);
  }

  lemma EmptyIsSound(v: Vault)
    requires v == EMPTY_VAULT
    ensures Sound(v, 0)
  {
    hide Sound, Supply.Identity, Supply.Paired, Supply.Backed;
    NothingIsPaired(v.accept);
    FreshIsSound(v);
  }

  lemma FreshIsSound(v: Vault)
    requires v.state.Open? && v.escrowed == v.totalPayouts == v.collateralIn == v.terminalRedemptions == 0
    requires v.accept.Identity() == 0 && v.accept.Paired() && v.accept.Backed()
    requires v.reject == v.accept
    ensures Sound(v, 0)
  {
    hide SettledValue, VoidValue, UnsettledPaired, Supply.Identity, Supply.Paired, Supply.Backed;
  }

  lemma NothingIsPaired(p: Supply)
    requires p.usdc == p.scalarSets == p.long == p.short == 0
    requires p.survival.sets == p.survival.yes == p.survival.no == 0
    requires p.security.sets == p.security.yes == p.security.no == 0
    ensures p.Identity() == 0 && p.Paired() && p.Backed()
  {
    assert p.Identity() == 0;
    hide Supply.Identity;
    PairedIsBacked(p);
  }

  lemma PairedIsBacked(p: Supply)
    requires p.scalarSets == p.long == p.short && p.survival.Paired() && p.security.Paired()
    ensures p.Paired() && p.Backed()
  {}

  // ---------- What each exchange does to one branch ----------

  lemma MoreUsdc(p: Supply, amount: nat)
    ensures var q := p.(usdc := p.usdc + amount);
            && q.Identity() == p.Identity() + amount && BranchValue(q) == BranchValue(p) + 2 * amount
            && (p.Backed() <==> q.Backed()) && (p.Paired() <==> q.Paired())
  {}

  ghost predicate Exchange(p: Supply, q: Supply) {
    && q.Identity() == p.Identity() && BranchValue(q) == BranchValue(p)
    && (p.Backed() ==> q.Backed()) && (p.Paired() ==> q.Paired())
  }

  lemma ScalarExchange(p: Supply, amount: nat)
    ensures amount <= p.usdc ==>
              Exchange(p, p.(usdc := p.usdc - amount, scalarSets := p.scalarSets + amount,
                             long := p.long + amount, short := p.short + amount))
    ensures p.Backed() && amount <= p.long && amount <= p.short ==>
              && amount <= p.scalarSets
              && Exchange(p, p.(usdc := p.usdc + amount, scalarSets := p.scalarSets - amount,
                                long := p.long - amount, short := p.short - amount))
  {}

  lemma GateExchange(p: Supply, g: Gate, amount: nat)
    ensures var q := p.GateOf(g);
            amount <= p.usdc ==>
              Exchange(p, p.(usdc := p.usdc - amount).WithGate(
                            g, GateSupply(q.sets + amount, q.yes + amount, q.no + amount)))
    ensures var q := p.GateOf(g);
            p.Backed() && amount <= q.yes && amount <= q.no ==>
              && amount <= q.sets
              && Exchange(p, p.(usdc := p.usdc + amount).WithGate(
                               g, GateSupply(q.sets - amount, q.yes - amount, q.no - amount)))
  {
    if g.Survival? {}
  }

  lemma SoundBacked(v: Vault, floors: nat)
    requires Sound(v, floors)
    ensures v.accept.Backed() && v.reject.Backed()
    ensures v.escrowed + v.totalPayouts == v.collateralIn
  {}

  // ---------- Each operation: when it goes through, and that it keeps the invariant ----------

  /** Both branches gaining, or both losing, the same face value against escrow keeps a live vault sound. */
  lemma BothBranchesSound(v: Vault, w: Vault, floors: nat, gain: int)
    requires Sound(v, floors) && v.state.Live() && w.state == v.state
    requires w.escrowed == v.escrowed + gain && w.escrowed + w.totalPayouts == w.collateralIn
    requires w.collateralIn == v.collateralIn + (if gain > 0 then gain else 0)
    requires w.terminalRedemptions == v.terminalRedemptions
    requires w.accept.Identity() == v.accept.Identity() + gain && w.reject.Identity() == v.reject.Identity() + gain
    requires BranchValue(w.accept) == BranchValue(v.accept) + 2 * gain
    requires BranchValue(w.reject) == BranchValue(v.reject) + 2 * gain
    requires w.accept.Backed() && w.reject.Backed()
    requires (v.accept.Paired() ==> w.accept.Paired()) && (v.reject.Paired() ==> w.reject.Paired())
    ensures Sound(w, floors) && w.CheckConservation() == Done(w)
  {
    hide Worth, BranchValue, Supply.Identity, Supply.Backed, Supply.Paired, Vault.Conserves;
    SoundConserves(w, floors);
  }

  lemma SplitSound(v: Vault, floors: nat, amount: nat)
    requires Sound(v, floors) && v.state.Open?
    ensures v.Split(amount).Done? && Sound(v.Split(amount).value, floors)
  {
    hide Sound, BranchValue, Supply.Identity, Supply.Backed, Supply.Paired, Vault.CheckConservation, Vault.Conserves;
    SoundBacked(v, floors);
    MoreUsdc(v.accept, amount);
    MoreUsdc(v.reject, amount);
    var a, r := v.accept.(usdc := v.accept.usdc + amount), v.reject.(usdc := v.reject.usdc + amount);
    var w := v.(escrowed := v.escrowed + amount, collateralIn := v.collateralIn + amount, accept := a, reject := r);
    BothBranchesSound(v, w, floors, amount);
  }

  lemma ClaimsWithinEscrow(v: Vault, floors: nat)
    requires Sound(v, floors) && v.state.Live()
    ensures Min(v.accept.usdc, v.reject.usdc) <= v.escrowed
  {
    hide Worth;
    if v.state.Voided? {
      assert 2 * v.accept.usdc <= BranchValue(v.accept) && 2 * v.reject.usdc <= BranchValue(v.reject);
    }
  }

  lemma MergeSound(v: Vault, floors: nat, amount: nat)
    requires Sound(v, floors) && v.state.Live() && amount <= v.accept.usdc && amount <= v.reject.usdc
    ensures v.Merge(amount).Done? && Sound(v.Merge(amount).value, floors)
  {
    hide Sound, BranchValue, Supply.Identity, Supply.Backed, Supply.Paired, Vault.CheckConservation, Vault.Conserves;
    SoundBacked(v, floors);
    ClaimsWithinEscrow(v, floors);
    var a, r := v.accept.(usdc := v.accept.usdc - amount), v.reject.(usdc := v.reject.usdc - amount);
    MoreUsdc(a, amount);
    MoreUsdc(r, amount);
    var w := v.(accept := a, reject := r, escrowed := v.escrowed - amount, totalPayouts := v.totalPayouts + amount);
    BothBranchesSound(v, w, floors, 0 - amount);
  }

  /** Exchanging claims inside one branch at equal value, pairs for pairs, keeps a live vault sound. */
  lemma ExchangeSound(v: Vault, floors: nat, b: Branch, q: Supply)
    requires Sound(v, floors) && v.state.Live() && Exchange(v.Of(b), q)
    ensures Sound(v.On(b, q), floors) && v.On(b, q).CheckConservation() == Done(v.On(b, q))
  {
    hide Worth, BranchValue, Supply.Identity, Supply.Backed, Supply.Paired, Vault.Conserves;
    SoundConserves(v.On(b, q), floors);
  }

  lemma SplitScalarSound(v: Vault, floors: nat, b: Branch, amount: nat)
    requires Sound(v, floors) && v.state.Open? && amount <= v.Of(b).usdc
    ensures v.SplitScalar(b, amount).Done? && Sound(v.SplitScalar(b, amount).value, floors)
  {
    hide Sound, Exchange, Vault.CheckConservation, Vault.Conserves;
    var p := v.Of(b);
    ScalarExchange(p, amount);
    ExchangeSound(v, floors, b, p.(usdc := p.usdc - amount, scalarSets := p.scalarSets + amount,
                                   long := p.long + amount, short := p.short + amount));
  }

  lemma MergeScalarSound(v: Vault, floors: nat, b: Branch, amount: nat)
    requires Sound(v, floors) && v.state.Live() && amount <= v.Of(b).long && amount <= v.Of(b).short
    ensures v.MergeScalar(b, amount).Done? && Sound(v.MergeScalar(b, amount).value, floors)
  {
    hide Sound, Exchange, Supply.Backed, Vault.CheckConservation, Vault.Conserves;
    var p := v.Of(b);
    SoundBacked(v, floors);
    ScalarExchange(p, amount);
    ExchangeSound(v, floors, b, p.(usdc := p.usdc + amount, scalarSets := p.scalarSets - amount,
                                   long := p.long - amount, short := p.short - amount));
  }

  lemma SplitGateSound(v: Vault, floors: nat, b: Branch, g: Gate, amount: nat)
    requires Sound(v, floors) && v.state.Open? && amount <= v.Of(b).usdc
    ensures v.SplitGate(b, g, amount).Done? && Sound(v.SplitGate(b, g, amount).value, floors)
  {
    hide Sound, Exchange, Supply.WithGate, Supply.GateOf, Vault.CheckConservation, Vault.Conserves;
    var p, q := v.Of(b), v.Of(b).GateOf(g);
    GateExchange(p, g, amount);
    ExchangeSound(v, floors, b, p.(usdc := p.usdc - amount).WithGate(
                                    g, GateSupply(q.sets + amount, q.yes + amount, q.no + amount)));
  }

  lemma MergeGateSound(v: Vault, floors: nat, b: Branch, g: Gate, amount: nat)
    requires Sound(v, floors) && v.state.Live() && amount <= v.Of(b).GateOf(g).yes && amount <= v.Of(b).GateOf(g).no
    ensures v.MergeGate(b, g, amount).Done? && Sound(v.MergeGate(b, g, amount).value, floors)
  {
    hide Sound, Exchange, Supply.WithGate, Supply.GateOf, Supply.Backed, Vault.CheckConservation, Vault.Conserves;
    var p, q := v.Of(b), v.Of(b).GateOf(g);
    SoundBacked(v, floors);
    GateExchange(p, g, amount);
    ExchangeSound(v, floors, b, p.(usdc := p.usdc + amount).WithGate(
                                    g, GateSupply(q.sets - amount, q.yes - amount, q.no - amount)));
  }

  lemma ResolveSound(v: Vault, floors: nat, w: Branch)
    requires Sound(v, floors) && v.state.Open?
    ensures v.Resolve(w).Done? && Sound(v.Resolve(w).value, floors)
  {
    hide Worth, Supply.Identity, Supply.Backed, Supply.Paired, Vault.Conserves;
    SoundConserves(v.(state := Resolved(w)), floors);
  }

  /** Voiding is value-preserving: each branch of a balanced vault is worth half its escrow. */
  lemma VoidSound(v: Vault, floors: nat)
    requires Sound(v, floors) && (v.state.Open? || v.state.Resolved?)
    ensures v.Void().Done? && Sound(v.Void().value, floors)
    ensures VoidValue(v) == 4 * v.escrowed
  {
    hide Worth, Vault.Conserves;
    assert BranchValue(v.accept) == 2 * v.accept.Identity() && BranchValue(v.reject) == 2 * v.reject.Identity();
    SoundConserves(v.(state := Voided), floors);
  }

  /** Settling is value-preserving for every score: complete sets are worth par. */
  lemma SettleScalarSound(v: Vault, floors: nat, s: Score)
    requires Sound(v, floors) && v.state.Resolved?
    ensures v.SettleScalar(s).Done? && Sound(v.SettleScalar(s).value, floors)
    ensures SettledValue(v.Of(v.state.winner), v.outcomes, s) == SCALE * v.escrowed
  {
    hide Worth, FloorProduct;
    var p := v.Of(v.state.winner);
    PairedValue(p, v.outcomes, s);
    SettledBoundWithinValue(p, v.outcomes, s);
    hide SettledValue, SettledBound;
    assert v.(state := ScalarSettled(v.state.winner, s)).Conserves();
  }

  lemma PairedValue(p: Supply, outcomes: Outcomes, s: Score)
    requires p.Paired()
    ensures SettledValue(p, outcomes, s) == SCALE * p.Identity()
    ensures UnsettledPaired(p, outcomes)
  {
    hide Worth;
    PairWorth(p.long, s);
  }

  /** Settling a gate only lowers what can be claimed, so it goes through at any size. */
  lemma SettleGateSound(v: Vault, floors: nat, g: Gate, outcome: bool)
    requires Sound(v, floors) && v.Conserves()
    requires (v.state.Resolved? || v.state.ScalarSettled?) && v.outcomes.Get(g).None?
    ensures v.SettleGate(g, outcome).Done? && Sound(v.SettleGate(g, outcome).value, floors)
  {
    hide Worth, FloorProduct, Supply.Identity, Supply.Backed, Supply.Paired;
    if v.state.ScalarSettled? {
      OutcomeValue(v.Of(v.state.winner), v.outcomes, g, outcome, v.state.s);
      OutcomeBound(v.Of(v.state.winner), v.outcomes, g, outcome, v.state.s);
    }
    hide SettledValue, SettledBound, UnsettledPaired;
    assert v.(outcomes := v.outcomes.Settle(g, outcome)).Conserves();
  }

  lemma OutcomeBound(p: Supply, outcomes: Outcomes, g: Gate, outcome: bool, s: Score)
    requires outcomes.Get(g).None?
    ensures SettledBound(p, outcomes.Settle(g, outcome), s) <= SettledBound(p, outcomes, s)
  {
    hide FloorProduct;
  }

  lemma OutcomeValue(p: Supply, outcomes: Outcomes, g: Gate, outcome: bool, s: Score)
    requires UnsettledPaired(p, outcomes) && outcomes.Get(g).None?
    ensures SettledValue(p, outcomes.Settle(g, outcome), s) == SettledValue(p, outcomes, s)
    ensures UnsettledPaired(p, outcomes.Settle(g, outcome))
  {
    hide Worth;
  }

  /** Paying for burned claims goes through exactly when escrow covers the payout and what is still
      claimable; paying at least floor(worth), and no more than worth, keeps a settled vault sound. */
  lemma SettledPaySound(v: Vault, floors: nat, q: Supply, payout: nat, worth: nat, more: nat)
    requires Sound(v, floors) && v.state.ScalarSettled? && more <= 1
    requires Burns(v.Of(v.state.winner), q, v.outcomes, v.state.s, worth)
    requires v.Fits() ==> SCALE * payout <= worth <= SCALE * payout + (SCALE - 1) * more
    ensures var r := v.On(v.state.winner, q).TerminalPay(payout);
            && (r.Done? <==> payout + SettledBound(q, v.outcomes, v.state.s) <= v.escrowed)
            && (r.Done? ==> Sound(r.value, floors + more))
  {
    hide SettledValue, SettledBound, UnsettledPaired, Supply.Identity, Supply.Backed, Supply.Paired;
  }

  /** Burning claims of the given worth from the winning branch. */
  ghost predicate Burns(p: Supply, q: Supply, outcomes: Outcomes, s: Score, worth: nat) {
    && SettledValue(q, outcomes, s) + worth == SettledValue(p, outcomes, s)
    && (p.Backed() ==> q.Backed()) && q.Identity() <= p.Identity()
    && (UnsettledPaired(p, outcomes) ==> UnsettledPaired(q, outcomes))
  }

  lemma BurnUsdc(p: Supply, outcomes: Outcomes, s: Score, amount: nat)
    requires amount <= p.usdc
    ensures Burns(p, p.(usdc := p.usdc - amount), outcomes, s, SCALE * amount)
  {
    hide Worth;
  }

  lemma BurnLeg(p: Supply, outcomes: Outcomes, s: Score, side: Side, amount: nat)
    requires amount <= p.Leg(side)
    ensures Burns(p, p.WithLeg(side, p.Leg(side) - amount), outcomes, s, Worth(amount, ShareOf(side, s)))
  {
    hide Worth;
    WorthAdds(p.Leg(side) - amount, amount, ShareOf(side, s));
  }

  lemma BurnPair(p: Supply, outcomes: Outcomes, s: Score, amount: nat)
    requires p.Backed() && amount <= p.long && amount <= p.short
    ensures amount <= p.scalarSets
    ensures Burns(p, p.(long := p.long - amount, short := p.short - amount, scalarSets := p.scalarSets - amount),
                  outcomes, s, SCALE * amount)
  {
    hide Worth;
    WorthAdds(p.long - amount, amount, s);
    WorthAdds(p.short - amount, amount, SCALE - s);
    PairWorth(amount, s);
  }

  lemma BurnWinningGate(p: Supply, outcomes: Outcomes, s: Score, g: Gate, amount: nat)
    requires outcomes.Get(g).Some? && amount <= p.GateOf(g).Leg(outcomes.Get(g).value)
    ensures var yes := outcomes.Get(g).value;
            Burns(p, p.WithGate(g, p.GateOf(g).WithLeg(yes, p.GateOf(g).Leg(yes) - amount)), outcomes, s,
                  SCALE * amount)
  {
    hide Worth;
    if g.Survival? {}
  }

  /** Claims at par count in full towards what is still claimable. */
  lemma ParBounds(p: Supply, outcomes: Outcomes, s: Score, amount: nat)
    ensures amount <= p.usdc ==>
              SettledBound(p.(usdc := p.usdc - amount), outcomes, s) + amount == SettledBound(p, outcomes, s)
    ensures amount <= p.long && amount <= p.short && amount <= p.scalarSets ==>
              var q := p.(long := p.long - amount, short := p.short - amount, scalarSets := p.scalarSets - amount);
              SettledBound(q, outcomes, s) + amount == SettledBound(p, outcomes, s)
  {
    hide FloorProduct;
    if amount <= p.long && amount <= p.short {
      assert p.long - amount - Min(p.long - amount, p.short - amount) == p.long - Min(p.long, p.short);
      assert p.short - amount - Min(p.long - amount, p.short - amount) == p.short - Min(p.long, p.short);
    }
  }

  lemma GateBound(p: Supply, outcomes: Outcomes, s: Score, g: Gate, amount: nat)
    requires outcomes.Get(g).Some? && amount <= p.GateOf(g).Leg(outcomes.Get(g).value)
    ensures var yes := outcomes.Get(g).value;
            SettledBound(p.WithGate(g, p.GateOf(g).WithLeg(yes, p.GateOf(g).Leg(yes) - amount)), outcomes, s) + amount
            == SettledBound(p, outcomes, s)
  {
    hide FloorProduct;
    if g.Survival? {}
  }

  lemma ClaimableWithinEscrow(v: Vault)
    requires v.Conserves() && v.state.ScalarSettled?
    ensures SettledBound(v.Of(v.state.winner), v.outcomes, v.state.s) <= v.escrowed
  {
    hide SettledBound;
  }

  lemma RedeemSound(v: Vault, floors: nat, amount: nat)
    requires Sound(v, floors) && v.Conserves() && v.state.ScalarSettled? && amount <= v.Of(v.state.winner).usdc
    ensures v.Redeem(v.state.winner, amount).Done? && Sound(v.Redeem(v.state.winner, amount).value, floors)
  {
    hide Sound, Burns, SettledBound, Vault.Conserves, Vault.TerminalPay;
    var p := v.Of(v.state.winner);
    BurnUsdc(p, v.outcomes, v.state.s, amount);
    ParBounds(p, v.outcomes, v.state.s, amount);
    ClaimableWithinEscrow(v);
    SettledPaySound(v, floors, p.(usdc := p.usdc - amount), amount, SCALE * amount, 0);
  }

  /** The winning legs never outnumber the collateral put in. */
  lemma LegsFit(v: Vault, floors: nat, side: Side)
    requires Sound(v, floors) && v.state.ScalarSettled? && v.Fits()
    ensures v.Of(v.state.winner).Leg(side) < AMOUNT_LIMIT
  {
    hide Worth, SettledValue;
  }

  lemma RedeemScalarSound(v: Vault, floors: nat, side: Side, amount: nat)
    requires Sound(v, floors) && v.state.ScalarSettled? && amount <= v.Of(v.state.winner).Leg(side)
    ensures var r := v.RedeemScalar(v.state.winner, side, amount);
            && (r.Done? <==> !v.Overdraws(side, amount))
            && (r.Done? ==> Sound(r.value, floors + 1))
  {
    hide Sound, Burns, Worth, FloorProduct, FloorShare, SettledBound, Vault.Conserves, Vault.TerminalPay, Supply.Leg,
         Supply.WithLeg;
    var p, share := v.Of(v.state.winner), ShareOf(side, v.state.s);
    BurnLeg(p, v.outcomes, v.state.s, side, amount);
    if v.Fits() {
      LegsFit(v, floors, side);
      FloorProductExact(amount, share);
    }
    SettledPaySound(v, floors, p.WithLeg(side, p.Leg(side) - amount), FloorProduct(amount, share),
                    Worth(amount, share), 1);
  }

  /** While products are exact no leg overdraws. */
  lemma FittingNeverOverdraws(v: Vault, floors: nat, side: Side, amount: nat)
    requires Sound(v, floors) && v.Fits()
    ensures !v.Overdraws(side, amount)
  {
    hide FloorProduct, SettledBound, SettledValue, UnsettledPaired, Supply.WithLeg;
    if v.state.ScalarSettled? && amount <= v.Of(v.state.winner).Leg(side) {
      LegsFit(v, floors, Long);
      LegsFit(v, floors, Short);
      LegWithinValue(v.Of(v.state.winner), v.outcomes, v.state.s, side, amount);
      hide Supply.Identity, Supply.Backed, Supply.Paired;
    }
  }

  /** A leg's exact payout and what is claimable without it stay within the exact value. */
  lemma LegWithinValue(p: Supply, outcomes: Outcomes, s: Score, side: Side, amount: nat)
    requires p.long < AMOUNT_LIMIT && p.short < AMOUNT_LIMIT && amount <= p.Leg(side)
    ensures SCALE * (FloorProduct(amount, ShareOf(side, s))
                     + SettledBound(p.WithLeg(side, p.Leg(side) - amount), outcomes, s)) <= SettledValue(p, outcomes, s)
  {
    hide Worth, FloorProduct, FloorShare, SettledBound;
    FloorProductExact(amount, ShareOf(side, s));
    BurnLeg(p, outcomes, s, side, amount);
    SettledBoundWithinValue(p.WithLeg(side, p.Leg(side) - amount), outcomes, s);
    hide SettledValue;
  }

  lemma RedeemScalarPairSound(v: Vault, floors: nat, amount: nat)
    requires Sound(v, floors) && v.Conserves() && v.state.ScalarSettled?
    requires amount <= v.Of(v.state.winner).long && amount <= v.Of(v.state.winner).short
    ensures var r := v.RedeemScalarPair(v.state.winner, amount);
            r.Done? && Sound(r.value, floors)
  {
    hide Sound, Burns, SettledBound, Supply.Backed, Vault.Conserves, Vault.TerminalPay;
    var p := v.Of(v.state.winner);
    SoundBacked(v, floors);
    BurnPair(p, v.outcomes, v.state.s, amount);
    ParBounds(p, v.outcomes, v.state.s, amount);
    ClaimableWithinEscrow(v);
    SettledPaySound(v, floors,
                    p.(long := p.long - amount, short := p.short - amount, scalarSets := p.scalarSets - amount),
                    amount, SCALE * amount, 0);
  }

  lemma RedeemGateSound(v: Vault, floors: nat, g: Gate, amount: nat)
    requires Sound(v, floors) && v.Conserves() && v.state.ScalarSettled? && v.outcomes.Get(g).Some?
    requires amount <= v.Of(v.state.winner).GateOf(g).Leg(v.outcomes.Get(g).value)
    ensures var r := v.RedeemGate(v.state.winner, g, v.outcomes.Get(g).value, amount);
            r.Done? && Sound(r.value, floors)
  {
    hide Sound, Burns, SettledBound, Vault.Conserves, Vault.TerminalPay, Outcomes.Get, Supply.GateOf,
         Supply.WithGate, GateSupply.Leg, GateSupply.WithLeg;
    var p, yes := v.Of(v.state.winner), v.outcomes.Get(g).value;
    BurnWinningGate(p, v.outcomes, v.state.s, g, amount);
    GateBound(p, v.outcomes, v.state.s, g, amount);
    ClaimableWithinEscrow(v);
    SettledPaySound(v, floors, p.WithGate(g, p.GateOf(g).WithLeg(yes, p.GateOf(g).Leg(yes) - amount)),
                    amount, SCALE * amount, 0);
  }

  /** Quarters of a base unit that one unit of the claim is worth under VOID. */
  function Quarters(kind: Kind): nat { if kind.BranchUsdc? then 2 else 1 }

  lemma RedeemVoidSound(v: Vault, floors: nat, b: Branch, kind: Kind, gate: Option<Gate>, amount: nat)
    requires Sound(v, floors) && v.state.Voided? && amount <= v.Of(b).Held(kind, gate)
    requires kind.GateYes? || kind.GateNo? ==> gate.Some?
    ensures v.RedeemVoid(b, kind, gate, amount).Done?
    ensures Sound(v.RedeemVoid(b, kind, gate, amount).value, floors + 1)
  {
    hide Sound, BranchValue, Supply.Held, Supply.Less, Supply.Backed, Supply.Identity, Vault.TerminalPay,
         Vault.Conserves;
    SoundBacked(v, floors);
    LessValue(v.Of(b), kind, gate, amount);
    VoidPaySound(v, floors, b, v.Of(b).Less(kind, gate, amount), Vault.VoidPayout(kind, amount),
                 Quarters(kind) * amount);
  }

  lemma LessValue(p: Supply, kind: Kind, gate: Option<Gate>, amount: nat)
    requires amount <= p.Held(kind, gate) && p.Backed()
    requires kind.GateYes? || kind.GateNo? ==> gate.Some?
    ensures BranchValue(p.Less(kind, gate, amount)) + Quarters(kind) * amount == BranchValue(p)
    ensures p.Less(kind, gate, amount).Backed() && p.Less(kind, gate, amount).Identity() <= p.Identity()
  {
    match kind {
      case BranchUsdc =>
      case LongLeg =>
      case ShortLeg =>
      case GateYes => if gate.value.Survival? {}
      case GateNo => if gate.value.Survival? {}
    }
  }

  lemma VoidPaySound(v: Vault, floors: nat, b: Branch, q: Supply, payout: nat, worth: nat)
    requires Sound(v, floors) && v.state.Voided? && q.Backed() && q.Identity() <= v.Of(b).Identity()
    requires BranchValue(q) + worth == BranchValue(v.Of(b))
    requires 4 * payout <= worth <= 4 * payout + 3
    ensures var r := v.On(b, q).TerminalPay(payout);
            r.Done? && Sound(r.value, floors + 1)
  {
    hide BranchValue, Supply.Identity, Supply.Backed, Supply.Paired, Vault.Conserves;
    SoundConserves(v.On(b, q).(terminalRedemptions := v.terminalRedemptions + 1,
                               escrowed := v.escrowed - payout, totalPayouts := v.totalPayouts + payout), floors + 1);
  }

  // ---------- The baseline vault ----------

  ghost function BaselineValue(v: BaselineVault): nat
    requires v.state.BaseSettled?
  {
    Worth(v.long, v.state.s) + Worth(v.short, SCALE - v.state.s)
  }

  ghost predicate BaselineSound(v: BaselineVault, floors: nat) {
    && v.escrowed + v.totalPayouts == v.collateralIn
    && v.long <= v.sets <= v.collateralIn && v.short <= v.sets
    && (v.state.BaseOpen? ==> v.escrowed == v.sets == v.long == v.short)
    && (v.state.BaseSettled? && v.collateralIn < AMOUNT_LIMIT ==>
          BaselineValue(v) <= SCALE * v.escrowed <= BaselineValue(v) + (SCALE - 1) * floors)
  }

  lemma BaselineSoundConserves(v: BaselineVault, floors: nat)
    requires BaselineSound(v, floors) && v.Fits()
    ensures v.Conserves()
  {
    hide Worth, FloorProduct;
    if v.state.BaseSettled? {
      LegsBound(v.long, v.short, v.state.s);
    }
  }

  lemma EmptyBaselineIsSound(v: BaselineVault)
    requires v == EMPTY_BASELINE
    ensures BaselineSound(v, 0)
  {}

  lemma BaselineSplitSound(v: BaselineVault, floors: nat, amount: nat)
    requires BaselineSound(v, floors) && v.state.BaseOpen?
    ensures v.Split(amount).Done? && BaselineSound(v.Split(amount).value, floors)
  {}

  lemma BaselineMergeSound(v: BaselineVault, floors: nat, amount: nat)
    requires BaselineSound(v, floors) && v.state.BaseOpen? && amount <= v.long
    ensures v.Merge(amount).Done? && BaselineSound(v.Merge(amount).value, floors)
  {}

  lemma BaselineSettleSound(v: BaselineVault, floors: nat, s: nat)
    requires BaselineSound(v, floors) && v.state.BaseOpen? && s <= SCALE
    ensures v.Settle(s).Done? && BaselineSound(v.Settle(s).value, floors)
  {
    hide Worth, FloorProduct;
    var w := v.(state := BaseSettled(s));
    PairWorth(w.long, s);
    LegsBound(w.long, w.short, s);
    assert w.Conserves();
  }

  lemma BaselineRedeemSound(v: BaselineVault, floors: nat, side: Side, amount: nat)
    requires BaselineSound(v, floors) && v.state.BaseSettled? && amount <= v.Leg(side)
    ensures var r := v.Redeem(side, amount);
            && (r.Done? <==> !v.Overdraws(side, amount))
            && (r.Done? ==> BaselineSound(r.value, floors + 1))
  {
    hide Worth, FloorProduct, FloorShare;
    if v.Fits() {
      var share := ShareOf(side, v.state.s);
      FloorProductExact(amount, share);
      WorthAdds(v.Leg(side) - amount, amount, share);
      assert BaselineValue(v.Without(side, amount)) + Worth(amount, share) == BaselineValue(v);
    }
    hide BaselineValue;
  }

  lemma BaselineFittingNeverOverdraws(v: BaselineVault, floors: nat, side: Side, amount: nat)
    requires BaselineSound(v, floors) && v.Fits()
    ensures !v.Overdraws(side, amount)
  {
    hide Worth, FloorProduct, FloorShare;
    if v.state.BaseSettled? && amount <= v.Leg(side) {
      var share, u := ShareOf(side, v.state.s), v.Without(side, amount);
      FloorProductExact(amount, share);
      WorthAdds(v.Leg(side) - amount, amount, share);
      assert BaselineValue(u) + Worth(amount, share) == BaselineValue(v);
      LegsBound(u.long, u.short, v.state.s);
    }
  }

  lemma BaselineRedeemPairSound(v: BaselineVault, floors: nat, amount: nat)
    requires BaselineSound(v, floors) && v.Conserves()
    requires v.state.BaseSettled? && amount <= v.long && amount <= v.short
    ensures var r := v.RedeemPair(amount);
            r.Done? && BaselineSound(r.value, floors)
  {
    hide Worth, FloorProduct;
    var u := v.(long := v.long - amount, short := v.short - amount, sets := v.sets - amount);
    assert u.long - Min(u.long, u.short) == v.long - Min(v.long, v.short);
    assert u.short - Min(u.long, u.short) == v.short - Min(v.long, v.short);
    assert u.ClaimBound() + amount == v.ClaimBound();
    if v.Fits() {
      var s := v.state.s;
      WorthAdds(v.long - amount, amount, s);
      WorthAdds(v.short - amount, amount, SCALE - s);
      PairWorth(amount, s);
      assert BaselineValue(u) + SCALE * amount == BaselineValue(v);
    }
    hide BaselineValue;
  }
}
