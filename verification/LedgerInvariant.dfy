/** What every program over the ledger keeps: holders' balances agree with the vaults, the event
    log accounts for the escrow, and the vaults stay solvent. */
module LedgerInvariant {
  import opened Wrappers
  import opened Decimals
  import opened Vaults
  import opened Solvency
  import opened LedgerDriver

  // ---------- Balances against supplies ----------

  /** Units of an instrument the vaults believe to be outstanding. Malformed keys name nothing. */
  ghost function Outstanding(v: Vault, w: BaselineVault, p: Position): nat {
    match p
    case Base(side) => w.Leg(side)
    case Claim(b, kind, gate) => if p.Named() then v.Of(b).Held(kind, gate) else 0
  }

  ghost predicate Agrees(m: Model) {
    forall p: Position :: Total(m.balances, p) == Outstanding(m.proposal, m.baseline, p)
  }

  /** A change of the named size at one position, and none elsewhere. */
  ghost function At(p: Position, target: Position, change: int): int {
    if p == target then change else 0
  }

  lemma MintBalance(bal: Balances, account: Account, target: Position, amount: nat, a: Account, p: Position)
    ensures Balance(Mint(bal, account, target, amount), a, p) ==
            Balance(bal, a, p) + if a == account then At(p, target, amount) else 0
  {}

  lemma BurnBalance(bal: Balances, account: Account, target: Position, amount: nat, a: Account, p: Position)
    requires amount <= Balance(bal, account, target)
    ensures Balance(Burn(bal, account, target, amount), a, p) ==
            Balance(bal, a, p) + if a == account then At(p, target, 0 - amount) else 0
  {}

  lemma MintTotal(bal: Balances, account: Account, target: Position, amount: nat, p: Position)
    ensures Total(Mint(bal, account, target, amount), p) == Total(bal, p) + At(p, target, amount)
  {
    hide Mint, Balance, At;
    forall a ensures Balance(Mint(bal, account, target, amount), a, p) ==
                     Balance(bal, a, p) + if a == account then At(p, target, amount) else 0 {
      MintBalance(bal, account, target, amount, a, p);
    }
  }

  lemma BurnTotal(bal: Balances, account: Account, target: Position, amount: nat, p: Position)
    requires amount <= Balance(bal, account, target)
    ensures Total(Burn(bal, account, target, amount), p) == Total(bal, p) + At(p, target, 0 - amount)
  {
    hide Burn, Balance, At;
    forall a ensures Balance(Burn(bal, account, target, amount), a, p) ==
                     Balance(bal, a, p) + if a == account then At(p, target, 0 - amount) else 0 {
      BurnBalance(bal, account, target, amount, a, p);
    }
  }

  lemma HeldWithinTotal(bal: Balances, account: Account, p: Position)
    ensures Balance(bal, account, p) <= Total(bal, p)
  {
    match account { case Alice => case Bob => case Carol => }
  }

  /** What a holder owns, the vault can burn. */
  lemma HolderBacked(m: Model, account: Account, p: Position)
    requires Agrees(m)
    ensures Balance(m.balances, account, p) <= Outstanding(m.proposal, m.baseline, p)
  {
    HeldWithinTotal(m.balances, account, p);
  }

  lemma UsdcBacked(m: Model, account: Account, b: Branch)
    requires Agrees(m)
    ensures Balance(m.balances, account, Usdc(b)) <= m.proposal.Of(b).usdc
  {
    hide Balance, Total;
    HolderBacked(m, account, Usdc(b));
  }

  lemma LegBacked(m: Model, account: Account, b: Branch, side: Side)
    requires Agrees(m)
    ensures Balance(m.balances, account, Leg(b, side)) <= m.proposal.Of(b).Leg(side)
  {
    hide Balance, Total;
    HolderBacked(m, account, Leg(b, side));
  }

  lemma GateLegBacked(m: Model, account: Account, b: Branch, g: Gate, yes: bool)
    requires Agrees(m)
    ensures Balance(m.balances, account, GateLeg(b, g, yes)) <= m.proposal.Of(b).GateOf(g).Leg(yes)
  {
    hide Balance, Total;
    HolderBacked(m, account, GateLeg(b, g, yes));
  }

  lemma BaseBacked(m: Model, account: Account, side: Side)
    requires Agrees(m)
    ensures Balance(m.balances, account, Base(side)) <= m.baseline.Leg(side)
  {
    hide Balance, Total;
    HolderBacked(m, account, Base(side));
  }

  // ---------- Holders are counted once, and no zero balance is kept ----------

  ghost predicate Tidy(bal: Balances, accounts: seq<Account>) {
    && (forall h :: h in bal ==> bal[h] > 0 && h.account in accounts)
    && (forall i, j :: 0 <= i < j < |accounts| ==> accounts[i] != accounts[j])
  }

  lemma MintTidy(bal: Balances, accounts: seq<Account>, account: Account, p: Position, amount: nat)
    requires Tidy(bal, accounts)
    ensures Tidy(Mint(bal, account, p, amount), Counted(accounts, account, amount))
  {}

  lemma BurnTidy(bal: Balances, accounts: seq<Account>, account: Account, p: Position, amount: nat)
    requires Tidy(bal, accounts) && amount <= Balance(bal, account, p)
    ensures Tidy(Burn(bal, account, p, amount), accounts)
  {}

  lemma CountedTwice(accounts: seq<Account>, account: Account, amount: nat)
    ensures Counted(Counted(accounts, account, amount), account, amount) == Counted(accounts, account, amount)
  {}

  // ---------- The event log as an account of the escrow ----------

  datatype Tally = Tally(
    netSplits: int, redeemed: nat, floors: nat, baseNetSplits: int, baseRedeemed: nat, baseFloors: nat)

  function Tallied(t: Tally, e: Event): Tally {
    match e
    case EvSplit(a) => t.(netSplits := t.netSplits + a)
    case EvMerged(a) => t.(netSplits := t.netSplits - a)
    case EvRedeemed(x) => t.(redeemed := t.redeemed + x)
    case EvScalarRedeemed(_, x) => t.(redeemed := t.redeemed + x, floors := t.floors + 1)
    case EvScalarPairRedeemed(x) => t.(redeemed := t.redeemed + x)
    case EvGateRedeemed(_, x) => t.(redeemed := t.redeemed + x)
    case EvVoidRedeemed(_, _, _, x) => t.(redeemed := t.redeemed + x, floors := t.floors + 1)
    case EvBaselineSplit(a) => t.(baseNetSplits := t.baseNetSplits + a)
    case EvBaselineMerged(a) => t.(baseNetSplits := t.baseNetSplits - a)
    case EvBaselineRedeemed(_, x) => t.(baseRedeemed := t.baseRedeemed + x, baseFloors := t.baseFloors + 1)
    case _ => t
  }

  function TallyOf(events: seq<Event>): Tally {
    if events == [] then Tally(0, 0, 0, 0, 0, 0)
    else Tallied(TallyOf(events[..|events| - 1]), events[|events| - 1])
  }

  lemma TallySnoc(events: seq<Event>, e: Event)
    ensures TallyOf(events + [e]) == Tallied(TallyOf(events), e)
  {
    assert (events + [e])[..|events|] == events;
  }

  /** Escrow is what was split in, less what was merged out, less what was redeemed. */
  ghost predicate Accounted(v: Vault, t: Tally) {
    && v.escrowed + t.redeemed == t.netSplits
    && (v.terminalRedemptions == 0 ==> t.redeemed == 0)
  }

  ghost predicate BaselineAccounted(v: BaselineVault, t: Tally) {
    && v.escrowed + t.baseRedeemed == t.baseNetSplits
    && (v.state.BaseOpen? ==> t.baseRedeemed == 0)
  }

  /** Sound and accounted for; and having passed its own conservation check, as every published vault has. */
  ghost predicate ProposalOk(v: Vault, t: Tally) { Sound(v, t.floors) && Accounted(v, t) && v.Conserves() }

  ghost predicate BaselineOk(v: BaselineVault, t: Tally) {
    BaselineSound(v, t.baseFloors) && BaselineAccounted(v, t) && v.Conserves()
  }

  ghost predicate Valid(m: Model) {
    && ProposalOk(m.proposal, TallyOf(m.events))
    && BaselineOk(m.baseline, TallyOf(m.events))
    && Agrees(m)
    && Tidy(m.balances, m.countAccounts)
  }

  lemma InitiallyValid(m: Model)
    requires m.proposal == EMPTY_VAULT && m.baseline == EMPTY_BASELINE
    requires m.balances == map[] && m.events == [] && m.countAccounts == []
    ensures Valid(m)
  {
    hide ProposalOk, BaselineOk, Outstanding, Total, TallyOf, Sound, BaselineSound, Vault.Conserves,
         BaselineVault.Conserves;
    EmptyTally(m.events);
    EmptyIsSound(m.proposal);
    EmptyBaselineIsSound(m.baseline);
    SoundConserves(m.proposal, 0);
    BaselineSoundConserves(m.baseline, 0);
    EmptyOk(m.proposal, m.baseline, TallyOf(m.events));
    forall p: Position ensures Total(m.balances, p) == Outstanding(m.proposal, m.baseline, p) {
      EmptyOutstanding(m.proposal, m.baseline, p);
      EmptyTotal(m.balances, p);
    }
  }

  lemma EmptyOk(v: Vault, w: BaselineVault, t: Tally)
    requires Sound(v, 0) && v.escrowed == 0 && v.Conserves() && BaselineSound(w, 0) && w.escrowed == 0 && w.Conserves()
    requires t == Tally(0, 0, 0, 0, 0, 0)
    ensures ProposalOk(v, t) && BaselineOk(w, t)
  {
    hide Sound, BaselineSound, Vault.Conserves, BaselineVault.Conserves;
  }

  lemma EmptyTally(events: seq<Event>)
    requires events == []
    ensures TallyOf(events) == Tally(0, 0, 0, 0, 0, 0)
  {}

  lemma EmptyTotal(bal: Balances, p: Position)
    requires bal == map[]
    ensures Total(bal, p) == 0
  {}

  lemma EmptyOutstanding(v: Vault, w: BaselineVault, p: Position)
    requires v == EMPTY_VAULT && w == EMPTY_BASELINE
    ensures Outstanding(v, w, p) == 0
  {}

  // ---------- The vaults, operation by operation, against the log ----------

  lemma SplitOk(v: Vault, t: Tally, amount: nat)
    requires ProposalOk(v, t) && v.state.Open?
    ensures v.Split(amount).Done? && ProposalOk(v.Split(amount).value, Tallied(t, EvSplit(amount)))
  {
    hide Sound, Vault.CheckConservation, Vault.Conserves;
    SplitSound(v, t.floors, amount);
  }

  lemma MergeOk(v: Vault, t: Tally, amount: nat)
    requires ProposalOk(v, t) && v.state.Live() && amount <= v.accept.usdc && amount <= v.reject.usdc
    ensures v.Merge(amount).Done? && ProposalOk(v.Merge(amount).value, Tallied(t, EvMerged(amount)))
  {
    hide Sound, Vault.CheckConservation, Vault.Pay, Vault.Conserves;
    MergeSound(v, t.floors, amount);
  }

  lemma SplitScalarOk(v: Vault, t: Tally, b: Branch, amount: nat)
    requires ProposalOk(v, t) && v.state.Open? && amount <= v.Of(b).usdc
    ensures v.SplitScalar(b, amount).Done? && ProposalOk(v.SplitScalar(b, amount).value, t)
  {
    hide Sound, Vault.CheckConservation, Vault.Conserves;
    SplitScalarSound(v, t.floors, b, amount);
  }

  lemma MergeScalarOk(v: Vault, t: Tally, b: Branch, amount: nat)
    requires ProposalOk(v, t) && v.state.Live() && amount <= v.Of(b).long && amount <= v.Of(b).short
    ensures v.MergeScalar(b, amount).Done? && ProposalOk(v.MergeScalar(b, amount).value, t)
  {
    hide Sound, Vault.CheckConservation, Vault.Conserves;
    MergeScalarSound(v, t.floors, b, amount);
  }

  lemma SplitGateOk(v: Vault, t: Tally, b: Branch, g: Gate, amount: nat)
    requires ProposalOk(v, t) && v.state.Open? && amount <= v.Of(b).usdc
    ensures v.SplitGate(b, g, amount).Done? && ProposalOk(v.SplitGate(b, g, amount).value, t)
  {
    hide Sound, Vault.CheckConservation, Supply.WithGate, Vault.Conserves;
    SplitGateSound(v, t.floors, b, g, amount);
  }

  lemma MergeGateOk(v: Vault, t: Tally, b: Branch, g: Gate, amount: nat)
    requires ProposalOk(v, t) && v.state.Live() && amount <= v.Of(b).GateOf(g).yes && amount <= v.Of(b).GateOf(g).no
    ensures v.MergeGate(b, g, amount).Done? && ProposalOk(v.MergeGate(b, g, amount).value, t)
  {
    hide Sound, Vault.CheckConservation, Supply.WithGate, Supply.GateOf, Vault.Conserves;
    MergeGateSound(v, t.floors, b, g, amount);
  }

  lemma RedeemOk(v: Vault, t: Tally, amount: nat)
    requires ProposalOk(v, t) && v.state.ScalarSettled? && amount <= v.Of(v.state.winner).usdc
    ensures var r := v.Redeem(v.state.winner, amount);
            r.Done? && ProposalOk(r.value, Tallied(t, EvRedeemed(amount)))
  {
    hide Sound, Vault.TerminalPay, Vault.Conserves;
    RedeemSound(v, t.floors, amount);
  }

  lemma RedeemScalarOk(v: Vault, t: Tally, side: Side, amount: nat)
    requires ProposalOk(v, t) && v.state.ScalarSettled? && amount <= v.Of(v.state.winner).Leg(side)
    ensures var r := v.RedeemScalar(v.state.winner, side, amount);
            && (r.Done? <==> !v.Overdraws(side, amount))
            && (r.Done? ==> ProposalOk(r.value, Tallied(t, EvScalarRedeemed(side, v.ScalarPayout(side, amount)))))
  {
    hide Sound, Vault.TerminalPay, Vault.ScalarPayout, Vault.Overdraws, Supply.Leg, Supply.WithLeg, Vault.Conserves;
    RedeemScalarSound(v, t.floors, side, amount);
  }

  lemma RedeemScalarPairOk(v: Vault, t: Tally, amount: nat)
    requires ProposalOk(v, t) && v.state.ScalarSettled?
    requires amount <= v.Of(v.state.winner).long && amount <= v.Of(v.state.winner).short
    ensures var r := v.RedeemScalarPair(v.state.winner, amount);
            r.Done? && ProposalOk(r.value, Tallied(t, EvScalarPairRedeemed(amount)))
  {
    hide Sound, Vault.TerminalPay, Vault.Conserves;
    RedeemScalarPairSound(v, t.floors, amount);
  }

  lemma RedeemGateOk(v: Vault, t: Tally, g: Gate, amount: nat)
    requires ProposalOk(v, t) && v.state.ScalarSettled? && v.outcomes.Get(g).Some?
    requires amount <= v.Of(v.state.winner).GateOf(g).Leg(v.outcomes.Get(g).value)
    ensures var r := v.RedeemGate(v.state.winner, g, v.outcomes.Get(g).value, amount);
            r.Done? && ProposalOk(r.value, Tallied(t, EvGateRedeemed(g, amount)))
  {
    hide Sound, Vault.TerminalPay, Outcomes.Get, Supply.GateOf, Supply.WithGate, GateSupply.Leg, GateSupply.WithLeg,
         Vault.Conserves;
    RedeemGateSound(v, t.floors, g, amount);
  }

  lemma RedeemVoidOk(v: Vault, t: Tally, b: Branch, kind: Kind, gate: Option<Gate>, amount: nat)
    requires ProposalOk(v, t) && v.state.Voided? && amount <= v.Of(b).Held(kind, gate)
    requires kind.GateYes? || kind.GateNo? ==> gate.Some?
    ensures v.RedeemVoid(b, kind, gate, amount).Done?
    ensures ProposalOk(v.RedeemVoid(b, kind, gate, amount).value,
                       Tallied(t, EvVoidRedeemed(kind, gate, amount, Vault.VoidPayout(kind, amount))))
  {
    hide Sound, Vault.TerminalPay, Vault.VoidPayout, Supply.Held, Supply.Less, Vault.Conserves;
    RedeemVoidSound(v, t.floors, b, kind, gate, amount);
  }

  /** More floored redemptions only loosen the bound. */
  lemma BaselineLooser(v: BaselineVault, floors: nat)
    requires BaselineSound(v, floors)
    ensures BaselineSound(v, floors + 1)
  {
    hide Worth;
  }

  lemma BaselineRedeemOk(v: BaselineVault, t: Tally, side: Side, amount: nat)
    requires BaselineOk(v, t) && v.state.BaseSettled? && amount <= v.Leg(side)
    ensures var r := v.Redeem(side, amount);
            && (r.Done? <==> !v.Overdraws(side, amount))
            && (r.Done? ==> BaselineOk(r.value, Tallied(t, EvBaselineRedeemed(side, v.LegPayout(side, amount)))))
  {
    hide BaselineSound, BaselineVault.Pay, BaselineVault.LegPayout, BaselineVault.Leg, BaselineVault.Overdraws,
         BaselineVault.Conserves;
    BaselineRedeemSound(v, t.baseFloors, side, amount);
  }

  lemma BaselineRedeemPairOk(v: BaselineVault, t: Tally, amount: nat)
    requires BaselineOk(v, t) && v.state.BaseSettled? && amount <= v.long && amount <= v.short
    ensures var r := v.RedeemPair(amount);
            r.Done? && BaselineOk(r.value, Tallied(t, EvBaselineRedeemed(Long, amount)))
  {
    hide BaselineSound, BaselineVault.Pay, BaselineVault.Conserves;
    BaselineRedeemPairSound(v, t.baseFloors, amount);
    BaselineLooser(v.RedeemPair(amount).value, t.baseFloors);
  }

  // ---------- What each operation does to the outstanding supplies ----------

  lemma BothUsdc(v: Vault, v': Vault, w: BaselineVault, change: int, p: Position)
    requires v.accept.usdc + change >= 0 && v.reject.usdc + change >= 0
    requires v'.accept == v.accept.(usdc := v.accept.usdc + change)
    requires v'.reject == v.reject.(usdc := v.reject.usdc + change)
    ensures Outstanding(v', w, p) == Outstanding(v, w, p) + At(p, Usdc(Accept), change) + At(p, Usdc(Reject), change)
  {}

  lemma ScalarEffect(v: Vault, w: BaselineVault, b: Branch, usdc: int, legs: int, p: Position)
    requires v.Of(b).usdc + usdc >= 0 && v.Of(b).long + legs >= 0 && v.Of(b).short + legs >= 0
    requires v.Of(b).scalarSets + legs >= 0
    ensures var q := v.Of(b);
            var v' := v.On(b, q.(usdc := q.usdc + usdc, scalarSets := q.scalarSets + legs,
                                 long := q.long + legs, short := q.short + legs));
            Outstanding(v', w, p) == Outstanding(v, w, p)
            + At(p, Usdc(b), usdc) + At(p, Leg(b, Long), legs) + At(p, Leg(b, Short), legs)
  {}

  lemma GateEffect(v: Vault, w: BaselineVault, b: Branch, g: Gate, usdc: int, legs: int, p: Position)
    requires v.Of(b).usdc + usdc >= 0 && v.Of(b).GateOf(g).sets + legs >= 0
    requires v.Of(b).GateOf(g).yes + legs >= 0 && v.Of(b).GateOf(g).no + legs >= 0
    ensures var q := v.Of(b).GateOf(g);
            var v' := v.On(b, v.Of(b).(usdc := v.Of(b).usdc + usdc).WithGate(
                                g, GateSupply(q.sets + legs, q.yes + legs, q.no + legs)));
            Outstanding(v', w, p) == Outstanding(v, w, p)
            + At(p, Usdc(b), usdc) + At(p, GateLeg(b, g, true), legs) + At(p, GateLeg(b, g, false), legs)
  {
    if g.Survival? {}
  }

  /** Burning units of one instrument. */
  lemma LessEffect(v: Vault, w: BaselineVault, b: Branch, kind: Kind, gate: Option<Gate>, amount: nat, p: Position)
    requires amount <= v.Of(b).Held(kind, gate)
    requires kind.GateYes? || kind.GateNo? ==> gate.Some?
    requires Claim(b, kind, gate).Named() || amount == 0
    ensures Outstanding(v.On(b, v.Of(b).Less(kind, gate, amount)), w, p) ==
            Outstanding(v, w, p) + At(p, Claim(b, kind, gate), 0 - amount)
  {
    match kind {
      case BranchUsdc =>
      case LongLeg =>
      case ShortLeg =>
      case GateYes => if gate.value.Survival? {}
      case GateNo => if gate.value.Survival? {}
    }
  }

  lemma PairEffect(v: Vault, v': Vault, w: BaselineVault, b: Branch, amount: nat, p: Position)
    requires amount <= v.Of(b).long && amount <= v.Of(b).short && amount <= v.Of(b).scalarSets
    requires var q := v.Of(b);
             var x := v.On(b, q.(long := q.long - amount, short := q.short - amount,
                                 scalarSets := q.scalarSets - amount));
             v'.accept == x.accept && v'.reject == x.reject
    ensures Outstanding(v', w, p) ==
            Outstanding(v, w, p) + At(p, Leg(b, Long), 0 - amount) + At(p, Leg(b, Short), 0 - amount)
  {}

  lemma SameBranches(v: Vault, v': Vault, w: BaselineVault, p: Position)
    requires v'.accept == v.accept && v'.reject == v.reject
    ensures Outstanding(v', w, p) == Outstanding(v, w, p)
  {}

  lemma BaselineEffect(v: Vault, w: BaselineVault, w': BaselineVault, long: int, short: int, p: Position)
    requires w'.long == w.long + long && w'.short == w.short + short
    ensures Outstanding(v, w', p) == Outstanding(v, w, p) + At(p, Base(Long), long) + At(p, Base(Short), short)
  {}

  // ---------- Two-position balance changes ----------

  lemma MintTwo(bal: Balances, accounts: seq<Account>, account: Account, x: Position, y: Position, amount: nat)
    requires Tidy(bal, accounts)
    ensures var after := Mint(Mint(bal, account, x, amount), account, y, amount);
            && Tidy(after, Counted(accounts, account, amount))
            && forall p :: Total(after, p) == Total(bal, p) + At(p, x, amount) + At(p, y, amount)
  {
    hide Tidy, Mint, Total, At;
    var one := Mint(bal, account, x, amount);
    MintTidy(bal, accounts, account, x, amount);
    MintTidy(one, Counted(accounts, account, amount), account, y, amount);
    CountedTwice(accounts, account, amount);
    forall p ensures Total(Mint(one, account, y, amount), p) == Total(bal, p) + At(p, x, amount) + At(p, y, amount) {
      MintTotal(bal, account, x, amount, p);
      MintTotal(one, account, y, amount, p);
    }
  }

  lemma BurnTwo(bal: Balances, accounts: seq<Account>, account: Account, x: Position, y: Position, amount: nat)
    requires Tidy(bal, accounts) && x != y && amount <= Balance(bal, account, x) && amount <= Balance(bal, account, y)
    ensures amount <= Balance(Burn(bal, account, x, amount), account, y)
    ensures var after := Burn(Burn(bal, account, x, amount), account, y, amount);
            && Tidy(after, accounts)
            && forall p :: Total(after, p) == Total(bal, p) + At(p, x, 0 - amount) + At(p, y, 0 - amount)
  {
    hide Tidy, Burn, Total, Balance;
    var one := Burn(bal, account, x, amount);
    BurnBalance(bal, account, x, amount, account, y);
    BurnTidy(bal, accounts, account, x, amount);
    BurnTidy(one, accounts, account, y, amount);
    forall p ensures Total(Burn(one, account, y, amount), p) ==
        Total(bal, p) + At(p, x, 0 - amount) + At(p, y, 0 - amount) {
      BurnTotal(bal, account, x, amount, p);
      BurnTotal(one, account, y, amount, p);
    }
  }

  lemma BurnOne(bal: Balances, accounts: seq<Account>, account: Account, x: Position, amount: nat)
    requires Tidy(bal, accounts) && amount <= Balance(bal, account, x)
    ensures Tidy(Burn(bal, account, x, amount), accounts)
    ensures forall p :: Total(Burn(bal, account, x, amount), p) == Total(bal, p) + At(p, x, 0 - amount)
  {
    hide Tidy, Burn, Total, Balance, At;
    BurnTidy(bal, accounts, account, x, amount);
    forall p ensures Total(Burn(bal, account, x, amount), p) == Total(bal, p) + At(p, x, 0 - amount) {
      BurnTotal(bal, account, x, amount, p);
    }
  }

  lemma SplitIntoBalances(m: Model, account: Account, b: Branch, yes: Position, no: Position, amount: nat)
    requires Tidy(m.balances, m.countAccounts) && amount <= Balance(m.balances, account, Usdc(b))
    ensures var (after, counted) := SplitInto(m, account, b, yes, no, amount);
            && Tidy(after, counted)
            && forall p :: Total(after, p) ==
                 Total(m.balances, p) + At(p, Usdc(b), 0 - amount) + At(p, yes, amount) + At(p, no, amount)
  {
    hide Tidy, Burn, Mint, Total, At, Balance;
    BurnOne(m.balances, m.countAccounts, account, Usdc(b), amount);
    MintTwo(Burn(m.balances, account, Usdc(b), amount), m.countAccounts, account, yes, no, amount);
  }

  lemma MergeFromBalances(m: Model, account: Account, b: Branch, yes: Position, no: Position, amount: nat)
    requires Tidy(m.balances, m.countAccounts) && yes != no
    requires amount <= Balance(m.balances, account, yes) && amount <= Balance(m.balances, account, no)
    ensures var (after, counted) := MergeFrom(m, account, b, yes, no, amount);
            && Tidy(after, counted)
            && forall p :: Total(after, p) ==
                 Total(m.balances, p) + At(p, Usdc(b), amount) + At(p, yes, 0 - amount) + At(p, no, 0 - amount)
  {
    hide Tidy, Mint, Total, At, Balance;
    BurnTwo(m.balances, m.countAccounts, account, yes, no, amount);
    var burned := Burn(Burn(m.balances, account, yes, amount), account, no, amount);
    MintTidy(burned, m.countAccounts, account, Usdc(b), amount);
    forall p ensures Total(Mint(burned, account, Usdc(b), amount), p) ==
                     Total(m.balances, p) + At(p, Usdc(b), amount) + At(p, yes, 0 - amount) + At(p, no, 0 - amount) {
      MintTotal(burned, account, Usdc(b), amount, p);
    }
  }
}
