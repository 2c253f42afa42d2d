/** The per-account driver: 21 operations over one proposal vault, one baseline vault and three holders. */
module LedgerDriver {
  import opened Wrappers
  import opened Decimals
  import opened Vaults

  datatype Account = Alice | Bob | Carol

  /** A balance key. The source forms keys from free text, so a gate may be missing or superfluous. */
  datatype Position = Claim(branch: Branch, kind: Kind, gate: Option<Gate>) | Base(side: Side) {
    predicate Named() {
      Claim? ==> ((kind.GateYes? || kind.GateNo?) <==> gate.Some?)
    }
  }

  function Usdc(b: Branch): Position { Claim(b, BranchUsdc, None) }
  function Leg(b: Branch, side: Side): Position { Claim(b, if side.Long? then LongLeg else ShortLeg, None) }
  function GateLeg(b: Branch, g: Gate, yes: bool): Position { Claim(b, if yes then GateYes else GateNo, Some(g)) }

  datatype Holding = Holding(account: Account, position: Position)

  type Balances = map<Holding, nat>

  function Balance(bal: Balances, account: Account, p: Position): nat {
    if Holding(account, p) in bal then bal[Holding(account, p)] else 0
  }

  function Total(bal: Balances, p: Position): nat {
    Balance(bal, Alice, p) + Balance(bal, Bob, p) + Balance(bal, Carol, p)
  }

  function Mint(bal: Balances, account: Account, p: Position, amount: nat): Balances {
    if amount == 0 then bal else bal[Holding(account, p) := Balance(bal, account, p) + amount]
  }

  function Burn(bal: Balances, account: Account, p: Position, amount: nat): Balances
    requires amount <= Balance(bal, account, p)
  {
    if amount == 0 then bal
    else if amount < Balance(bal, account, p) then bal[Holding(account, p) := Balance(bal, account, p) - amount]
    else bal - {Holding(account, p)}
  }

  datatype Event =
    | EvSplit(amount: nat) | EvMerged(amount: nat)
    | EvScalarSplit(branch: Branch, amount: nat) | EvScalarMerged(branch: Branch, amount: nat)
    | EvGateSplit(branch: Branch, gate: Gate, amount: nat) | EvGateMerged(branch: Branch, gate: Gate, amount: nat)
    | EvTransferred(position: Position, amount: nat)
    | EvResolved(winner: Branch) | EvVoided
    | EvScalarSettled(winner: Branch, s: nat) | EvGateSettled(winner: Branch, gate: Gate, outcome: bool)
    | EvRedeemed(payout: nat) | EvScalarRedeemed(side: Side, payout: nat) | EvScalarPairRedeemed(payout: nat)
    | EvGateRedeemed(gate: Gate, payout: nat)
    | EvVoidRedeemed(kind: Kind, maybeGate: Option<Gate>, amount: nat, payout: nat)
    | EvBaselineSplit(amount: nat) | EvBaselineMerged(amount: nat)
    | EvBaselineSettled(s: nat) | EvBaselineRedeemed(side: Side, payout: nat)

  datatype Op =
    | Split(account: Account, amount: nat)
    | Merge(account: Account, amount: nat)
    | SplitScalar(account: Account, branch: Branch, amount: nat)
    | MergeScalar(account: Account, branch: Branch, amount: nat)
    | SplitGate(account: Account, branch: Branch, gate: Gate, amount: nat)
    | MergeGate(account: Account, branch: Branch, gate: Gate, amount: nat)
    | Transfer(source: Account, destination: Account, position: Position, amount: nat)
    | Resolve(winner: Branch)
    | Void
    | SettleScalar(score: int)
    | SettleGate(gate: Gate, outcome: bool)
    | Redeem(account: Account, amount: nat)
    | RedeemScalar(account: Account, side: Side, amount: nat)
    | RedeemScalarPair(account: Account, amount: nat)
    | RedeemGate(account: Account, gate: Gate, amount: nat)
    | RedeemVoid(account: Account, branch: Branch, kind: Kind, maybeGate: Option<Gate>, amount: nat)
    | SplitBaseline(account: Account, amount: nat)
    | MergeBaseline(account: Account, amount: nat)
    | SettleBaseline(score: int)
    | RedeemBaseline(account: Account, side: Side, amount: nat)
    | RedeemBaselinePair(account: Account, amount: nat)

  datatype Receipt =
    | NoReceipt | Minted(minted: nat) | Exchanged(burned: nat, minted: nat) | Paid(burned: nat, payout: nat)
    | Moved(moved: nat) | Scored(score: int) | Decided(outcome: bool)

  datatype Model = Model(
    proposal: Vault, baseline: BaselineVault, balances: Balances, events: seq<Event>, countAccounts: seq<Account>)

  datatype Step = Step(model: Model, receipt: Receipt)

  const MIN_LEDGER_AMOUNT: nat := 10_000

  const INITIAL := Model(EMPTY_VAULT, EMPTY_BASELINE, map[], [], [])

  /** Minting a positive amount records the holder, once, in order of first appearance. */
  function Counted(accounts: seq<Account>, account: Account, amount: nat): seq<Account> {
    if amount == 0 || account in accounts then accounts else accounts + [account]
  }

  function DoSplit(m: Model, account: Account, amount: nat): Attempt<Step> {
    if amount < MIN_LEDGER_AMOUNT then Refused(AmountTooSmall)
    else if !m.proposal.state.Open? then Refused(WrongVaultState)
    else
      var v :- m.proposal.Split(amount);
      Done(Step(m.(proposal := v,
                   balances := Mint(Mint(m.balances, account, Usdc(Accept), amount), account, Usdc(Reject), amount),
                   countAccounts := Counted(m.countAccounts, account, amount),
                   events := m.events + [EvSplit(amount)]), Minted(amount)))
  }

  function DoMerge(m: Model, account: Account, amount: nat): Attempt<Step> {
    if !m.proposal.state.Live() then Refused(WrongVaultState)
    else if Balance(m.balances, account, Usdc(Accept)) < amount
         || Balance(m.balances, account, Usdc(Reject)) < amount then
      Refused(InsufficientPosition)
    else
      var v :- m.proposal.Merge(amount);
      Done(Step(m.(proposal := v,
                   balances := Burn(Burn(m.balances, account, Usdc(Accept), amount), account, Usdc(Reject), amount),
                   events := m.events + [EvMerged(amount)]), Paid(amount, amount)))
  }

  /** The scalar and gate families differ only in which two legs a branch-USDC unit splits into. */
  function SplitInto(m: Model, account: Account, b: Branch, yes: Position, no: Position, amount: nat)
    : (Balances, seq<Account>)
    requires amount <= Balance(m.balances, account, Usdc(b))
  {
    (Mint(Mint(Burn(m.balances, account, Usdc(b), amount), account, yes, amount), account, no, amount),
     Counted(m.countAccounts, account, amount))
  }

  function MergeFrom(m: Model, account: Account, b: Branch, yes: Position, no: Position, amount: nat)
    : (Balances, seq<Account>)
    requires yes != no && amount <= Balance(m.balances, account, yes) && amount <= Balance(m.balances, account, no)
  {
    (Mint(Burn(Burn(m.balances, account, yes, amount), account, no, amount), account, Usdc(b), amount),
     Counted(m.countAccounts, account, amount))
  }

  function DoSplitScalar(m: Model, account: Account, b: Branch, amount: nat): Attempt<Step> {
    if !m.proposal.state.Open? then Refused(WrongVaultState)
    else if Balance(m.balances, account, Usdc(b)) < amount then Refused(InsufficientPosition)
    else
      var v :- m.proposal.SplitScalar(b, amount);
      var (balances, counted) := SplitInto(m, account, b, Leg(b, Long), Leg(b, Short), amount);
      Done(Step(m.(proposal := v, balances := balances, countAccounts := counted,
                   events := m.events + [EvScalarSplit(b, amount)]), Exchanged(amount, amount)))
  }

  function DoMergeScalar(m: Model, account: Account, b: Branch, amount: nat): Attempt<Step> {
    if !m.proposal.state.Live() then Refused(WrongVaultState)
    else if Balance(m.balances, account, Leg(b, Long)) < amount
         || Balance(m.balances, account, Leg(b, Short)) < amount then
      Refused(InsufficientPosition)
    else
      var v :- m.proposal.MergeScalar(b, amount);
      var (balances, counted) := MergeFrom(m, account, b, Leg(b, Long), Leg(b, Short), amount);
      Done(Step(m.(proposal := v, balances := balances, countAccounts := counted,
                   events := m.events + [EvScalarMerged(b, amount)]), Exchanged(amount, amount)))
  }

  function DoSplitGate(m: Model, account: Account, b: Branch, g: Gate, amount: nat): Attempt<Step> {
    if !m.proposal.state.Open? then Refused(WrongVaultState)
    else if Balance(m.balances, account, Usdc(b)) < amount then Refused(InsufficientPosition)
    else
      var v :- m.proposal.SplitGate(b, g, amount);
      var (balances, counted) := SplitInto(m, account, b, GateLeg(b, g, true), GateLeg(b, g, false), amount);
      Done(Step(m.(proposal := v, balances := balances, countAccounts := counted,
                   events := m.events + [EvGateSplit(b, g, amount)]), Exchanged(amount, amount)))
  }

  function DoMergeGate(m: Model, account: Account, b: Branch, g: Gate, amount: nat): Attempt<Step> {
    if !m.proposal.state.Live() then Refused(WrongVaultState)
    else if Balance(m.balances, account, GateLeg(b, g, true)) < amount
         || Balance(m.balances, account, GateLeg(b, g, false)) < amount then
      Refused(InsufficientPosition)
    else
      var v :- m.proposal.MergeGate(b, g, amount);
      var (balances, counted) := MergeFrom(m, account, b, GateLeg(b, g, true), GateLeg(b, g, false), amount);
      Done(Step(m.(proposal := v, balances := balances, countAccounts := counted,
                   events := m.events + [EvGateMerged(b, g, amount)]), Exchanged(amount, amount)))
  }

  /** A transfer that would strand a remainder below the minimum moves the whole balance. */
  function MovedAmount(balance: nat, amount: nat): nat {
    if amount < balance < amount + MIN_LEDGER_AMOUNT then balance else amount
  }

  function DoTransfer(m: Model, from: Account, to: Account, p: Position, amount: nat): Attempt<Step> {
    var moved := MovedAmount(Balance(m.balances, from, p), amount);
    if amount == 0 || (Balance(m.balances, to, p) == 0 && amount < MIN_LEDGER_AMOUNT) then Refused(AmountTooSmall)
    else if (if p.Claim? then !m.proposal.state.Live() else !m.baseline.state.BaseOpen?) then Refused(WrongVaultState)
    else if Balance(m.balances, from, p) < moved then Refused(InsufficientPosition)
    else
      var v :- if p.Claim? then m.proposal.Transfer() else Done(m.proposal);
      Done(Step(m.(proposal := v, balances := Mint(Burn(m.balances, from, p, moved), to, p, moved),
                   countAccounts := Counted(m.countAccounts, to, moved),
                   events := m.events + [EvTransferred(p, moved)]), Moved(moved)))
  }

  function DoResolve(m: Model, w: Branch): Attempt<Step> {
    if !m.proposal.state.Open? then Refused(WrongVaultState)
    else
      var v :- m.proposal.Resolve(w);
      Done(Step(m.(proposal := v, events := m.events + [EvResolved(w)]), NoReceipt))
  }

  function DoVoid(m: Model): Attempt<Step> {
    if !m.proposal.state.Open? && !m.proposal.state.Resolved? then Refused(WrongVaultState)
    else
      var v :- m.proposal.Void();
      Done(Step(m.(proposal := v, events := m.events + [EvVoided]), NoReceipt))
  }

  function DoSettleScalar(m: Model, s: int): Attempt<Step> {
    if s < 0 || SCALE < s then Refused(InvalidScore)
    else if !m.proposal.state.Resolved? then Refused(WrongVaultState)
    else
      var v :- m.proposal.SettleScalar(s);
      Done(Step(m.(proposal := v, events := m.events + [EvScalarSettled(m.proposal.state.winner, s)]), Scored(s)))
  }

  function DoSettleGate(m: Model, g: Gate, outcome: bool): Attempt<Step> {
    if !m.proposal.state.Resolved? && !m.proposal.state.ScalarSettled? then Refused(WrongVaultState)
    else if m.proposal.outcomes.Get(g).Some? then Refused(GateAlreadySettled)
    else
      var v :- m.proposal.SettleGate(g, outcome);
      Done(Step(m.(proposal := v, events := m.events + [EvGateSettled(m.proposal.state.winner, g, outcome)]),
                Decided(outcome)))
  }

  function DoRedeem(m: Model, account: Account, amount: nat): Attempt<Step> {
    if !m.proposal.state.ScalarSettled? then Refused(WrongVaultState)
    else
      var b := m.proposal.state.winner;
      if Balance(m.balances, account, Usdc(b)) < amount then Refused(InsufficientPosition)
      else
        var v :- m.proposal.Redeem(b, amount);
        Done(Step(m.(proposal := v, balances := Burn(m.balances, account, Usdc(b), amount),
                     events := m.events + [EvRedeemed(amount)]), Paid(amount, amount)))
  }

  function DoRedeemScalar(m: Model, account: Account, side: Side, amount: nat): Attempt<Step> {
    if !m.proposal.state.ScalarSettled? then Refused(WrongVaultState)
    else
      var b := m.proposal.state.winner;
      if Balance(m.balances, account, Leg(b, side)) < amount then Refused(InsufficientPosition)
      else
        var v :- m.proposal.RedeemScalar(b, side, amount);
        var payout := m.proposal.ScalarPayout(side, amount);
        Done(Step(m.(proposal := v, balances := Burn(m.balances, account, Leg(b, side), amount),
                     events := m.events + [EvScalarRedeemed(side, payout)]), Paid(amount, payout)))
  }

  function DoRedeemScalarPair(m: Model, account: Account, amount: nat): Attempt<Step> {
    if !m.proposal.state.ScalarSettled? then Refused(WrongVaultState)
    else
      var b := m.proposal.state.winner;
      if Balance(m.balances, account, Leg(b, Long)) < amount
         || Balance(m.balances, account, Leg(b, Short)) < amount then
        Refused(InsufficientPosition)
      else
        var v :- m.proposal.RedeemScalarPair(b, amount);
        Done(Step(m.(proposal := v,
                     balances := Burn(Burn(m.balances, account, Leg(b, Long), amount), account, Leg(b, Short), amount),
                     events := m.events + [EvScalarPairRedeemed(amount)]), Paid(amount, amount)))
  }

  function DoRedeemGate(m: Model, account: Account, g: Gate, amount: nat): Attempt<Step> {
    if !m.proposal.state.ScalarSettled? then Refused(WrongVaultState)
    else if m.proposal.outcomes.Get(g).None? then Refused(GateNotSettled)
    else
      var b, yes := m.proposal.state.winner, m.proposal.outcomes.Get(g).value;
      if Balance(m.balances, account, GateLeg(b, g, yes)) < amount then Refused(InsufficientPosition)
      else
        var v :- m.proposal.RedeemGate(b, g, yes, amount);
        Done(Step(m.(proposal := v, balances := Burn(m.balances, account, GateLeg(b, g, yes), amount),
                     events := m.events + [EvGateRedeemed(g, amount)]), Paid(amount, amount)))
  }

  function DoRedeemVoid(m: Model, account: Account, b: Branch, kind: Kind, gate: Option<Gate>,
                        amount: nat): Attempt<Step> {
    if !m.proposal.state.Voided? then Refused(WrongVaultState)
    else if Balance(m.balances, account, Claim(b, kind, gate)) < amount then Refused(InsufficientPosition)
    else
      var v :- m.proposal.RedeemVoid(b, kind, gate, amount);
      var payout := Vault.VoidPayout(kind, amount);
      Done(Step(m.(proposal := v, balances := Burn(m.balances, account, Claim(b, kind, gate), amount),
                   events := m.events + [EvVoidRedeemed(kind, gate, amount, payout)]), Paid(amount, payout)))
  }

  function DoSplitBaseline(m: Model, account: Account, amount: nat): Attempt<Step> {
    if amount < MIN_LEDGER_AMOUNT then Refused(AmountTooSmall)
    else if !m.baseline.state.BaseOpen? then Refused(WrongVaultState)
    else
      var v :- m.baseline.Split(amount);
      Done(Step(m.(baseline := v,
                   balances := Mint(Mint(m.balances, account, Base(Long), amount), account, Base(Short), amount),
                   countAccounts := Counted(m.countAccounts, account, amount),
                   events := m.events + [EvBaselineSplit(amount)]), Minted(amount)))
  }

  function BurnBaselinePair(bal: Balances, account: Account, amount: nat): Balances
    requires amount <= Balance(bal, account, Base(Long)) && amount <= Balance(bal, account, Base(Short))
  {
    Burn(Burn(bal, account, Base(Long), amount), account, Base(Short), amount)
  }

  function DoMergeBaseline(m: Model, account: Account, amount: nat): Attempt<Step> {
    if !m.baseline.state.BaseOpen? then Refused(WrongVaultState)
    else if Balance(m.balances, account, Base(Long)) < amount || Balance(m.balances, account, Base(Short)) < amount then
      Refused(InsufficientPosition)
    else
      var v :- m.baseline.Merge(amount);
      Done(Step(m.(baseline := v, balances := BurnBaselinePair(m.balances, account, amount),
                   events := m.events + [EvBaselineMerged(amount)]), Paid(amount, amount)))
  }

  function DoSettleBaseline(m: Model, s: int): Attempt<Step> {
    if s < 0 || SCALE < s then Refused(InvalidScore)
    else if !m.baseline.state.BaseOpen? then Refused(WrongVaultState)
    else
      var v :- m.baseline.Settle(s);
      Done(Step(m.(baseline := v, events := m.events + [EvBaselineSettled(s)]), Scored(s)))
  }

  function DoRedeemBaseline(m: Model, account: Account, side: Side, amount: nat): Attempt<Step> {
    if !m.baseline.state.BaseSettled? then Refused(WrongVaultState)
    else if Balance(m.balances, account, Base(side)) < amount then Refused(InsufficientPosition)
    else
      var v :- m.baseline.Redeem(side, amount);
      var payout := m.baseline.LegPayout(side, amount);
      Done(Step(m.(baseline := v, balances := Burn(m.balances, account, Base(side), amount),
                   events := m.events + [EvBaselineRedeemed(side, payout)]), Paid(amount, payout)))
  }

  function DoRedeemBaselinePair(m: Model, account: Account, amount: nat): Attempt<Step> {
    if !m.baseline.state.BaseSettled? then Refused(WrongVaultState)
    else if Balance(m.balances, account, Base(Long)) < amount || Balance(m.balances, account, Base(Short)) < amount then
      Refused(InsufficientPosition)
    else
      var v :- m.baseline.RedeemPair(amount);
      Done(Step(m.(baseline := v, balances := BurnBaselinePair(m.balances, account, amount),
                   events := m.events + [EvBaselineRedeemed(Long, amount)]), Paid(amount, amount)))
  }

  function Apply(m: Model, op: Op): Attempt<Step> {
    match op
    case Split(account, amount) => DoSplit(m, account, amount)
    case Merge(account, amount) => DoMerge(m, account, amount)
    case SplitScalar(account, b, amount) => DoSplitScalar(m, account, b, amount)
    case MergeScalar(account, b, amount) => DoMergeScalar(m, account, b, amount)
    case SplitGate(account, b, g, amount) => DoSplitGate(m, account, b, g, amount)
    case MergeGate(account, b, g, amount) => DoMergeGate(m, account, b, g, amount)
    case Transfer(from, to, p, amount) => DoTransfer(m, from, to, p, amount)
    case Resolve(w) => DoResolve(m, w)
    case Void => DoVoid(m)
    case SettleScalar(s) => DoSettleScalar(m, s)
    case SettleGate(g, outcome) => DoSettleGate(m, g, outcome)
    case Redeem(account, amount) => DoRedeem(m, account, amount)
    case RedeemScalar(account, side, amount) => DoRedeemScalar(m, account, side, amount)
    case RedeemScalarPair(account, amount) => DoRedeemScalarPair(m, account, amount)
    case RedeemGate(account, g, amount) => DoRedeemGate(m, account, g, amount)
    case RedeemVoid(account, b, kind, g, amount) => DoRedeemVoid(m, account, b, kind, g, amount)
    case SplitBaseline(account, amount) => DoSplitBaseline(m, account, amount)
    case MergeBaseline(account, amount) => DoMergeBaseline(m, account, amount)
    case SettleBaseline(s) => DoSettleBaseline(m, s)
    case RedeemBaseline(account, side, amount) => DoRedeemBaseline(m, account, side, amount)
    case RedeemBaselinePair(account, amount) => DoRedeemBaselinePair(m, account, amount)
  }

  /** A program: refused operations, and the faulty ones, leave the model as it was. */
  function Run(m: Model, ops: seq<Op>): Model
    decreases |ops|
  {
    if ops == [] then m
    else
      var r := Apply(m, ops[0]);
      Run(if r.Done? then r.value.model else m, ops[1..])
  }
}
