/** Aggregate accounting of one proposal vault and one baseline vault, in USDC base units. */
module Vaults {
  import opened Wrappers
  import opened Decimals

  datatype Branch = Accept | Reject
  datatype Gate = Survival | Security
  datatype Side = Long | Short
  datatype Kind = BranchUsdc | LongLeg | ShortLeg | GateYes | GateNo

  /** Driver errors are part of the protocol; faults are what the driver calls unclassified. */
  datatype SequenceError =
    | AmountTooSmall | WrongVaultState | InsufficientPosition | InvalidScore | GateAlreadySettled | GateNotSettled

  datatype Fault =
    | WrongState | InsufficientSupply | InsufficientEscrow | AlreadySettled | NotSettled | LosingBranch
    | GateRequired | ScoreOutOfRange | ConservationViolated

  datatype Attempt<+T> = Done(value: T) | Refused(error: SequenceError) | Crashed(fault: Fault) {
    predicate IsFailure() { !Done? }
    function PropagateFailure<U>(): Attempt<U>
      requires IsFailure()
    {
      match this
      case Refused(e) => Refused(e)
      case Crashed(f) => Crashed(f)
    }
    function Extract(): T
      requires !IsFailure()
    {
      value
    }
  }

  /** A settled score: the part of each unit that the Long leg takes, out of SCALE. */
  type Score = s: nat | s <= SCALE

  function ShareOf(side: Side, s: Score): nat { if side.Long? then s else SCALE - s }

  datatype GateSupply = GateSupply(sets: nat, yes: nat, no: nat) {
    function Leg(side: bool): nat { if side then yes else no }

    function WithLeg(side: bool, left: nat): GateSupply {
      if side then this.(yes := left) else this.(no := left)
    }

    predicate Paired() { sets == yes == no }
    predicate Backed() { yes <= sets && no <= sets }
  }

  datatype Supply = Supply(
    usdc: nat, scalarSets: nat, long: nat, short: nat, survival: GateSupply, security: GateSupply)
  {
    function GateOf(g: Gate): GateSupply { if g.Survival? then survival else security }

    function WithGate(g: Gate, x: GateSupply): Supply {
      if g.Survival? then this.(survival := x) else this.(security := x)
    }

    function Leg(side: Side): nat { if side.Long? then long else short }

    function WithLeg(side: Side, left: nat): Supply {
      if side.Long? then this.(long := left) else this.(short := left)
    }

    /** Outstanding units of one instrument. A gate leg without its gate names nothing. */
    function Held(kind: Kind, gate: Option<Gate>): nat {
      match kind
      case BranchUsdc => usdc
      case LongLeg => long
      case ShortLeg => short
      case GateYes => if gate.Some? then GateOf(gate.value).yes else 0
      case GateNo => if gate.Some? then GateOf(gate.value).no else 0
    }

    function Less(kind: Kind, gate: Option<Gate>, amount: nat): Supply
      requires amount <= Held(kind, gate)
      requires kind.GateYes? || kind.GateNo? ==> gate.Some?
    {
      match kind
      case BranchUsdc => this.(usdc := usdc - amount)
      case LongLeg => this.(long := long - amount)
      case ShortLeg => this.(short := short - amount)
      case GateYes => var q := GateOf(gate.value); WithGate(gate.value, q.(yes := q.yes - amount))
      case GateNo => var q := GateOf(gate.value); WithGate(gate.value, q.(no := q.no - amount))
    }

    function Identity(): nat { usdc + scalarSets + survival.sets + security.sets }

    predicate Paired() { scalarSets == long == short && survival.Paired() && security.Paired() }

    /** Legs never outnumber the complete sets they came from. */
    predicate Backed() { long <= scalarSets && short <= scalarSets && survival.Backed() && security.Backed() }
  }

  const NO_SUPPLY := Supply(0, 0, 0, 0, GateSupply(0, 0, 0), GateSupply(0, 0, 0))

  datatype Outcomes = Outcomes(survival: Option<bool>, security: Option<bool>) {
    function Get(g: Gate): Option<bool> { if g.Survival? then survival else security }

    function Settle(g: Gate, outcome: bool): Outcomes {
      if g.Survival? then this.(survival := Some(outcome)) else this.(security := Some(outcome))
    }
  }

  datatype VaultState = Open | Resolved(winner: Branch) | ScalarSettled(winner: Branch, s: Score) | Voided {
    /** The states in which claims can still be merged and transferred. */
    predicate Live() { !ScalarSettled? }
  }

  datatype Vault = Vault(
    escrowed: nat, state: VaultState, accept: Supply, reject: Supply, outcomes: Outcomes,
    collateralIn: nat, totalPayouts: nat, terminalRedemptions: nat)
  {
    function Of(b: Branch): Supply { if b.Accept? then accept else reject }

    function On(b: Branch, p: Supply): Vault { if b.Accept? then this.(accept := p) else this.(reject := p) }

    function Split(amount: nat): Attempt<Vault> {
      if !state.Open? then Crashed(WrongState)
      else
        this.(escrowed := escrowed + amount, collateralIn := collateralIn + amount,
              accept := accept.(usdc := accept.usdc + amount), reject := reject.(usdc := reject.usdc + amount))
        .CheckConservation()
    }

    function Merge(amount: nat): Attempt<Vault> {
      if !state.Live() then Crashed(WrongState)
      else if accept.usdc < amount || reject.usdc < amount then Crashed(InsufficientSupply)
      else
        this.(accept := accept.(usdc := accept.usdc - amount),
              reject := reject.(usdc := reject.usdc - amount)).Pay(amount)
    }

    function SplitScalar(b: Branch, amount: nat): Attempt<Vault> {
      var p := Of(b);
      if !state.Open? then Crashed(WrongState)
      else if p.usdc < amount then Crashed(InsufficientSupply)
      else
        On(b, p.(usdc := p.usdc - amount, scalarSets := p.scalarSets + amount,
                 long := p.long + amount, short := p.short + amount))
        .CheckConservation()
    }

    function MergeScalar(b: Branch, amount: nat): Attempt<Vault> {
      var p := Of(b);
      if !state.Live() then Crashed(WrongState)
      else if p.long < amount || p.short < amount || p.scalarSets < amount then Crashed(InsufficientSupply)
      else
        On(b, p.(usdc := p.usdc + amount, scalarSets := p.scalarSets - amount,
                 long := p.long - amount, short := p.short - amount))
        .CheckConservation()
    }

    function SplitGate(b: Branch, g: Gate, amount: nat): Attempt<Vault> {
      var p, q := Of(b), Of(b).GateOf(g);
      if !state.Open? then Crashed(WrongState)
      else if p.usdc < amount then Crashed(InsufficientSupply)
      else
        On(b, p.(usdc := p.usdc - amount).WithGate(g, GateSupply(q.sets + amount, q.yes + amount, q.no + amount)))
        .CheckConservation()
    }

    function MergeGate(b: Branch, g: Gate, amount: nat): Attempt<Vault> {
      var p, q := Of(b), Of(b).GateOf(g);
      if !state.Live() then Crashed(WrongState)
      else if q.yes < amount || q.no < amount || q.sets < amount then Crashed(InsufficientSupply)
      else
        On(b, p.(usdc := p.usdc + amount).WithGate(g, GateSupply(q.sets - amount, q.yes - amount, q.no - amount)))
        .CheckConservation()
    }

    function Transfer(): Attempt<Vault> {
      if !state.Live() then Crashed(WrongState) else Done(this)
    }

    function Resolve(w: Branch): Attempt<Vault> {
      if !state.Open? then Crashed(WrongState) else this.(state := Resolved(w)).CheckConservation()
    }

    function Void(): Attempt<Vault> {
      if !state.Open? && !state.Resolved? then Crashed(WrongState) else this.(state := Voided).CheckConservation()
    }

    function SettleScalar(s: nat): Attempt<Vault> {
      if !state.Resolved? then Crashed(WrongState)
      else if SCALE < s then Crashed(ScoreOutOfRange)
      else this.(state := ScalarSettled(state.winner, s)).CheckConservation()
    }

    function SettleGate(g: Gate, outcome: bool): Attempt<Vault> {
      if !state.Resolved? && !state.ScalarSettled? then Crashed(WrongState)
      else if outcomes.Get(g).Some? then Crashed(AlreadySettled)
      else this.(outcomes := outcomes.Settle(g, outcome)).CheckConservation()
    }

    function Redeem(b: Branch, amount: nat): Attempt<Vault> {
      var p := Of(b);
      if !state.ScalarSettled? then Crashed(WrongState)
      else if state.winner != b then Crashed(LosingBranch)
      else if p.usdc < amount then Crashed(InsufficientSupply)
      else On(b, p.(usdc := p.usdc - amount)).TerminalPay(amount)
    }

    function RedeemScalar(b: Branch, side: Side, amount: nat): Attempt<Vault> {
      var p := Of(b);
      if !state.ScalarSettled? then Crashed(WrongState)
      else if state.winner != b then Crashed(LosingBranch)
      else if p.Leg(side) < amount then Crashed(InsufficientSupply)
      else On(b, p.WithLeg(side, p.Leg(side) - amount)).TerminalPay(ScalarPayout(side, amount))
    }

    function ScalarPayout(side: Side, amount: nat): nat
      requires state.ScalarSettled?
    {
      FloorProduct(amount, ShareOf(side, state.s))
    }

    /** Redeeming one leg would leave the rest with a larger claim, as the vault computes it, than escrow. */
    predicate Overdraws(side: Side, amount: nat) {
      && state.ScalarSettled? && amount <= Of(state.winner).Leg(side)
      && var p := Of(state.winner);
         escrowed < ScalarPayout(side, amount) + SettledBound(p.WithLeg(side, p.Leg(side) - amount), outcomes, state.s)
    }

    function RedeemScalarPair(b: Branch, amount: nat): Attempt<Vault> {
      var p := Of(b);
      if !state.ScalarSettled? then Crashed(WrongState)
      else if state.winner != b then Crashed(LosingBranch)
      else if p.long < amount || p.short < amount || p.scalarSets < amount then Crashed(InsufficientSupply)
      else
        On(b, p.(long := p.long - amount, short := p.short - amount, scalarSets := p.scalarSets - amount))
        .TerminalPay(amount)
    }

    function RedeemGate(b: Branch, g: Gate, yes: bool, amount: nat): Attempt<Vault> {
      var p, q := Of(b), Of(b).GateOf(g);
      if !state.ScalarSettled? then Crashed(WrongState)
      else if state.winner != b then Crashed(LosingBranch)
      else if outcomes.Get(g).None? then Crashed(NotSettled)
      else if q.Leg(yes) < amount then Crashed(InsufficientSupply)
      else
        On(b, p.WithGate(g, q.WithLeg(yes, q.Leg(yes) - amount)))
        .TerminalPay(if yes == outcomes.Get(g).value then amount else 0)
    }

    function RedeemVoid(b: Branch, kind: Kind, gate: Option<Gate>, amount: nat): Attempt<Vault> {
      var p := Of(b);
      if !state.Voided? then Crashed(WrongState)
      else if (kind.GateYes? || kind.GateNo?) && gate.None? then Crashed(GateRequired)
      else if p.Held(kind, gate) < amount then Crashed(InsufficientSupply)
      else On(b, p.Less(kind, gate, amount)).TerminalPay(VoidPayout(kind, amount))
    }

    static function VoidPayout(kind: Kind, amount: nat): nat {
      if kind.BranchUsdc? then amount / 2 else amount / 4
    }

    function Pay(amount: nat): (r: Attempt<Vault>)
      ensures r.Done? ==> amount <= escrowed && r.value.Conserves()
      ensures r.Done? ==> r.value == this.(escrowed := escrowed - amount, totalPayouts := totalPayouts + amount)
      ensures !r.Refused?
    {
      if escrowed < amount then Crashed(InsufficientEscrow)
      else this.(escrowed := escrowed - amount, totalPayouts := totalPayouts + amount).CheckConservation()
    }

    function TerminalPay(amount: nat): (r: Attempt<Vault>)
      ensures r.Done? ==> amount <= escrowed && r.value.Conserves()
      ensures r.Done? ==> r.value == this.(escrowed := escrowed - amount, totalPayouts := totalPayouts + amount,
                                           terminalRedemptions := terminalRedemptions + 1)
      ensures !r.Refused?
    {
      this.(terminalRedemptions := terminalRedemptions + 1).Pay(amount)
    }

    /** While this holds, no product with the score is rounded: legs are bounded by the collateral put in. */
    predicate Fits() { state.ScalarSettled? ==> collateralIn < AMOUNT_LIMIT }

    /** The source's own assertion, made at the end of every mutating operation. */
    predicate Conserves() {
      && totalPayouts <= collateralIn
      && escrowed + totalPayouts == collateralIn
      && (terminalRedemptions == 0 ==>
            && accept.Identity() == escrowed == reject.Identity()
            && accept.Paired() && reject.Paired())
      && ClaimBound() <= escrowed
    }

    function CheckConservation(): (r: Attempt<Vault>)
      ensures r == if Conserves() then Done(this) else Crashed(ConservationViolated)
    {
      if Conserves() then Done(this) else Crashed(ConservationViolated)
    }

    /** What the maximal recovery path can still draw, floors included. */
    function ClaimBound(): nat {
      match state
      case Open => Max(accept.Identity(), reject.Identity())
      case Resolved(w) => Of(w).Identity()
      case Voided => VoidBound(accept, reject)
      case ScalarSettled(w, s) => SettledBound(Of(w), outcomes, s)
    }
  }

  function Effective(p: Supply): nat {
    p.usdc + Min(p.long, p.short) + Min(p.survival.yes, p.survival.no) + Min(p.security.yes, p.security.no)
  }

  function Unmatched(x: nat, y: nat): nat {
    (x - Min(x, y)) / 4 + (y - Min(x, y)) / 4
  }

  function Leftovers(p: Supply): nat {
    Unmatched(p.long, p.short) + Unmatched(p.survival.yes, p.survival.no) + Unmatched(p.security.yes, p.security.no)
  }

  function VoidBound(a: Supply, r: Supply): nat {
    var cross := Min(Effective(a), Effective(r));
    cross + (Effective(a) - cross) / 2 + (Effective(r) - cross) / 2 + Leftovers(a) + Leftovers(r)
  }

  function GateClaim(q: GateSupply, outcome: Option<bool>): nat {
    match outcome
    case None => Max(q.yes, q.no)
    case Some(yes) => q.Leg(yes)
  }

  function SettledBound(p: Supply, outcomes: Outcomes, s: Score): nat
  {
    var pairs := Min(p.long, p.short);
    p.usdc + pairs + FloorProduct(p.long - pairs, s) + FloorProduct(p.short - pairs, SCALE - s)
    + GateClaim(p.survival, outcomes.survival) + GateClaim(p.security, outcomes.security)
  }

  const EMPTY_VAULT := Vault(0, Open, NO_SUPPLY, NO_SUPPLY, Outcomes(None, None), 0, 0, 0)

  // ---------- The baseline vault ----------

  datatype BaselineState = BaseOpen | BaseSettled(s: Score)

  datatype BaselineVault = BaselineVault(
    escrowed: nat, sets: nat, long: nat, short: nat, state: BaselineState, collateralIn: nat, totalPayouts: nat)
  {
    function Split(amount: nat): Attempt<BaselineVault> {
      if !state.BaseOpen? then Crashed(WrongState)
      else
        this.(escrowed := escrowed + amount, collateralIn := collateralIn + amount,
              sets := sets + amount, long := long + amount, short := short + amount)
        .CheckConservation()
    }

    function Merge(amount: nat): Attempt<BaselineVault> {
      if !state.BaseOpen? then Crashed(WrongState) else PayPair(amount)
    }

    function PayPair(amount: nat): Attempt<BaselineVault> {
      if long < amount || short < amount || sets < amount then Crashed(InsufficientSupply)
      else this.(long := long - amount, short := short - amount, sets := sets - amount).Pay(amount)
    }

    function Settle(s: nat): Attempt<BaselineVault> {
      if !state.BaseOpen? then Crashed(WrongState)
      else if SCALE < s then Crashed(ScoreOutOfRange)
      else this.(state := BaseSettled(s)).CheckConservation()
    }

    function Leg(side: Side): nat { if side.Long? then long else short }

    function Redeem(side: Side, amount: nat): Attempt<BaselineVault> {
      if !state.BaseSettled? then Crashed(WrongState)
      else if Leg(side) < amount then Crashed(InsufficientSupply)
      else Without(side, amount).Pay(LegPayout(side, amount))
    }

    function Without(side: Side, amount: nat): BaselineVault
      requires amount <= Leg(side)
    {
      if side.Long? then this.(long := long - amount) else this.(short := short - amount)
    }

    predicate Overdraws(side: Side, amount: nat) {
      && state.BaseSettled? && amount <= Leg(side)
      && escrowed < LegPayout(side, amount) + Without(side, amount).ClaimBound()
    }

    function LegPayout(side: Side, amount: nat): nat
      requires state.BaseSettled?
    {
      FloorProduct(amount, ShareOf(side, state.s))
    }

    function RedeemPair(amount: nat): Attempt<BaselineVault> {
      if !state.BaseSettled? then Crashed(WrongState) else PayPair(amount)
    }

    function Pay(amount: nat): (r: Attempt<BaselineVault>)
      ensures r.Done? ==> amount <= escrowed && r.value.Conserves()
      ensures r.Done? ==> r.value == this.(escrowed := escrowed - amount, totalPayouts := totalPayouts + amount)
      ensures !r.Refused?
    {
      if escrowed < amount then Crashed(InsufficientEscrow)
      else this.(escrowed := escrowed - amount, totalPayouts := totalPayouts + amount).CheckConservation()
    }

    predicate Fits() { state.BaseSettled? ==> collateralIn < AMOUNT_LIMIT }

    predicate Conserves() {
      && totalPayouts <= collateralIn
      && escrowed + totalPayouts == collateralIn
      && (state.BaseOpen? ==> escrowed == sets == long == short)
      && ClaimBound() <= escrowed
    }

    function CheckConservation(): (r: Attempt<BaselineVault>)
      ensures r == if Conserves() then Done(this) else Crashed(ConservationViolated)
    {
      if Conserves() then Done(this) else Crashed(ConservationViolated)
    }

    function ClaimBound(): nat {
      match state
      case BaseOpen => sets
      case BaseSettled(s) =>
        var pairs := Min(long, short);
        pairs + FloorProduct(long - pairs, s) + FloorProduct(short - pairs, SCALE - s)
    }
  }

  const EMPTY_BASELINE := BaselineVault(0, 0, 0, 0, BaseOpen, 0, 0)
}
