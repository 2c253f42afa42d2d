/** What each operation does to every holder's balance and to the collateral, and exactly when it goes through. */
module LedgerEffects {
  import opened Wrappers
  import opened Decimals
  import opened Vaults
  import opened LedgerDriver
  import opened LedgerInvariant
  import opened LedgerSafety

  // ---------- A double-entry table of balance changes ----------

  /** What an operation adds to one holder's balance of one position. */
  ghost function BalanceChange(m: Model, op: Op, who: Account, p: Position): int {
    match op
    case Split(a, n) => Own(a, who, At(p, Usdc(Accept), n) + At(p, Usdc(Reject), n))
    case Merge(a, n) => Own(a, who, At(p, Usdc(Accept), 0 - n) + At(p, Usdc(Reject), 0 - n))
    case SplitScalar(a, b, n) => Own(a, who, At(p, Usdc(b), 0 - n) + At(p, Leg(b, Long), n) + At(p, Leg(b, Short), n))
    case MergeScalar(a, b, n) =>
      Own(a, who, At(p, Usdc(b), n) + At(p, Leg(b, Long), 0 - n) + At(p, Leg(b, Short), 0 - n))
    case SplitGate(a, b, g, n) =>
      Own(a, who, At(p, Usdc(b), 0 - n) + At(p, GateLeg(b, g, true), n) + At(p, GateLeg(b, g, false), n))
    case MergeGate(a, b, g, n) =>
      Own(a, who, At(p, Usdc(b), n) + At(p, GateLeg(b, g, true), 0 - n) + At(p, GateLeg(b, g, false), 0 - n))
    case Transfer(a, b, q, n) =>
      var moved := Swept(Balance(m.balances, a, q), n);
      Own(a, who, At(p, q, 0 - moved)) + Own(b, who, At(p, q, moved))
    case Redeem(a, n) =>
      if m.proposal.state.ScalarSettled? then Own(a, who, At(p, Usdc(m.proposal.state.winner), 0 - n)) else 0
    case RedeemScalar(a, side, n) =>
      if m.proposal.state.ScalarSettled? then Own(a, who, At(p, Leg(m.proposal.state.winner, side), 0 - n)) else 0
    case RedeemScalarPair(a, n) =>
      if m.proposal.state.ScalarSettled?
      then Own(a, who, At(p, Leg(m.proposal.state.winner, Long), 0 - n)
               + At(p, Leg(m.proposal.state.winner, Short), 0 - n))
      else 0
    case RedeemGate(a, g, n) =>
      if m.proposal.state.ScalarSettled? && m.proposal.outcomes.Get(g).Some?
      then Own(a, who, At(p, GateLeg(m.proposal.state.winner, g, m.proposal.outcomes.Get(g).value), 0 - n))
      else 0
    case RedeemVoid(a, b, kind, g, n) => Own(a, who, At(p, Claim(b, kind, g), 0 - n))
    case SplitBaseline(a, n) => Own(a, who, At(p, Base(Long), n) + At(p, Base(Short), n))
    case MergeBaseline(a, n) => Own(a, who, At(p, Base(Long), 0 - n) + At(p, Base(Short), 0 - n))
    case RedeemBaseline(a, side, n) => Own(a, who, At(p, Base(side), 0 - n))
    case RedeemBaselinePair(a, n) => Own(a, who, At(p, Base(Long), 0 - n) + At(p, Base(Short), 0 - n))
    case _ => 0
  }

  /** A transfer takes the whole balance if it would leave something, but less than the ledger's minimum. */
  ghost function Swept(balance: nat, amount: nat): nat {
    if 0 < balance - amount < 10_000 then balance else amount
  }

  /** After a transfer to another holder, the source has nothing left of the position or at least the
      minimum; if it would have anyway, exactly the amount asked for has moved. */
  lemma TransferLeavesNoDust(m: Model, from: Account, to: Account, p: Position, amount: nat)
    requires Apply(m, Transfer(from, to, p, amount)).Done? && from != to
    ensures var before, step := Balance(m.balances, from, p), Apply(m, Transfer(from, to, p, amount)).value;
            var left := Balance(step.model.balances, from, p);
            && (left == 0 || left >= 10_000) && before - left >= amount
            && (before - amount == 0 || before - amount >= 10_000 ==> before - left == amount)
            && Balance(step.model.balances, to, p) == Balance(m.balances, to, p) + (before - left)
            && step.receipt == Moved(before - left)
  {
    var op := Transfer(from, to, p, amount);
    ApplyMoves(m, op, from, p);
    ApplyMoves(m, op, to, p);
    hide Mint, Burn, Balance, Vault.Transfer;
  }

  ghost function Own(a: Account, who: Account, change: int): int { if a == who then change else 0 }

  /** Every completed operation moves every balance of every holder by exactly the table's entry. */
  lemma ApplyMoves(m: Model, op: Op, who: Account, p: Position)
    requires Apply(m, op).Done?
    ensures Balance(Apply(m, op).value.model.balances, who, p) ==
            Balance(m.balances, who, p) + BalanceChange(m, op, who, p)
  {
    if op.Split? || op.Merge? || op.SplitScalar? || op.MergeScalar? {
      SplitsMove(m, op, who, p);
    } else if op.SplitGate? || op.MergeGate? || op.Transfer? {
      GatesMove(m, op, who, p);
    } else if op.SplitBaseline? || op.MergeBaseline? || op.RedeemBaseline? || op.RedeemBaselinePair? {
      BaselineMoves(m, op, who, p);
    } else if op.Resolve? || op.Void? || op.SettleScalar? || op.SettleGate? || op.SettleBaseline? {
      PhasesMoveNothing(m, op);
    } else {
      RedemptionsMove(m, op, who, p);
    }
  }

  lemma PhasesMoveNothing(m: Model, op: Op)
    requires Apply(m, op).Done? && (op.Resolve? || op.Void? || op.SettleScalar? || op.SettleGate? || op.SettleBaseline?)
    ensures Apply(m, op).value.model.balances == m.balances
  {}

  lemma SplitsMove(m: Model, op: Op, who: Account, p: Position)
    requires Apply(m, op).Done? && (op.Split? || op.Merge? || op.SplitScalar? || op.MergeScalar?)
    ensures Balance(Apply(m, op).value.model.balances, who, p) ==
            Balance(m.balances, who, p) + BalanceChange(m, op, who, p)
  {
    hide Vault.Split, Vault.Merge, Vault.SplitScalar, Vault.MergeScalar, SplitInto, MergeFrom, Mint, Burn, Balance;
    match op
    case Split(a, n) => TwoMints(m.balances, a, Usdc(Accept), Usdc(Reject), n, who, p);
    case Merge(a, n) => TwoBurns(m.balances, a, Usdc(Accept), Usdc(Reject), n, who, p);
    case SplitScalar(a, b, n) => SplitMoves(m, a, b, Leg(b, Long), Leg(b, Short), n, who, p);
    case MergeScalar(a, b, n) => MergeMoves(m, a, b, Leg(b, Long), Leg(b, Short), n, who, p);
  }

  lemma GatesMove(m: Model, op: Op, who: Account, p: Position)
    requires Apply(m, op).Done? && (op.SplitGate? || op.MergeGate? || op.Transfer?)
    ensures Balance(Apply(m, op).value.model.balances, who, p) ==
            Balance(m.balances, who, p) + BalanceChange(m, op, who, p)
  {
    hide Vault.SplitGate, Vault.MergeGate, Vault.Transfer, SplitInto, MergeFrom, Mint, Burn, Balance;
    match op
    case SplitGate(a, b, g, n) => SplitMoves(m, a, b, GateLeg(b, g, true), GateLeg(b, g, false), n, who, p);
    case MergeGate(a, b, g, n) => MergeMoves(m, a, b, GateLeg(b, g, true), GateLeg(b, g, false), n, who, p);
    case Transfer(a, b, q, n) =>
      var moved := MovedAmount(Balance(m.balances, a, q), n);
      BurnBalance(m.balances, a, q, moved, who, p);
      MintBalance(Burn(m.balances, a, q, moved), b, q, moved, who, p);
  }

  lemma RedemptionsMove(m: Model, op: Op, who: Account, p: Position)
    requires Apply(m, op).Done?
             && (op.Redeem? || op.RedeemScalar? || op.RedeemScalarPair? || op.RedeemGate? || op.RedeemVoid?)
    ensures Balance(Apply(m, op).value.model.balances, who, p) ==
            Balance(m.balances, who, p) + BalanceChange(m, op, who, p)
  {
    hide Vault.Redeem, Vault.RedeemScalar, Vault.RedeemScalarPair, Vault.RedeemGate, Vault.RedeemVoid, Mint, Burn,
         Balance;
    match op
    case Redeem(a, n) => BurnBalance(m.balances, a, Usdc(m.proposal.state.winner), n, who, p);
    case RedeemScalar(a, side, n) => BurnBalance(m.balances, a, Leg(m.proposal.state.winner, side), n, who, p);
    case RedeemScalarPair(a, n) =>
      TwoBurns(m.balances, a, Leg(m.proposal.state.winner, Long), Leg(m.proposal.state.winner, Short), n, who, p);
    case RedeemGate(a, g, n) =>
      BurnBalance(m.balances, a, GateLeg(m.proposal.state.winner, g, m.proposal.outcomes.Get(g).value), n, who, p);
    case RedeemVoid(a, b, kind, g, n) => BurnBalance(m.balances, a, Claim(b, kind, g), n, who, p);
  }

  lemma BaselineMoves(m: Model, op: Op, who: Account, p: Position)
    requires Apply(m, op).Done?
             && (op.SplitBaseline? || op.MergeBaseline? || op.RedeemBaseline? || op.RedeemBaselinePair?)
    ensures Balance(Apply(m, op).value.model.balances, who, p) ==
            Balance(m.balances, who, p) + BalanceChange(m, op, who, p)
  {
    hide BaselineVault.Split, BaselineVault.Merge, BaselineVault.Redeem, BaselineVault.RedeemPair, Mint, Burn,
         Balance;
    match op
    case SplitBaseline(a, n) => TwoMints(m.balances, a, Base(Long), Base(Short), n, who, p);
    case MergeBaseline(a, n) => TwoBurns(m.balances, a, Base(Long), Base(Short), n, who, p);
    case RedeemBaseline(a, side, n) => BurnBalance(m.balances, a, Base(side), n, who, p);
    case RedeemBaselinePair(a, n) => TwoBurns(m.balances, a, Base(Long), Base(Short), n, who, p);
  }

  lemma TwoMints(bal: Balances, a: Account, x: Position, y: Position, n: nat, who: Account, p: Position)
    ensures Balance(Mint(Mint(bal, a, x, n), a, y, n), who, p) ==
            Balance(bal, who, p) + Own(a, who, At(p, x, n) + At(p, y, n))
  {
    hide Mint, Balance;
    MintBalance(bal, a, x, n, who, p);
    MintBalance(Mint(bal, a, x, n), a, y, n, who, p);
  }

  lemma TwoBurns(bal: Balances, a: Account, x: Position, y: Position, n: nat, who: Account, p: Position)
    requires x != y && n <= Balance(bal, a, x) && n <= Balance(bal, a, y)
    ensures n <= Balance(Burn(bal, a, x, n), a, y)
    ensures Balance(Burn(Burn(bal, a, x, n), a, y, n), who, p) ==
            Balance(bal, who, p) + Own(a, who, At(p, x, 0 - n) + At(p, y, 0 - n))
  {
    hide Burn, Balance;
    BurnBalance(bal, a, x, n, a, y);
    BurnBalance(bal, a, x, n, who, p);
    BurnBalance(Burn(bal, a, x, n), a, y, n, who, p);
  }

  lemma SplitMoves(m: Model, a: Account, b: Branch, x: Position, y: Position, n: nat, who: Account, p: Position)
    requires n <= Balance(m.balances, a, Usdc(b))
    ensures Balance(SplitInto(m, a, b, x, y, n).0, who, p) ==
            Balance(m.balances, who, p) + Own(a, who, At(p, Usdc(b), 0 - n) + At(p, x, n) + At(p, y, n))
  {
    hide Burn, Mint, Balance;
    BurnBalance(m.balances, a, Usdc(b), n, who, p);
    TwoMints(Burn(m.balances, a, Usdc(b), n), a, x, y, n, who, p);
  }

  lemma MergeMoves(m: Model, a: Account, b: Branch, x: Position, y: Position, n: nat, who: Account, p: Position)
    requires x != y && n <= Balance(m.balances, a, x) && n <= Balance(m.balances, a, y)
    ensures Balance(MergeFrom(m, a, b, x, y, n).0, who, p) ==
            Balance(m.balances, who, p) + Own(a, who, At(p, Usdc(b), n) + At(p, x, 0 - n) + At(p, y, 0 - n))
  {
    hide Mint, Balance;
    TwoBurns(m.balances, a, x, y, n, who, p);
    MintBalance(Burn(Burn(m.balances, a, x, n), a, y, n), a, Usdc(b), n, who, p);
  }

  // ---------- Collateral follows the receipts ----------

  predicate PaysProposal(op: Op) {
    op.Merge? || op.Redeem? || op.RedeemScalar? || op.RedeemScalarPair? || op.RedeemGate? || op.RedeemVoid?
  }

  predicate PaysBaseline(op: Op) { op.MergeBaseline? || op.RedeemBaseline? || op.RedeemBaselinePair? }

  /** Collateral enters only by splits, in full, and leaves only as the payout a receipt reports; merges
      and complete pairs are paid at par, and nothing above par while products are exact. */
  ghost predicate CashFollows(m: Model, op: Op, step: Step) {
    var Step(after, receipt) := step;
    && (PaysProposal(op) || PaysBaseline(op) ==> receipt.Paid? && receipt.burned == op.amount)
    && ((PaysProposal(op) || PaysBaseline(op)) && op.amount < AMOUNT_LIMIT ==> receipt.payout <= op.amount)
    && (op.Merge? || op.RedeemScalarPair? || op.MergeBaseline? || op.RedeemBaselinePair? ==>
        receipt.payout == op.amount)
    && after.proposal.collateralIn == m.proposal.collateralIn + (if op.Split? then op.amount else 0)
    && after.baseline.collateralIn == m.baseline.collateralIn + (if op.SplitBaseline? then op.amount else 0)
    && after.proposal.escrowed == m.proposal.escrowed + (if op.Split? then op.amount else 0)
                                  - (if PaysProposal(op) then receipt.payout else 0)
    && after.baseline.escrowed == m.baseline.escrowed + (if op.SplitBaseline? then op.amount else 0)
                                  - (if PaysBaseline(op) then receipt.payout else 0)
  }

  lemma CollateralMoves(m: Model, op: Op)
    requires Apply(m, op).Done?
    ensures CashFollows(m, op, Apply(m, op).value)
  {
    if PaysProposal(op) {
      ProposalPays(m, op);
    } else {
      OthersKeepCash(m, op);
    }
    hide Apply, CashFollows;
  }

  lemma ProposalPays(m: Model, op: Op)
    requires Apply(m, op).Done? && PaysProposal(op)
    ensures CashFollows(m, op, Apply(m, op).value)
  {
    if op.RedeemScalar? || op.RedeemScalarPair? || op.RedeemGate? {
      SettledPays(m, op);
    } else {
      FacePays(m, op);
    }
    hide Apply, CashFollows;
  }

  lemma FacePays(m: Model, op: Op)
    requires Apply(m, op).Done? && (op.Merge? || op.Redeem? || op.RedeemVoid?)
    ensures CashFollows(m, op, Apply(m, op).value)
  {
    hide Mint, Burn, Balance, Vault.CheckConservation, Vault.Conserves;
  }

  lemma SettledPays(m: Model, op: Op)
    requires Apply(m, op).Done? && (op.RedeemScalar? || op.RedeemScalarPair? || op.RedeemGate?)
    ensures CashFollows(m, op, Apply(m, op).value)
  {
    hide Mint, Burn, Balance, FloorProduct, Vault.CheckConservation, Vault.Conserves;
    if op.RedeemScalar? && op.amount < AMOUNT_LIMIT {
      AtMostPar(op.amount, ShareOf(op.side, m.proposal.state.s));
    }
  }

  lemma OthersKeepCash(m: Model, op: Op)
    requires Apply(m, op).Done? && !PaysProposal(op)
    ensures CashFollows(m, op, Apply(m, op).value)
  {
    hide Mint, Burn, Balance, FloorProduct, Vault.CheckConservation, BaselineVault.CheckConservation,
         Vault.Conserves, BaselineVault.Conserves;
    if op.RedeemBaseline? && op.amount < AMOUNT_LIMIT {
      AtMostPar(op.amount, ShareOf(op.side, m.baseline.state.s));
    }
  }

  lemma AtMostPar(amount: nat, share: nat)
    requires share <= SCALE && amount < AMOUNT_LIMIT
    ensures FloorProduct(amount, share) <= amount
  {
    WorthAtMostPar(amount, share);
    hide FloorProduct, FloorShare, Worth;
    FloorProductExact(amount, share);
  }

  lemma WorthAtMostPar(amount: nat, share: nat)
    requires share <= SCALE
    ensures Worth(amount, share) <= SCALE * amount
  {}

  // ---------- Exactly when an operation goes through ----------

  /** An amount below the minimum: on entry, or to open a new holding. */
  predicate TooSmall(m: Model, op: Op) {
    match op
    case Split(_, n) => n < 10_000
    case SplitBaseline(_, n) => n < 10_000
    case Transfer(_, b, q, n) => n == 0 || (n < 10_000 && Balance(m.balances, b, q) == 0)
    case _ => false
  }

  predicate BadScore(op: Op) {
    (op.SettleScalar? || op.SettleBaseline?) && !(0 <= op.score <= 1_000_000_000)
  }

  /** The phases in which an operation may be made. */
  predicate InPhase(m: Model, op: Op) {
    var v, w := m.proposal.state, m.baseline.state;
    match op
    case Split(_, _) => v.Open?
    case SplitScalar(_, _, _) => v.Open?
    case SplitGate(_, _, _, _) => v.Open?
    case Resolve(_) => v.Open?
    case Void => v.Open? || v.Resolved?
    case SettleScalar(_) => v.Resolved?
    case SettleGate(_, _) => v.Resolved? || v.ScalarSettled?
    case Merge(_, _) => v.Open? || v.Resolved? || v.Voided?
    case MergeScalar(_, _, _) => v.Open? || v.Resolved? || v.Voided?
    case MergeGate(_, _, _, _) => v.Open? || v.Resolved? || v.Voided?
    case Transfer(_, _, q, _) => if q.Claim? then v.Open? || v.Resolved? || v.Voided? else w.BaseOpen?
    case Redeem(_, _) => v.ScalarSettled?
    case RedeemScalar(_, _, _) => v.ScalarSettled?
    case RedeemScalarPair(_, _) => v.ScalarSettled?
    case RedeemGate(_, _, _) => v.ScalarSettled?
    case RedeemVoid(_, _, _, _, _) => v.Voided?
    case SplitBaseline(_, _) => w.BaseOpen?
    case MergeBaseline(_, _) => w.BaseOpen?
    case SettleBaseline(_) => w.BaseOpen?
    case RedeemBaseline(_, _, _) => w.BaseSettled?
    case RedeemBaselinePair(_, _) => w.BaseSettled?
  }

  /** The caller holds what the operation would burn or move. */
  predicate Holds(m: Model, op: Op) {
    var v, bal := m.proposal, m.balances;
    match op
    case Merge(a, n) => n <= Balance(bal, a, Usdc(Accept)) && n <= Balance(bal, a, Usdc(Reject))
    case SplitScalar(a, b, n) => n <= Balance(bal, a, Usdc(b))
    case MergeScalar(a, b, n) => n <= Balance(bal, a, Leg(b, Long)) && n <= Balance(bal, a, Leg(b, Short))
    case SplitGate(a, b, _, n) => n <= Balance(bal, a, Usdc(b))
    case MergeGate(a, b, g, n) =>
      n <= Balance(bal, a, GateLeg(b, g, true)) && n <= Balance(bal, a, GateLeg(b, g, false))
    case Transfer(a, _, q, n) => n <= Balance(bal, a, q)
    case Redeem(a, n) => v.state.ScalarSettled? ==> n <= Balance(bal, a, Usdc(v.state.winner))
    case RedeemScalar(a, side, n) => v.state.ScalarSettled? ==> n <= Balance(bal, a, Leg(v.state.winner, side))
    case RedeemScalarPair(a, n) =>
      v.state.ScalarSettled? ==>
        n <= Balance(bal, a, Leg(v.state.winner, Long)) && n <= Balance(bal, a, Leg(v.state.winner, Short))
    case RedeemGate(a, g, n) =>
      v.state.ScalarSettled? && v.outcomes.Get(g).Some? ==>
        n <= Balance(bal, a, GateLeg(v.state.winner, g, v.outcomes.Get(g).value))
    case RedeemVoid(a, b, kind, g, n) => n <= Balance(bal, a, Claim(b, kind, g))
    case MergeBaseline(a, n) => n <= Balance(bal, a, Base(Long)) && n <= Balance(bal, a, Base(Short))
    case RedeemBaseline(a, side, n) => n <= Balance(bal, a, Base(side))
    case RedeemBaselinePair(a, n) => n <= Balance(bal, a, Base(Long)) && n <= Balance(bal, a, Base(Short))
    case _ => true
  }

  /** What a caller can check beforehand, in the order in which it is objected to. */
  function Objection(m: Model, op: Op): Option<SequenceError> {
    if TooSmall(m, op) then Some(AmountTooSmall)
    else if BadScore(op) then Some(InvalidScore)
    else if !InPhase(m, op) then Some(WrongVaultState)
    else if op.SettleGate? && m.proposal.outcomes.Get(op.gate).Some? then Some(GateAlreadySettled)
    else if op.RedeemGate? && m.proposal.outcomes.Get(op.gate).None? then Some(GateNotSettled)
    else if !Holds(m, op) then Some(InsufficientPosition)
    else None
  }

  predicate Permitted(m: Model, op: Op) { Objection(m, op).None? }

  /** An operation is refused exactly when there is an objection, and with that objection. */
  lemma RefusedIff(m: Model, op: Op)
    ensures Apply(m, op).Refused? <==> !Permitted(m, op)
    ensures Apply(m, op).Refused? ==> Objection(m, op) == Some(Apply(m, op).error)
  {
    if PaysProposal(op) || op.Split? || op.SplitScalar? || op.SplitGate? {
      ProposalRefusedIff(m, op);
    } else {
      OthersRefusedIff(m, op);
    }
    hide Apply, Objection;
  }

  lemma ProposalRefusedIff(m: Model, op: Op)
    requires PaysProposal(op) || op.Split? || op.SplitScalar? || op.SplitGate?
    ensures Apply(m, op).Refused? <==> !Permitted(m, op)
    ensures Apply(m, op).Refused? ==> Objection(m, op) == Some(Apply(m, op).error)
  {
    hide Balance, Mint, Burn, FloorProduct, Vault.Conserves, Vault.CheckConservation;
  }

  lemma OthersRefusedIff(m: Model, op: Op)
    requires !PaysProposal(op) && !op.Split? && !op.SplitScalar? && !op.SplitGate?
    ensures Apply(m, op).Refused? <==> !Permitted(m, op)
    ensures Apply(m, op).Refused? ==> Objection(m, op) == Some(Apply(m, op).error)
  {
    hide Balance, Mint, Burn, FloorProduct, Vault.Conserves, Vault.CheckConservation, BaselineVault.Conserves,
         BaselineVault.CheckConservation;
  }

  /** After any program the driver's own guards are complete: no aggregate check inside a vault stops an
      operation that its caller may make, save the gate-less redemption and a leg that overdraws. */
  lemma SucceedsIff(ops: seq<Op>, op: Op)
    ensures var m := Run(INITIAL, ops);
            Apply(m, op).Done? <==> Permitted(m, op) && !Faults(m, op) && !Overdraws(m, op)
  {
    hide Apply, Run, Permitted, Valid, Faults, Overdraws;
    var m := Run(INITIAL, ops);
    EveryRun(ops, op);
    RefusedIff(m, op);
    if Faults(m, op) || Overdraws(m, op) {
      FaultsArePermitted(m, op);
    }
  }

  lemma FaultsArePermitted(m: Model, op: Op)
    requires Faults(m, op) || Overdraws(m, op)
    ensures Permitted(m, op)
  {
    hide Vault.Overdraws;
  }

  // ---------- Programs small enough to be exact ----------

  /** All the collateral that a program offers, whether or not the splits go through. */
  function Deposits(ops: seq<Op>): nat {
    if ops == [] then 0
    else (if ops[0].Split? || ops[0].SplitBaseline? then ops[0].amount else 0) + Deposits(ops[1..])
  }

  lemma {:induction false} DepositsBoundCollateral(m: Model, ops: seq<Op>)
    ensures Run(m, ops).proposal.collateralIn <= m.proposal.collateralIn + Deposits(ops)
    ensures Run(m, ops).baseline.collateralIn <= m.baseline.collateralIn + Deposits(ops)
    decreases |ops|
  {
    hide Apply;
    if ops != [] {
      var r := Apply(m, ops[0]);
      if r.Done? {
        CollateralMoves(m, ops[0]);
      }
      DepositsBoundCollateral(if r.Done? then r.value.model else m, ops[1..]);
    }
  }

  /** A condition on the program alone: after offering less than 10^91 base units nothing overdraws. */
  lemma SmallProgramsArePrecise(ops: seq<Op>, op: Op)
    requires Deposits(ops) < AMOUNT_LIMIT
    ensures Precise(Run(INITIAL, ops), op) && !Overdraws(Run(INITIAL, ops), op)
    ensures Run(INITIAL, ops).proposal.collateralIn < AMOUNT_LIMIT
            && Run(INITIAL, ops).baseline.collateralIn < AMOUNT_LIMIT
  {
    hide Run, Deposits, Valid, Overdraws;
    DepositsBoundCollateral(INITIAL, ops);
    InitiallyValid(INITIAL);
    RunKeepsValid(INITIAL, ops);
    PreciseNeverOverdraws(Run(INITIAL, ops), op);
  }
}
