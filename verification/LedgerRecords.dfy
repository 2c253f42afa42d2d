/** What an operation leaves on record: one event, one receipt, and who is counted as a holder. */
module LedgerRecords {
  import opened Wrappers
  import opened Decimals
  import opened Vaults
  import opened LedgerDriver
  import opened LedgerSafety
  import opened LedgerEffects

  /** The collateral that left each vault. */
  function FromProposal(m: Model, n: Model): int { m.proposal.escrowed - n.proposal.escrowed }

  function FromBaseline(m: Model, n: Model): int { m.baseline.escrowed - n.baseline.escrowed }

  /** The event and the receipt of an operation, from its arguments, the winner before it and the collateral
      that left. */
  ghost predicate OnRecord(m: Model, op: Op, n: Model, e: Event, r: Receipt) {
    match op
    case Split(_, x) => e == EvSplit(x) && r == Minted(x)
    case Merge(_, x) => e == EvMerged(x) && r == Paid(x, x)
    case SplitScalar(_, b, x) => e == EvScalarSplit(b, x) && r == Exchanged(x, x)
    case MergeScalar(_, b, x) => e == EvScalarMerged(b, x) && r == Exchanged(x, x)
    case SplitGate(_, b, g, x) => e == EvGateSplit(b, g, x) && r == Exchanged(x, x)
    case MergeGate(_, b, g, x) => e == EvGateMerged(b, g, x) && r == Exchanged(x, x)
    case Transfer(a, _, q, x) =>
      var moved := Swept(Balance(m.balances, a, q), x);
      e == EvTransferred(q, moved) && r == Moved(moved)
    case Resolve(w) => e == EvResolved(w) && r == NoReceipt
    case Void => e == EvVoided && r == NoReceipt
    case SettleScalar(s) =>
      m.proposal.state.Resolved? && 0 <= s && e == EvScalarSettled(m.proposal.state.winner, s) && r == Scored(s)
    case SettleGate(g, o) =>
      && (m.proposal.state.Resolved? || m.proposal.state.ScalarSettled?)
      && e == EvGateSettled(m.proposal.state.winner, g, o) && r == Decided(o)
    case Redeem(_, x) =>
      FromProposal(m, n) >= 0 && e == EvRedeemed(FromProposal(m, n)) && r == Paid(x, FromProposal(m, n))
    case RedeemScalar(_, side, x) =>
      FromProposal(m, n) >= 0 && e == EvScalarRedeemed(side, FromProposal(m, n)) && r == Paid(x, FromProposal(m, n))
    case RedeemScalarPair(_, x) =>
      FromProposal(m, n) >= 0 && e == EvScalarPairRedeemed(FromProposal(m, n)) && r == Paid(x, FromProposal(m, n))
    case RedeemGate(_, g, x) =>
      FromProposal(m, n) >= 0 && e == EvGateRedeemed(g, FromProposal(m, n)) && r == Paid(x, FromProposal(m, n))
    case RedeemVoid(_, _, kind, g, x) =>
      FromProposal(m, n) >= 0 && e == EvVoidRedeemed(kind, g, x, FromProposal(m, n)) && r == Paid(x, FromProposal(m, n))
    case SplitBaseline(_, x) => e == EvBaselineSplit(x) && r == Minted(x)
    case MergeBaseline(_, x) => e == EvBaselineMerged(x) && r == Paid(x, x)
    case SettleBaseline(s) => 0 <= s && e == EvBaselineSettled(s) && r == Scored(s)
    case RedeemBaseline(_, side, x) =>
      FromBaseline(m, n) >= 0 && e == EvBaselineRedeemed(side, FromBaseline(m, n)) && r == Paid(x, FromBaseline(m, n))
    case RedeemBaselinePair(_, x) =>
      FromBaseline(m, n) >= 0 && e == EvBaselineRedeemed(Long, FromBaseline(m, n)) && r == Paid(x, FromBaseline(m, n))
  }

  ghost predicate Recorded(m: Model, op: Op, step: Step) {
    && |step.model.events| == |m.events| + 1
    && step.model.events == m.events + [step.model.events[|m.events|]]
    && OnRecord(m, op, step.model, step.model.events[|m.events|], step.receipt)
  }

  /** Every accepted operation appends one event and answers with one receipt, both telling what it did. */
  lemma ApplyRecords(m: Model, op: Op)
    requires Apply(m, op).Done?
    ensures Recorded(m, op, Apply(m, op).value)
  {
    if op.Redeem? || op.RedeemScalar? || op.RedeemScalarPair? || op.RedeemGate? || op.RedeemVoid? {
      RedemptionRecords(m, op);
    } else if OnBaseline(op) {
      BaselineRecords(m, op);
    } else if op.Resolve? || op.Void? || op.SettleScalar? || op.SettleGate? {
      PhaseRecords(m, op);
    } else {
      LiveRecords(m, op);
    }
    hide Apply, Recorded;
  }

  lemma RedemptionRecords(m: Model, op: Op)
    requires op.Redeem? || op.RedeemScalar? || op.RedeemScalarPair? || op.RedeemGate? || op.RedeemVoid?
    requires Apply(m, op).Done?
    ensures Recorded(m, op, Apply(m, op).value)
  {
    hide Mint, Burn, Balance, FloorProduct, Vault.CheckConservation, Vault.Conserves, Supply.Less, Supply.WithGate,
         Supply.WithLeg;
  }

  lemma BaselineRecords(m: Model, op: Op)
    requires OnBaseline(op) && Apply(m, op).Done?
    ensures Recorded(m, op, Apply(m, op).value)
  {
    hide Mint, Burn, Balance, FloorProduct, BaselineVault.CheckConservation, BaselineVault.Conserves;
  }

  lemma PhaseRecords(m: Model, op: Op)
    requires (op.Resolve? || op.Void? || op.SettleScalar? || op.SettleGate?) && Apply(m, op).Done?
    ensures Recorded(m, op, Apply(m, op).value)
  {
    hide Vault.CheckConservation, Vault.Conserves;
  }

  lemma LiveRecords(m: Model, op: Op)
    requires || op.Split? || op.Merge? || op.SplitScalar? || op.MergeScalar? || op.SplitGate? || op.MergeGate?
             || op.Transfer?
    requires Apply(m, op).Done?
    ensures Recorded(m, op, Apply(m, op).value)
  {
    hide Mint, Burn, Balance, Vault.Split, Vault.Merge, Vault.SplitScalar, Vault.MergeScalar, Vault.SplitGate,
         Vault.MergeGate, Vault.Transfer, SplitInto, MergeFrom;
  }

  // ---------- Who is counted ----------

  /** Who an operation mints to, and how much of each position. */
  ghost function MintedTo(m: Model, op: Op): Option<(Account, nat)> {
    match op
    case Split(a, x) => Some((a, x))
    case SplitScalar(a, _, x) => Some((a, x))
    case MergeScalar(a, _, x) => Some((a, x))
    case SplitGate(a, _, _, x) => Some((a, x))
    case MergeGate(a, _, _, x) => Some((a, x))
    case Transfer(a, b, q, x) => Some((b, Swept(Balance(m.balances, a, q), x)))
    case SplitBaseline(a, x) => Some((a, x))
    case _ => None
  }

  /** A holder is counted at the first positive mint, in order of first appearance, and nobody else ever. */
  lemma ApplyCounts(m: Model, op: Op)
    requires Apply(m, op).Done?
    ensures var to, was, now := MintedTo(m, op), m.countAccounts, Apply(m, op).value.model.countAccounts;
            if to.Some? && to.value.1 > 0 && to.value.0 !in was then now == was + [to.value.0] else now == was
  {
    if op.Split? || op.SplitScalar? || op.MergeScalar? || op.SplitGate? || op.MergeGate? || op.Transfer? {
      MintersCount(m, op);
    } else {
      OthersCount(m, op);
    }
    hide Apply, MintedTo;
  }

  lemma MintersCount(m: Model, op: Op)
    requires op.Split? || op.SplitScalar? || op.MergeScalar? || op.SplitGate? || op.MergeGate? || op.Transfer?
    requires Apply(m, op).Done?
    ensures var to, was, now := MintedTo(m, op), m.countAccounts, Apply(m, op).value.model.countAccounts;
            if to.Some? && to.value.1 > 0 && to.value.0 !in was then now == was + [to.value.0] else now == was
  {
    hide Mint, Burn, Balance, Vault.Split, Vault.SplitScalar, Vault.MergeScalar, Vault.SplitGate, Vault.MergeGate,
         Vault.Transfer;
  }

  lemma OthersCount(m: Model, op: Op)
    requires !op.Split? && !op.SplitScalar? && !op.MergeScalar? && !op.SplitGate? && !op.MergeGate? && !op.Transfer?
    requires Apply(m, op).Done?
    ensures var to, was, now := MintedTo(m, op), m.countAccounts, Apply(m, op).value.model.countAccounts;
            if to.Some? && to.value.1 > 0 && to.value.0 !in was then now == was + [to.value.0] else now == was
  {
    hide Mint, Burn, Balance, FloorProduct, Vault.Merge, Vault.Resolve, Vault.Void, Vault.SettleScalar,
         Vault.SettleGate, Vault.Redeem, Vault.RedeemScalar, Vault.RedeemScalarPair, Vault.RedeemGate, Vault.RedeemVoid,
         BaselineVault.Split, BaselineVault.Merge, BaselineVault.Settle, BaselineVault.Redeem, BaselineVault.RedeemPair;
  }
}
