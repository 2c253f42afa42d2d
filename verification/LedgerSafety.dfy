/** Every program over the ledger: solvent, accounted for, and faulting in exactly two cases. */
module LedgerSafety {
  import opened Wrappers
  import opened Decimals
  import opened Vaults
  import opened Solvency
  import opened LedgerDriver
  import opened LedgerInvariant

  /** An operation is safe when it faults exactly as foreseen, and everything it publishes is valid. */
  ghost predicate Safe(r: Attempt<Step>, faults: bool) {
    (r.Crashed? <==> faults) && (r.Done? ==> Valid(r.value.model))
  }

  /** Redeeming a single leg for more than escrow can bear next to what the vault still reckons claimable. */
  predicate Overdraws(m: Model, op: Op) {
    match op
    case RedeemScalar(a, side, n) =>
      && m.proposal.state.ScalarSettled? && n <= Balance(m.balances, a, Leg(m.proposal.state.winner, side))
      && m.proposal.Overdraws(side, n)
    case RedeemBaseline(a, side, n) =>
      && m.baseline.state.BaseSettled? && n <= Balance(m.balances, a, Base(side))
      && m.baseline.Overdraws(side, n)
    case _ => false
  }

  /** The parts of validity, put together after one logged operation. */
  lemma Assemble(m: Model, m': Model, e: Event)
    requires m'.events == m.events + [e]
    requires ProposalOk(m'.proposal, Tallied(TallyOf(m.events), e))
    requires BaselineOk(m'.baseline, Tallied(TallyOf(m.events), e))
    requires forall p :: Total(m'.balances, p) == Outstanding(m'.proposal, m'.baseline, p)
    requires Tidy(m'.balances, m'.countAccounts)
    ensures Valid(m')
  {
    hide ProposalOk, BaselineOk, Total, Outstanding, Tidy, Tallied;
    TallySnoc(m.events, e);
  }

  /** Events of one family do not touch the other family's tally. */
  lemma BaselineUnmoved(w: BaselineVault, t: Tally, e: Event)
    requires BaselineOk(w, t)
    requires !e.EvBaselineSplit? && !e.EvBaselineMerged? && !e.EvBaselineRedeemed?
    ensures BaselineOk(w, Tallied(t, e))
  {
    hide BaselineSound;
  }

  lemma ProposalUnmoved(v: Vault, t: Tally, e: Event)
    requires ProposalOk(v, t)
    requires !e.EvSplit? && !e.EvMerged? && !e.EvRedeemed? && !e.EvScalarRedeemed? && !e.EvScalarPairRedeemed?
             && !e.EvGateRedeemed? && !e.EvVoidRedeemed?
    ensures ProposalOk(v, Tallied(t, e))
  {
    hide Sound;
  }

  lemma SplitSafe(m: Model, account: Account, amount: nat)
    requires Valid(m)
    ensures Safe(DoSplit(m, account, amount), false)
  {
    hide ProposalOk, BaselineOk, Tidy, Total, Outstanding, TallyOf, Mint, Vault.CheckConservation, Vault.Conserves;
    if MIN_LEDGER_AMOUNT <= amount && m.proposal.state.Open? {
      var t, e := TallyOf(m.events), EvSplit(amount);
      SplitOk(m.proposal, t, amount);
      BaselineUnmoved(m.baseline, t, e);
      MintTwo(m.balances, m.countAccounts, account, Usdc(Accept), Usdc(Reject), amount);
      var m' := DoSplit(m, account, amount).value.model;
      forall p ensures Total(m'.balances, p) == Outstanding(m'.proposal, m'.baseline, p) {
        BothUsdc(m.proposal, m'.proposal, m.baseline, amount, p);
      }
      Assemble(m, m', e);
    }
  }

  lemma MergeSafe(m: Model, account: Account, amount: nat)
    requires Valid(m)
    ensures Safe(DoMerge(m, account, amount), false)
  {
    hide ProposalOk, BaselineOk, Tidy, Total, Outstanding, TallyOf, Burn, Balance, Vault.Pay, Vault.Conserves;
    if m.proposal.state.Live() && amount <= Balance(m.balances, account, Usdc(Accept))
       && amount <= Balance(m.balances, account, Usdc(Reject)) {
      var t, e := TallyOf(m.events), EvMerged(amount);
      UsdcBacked(m, account, Accept);
      UsdcBacked(m, account, Reject);
      MergeOk(m.proposal, t, amount);
      BaselineUnmoved(m.baseline, t, e);
      BurnTwo(m.balances, m.countAccounts, account, Usdc(Accept), Usdc(Reject), amount);
      var m' := DoMerge(m, account, amount).value.model;
      forall p ensures Total(m'.balances, p) == Outstanding(m'.proposal, m'.baseline, p) {
        BothUsdc(m.proposal, m'.proposal, m.baseline, 0 - amount, p);
      }
      Assemble(m, m', e);
    }
  }

  lemma SplitScalarSafe(m: Model, account: Account, b: Branch, amount: nat)
    requires Valid(m)
    ensures Safe(DoSplitScalar(m, account, b, amount), false)
  {
    hide ProposalOk, BaselineOk, Tidy, Total, Outstanding, TallyOf, SplitInto, Balance, Vault.CheckConservation,
         Vault.Conserves;
    if m.proposal.state.Open? && amount <= Balance(m.balances, account, Usdc(b)) {
      var t, e := TallyOf(m.events), EvScalarSplit(b, amount);
      UsdcBacked(m, account, b);
      SplitScalarOk(m.proposal, t, b, amount);
      ProposalUnmoved(m.proposal.SplitScalar(b, amount).value, t, e);
      BaselineUnmoved(m.baseline, t, e);
      SplitIntoBalances(m, account, b, Leg(b, Long), Leg(b, Short), amount);
      var m' := DoSplitScalar(m, account, b, amount).value.model;
      forall p ensures Total(m'.balances, p) == Outstanding(m'.proposal, m'.baseline, p) {
        ScalarEffect(m.proposal, m.baseline, b, 0 - amount, amount, p);
      }
      Assemble(m, m', e);
    }
  }

  lemma MergeScalarSafe(m: Model, account: Account, b: Branch, amount: nat)
    requires Valid(m)
    ensures Safe(DoMergeScalar(m, account, b, amount), false)
  {
    hide ProposalOk, BaselineOk, Tidy, Total, Outstanding, TallyOf, Balance, MergeFrom, Vault.CheckConservation,
         Vault.Conserves;
    if m.proposal.state.Live() && amount <= Balance(m.balances, account, Leg(b, Long))
       && amount <= Balance(m.balances, account, Leg(b, Short)) {
      var t, e := TallyOf(m.events), EvScalarMerged(b, amount);
      LegBacked(m, account, b, Long);
      LegBacked(m, account, b, Short);
      MergeScalarOk(m.proposal, t, b, amount);
      ProposalUnmoved(m.proposal.MergeScalar(b, amount).value, t, e);
      BaselineUnmoved(m.baseline, t, e);
      MergeFromBalances(m, account, b, Leg(b, Long), Leg(b, Short), amount);
      var m' := DoMergeScalar(m, account, b, amount).value.model;
      forall p ensures Total(m'.balances, p) == Outstanding(m'.proposal, m'.baseline, p) {
        ScalarEffect(m.proposal, m.baseline, b, amount, 0 - amount, p);
      }
      Assemble(m, m', e);
    }
  }

  lemma SplitGateSafe(m: Model, account: Account, b: Branch, g: Gate, amount: nat)
    requires Valid(m)
    ensures Safe(DoSplitGate(m, account, b, g, amount), false)
  {
    hide ProposalOk, BaselineOk, Tidy, Total, Outstanding, TallyOf, Balance, SplitInto, Supply.WithGate,
         Vault.CheckConservation, Vault.Conserves;
    if m.proposal.state.Open? && amount <= Balance(m.balances, account, Usdc(b)) {
      var t, e := TallyOf(m.events), EvGateSplit(b, g, amount);
      UsdcBacked(m, account, b);
      SplitGateOk(m.proposal, t, b, g, amount);
      ProposalUnmoved(m.proposal.SplitGate(b, g, amount).value, t, e);
      BaselineUnmoved(m.baseline, t, e);
      SplitIntoBalances(m, account, b, GateLeg(b, g, true), GateLeg(b, g, false), amount);
      var m' := DoSplitGate(m, account, b, g, amount).value.model;
      forall p ensures Total(m'.balances, p) == Outstanding(m'.proposal, m'.baseline, p) {
        GateEffect(m.proposal, m.baseline, b, g, 0 - amount, amount, p);
      }
      Assemble(m, m', e);
    }
  }

  lemma MergeGateSafe(m: Model, account: Account, b: Branch, g: Gate, amount: nat)
    requires Valid(m)
    ensures Safe(DoMergeGate(m, account, b, g, amount), false)
  {
    hide ProposalOk, BaselineOk, Tidy, Total, Outstanding, TallyOf, Balance, MergeFrom, Supply.WithGate,
         Vault.CheckConservation, Vault.Conserves;
    if m.proposal.state.Live() && amount <= Balance(m.balances, account, GateLeg(b, g, true))
       && amount <= Balance(m.balances, account, GateLeg(b, g, false)) {
      var t, e := TallyOf(m.events), EvGateMerged(b, g, amount);
      GateLegBacked(m, account, b, g, true);
      GateLegBacked(m, account, b, g, false);
      MergeGateOk(m.proposal, t, b, g, amount);
      ProposalUnmoved(m.proposal.MergeGate(b, g, amount).value, t, e);
      BaselineUnmoved(m.baseline, t, e);
      MergeFromBalances(m, account, b, GateLeg(b, g, true), GateLeg(b, g, false), amount);
      var m' := DoMergeGate(m, account, b, g, amount).value.model;
      forall p ensures Total(m'.balances, p) == Outstanding(m'.proposal, m'.baseline, p) {
        GateEffect(m.proposal, m.baseline, b, g, amount, 0 - amount, p);
      }
      Assemble(m, m', e);
    }
  }

  lemma TransferSafe(m: Model, from: Account, to: Account, p: Position, amount: nat)
    requires Valid(m)
    ensures Safe(DoTransfer(m, from, to, p, amount), false)
  {
    hide ProposalOk, BaselineOk, Tidy, Total, TallyOf, Balance, Mint, Burn, Outstanding, MovedAmount;
    var r := DoTransfer(m, from, to, p, amount);
    if r.Done? {
      var m', moved := r.value.model, MovedAmount(Balance(m.balances, from, p), amount);
      var t, e := TallyOf(m.events), EvTransferred(p, moved);
      ProposalUnmoved(m.proposal, t, e);
      BaselineUnmoved(m.baseline, t, e);
      BurnOne(m.balances, m.countAccounts, from, p, moved);
      var burned := Burn(m.balances, from, p, moved);
      MintTidy(burned, m.countAccounts, to, p, moved);
      forall q ensures Total(m'.balances, q) == Outstanding(m'.proposal, m'.baseline, q) {
        MintTotal(burned, to, p, moved, q);
      }
      Assemble(m, m', e);
    }
  }

  lemma ResolveSafe(m: Model, w: Branch)
    requires Valid(m)
    ensures Safe(DoResolve(m, w), false)
  {
    hide Sound, BaselineOk, Tidy, Total, TallyOf, Outstanding, Vault.CheckConservation, Vault.Conserves;
    if m.proposal.state.Open? {
      var t, e := TallyOf(m.events), EvResolved(w);
      ResolveSound(m.proposal, t.floors, w);
      BaselineUnmoved(m.baseline, t, e);
      var m' := DoResolve(m, w).value.model;
      forall p ensures Total(m'.balances, p) == Outstanding(m'.proposal, m'.baseline, p) {
        SameBranches(m.proposal, m'.proposal, m.baseline, p);
      }
      Assemble(m, m', e);
    }
  }

  lemma VoidSafe(m: Model)
    requires Valid(m)
    ensures Safe(DoVoid(m), false)
  {
    hide Sound, BaselineOk, Tidy, Total, TallyOf, Outstanding, Vault.CheckConservation, Vault.Conserves;
    if m.proposal.state.Open? || m.proposal.state.Resolved? {
      var t, e := TallyOf(m.events), EvVoided;
      VoidSound(m.proposal, t.floors);
      BaselineUnmoved(m.baseline, t, e);
      var m' := DoVoid(m).value.model;
      forall p ensures Total(m'.balances, p) == Outstanding(m'.proposal, m'.baseline, p) {
        SameBranches(m.proposal, m'.proposal, m.baseline, p);
      }
      Assemble(m, m', e);
    }
  }

  lemma SettleScalarSafe(m: Model, s: int)
    requires Valid(m)
    ensures Safe(DoSettleScalar(m, s), false)
  {
    hide Sound, BaselineOk, Tidy, Total, TallyOf, Outstanding, Vault.CheckConservation, Vault.Conserves;
    if 0 <= s <= SCALE && m.proposal.state.Resolved? {
      var t, e := TallyOf(m.events), EvScalarSettled(m.proposal.state.winner, s);
      SettleScalarSound(m.proposal, t.floors, s);
      BaselineUnmoved(m.baseline, t, e);
      var m' := DoSettleScalar(m, s).value.model;
      forall p ensures Total(m'.balances, p) == Outstanding(m'.proposal, m'.baseline, p) {
        SameBranches(m.proposal, m'.proposal, m.baseline, p);
      }
      Assemble(m, m', e);
    }
  }

  lemma SettleGateSafe(m: Model, g: Gate, outcome: bool)
    requires Valid(m)
    ensures Safe(DoSettleGate(m, g, outcome), false)
  {
    hide Sound, BaselineOk, Tidy, Total, TallyOf, Outstanding, Vault.CheckConservation, Vault.Conserves;
    if (m.proposal.state.Resolved? || m.proposal.state.ScalarSettled?) && m.proposal.outcomes.Get(g).None? {
      var t, e := TallyOf(m.events), EvGateSettled(m.proposal.state.winner, g, outcome);
      SettleGateSound(m.proposal, t.floors, g, outcome);
      BaselineUnmoved(m.baseline, t, e);
      if DoSettleGate(m, g, outcome).Done? {
        var m' := DoSettleGate(m, g, outcome).value.model;
        forall p ensures Total(m'.balances, p) == Outstanding(m'.proposal, m'.baseline, p) {
          SameBranches(m.proposal, m'.proposal, m.baseline, p);
        }
        Assemble(m, m', e);
      }
    }
  }

  lemma RedeemSafe(m: Model, account: Account, amount: nat)
    requires Valid(m)
    ensures Safe(DoRedeem(m, account, amount), false)
  {
    hide ProposalOk, BaselineOk, Tidy, Total, Outstanding, TallyOf, Balance, Burn, Vault.TerminalPay,
         Vault.Conserves;
    if m.proposal.state.ScalarSettled? && amount <= Balance(m.balances, account, Usdc(m.proposal.state.winner)) {
      var t, e := TallyOf(m.events), EvRedeemed(amount);
      var b := m.proposal.state.winner;
      UsdcBacked(m, account, b);
      RedeemOk(m.proposal, t, amount);
      BaselineUnmoved(m.baseline, t, e);
      BurnOne(m.balances, m.countAccounts, account, Usdc(b), amount);
      if DoRedeem(m, account, amount).Done? {
        var m' := DoRedeem(m, account, amount).value.model;
        forall p ensures Total(m'.balances, p) == Outstanding(m'.proposal, m'.baseline, p) {
          LessEffect(m.proposal, m.baseline, b, BranchUsdc, None, amount, p);
          SameBranches(m.proposal.On(b, m.proposal.Of(b).Less(BranchUsdc, None, amount)), m'.proposal, m.baseline, p);
        }
        Assemble(m, m', e);
      }
    }
  }

  lemma RedeemScalarSafe(m: Model, account: Account, side: Side, amount: nat)
    requires Valid(m)
    ensures Safe(DoRedeemScalar(m, account, side, amount), Overdraws(m, RedeemScalar(account, side, amount)))
  {
    hide ProposalOk, BaselineOk, Tidy, Total, Outstanding, TallyOf, Balance, Burn, Vault.TerminalPay,
         Vault.ScalarPayout, Vault.Overdraws, Vault.Conserves;
    if m.proposal.state.ScalarSettled? && amount <= Balance(m.balances, account, Leg(m.proposal.state.winner, side)) {
      var t, e := TallyOf(m.events), EvScalarRedeemed(side, m.proposal.ScalarPayout(side, amount));
      var b := m.proposal.state.winner;
      LegBacked(m, account, b, side);
      RedeemScalarOk(m.proposal, t, side, amount);
      BaselineUnmoved(m.baseline, t, e);
      BurnOne(m.balances, m.countAccounts, account, Leg(b, side), amount);
      var kind := Leg(b, side).kind;
      if DoRedeemScalar(m, account, side, amount).Done? {
        var m' := DoRedeemScalar(m, account, side, amount).value.model;
        forall p ensures Total(m'.balances, p) == Outstanding(m'.proposal, m'.baseline, p) {
          LessEffect(m.proposal, m.baseline, b, kind, None, amount, p);
          SameBranches(m.proposal.On(b, m.proposal.Of(b).Less(kind, None, amount)), m'.proposal, m.baseline, p);
        }
        Assemble(m, m', e);
      }
    }
  }

  lemma RedeemScalarPairSafe(m: Model, account: Account, amount: nat)
    requires Valid(m)
    ensures Safe(DoRedeemScalarPair(m, account, amount), false)
  {
    hide ProposalOk, BaselineOk, Tidy, Total, Outstanding, TallyOf, Balance, Burn, Vault.TerminalPay,
         Vault.Conserves;
    if m.proposal.state.ScalarSettled? && amount <= Balance(m.balances, account, Leg(m.proposal.state.winner, Long))
       && amount <= Balance(m.balances, account, Leg(m.proposal.state.winner, Short)) {
      var t, e := TallyOf(m.events), EvScalarPairRedeemed(amount);
      var b := m.proposal.state.winner;
      LegBacked(m, account, b, Long);
      LegBacked(m, account, b, Short);
      RedeemScalarPairOk(m.proposal, t, amount);
      BaselineUnmoved(m.baseline, t, e);
      BurnTwo(m.balances, m.countAccounts, account, Leg(b, Long), Leg(b, Short), amount);
      if DoRedeemScalarPair(m, account, amount).Done? {
        var m' := DoRedeemScalarPair(m, account, amount).value.model;
        forall p ensures Total(m'.balances, p) == Outstanding(m'.proposal, m'.baseline, p) {
          PairEffect(m.proposal, m'.proposal, m.baseline, b, amount, p);
        }
        Assemble(m, m', e);
      }
    }
  }

  lemma RedeemGateSafe(m: Model, account: Account, g: Gate, amount: nat)
    requires Valid(m)
    ensures Safe(DoRedeemGate(m, account, g, amount), false)
  {
    hide ProposalOk, BaselineOk, Tidy, Total, Outstanding, TallyOf, Balance, Burn, Vault.TerminalPay, Outcomes.Get,
         Vault.Conserves;
    if m.proposal.state.ScalarSettled? && m.proposal.outcomes.Get(g).Some?
       && amount <= Balance(m.balances, account,
                            GateLeg(m.proposal.state.winner, g, m.proposal.outcomes.Get(g).value)) {
      var t, e := TallyOf(m.events), EvGateRedeemed(g, amount);
      var b, yes := m.proposal.state.winner, m.proposal.outcomes.Get(g).value;
      var kind := GateLeg(b, g, yes).kind;
      GateLegBacked(m, account, b, g, yes);
      RedeemGateOk(m.proposal, t, g, amount);
      BaselineUnmoved(m.baseline, t, e);
      BurnOne(m.balances, m.countAccounts, account, GateLeg(b, g, yes), amount);
      if DoRedeemGate(m, account, g, amount).Done? {
        var m' := DoRedeemGate(m, account, g, amount).value.model;
        forall p ensures Total(m'.balances, p) == Outstanding(m'.proposal, m'.baseline, p) {
          LessEffect(m.proposal, m.baseline, b, kind, Some(g), amount, p);
          SameBranches(m.proposal.On(b, m.proposal.Of(b).Less(kind, Some(g), amount)), m'.proposal, m.baseline, p);
        }
        Assemble(m, m', e);
      }
    }
  }

  /** A faulting input: in a voided vault, no units of a gate leg redeemed without naming the gate. */
  predicate Faults(m: Model, op: Op) {
    && op.RedeemVoid? && m.proposal.state.Voided?
    && (op.kind.GateYes? || op.kind.GateNo?) && op.maybeGate.None? && op.amount == 0
  }

  lemma RedeemVoidSafe(m: Model, account: Account, b: Branch, kind: Kind, gate: Option<Gate>, amount: nat)
    requires Valid(m)
    ensures Safe(DoRedeemVoid(m, account, b, kind, gate, amount), Faults(m, RedeemVoid(account, b, kind, gate, amount)))
  {
    hide ProposalOk, BaselineOk, Tidy, Total, TallyOf, Balance, Burn, Vault.TerminalPay, Vault.VoidPayout,
         Supply.Less, Vault.Conserves;
    var x := Claim(b, kind, gate);
    if m.proposal.state.Voided? && amount <= Balance(m.balances, account, x) {
      HolderBacked(m, account, x);
      if !((kind.GateYes? || kind.GateNo?) && gate.None?) {
        var t, e := TallyOf(m.events), EvVoidRedeemed(kind, gate, amount, Vault.VoidPayout(kind, amount));
        RedeemVoidOk(m.proposal, t, b, kind, gate, amount);
        BaselineUnmoved(m.baseline, t, e);
        BurnOne(m.balances, m.countAccounts, account, x, amount);
        var m' := DoRedeemVoid(m, account, b, kind, gate, amount).value.model;
        forall p ensures Total(m'.balances, p) == Outstanding(m'.proposal, m'.baseline, p) {
          LessEffect(m.proposal, m.baseline, b, kind, gate, amount, p);
          SameBranches(m.proposal.On(b, m.proposal.Of(b).Less(kind, gate, amount)), m'.proposal, m.baseline, p);
        }
        Assemble(m, m', e);
      }
    }
  }

  lemma SplitBaselineSafe(m: Model, account: Account, amount: nat)
    requires Valid(m)
    ensures Safe(DoSplitBaseline(m, account, amount), false)
  {
    hide ProposalOk, BaselineSound, Tidy, Total, Outstanding, TallyOf, Balance, Mint,
         BaselineVault.CheckConservation, BaselineVault.Conserves;
    if MIN_LEDGER_AMOUNT <= amount && m.baseline.state.BaseOpen? {
      var t, e := TallyOf(m.events), EvBaselineSplit(amount);
      BaselineSplitSound(m.baseline, t.baseFloors, amount);
      ProposalUnmoved(m.proposal, t, e);
      MintTwo(m.balances, m.countAccounts, account, Base(Long), Base(Short), amount);
      var m' := DoSplitBaseline(m, account, amount).value.model;
      forall p ensures Total(m'.balances, p) == Outstanding(m'.proposal, m'.baseline, p) {
        BaselineEffect(m.proposal, m.baseline, m'.baseline, amount, amount, p);
      }
      Assemble(m, m', e);
    }
  }

  lemma MergeBaselineSafe(m: Model, account: Account, amount: nat)
    requires Valid(m)
    ensures Safe(DoMergeBaseline(m, account, amount), false)
  {
    hide ProposalOk, BaselineSound, Tidy, Total, Outstanding, TallyOf, Balance, Burn, BaselineVault.Pay,
         BaselineVault.Conserves;
    if m.baseline.state.BaseOpen? && amount <= Balance(m.balances, account, Base(Long))
       && amount <= Balance(m.balances, account, Base(Short)) {
      var t, e := TallyOf(m.events), EvBaselineMerged(amount);
      BaseBacked(m, account, Long);
      BaseBacked(m, account, Short);
      BaselineMergeSound(m.baseline, t.baseFloors, amount);
      ProposalUnmoved(m.proposal, t, e);
      BurnTwo(m.balances, m.countAccounts, account, Base(Long), Base(Short), amount);
      var m' := DoMergeBaseline(m, account, amount).value.model;
      forall p ensures Total(m'.balances, p) == Outstanding(m'.proposal, m'.baseline, p) {
        BaselineEffect(m.proposal, m.baseline, m'.baseline, 0 - amount, 0 - amount, p);
      }
      Assemble(m, m', e);
    }
  }

  lemma SettleBaselineSafe(m: Model, s: int)
    requires Valid(m)
    ensures Safe(DoSettleBaseline(m, s), false)
  {
    hide ProposalOk, BaselineSound, Tidy, Total, Outstanding, TallyOf, BaselineVault.CheckConservation,
         BaselineVault.Conserves;
    if 0 <= s <= SCALE && m.baseline.state.BaseOpen? {
      var t, e := TallyOf(m.events), EvBaselineSettled(s);
      BaselineSettleSound(m.baseline, t.baseFloors, s);
      ProposalUnmoved(m.proposal, t, e);
      var m' := DoSettleBaseline(m, s).value.model;
      forall p ensures Total(m'.balances, p) == Outstanding(m'.proposal, m'.baseline, p) {
        BaselineEffect(m.proposal, m.baseline, m'.baseline, 0, 0, p);
      }
      Assemble(m, m', e);
    }
  }

  lemma RedeemBaselineSafe(m: Model, account: Account, side: Side, amount: nat)
    requires Valid(m)
    ensures Safe(DoRedeemBaseline(m, account, side, amount), Overdraws(m, RedeemBaseline(account, side, amount)))
  {
    hide ProposalOk, BaselineOk, Tidy, Total, Outstanding, TallyOf, Balance, Burn, BaselineVault.Pay,
         BaselineVault.LegPayout, BaselineVault.Overdraws, BaselineVault.Conserves;
    if m.baseline.state.BaseSettled? && amount <= Balance(m.balances, account, Base(side)) {
      var t, e := TallyOf(m.events), EvBaselineRedeemed(side, m.baseline.LegPayout(side, amount));
      BaseBacked(m, account, side);
      BaselineRedeemOk(m.baseline, t, side, amount);
      ProposalUnmoved(m.proposal, t, e);
      BurnOne(m.balances, m.countAccounts, account, Base(side), amount);
      if DoRedeemBaseline(m, account, side, amount).Done? {
        var m' := DoRedeemBaseline(m, account, side, amount).value.model;
        forall p ensures Total(m'.balances, p) == Outstanding(m'.proposal, m'.baseline, p) {
          BaselineEffect(m.proposal, m.baseline, m'.baseline, if side.Long? then 0 - amount else 0,
                         if side.Short? then 0 - amount else 0, p);
        }
        Assemble(m, m', e);
      }
    }
  }

  lemma RedeemBaselinePairSafe(m: Model, account: Account, amount: nat)
    requires Valid(m)
    ensures Safe(DoRedeemBaselinePair(m, account, amount), false)
  {
    hide ProposalOk, BaselineOk, Tidy, Total, Outstanding, TallyOf, Balance, Burn, BaselineVault.Pay,
         BaselineVault.Conserves;
    if m.baseline.state.BaseSettled? && amount <= Balance(m.balances, account, Base(Long))
       && amount <= Balance(m.balances, account, Base(Short)) {
      var t, e := TallyOf(m.events), EvBaselineRedeemed(Long, amount);
      BaseBacked(m, account, Long);
      BaseBacked(m, account, Short);
      BaselineRedeemPairOk(m.baseline, t, amount);
      ProposalUnmoved(m.proposal, t, e);
      BurnTwo(m.balances, m.countAccounts, account, Base(Long), Base(Short), amount);
      if DoRedeemBaselinePair(m, account, amount).Done? {
        var m' := DoRedeemBaselinePair(m, account, amount).value.model;
        forall p ensures Total(m'.balances, p) == Outstanding(m'.proposal, m'.baseline, p) {
          BaselineEffect(m.proposal, m.baseline, m'.baseline, 0 - amount, 0 - amount, p);
        }
        Assemble(m, m', e);
      }
    }
  }

  // ---------- Whole programs ----------

  predicate OnBaseline(op: Op) {
    op.SplitBaseline? || op.MergeBaseline? || op.SettleBaseline? || op.RedeemBaseline? || op.RedeemBaselinePair?
  }

  /** What a caller can check first: the vault that the operation works on is unsettled, or has taken in
      less than 10^91 base units. */
  predicate Precise(m: Model, op: Op) { if OnBaseline(op) then m.baseline.Fits() else m.proposal.Fits() }

  /** Whatever an operation publishes from a valid model is valid again; it faults on the gate-less
      redemption and on a leg that overdraws, and on nothing else. */
  lemma ApplySafe(m: Model, op: Op)
    requires Valid(m)
    ensures Apply(m, op).Crashed? <==> Faults(m, op) || Overdraws(m, op)
    ensures Apply(m, op).Done? ==> Valid(Apply(m, op).value.model)
  {
    hide Valid, Vault.Overdraws, BaselineVault.Overdraws, DoSplit, DoMerge, DoSplitScalar, DoMergeScalar,
         DoSplitGate, DoMergeGate, DoTransfer, DoResolve, DoVoid, DoSettleScalar, DoSettleGate, DoRedeem,
         DoRedeemScalar, DoRedeemScalarPair, DoRedeemGate, DoRedeemVoid, DoSplitBaseline, DoMergeBaseline,
         DoSettleBaseline, DoRedeemBaseline, DoRedeemBaselinePair;
    match op
    case Split(account, amount) => SplitSafe(m, account, amount);
    case Merge(account, amount) => MergeSafe(m, account, amount);
    case SplitScalar(account, b, amount) => SplitScalarSafe(m, account, b, amount);
    case MergeScalar(account, b, amount) => MergeScalarSafe(m, account, b, amount);
    case SplitGate(account, b, g, amount) => SplitGateSafe(m, account, b, g, amount);
    case MergeGate(account, b, g, amount) => MergeGateSafe(m, account, b, g, amount);
    case Transfer(from, to, p, amount) => TransferSafe(m, from, to, p, amount);
    case Resolve(w) => ResolveSafe(m, w);
    case Void => VoidSafe(m);
    case SettleScalar(s) => SettleScalarSafe(m, s);
    case SettleGate(g, outcome) => SettleGateSafe(m, g, outcome);
    case Redeem(account, amount) => RedeemSafe(m, account, amount);
    case RedeemScalar(account, side, amount) => RedeemScalarSafe(m, account, side, amount);
    case RedeemScalarPair(account, amount) => RedeemScalarPairSafe(m, account, amount);
    case RedeemGate(account, g, amount) => RedeemGateSafe(m, account, g, amount);
    case RedeemVoid(account, b, kind, g, amount) => RedeemVoidSafe(m, account, b, kind, g, amount);
    case SplitBaseline(account, amount) => SplitBaselineSafe(m, account, amount);
    case MergeBaseline(account, amount) => MergeBaselineSafe(m, account, amount);
    case SettleBaseline(s) => SettleBaselineSafe(m, s);
    case RedeemBaseline(account, side, amount) => RedeemBaselineSafe(m, account, side, amount);
    case RedeemBaselinePair(account, amount) => RedeemBaselinePairSafe(m, account, amount);
  }

  lemma {:induction false} RunKeepsValid(m: Model, ops: seq<Op>)
    requires Valid(m)
    ensures Valid(Run(m, ops))
    decreases |ops|
  {
    hide Valid, Apply;
    if ops != [] {
      ApplySafe(m, ops[0]);
      var r := Apply(m, ops[0]);
      RunKeepsValid(if r.Done? then r.value.model else m, ops[1..]);
    }
  }

  /** Every reachable model is valid, however large its amounts, and meets an operation with a fault
      exactly on the gate-less redemption and on a leg that overdraws. */
  lemma EveryRun(ops: seq<Op>, next: Op)
    ensures Valid(Run(INITIAL, ops))
    ensures Apply(Run(INITIAL, ops), next).Crashed? <==>
            Faults(Run(INITIAL, ops), next) || Overdraws(Run(INITIAL, ops), next)
  {
    hide Valid, Apply, Run, Overdraws;
    InitiallyValid(INITIAL);
    RunKeepsValid(INITIAL, ops);
    ApplySafe(Run(INITIAL, ops), next);
  }

  /** Below the limit of the decimal context nothing overdraws. */
  lemma PreciseNeverOverdraws(m: Model, op: Op)
    requires Valid(m) && Precise(m, op)
    ensures !Overdraws(m, op)
  {
    hide Sound, BaselineSound, Agrees, Tidy, Balance, Vault.Overdraws, BaselineVault.Overdraws, Vault.Conserves,
         BaselineVault.Conserves;
    if op.RedeemScalar? {
      FittingNeverOverdraws(m.proposal, TallyOf(m.events).floors, op.side, op.amount);
    } else if op.RedeemBaseline? {
      BaselineFittingNeverOverdraws(m.baseline, TallyOf(m.events).baseFloors, op.side, op.amount);
    }
  }

  /** The faulting input is reachable: void an untouched vault, then redeem nothing of an unnamed gate. */
  lemma FaultIsReachable(account: Account, b: Branch)
    ensures Apply(Run(INITIAL, [Void]), RedeemVoid(account, b, GateYes, None, 0)).Crashed?
  {
    hide Valid, Apply;
    InitiallyValid(INITIAL);
    VoidsWhenOpen(INITIAL);
    RunKeepsValid(INITIAL, [Void]);
    assert [Void][0] == Void && [Void][1..] == [];
    ApplySafe(Run(INITIAL, [Void]), RedeemVoid(account, b, GateYes, None, 0));
  }

  lemma VoidsWhenOpen(m: Model)
    requires Valid(m) && m.proposal.state.Open?
    ensures Apply(m, Void).Done? && Apply(m, Void).value.model.proposal.state.Voided?
  {
    hide Valid, Vault.CheckConservation, Vault.Conserves;
    VoidSafe(m);
  }

  // ---------- What the invariant says about holders ----------

  ghost function ClaimsOf(bal: Balances, b: Branch): nat {
    Total(bal, Usdc(b)) + Total(bal, Leg(b, Long))
    + Total(bal, GateLeg(b, Survival, true)) + Total(bal, GateLeg(b, Security, true))
  }

  /** While the proposal vault is open or resolved, legs are paired in every family and branch, and
      each branch's claims come to all splits less all merges. */
  lemma LiveConservation(ops: seq<Op>, b: Branch)
    requires var v := Run(INITIAL, ops).proposal; v.state.Open? || v.state.Resolved?
    ensures var m := Run(INITIAL, ops);
            && Total(m.balances, Leg(b, Long)) == Total(m.balances, Leg(b, Short))
            && (forall g :: Total(m.balances, GateLeg(b, g, true)) == Total(m.balances, GateLeg(b, g, false)))
            && ClaimsOf(m.balances, b) == TallyOf(m.events).netSplits == m.proposal.escrowed
  {
    hide Run, Apply, Faults, Overdraws, Agrees, Total, Worth, TallyOf, Tidy, BaselineOk;
    var m := Run(INITIAL, ops);
    EveryRun(ops, Void);
    BranchTotals(m, b);
    assert m.proposal.Of(b).Paired() && m.proposal.Of(b).Identity() == m.proposal.escrowed;
  }

  /** Holders' totals of one branch are the vault's supplies. */
  lemma BranchTotals(m: Model, b: Branch)
    requires Agrees(m)
    ensures var p := m.proposal.Of(b);
            && Total(m.balances, Usdc(b)) == p.usdc
            && Total(m.balances, Leg(b, Long)) == p.long && Total(m.balances, Leg(b, Short)) == p.short
            && (forall g, yes :: Total(m.balances, GateLeg(b, g, yes)) == p.GateOf(g).Leg(yes))
  {
    hide Total;
    forall g, yes ensures Total(m.balances, GateLeg(b, g, yes)) == m.proposal.Of(b).GateOf(g).Leg(yes) {
      assert Outstanding(m.proposal, m.baseline, GateLeg(b, g, yes)) == m.proposal.Of(b).GateOf(g).Leg(yes);
    }
    assert Outstanding(m.proposal, m.baseline, Leg(b, Long)) == m.proposal.Of(b).long;
    assert Outstanding(m.proposal, m.baseline, Leg(b, Short)) == m.proposal.Of(b).short;
  }

  lemma BaselineTotals(m: Model)
    requires Agrees(m)
    ensures Total(m.balances, Base(Long)) == m.baseline.long && Total(m.balances, Base(Short)) == m.baseline.short
  {
    hide Total;
    assert Outstanding(m.proposal, m.baseline, Base(Long)) == m.baseline.long;
    assert Outstanding(m.proposal, m.baseline, Base(Short)) == m.baseline.short;
  }

  lemma BaselineConservation(ops: seq<Op>)
    requires Run(INITIAL, ops).baseline.state.BaseOpen?
    ensures var m := Run(INITIAL, ops);
            Total(m.balances, Base(Long)) == Total(m.balances, Base(Short)) == TallyOf(m.events).baseNetSplits
            == m.baseline.escrowed
  {
    hide Run, Apply, Faults, Overdraws, Agrees, Total, Worth, TallyOf, Tidy, ProposalOk;
    var m := Run(INITIAL, ops);
    EveryRun(ops, Void);
    BaselineTotals(m);
  }

  /** What holders can claim from one gate: the winning side, or either if undecided. */
  ghost function GateClaims(bal: Balances, w: Branch, g: Gate, outcome: Option<bool>): nat {
    match outcome
    case None => Max(Total(bal, GateLeg(w, g, true)), Total(bal, GateLeg(w, g, false)))
    case Some(yes) => Total(bal, GateLeg(w, g, yes))
  }

  /** Exact worth of everything holders can claim after settlement, in units of 1 / SCALE. */
  ghost function SettledClaims(m: Model): nat
    requires m.proposal.state.ScalarSettled?
  {
    var w, s := m.proposal.state.winner, m.proposal.state.s;
    SCALE * (Total(m.balances, Usdc(w)) + GateClaims(m.balances, w, Survival, m.proposal.outcomes.survival)
             + GateClaims(m.balances, w, Security, m.proposal.outcomes.security))
    + Worth(Total(m.balances, Leg(w, Long)), s) + Worth(Total(m.balances, Leg(w, Short)), SCALE - s)
  }

  /** Settled solvency, two-sided: escrow covers the exact worth of all outstanding claims, and exceeds
      it by less than one base unit for every floored redemption ever made. */
  lemma SettledSolvency(ops: seq<Op>)
    requires Run(INITIAL, ops).proposal.state.ScalarSettled? && Run(INITIAL, ops).proposal.collateralIn < AMOUNT_LIMIT
    ensures var m := Run(INITIAL, ops);
            SettledClaims(m) <= SCALE * m.proposal.escrowed <= SettledClaims(m) + (SCALE - 1) * TallyOf(m.events).floors
  {
    hide Run, Apply, Faults, Overdraws, Agrees, Total, Worth, TallyOf, Tidy, BaselineOk;
    var m := Run(INITIAL, ops);
    EveryRun(ops, Void);
    BranchTotals(m, m.proposal.state.winner);
    assert SettledClaims(m) ==
           SettledValue(m.proposal.Of(m.proposal.state.winner), m.proposal.outcomes, m.proposal.state.s);
  }

  /** Once nothing is left to claim, the residue is under one base unit per floored redemption. */
  lemma SettledResidue(ops: seq<Op>)
    requires Run(INITIAL, ops).proposal.state.ScalarSettled? && Run(INITIAL, ops).proposal.collateralIn < AMOUNT_LIMIT
    requires SettledClaims(Run(INITIAL, ops)) == 0
    ensures var m := Run(INITIAL, ops);
            m.proposal.escrowed == 0 || m.proposal.escrowed < TallyOf(m.events).floors
  {
    hide Run, SettledClaims, TallyOf;
    SettledSolvency(ops);
  }

  ghost function VoidClaims(bal: Balances, b: Branch): nat {
    2 * Total(bal, Usdc(b)) + Total(bal, Leg(b, Long)) + Total(bal, Leg(b, Short))
    + Total(bal, GateLeg(b, Survival, true)) + Total(bal, GateLeg(b, Survival, false))
    + Total(bal, GateLeg(b, Security, true)) + Total(bal, GateLeg(b, Security, false))
  }

  /** The same under VOID, in quarters of a base unit. */
  lemma VoidSolvency(ops: seq<Op>)
    requires Run(INITIAL, ops).proposal.state.Voided?
    ensures var m := Run(INITIAL, ops);
            var claims := VoidClaims(m.balances, Accept) + VoidClaims(m.balances, Reject);
            claims <= 4 * m.proposal.escrowed <= claims + 3 * TallyOf(m.events).floors
  {
    hide Run, Apply, Faults, Overdraws, Agrees, Total, Worth, TallyOf, Tidy, BaselineOk;
    var m := Run(INITIAL, ops);
    EveryRun(ops, Void);
    BranchTotals(m, Accept);
    BranchTotals(m, Reject);
    assert VoidClaims(m.balances, Accept) == BranchValue(m.proposal.accept);
    assert VoidClaims(m.balances, Reject) == BranchValue(m.proposal.reject);
  }

  /** How many single baseline legs a program redeems; pairs are paid at par and leave no residue. */
  function BaselineFloors(m: Model, ops: seq<Op>): nat
    decreases |ops|
  {
    if ops == [] then 0
    else
      var r := Apply(m, ops[0]);
      (if r.Done? && ops[0].RedeemBaseline? then 1 else 0)
      + BaselineFloors(if r.Done? then r.value.model else m, ops[1..])
  }

  /** Only single-leg redemptions loosen what the baseline vault owes. */
  lemma BaselineStep(m: Model, op: Op, floors: nat)
    requires Valid(m) && BaselineSound(m.baseline, floors) && Apply(m, op).Done?
    ensures BaselineSound(Apply(m, op).value.model.baseline, floors + (if op.RedeemBaseline? then 1 else 0))
  {
    if OnBaseline(op) {
      BaselineOpStep(m, op, floors);
    } else {
      BaselineUntouched(m, op);
    }
  }

  lemma BaselineUntouched(m: Model, op: Op)
    requires Apply(m, op).Done? && !OnBaseline(op)
    ensures Apply(m, op).value.model.baseline == m.baseline
  {
    hide Vault.CheckConservation, Vault.TerminalPay, Vault.Pay, Balance, Mint, Burn, FloorProduct, Vault.Conserves;
  }

  lemma BaselineOpStep(m: Model, op: Op, floors: nat)
    requires Valid(m) && BaselineSound(m.baseline, floors) && Apply(m, op).Done? && OnBaseline(op)
    ensures BaselineSound(Apply(m, op).value.model.baseline, floors + (if op.RedeemBaseline? then 1 else 0))
  {
    hide BaselineSound, ProposalOk, BaselineOk, Tidy, Total, Outstanding, TallyOf, Balance, Mint, Burn,
         BaselineVault.CheckConservation, BaselineVault.Pay, BaselineVault.LegPayout, BaselineVault.Overdraws,
         BaselineVault.Conserves;
    match op
    case SplitBaseline(_, n) => BaselineSplitSound(m.baseline, floors, n);
    case MergeBaseline(a, n) =>
      BaseBacked(m, a, Long);
      BaselineMergeSound(m.baseline, floors, n);
    case SettleBaseline(s) => BaselineSettleSound(m.baseline, floors, s);
    case RedeemBaseline(a, side, n) =>
      BaseBacked(m, a, side);
      BaselineRedeemSound(m.baseline, floors, side, n);
    case RedeemBaselinePair(a, n) =>
      BaseBacked(m, a, Long);
      BaseBacked(m, a, Short);
      BaselineOkConserves(m.baseline, TallyOf(m.events));
      BaselineRedeemPairSound(m.baseline, floors, n);
  }

  lemma BaselineOkConserves(v: BaselineVault, t: Tally)
    requires BaselineOk(v, t)
    ensures v.Conserves()
  {
    hide BaselineSound, BaselineVault.Conserves;
  }

  lemma {:induction false} BaselineRun(m: Model, ops: seq<Op>, floors: nat)
    requires Valid(m) && BaselineSound(m.baseline, floors)
    ensures BaselineSound(Run(m, ops).baseline, floors + BaselineFloors(m, ops))
    decreases |ops|
  {
    hide Valid, Apply, BaselineSound;
    if ops != [] {
      var r := Apply(m, ops[0]);
      ApplySafe(m, ops[0]);
      if r.Done? {
        BaselineStep(m, ops[0], floors);
        BaselineRun(r.value.model, ops[1..], floors + (if ops[0].RedeemBaseline? then 1 else 0));
      } else {
        BaselineRun(m, ops[1..], floors);
      }
    }
  }

  /** The same for the settled baseline vault, counting only the single-leg redemptions made. */
  lemma BaselineSolvency(ops: seq<Op>)
    requires Run(INITIAL, ops).baseline.state.BaseSettled? && Run(INITIAL, ops).baseline.collateralIn < AMOUNT_LIMIT
    ensures var m := Run(INITIAL, ops);
            var s := m.baseline.state.s;
            var claims := Worth(Total(m.balances, Base(Long)), s) + Worth(Total(m.balances, Base(Short)), SCALE - s);
            claims <= SCALE * m.baseline.escrowed <= claims + (SCALE - 1) * BaselineFloors(INITIAL, ops)
  {
    hide Run, Apply, Faults, Overdraws, Total, Worth, Valid, BaselineSound, BaselineFloors;
    EveryRun(ops, Void);
    InitiallyValid(INITIAL);
    EmptyBaselineIsSound(INITIAL.baseline);
    BaselineRun(INITIAL, ops, 0);
    BaselineCovered(Run(INITIAL, ops), BaselineFloors(INITIAL, ops));
  }

  lemma BaselineCovered(m: Model, floors: nat)
    requires Valid(m) && BaselineSound(m.baseline, floors)
    requires m.baseline.state.BaseSettled? && m.baseline.collateralIn < AMOUNT_LIMIT
    ensures var s := m.baseline.state.s;
            var claims := Worth(Total(m.balances, Base(Long)), s) + Worth(Total(m.balances, Base(Short)), SCALE - s);
            claims <= SCALE * m.baseline.escrowed <= claims + (SCALE - 1) * floors
  {
    hide Agrees, Total, Worth, TallyOf, Tidy, ProposalOk, BaselineOk;
    BaselineTotals(m);
  }

  // ---------- No redemption order leaves a holder unpaid ----------

  /** The instrument a redemption burns, how much of it, and what one unit is worth out of scale. */
  datatype Due = Due(position: Position, amount: nat, share: nat, scale: nat)

  /** What the protocol promises for a single-claim redemption in the given state, if anything. */
  function Entitlement(v: Vault, w: BaselineVault, op: Op): Option<Due> {
    match op
    case Redeem(_, amount) =>
      if v.state.ScalarSettled? then Some(Due(Usdc(v.state.winner), amount, 1, 1)) else None
    case RedeemScalar(_, side, amount) =>
      if v.state.ScalarSettled? then Some(Due(Leg(v.state.winner, side), amount, ShareOf(side, v.state.s), SCALE))
      else None
    case RedeemGate(_, g, amount) =>
      if v.state.ScalarSettled? && v.outcomes.Get(g).Some?
      then Some(Due(GateLeg(v.state.winner, g, v.outcomes.Get(g).value), amount, 1, 1)) else None
    case RedeemVoid(_, b, kind, g, amount) =>
      if v.state.Voided? && Claim(b, kind, g).Named() then Some(Due(Claim(b, kind, g), amount, Quarters(kind), 4))
      else None
    case RedeemBaseline(_, side, amount) =>
      if w.state.BaseSettled? then Some(Due(Base(side), amount, ShareOf(side, w.state.s), SCALE)) else None
    case _ => None
  }

  /** After any program, a holder of enough of what the vaults' state makes redeemable is paid its worth. */
  lemma PaidByState(ops: seq<Op>, op: Op)
    requires var m := Run(INITIAL, ops);
             && Entitlement(m.proposal, m.baseline, op).Some?
             && (op.RedeemScalar? || op.RedeemBaseline? ==> Precise(m, op))
             && var due := Entitlement(m.proposal, m.baseline, op).value;
                due.amount <= Balance(m.balances, op.account, due.position)
    ensures var m := Run(INITIAL, ops);
            var due := Entitlement(m.proposal, m.baseline, op).value;
            && Apply(m, op).Done? && Apply(m, op).value.receipt.Paid?
            && var receipt := Apply(m, op).value.receipt;
               && receipt.burned == due.amount
               && receipt.payout * due.scale <= due.amount * due.share < (receipt.payout + 1) * due.scale
  {
    hide Run, Valid, Apply, Entitlement, Precise, Overdraws, Balance;
    EveryRun(ops, op);
    if op.RedeemScalar? || op.RedeemBaseline? {
      PreciseNeverOverdraws(Run(INITIAL, ops), op);
    } else {
      OnlyLegsOverdraw(Run(INITIAL, ops), op);
    }
    PaidNow(Run(INITIAL, ops), op);
  }

  lemma OnlyLegsOverdraw(m: Model, op: Op)
    requires !op.RedeemScalar? && !op.RedeemBaseline?
    ensures !Overdraws(m, op)
  {}

  lemma PaidNow(m: Model, op: Op)
    requires Valid(m) && Entitlement(m.proposal, m.baseline, op).Some?
    requires op.RedeemScalar? || op.RedeemBaseline? ==> Precise(m, op)
    requires Apply(m, op).Crashed? <==> Faults(m, op)
    requires var due := Entitlement(m.proposal, m.baseline, op).value;
             due.amount <= Balance(m.balances, op.account, due.position)
    ensures var due := Entitlement(m.proposal, m.baseline, op).value;
            && Apply(m, op).Done? && Apply(m, op).value.receipt.Paid?
            && var receipt := Apply(m, op).value.receipt;
               && receipt.burned == due.amount
               && receipt.payout * due.scale <= due.amount * due.share < (receipt.payout + 1) * due.scale
  {
    hide Valid, Balance, Burn, FloorProduct, FloorShare, Vault.TerminalPay, BaselineVault.Pay, Supply.Less,
         Supply.WithGate, Vault.Conserves, BaselineVault.Conserves;
    match op
    case Redeem(_, _) =>
    case RedeemScalar(a, side, n) => ScalarPaidExactly(m, a, side, n);
    case RedeemGate(_, _, _) =>
    case RedeemVoid(_, _, _, _, _) =>
    case RedeemBaseline(a, side, n) => BaselinePaidExactly(m, a, side, n);
  }

  /** A holder's legs are within the supply, the supply within the collateral: the product is exact. */
  lemma ScalarPaidExactly(m: Model, account: Account, side: Side, amount: nat)
    requires Valid(m) && m.proposal.state.ScalarSettled? && m.proposal.Fits()
    requires amount <= Balance(m.balances, account, Leg(m.proposal.state.winner, side))
    ensures var payout := m.proposal.ScalarPayout(side, amount);
            payout * SCALE <= amount * ShareOf(side, m.proposal.state.s) < (payout + 1) * SCALE
  {
    hide ProposalOk, BaselineOk, Tidy, Balance, FloorProduct, FloorShare, Agrees, Sound;
    LegBacked(m, account, m.proposal.state.winner, side);
    assert Sound(m.proposal, TallyOf(m.events).floors) by {
      assert ProposalOk(m.proposal, TallyOf(m.events));
      ProposalOkSound(m.proposal, TallyOf(m.events));
    }
    LegsFit(m.proposal, TallyOf(m.events).floors, side);
    FloorProductExact(amount, ShareOf(side, m.proposal.state.s));
    FloorBounds(amount, ShareOf(side, m.proposal.state.s));
  }

  lemma BaselinePaidExactly(m: Model, account: Account, side: Side, amount: nat)
    requires Valid(m) && m.baseline.state.BaseSettled? && m.baseline.Fits()
    requires amount <= Balance(m.balances, account, Base(side))
    ensures var payout := m.baseline.LegPayout(side, amount);
            payout * SCALE <= amount * ShareOf(side, m.baseline.state.s) < (payout + 1) * SCALE
  {
    hide ProposalOk, Tidy, Balance, FloorProduct, FloorShare, Agrees, BaselineValue, BaselineAccounted;
    BaseBacked(m, account, side);
    FloorProductExact(amount, ShareOf(side, m.baseline.state.s));
    FloorBounds(amount, ShareOf(side, m.baseline.state.s));
  }

  lemma ProposalOkSound(v: Vault, t: Tally)
    requires ProposalOk(v, t)
    ensures Sound(v, t.floors)
  {
    hide Sound;
  }

  lemma FloorBounds(amount: nat, share: nat)
    ensures FloorShare(amount, share) * SCALE <= amount * share < (FloorShare(amount, share) + 1) * SCALE
  {}
}

/** The driver object: each operation runs on a copy, and only a completed copy is published. */
module LedgerSequence {
  import opened Vaults
  import opened LedgerDriver
  import opened LedgerInvariant
  import opened LedgerSafety

  datatype Reply = Accepted(receipt: Receipt) | Rejected(error: SequenceError) | Aborted(fault: Fault)

  class LedgerSequenceModel {
    var proposal: Vault
    var baseline: BaselineVault
    var balances: Balances
    var events: seq<Event>
    var countAccounts: seq<Account>

    ghost function Contents(): Model
      reads this
    {
      Model(proposal, baseline, balances, events, countAccounts)
    }

    constructor ()
      ensures Contents() == INITIAL && Valid(Contents())
    {
      hide Valid;
      proposal, baseline, balances, events, countAccounts := EMPTY_VAULT, EMPTY_BASELINE, map[], [], [];
      new;
      InitiallyValid(Contents());
    }

    /** Atomic: an operation that is rejected or aborts leaves every field as it was. */
    method ApplyOperation(op: Op) returns (reply: Reply)
      requires Valid(Contents())
      modifies this
      ensures Valid(Contents())
      ensures reply.Aborted? <==> old(Faults(Contents(), op)) || old(Overdraws(Contents(), op))
      ensures !reply.Accepted? ==> Contents() == old(Contents())
      ensures reply.Accepted? ==> old(Apply(Contents(), op)) == Done(Step(Contents(), reply.receipt))
      ensures reply.Rejected? ==> old(Apply(Contents(), op)) == Refused(reply.error)
    {
      hide Valid, Apply, Faults, Overdraws;
      var trial := Model(proposal, baseline, balances, events, countAccounts);
      ApplySafe(trial, op);
      match Apply(trial, op) {
        case Done(step) =>
          proposal, baseline := step.model.proposal, step.model.baseline;
          balances, events, countAccounts := step.model.balances, step.model.events, step.model.countAccounts;
          reply := Accepted(step.receipt);
        case Refused(error) =>
          reply := Rejected(error);
        case Crashed(fault) =>
          reply := Aborted(fault);
      }
    }
  }
}
