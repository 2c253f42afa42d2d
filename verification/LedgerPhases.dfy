/** The phase of each vault, told by the program: what was decided is what an accepted operation decided. */
module LedgerPhases {
  import opened Wrappers
  import opened Decimals
  import opened Vaults
  import opened LedgerDriver
  import opened LedgerSafety

  /** The operations of a program that went through, in order. */
  function Accepted(m: Model, ops: seq<Op>): seq<Op>
    decreases |ops|
  {
    if ops == [] then []
    else
      var r := Apply(m, ops[0]);
      (if r.Done? then [ops[0]] else []) + Accepted(if r.Done? then r.value.model else m, ops[1..])
  }

  // ---------- The proposal vault's phase ----------

  /** Open: nothing decided. Resolved: one Resolve, of this winner. Settled: one score after it, this one.
      Voided: voided, and never settled. */
  ghost predicate StateTold(state: VaultState, done: seq<Op>) {
    match state
    case Open => forall op :: op in done ==> !op.Resolve? && !op.Void? && !op.SettleScalar?
    case Resolved(w) =>
      && Resolve(w) in done
      && (forall op :: op in done ==> (op.Resolve? ==> op == Resolve(w)) && !op.Void? && !op.SettleScalar?)
    case ScalarSettled(w, s) =>
      && Resolve(w) in done && SettleScalar(s) in done
      && (forall op :: op in done ==>
            (op.Resolve? ==> op == Resolve(w)) && (op.SettleScalar? ==> op == SettleScalar(s)) && !op.Void?)
    case Voided => Void in done && forall op :: op in done ==> !op.SettleScalar?
  }

  /** A gate is settled to an outcome exactly when an accepted operation settled it so. */
  ghost predicate OutcomesTold(outcomes: Outcomes, done: seq<Op>) {
    forall g, o :: outcomes.Get(g) == Some(o) <==> SettleGate(g, o) in done
  }

  /** The baseline vault's score is that of the accepted settlement. */
  ghost predicate BaselineTold(state: BaselineState, done: seq<Op>) {
    match state
    case BaseOpen => forall op :: op in done ==> !op.SettleBaseline?
    case BaseSettled(s) =>
      SettleBaseline(s) in done && forall op :: op in done ==> (op.SettleBaseline? ==> op == SettleBaseline(s))
  }

  ghost predicate Told(m: Model, done: seq<Op>) {
    && StateTold(m.proposal.state, done)
    && OutcomesTold(m.proposal.outcomes, done)
    && BaselineTold(m.baseline.state, done)
  }

  /** What an accepted operation does to the proposal vault's phase. */
  lemma PhaseStep(m: Model, op: Op)
    requires Apply(m, op).Done?
    ensures var n := Apply(m, op).value.model;
            && (op.Resolve? ==> m.proposal.state.Open? && n.proposal.state == Resolved(op.winner))
            && (op.Void? ==> (m.proposal.state.Open? || m.proposal.state.Resolved?) && n.proposal.state == Voided)
            && (op.SettleScalar? ==>
                  && m.proposal.state.Resolved? && 0 <= op.score <= SCALE
                  && n.proposal.state == ScalarSettled(m.proposal.state.winner, op.score))
            && (!op.Resolve? && !op.Void? && !op.SettleScalar? ==> n.proposal.state == m.proposal.state)
  {
    hide Mint, Burn, Balance, FloorProduct, Vault.CheckConservation, BaselineVault.CheckConservation, Vault.Conserves,
         BaselineVault.Conserves;
  }

  lemma BaselinePhaseStep(m: Model, op: Op)
    requires Apply(m, op).Done?
    ensures var n := Apply(m, op).value.model;
            && (op.SettleBaseline? ==>
                  && m.baseline.state.BaseOpen? && 0 <= op.score <= SCALE && n.baseline.state == BaseSettled(op.score))
            && (!op.SettleBaseline? ==> n.baseline.state == m.baseline.state)
  {
    hide Mint, Burn, Balance, FloorProduct, Vault.CheckConservation, BaselineVault.CheckConservation, Vault.Conserves,
         BaselineVault.Conserves;
  }

  lemma OutcomeStep(m: Model, op: Op)
    requires Apply(m, op).Done?
    ensures var n := Apply(m, op).value.model;
            && (op.SettleGate? ==>
                  && m.proposal.outcomes.Get(op.gate).None?
                  && forall g :: n.proposal.outcomes.Get(g) ==
                                 if g == op.gate then Some(op.outcome) else m.proposal.outcomes.Get(g))
            && (!op.SettleGate? ==> n.proposal.outcomes == m.proposal.outcomes)
  {
    hide Mint, Burn, Balance, FloorProduct, Vault.CheckConservation, BaselineVault.CheckConservation, Vault.Conserves,
         BaselineVault.Conserves;
  }

  lemma StateToldStep(m: Model, op: Op, done: seq<Op>)
    requires StateTold(m.proposal.state, done) && Apply(m, op).Done?
    ensures StateTold(Apply(m, op).value.model.proposal.state, done + [op])
  {
    PhaseStep(m, op);
    hide Apply;
    assert forall x :: x in done + [op] <==> x in done || x == op;
  }

  lemma ToldStep(m: Model, op: Op, done: seq<Op>)
    requires Told(m, done) && Apply(m, op).Done?
    ensures Told(Apply(m, op).value.model, done + [op])
  {
    StateToldStep(m, op, done);
    BaselinePhaseStep(m, op);
    OutcomeStep(m, op);
    hide Apply, StateTold, Outcomes.Get;
    assert forall x :: x in done + [op] <==> x in done || x == op;
  }

  lemma {:induction false} RunTold(m: Model, done: seq<Op>, ops: seq<Op>)
    requires Told(m, done)
    ensures Told(Run(m, ops), done + Accepted(m, ops))
    decreases |ops|
  {
    hide Apply, Told;
    if ops == [] {
      assert done + [] == done;
    } else {
      var r := Apply(m, ops[0]);
      if r.Done? {
        ToldStep(m, ops[0], done);
        RunTold(r.value.model, done + [ops[0]], ops[1..]);
        var rest := Accepted(r.value.model, ops[1..]);
        assert (done + [ops[0]]) + rest == done + ([ops[0]] + rest);
      } else {
        RunTold(m, done, ops[1..]);
        assert [] + Accepted(m, ops[1..]) == Accepted(m, ops[1..]);
      }
    }
  }

  /** After every program the winner, the scores and the gate outcomes are those that its accepted
      operations named. */
  lemma PhasesAreTold(ops: seq<Op>)
    ensures Told(Run(INITIAL, ops), Accepted(INITIAL, ops))
  {
    hide Run, Accepted;
    RunTold(INITIAL, [], ops);
    assert [] + Accepted(INITIAL, ops) == Accepted(INITIAL, ops);
  }

  // ---------- What a holder is owed, told by the program ----------

  /** What a program's accepted operations entitle a redemption to: the winner, the score and the outcome are
      those they named, and voided claims are worth a half or a quarter. */
  ghost predicate Entitles(done: seq<Op>, op: Op, due: Due) {
    match op
    case Redeem(_, n) => exists w, s :: Resolve(w) in done && SettleScalar(s) in done && due == Due(Usdc(w), n, 1, 1)
    case RedeemScalar(_, side, n) =>
      exists w, s :: Resolve(w) in done && SettleScalar(s) in done && 0 <= s <= 1_000_000_000
        && due == Due(Leg(w, side), n, if side.Long? then s else 1_000_000_000 - s, 1_000_000_000)
    case RedeemGate(_, g, n) =>
      exists w, s, o :: Resolve(w) in done && SettleScalar(s) in done && SettleGate(g, o) in done
        && due == Due(GateLeg(w, g, o), n, 1, 1)
    case RedeemVoid(_, b, kind, g, n) =>
      && Void in done && Claim(b, kind, g).Named()
      && due == Due(Claim(b, kind, g), n, if kind.BranchUsdc? then 2 else 1, 4)
    case RedeemBaseline(_, side, n) =>
      exists s :: SettleBaseline(s) in done && 0 <= s <= 1_000_000_000
        && due == Due(Base(side), n, if side.Long? then s else 1_000_000_000 - s, 1_000_000_000)
    case _ => false
  }

  lemma EntitledByState(m: Model, done: seq<Op>, op: Op, due: Due)
    requires Told(m, done) && Entitles(done, op, due)
    ensures Entitlement(m.proposal, m.baseline, op) == Some(due)
  {}

  /** After any program, a holder of enough of a claim that the program made redeemable is paid its worth,
      rounded down: no redemption order leaves a holder unpaid. */
  lemma HolderIsPaid(ops: seq<Op>, op: Op, due: Due)
    requires Entitles(Accepted(INITIAL, ops), op, due)
    requires due.amount <= Balance(Run(INITIAL, ops).balances, op.account, due.position)
    requires op.RedeemScalar? || op.RedeemBaseline? ==> Precise(Run(INITIAL, ops), op)
    ensures var r := Apply(Run(INITIAL, ops), op);
            && r.Done? && r.value.receipt.Paid? && r.value.receipt.burned == due.amount
            && var payout := r.value.receipt.payout;
               payout * due.scale <= due.amount * due.share < (payout + 1) * due.scale
  {
    hide Run, Accepted, Apply, Entitlement, Precise, Balance, Told, Entitles;
    PhasesAreTold(ops);
    EntitledByState(Run(INITIAL, ops), Accepted(INITIAL, ops), op, due);
    PaidByState(ops, op);
  }
}
