/** The second way to fault: an amount of a hundred digits, whose score product the decimal context rounds up. */
module LedgerPrecision {
  import opened Decimals
  import opened Vaults
  import opened LedgerDriver
  import opened LedgerInvariant
  import opened LedgerSafety

  /** A vault whose whole collateral was split into one holder's scalar pair, settled at one half. */
  ghost predicate HalfSettled(m: Model, account: Account, amount: nat) {
    && m.proposal == EMPTY_VAULT.(escrowed := amount, collateralIn := amount, state := ScalarSettled(Accept, SCALE / 2),
                                  accept := NO_SUPPLY.(scalarSets := amount, long := amount, short := amount),
                                  reject := NO_SUPPLY.(usdc := amount))
    && Balance(m.balances, account, Leg(Accept, Long)) >= amount
  }

  /** The program that leads there goes through for every amount. */
  lemma SettledAtHalf(account: Account, amount: nat, m1: Model, m2: Model, m3: Model, m4: Model)
    requires amount >= MIN_LEDGER_AMOUNT
    requires m1 == Next(INITIAL, Split(account, amount)) && m2 == Next(m1, SplitScalar(account, Accept, amount))
    requires m3 == Next(m2, Resolve(Accept)) && m4 == Next(m3, SettleScalar(SCALE / 2))
    ensures HalfSettled(m4, account, amount)
  {
    hide Valid, Apply, HalfSettled;
    InitiallyValid(INITIAL);
    AfterSplit(INITIAL, account, amount);
    ApplySafe(INITIAL, Split(account, amount));
    AfterSplitScalar(m1, account, amount);
    ApplySafe(m1, SplitScalar(account, Accept, amount));
    AfterResolve(m2);
    ApplySafe(m2, Resolve(Accept));
    AfterSettle(m3);
    HalfSettledIs(m4, account, amount);
  }

  ghost function Next(m: Model, op: Op): Model { if Apply(m, op).Done? then Apply(m, op).value.model else m }

  lemma AfterSplit(m: Model, account: Account, amount: nat)
    requires Valid(m) && m.proposal.state.Open? && amount >= MIN_LEDGER_AMOUNT
    ensures var v, w := m.proposal, Next(m, Split(account, amount));
            && w.proposal == v.(escrowed := v.escrowed + amount, collateralIn := v.collateralIn + amount,
                                accept := v.accept.(usdc := v.accept.usdc + amount),
                                reject := v.reject.(usdc := v.reject.usdc + amount))
            && Balance(w.balances, account, Usdc(Accept)) >= amount
  {
    hide Valid, Vault.CheckConservation, Balance, Mint, Vault.Conserves;
    SplitSafe(m, account, amount);
    MintBalance(m.balances, account, Usdc(Accept), amount, account, Usdc(Accept));
    MintBalance(Mint(m.balances, account, Usdc(Accept), amount), account, Usdc(Reject), amount, account, Usdc(Accept));
  }

  lemma AfterSplitScalar(m: Model, account: Account, amount: nat)
    requires Valid(m) && m.proposal.state.Open? && Balance(m.balances, account, Usdc(Accept)) >= amount
    ensures var p, w := m.proposal.accept, Next(m, SplitScalar(account, Accept, amount));
            && p.usdc >= amount
            && w.proposal == m.proposal.(accept := p.(usdc := p.usdc - amount, scalarSets := p.scalarSets + amount,
                                                      long := p.long + amount, short := p.short + amount))
            && Balance(w.balances, account, Leg(Accept, Long)) >= amount
  {
    hide Vault.CheckConservation, Balance, Mint, Burn, ProposalOk, BaselineOk, Tidy, Agrees, Vault.Conserves;
    UsdcBacked(m, account, Accept);
    SplitScalarSafe(m, account, Accept, amount);
    var burned := Burn(m.balances, account, Usdc(Accept), amount);
    MintBalance(burned, account, Leg(Accept, Long), amount, account, Leg(Accept, Long));
    MintBalance(Mint(burned, account, Leg(Accept, Long), amount), account, Leg(Accept, Short), amount, account,
                Leg(Accept, Long));
  }

  lemma AfterResolve(m: Model)
    requires Valid(m) && m.proposal.state.Open?
    ensures var w := Next(m, Resolve(Accept));
            w.balances == m.balances && w.proposal == m.proposal.(state := Resolved(Accept))
  {
    hide Valid, Vault.CheckConservation, Vault.Conserves;
    ResolveSafe(m, Accept);
  }

  lemma AfterSettle(m: Model)
    requires Valid(m) && m.proposal.state == Resolved(Accept)
    ensures var w := Next(m, SettleScalar(SCALE / 2));
            w.balances == m.balances && w.proposal == m.proposal.(state := ScalarSettled(Accept, SCALE / 2))
  {
    hide Valid, Vault.CheckConservation, Vault.Conserves;
    SettleScalarSafe(m, SCALE / 2);
  }

  lemma HalfSettledIs(m: Model, account: Account, amount: nat)
    requires m.proposal ==
             EMPTY_VAULT.(escrowed := amount, collateralIn := amount, state := ScalarSettled(Accept, SCALE / 2),
                                        accept := NO_SUPPLY.(scalarSets := amount, long := amount, short := amount),
                                        reject := NO_SUPPLY.(usdc := amount))
    requires Balance(m.balances, account, Leg(Accept, Long)) >= amount
    ensures HalfSettled(m, account, amount)
  {}

  /** Redeeming all Long there overpays by half a unit, and the Short claim no longer fits the escrow. */
  lemma HalfRedemptionFaults(m: Model, account: Account, amount: nat)
    requires HalfSettled(m, account, amount) && amount == COEFFICIENT_LIMIT - 1
    ensures Apply(m, RedeemScalar(account, Long, amount)) == Crashed(ConservationViolated)
    ensures Overdraws(m, RedeemScalar(account, Long, amount)) && !Faults(m, RedeemScalar(account, Long, amount))
  {
    hide Balance, Burn, FloorProduct, FloorShare;
    OverpaidHalf(amount);
    NothingFloored(SCALE / 2);
  }

  lemma RunFour(m: Model, a: Op, b: Op, c: Op, d: Op)
    ensures Run(m, [a, b, c, d]) == Next(Next(Next(Next(m, a), b), c), d)
  {
    hide Apply;
    var ops := [a, b, c, d];
    assert ops[1..] == [b, c, d] && ops[1..][1..] == [c, d] && ops[1..][1..][1..] == [d]
           && ops[1..][1..][1..][1..] == [];
    var m1, m2, m3 := Next(m, a), Next(Next(m, a), b), Next(Next(Next(m, a), b), c);
    assert Run(m, ops) == Run(m1, [b, c, d]);
    assert [b, c, d][1..] == [c, d] && Run(m1, [b, c, d]) == Run(m2, [c, d]);
    assert [c, d][1..] == [d] && Run(m2, [c, d]) == Run(m3, [d]);
    assert [d][1..] == [] && Run(m3, [d]) == Next(m3, d);
  }

  /** The witness: a program of four operations, all permitted, after which a permitted redemption faults. */
  lemma PrecisionFaultIsReachable(account: Account, amount: nat, ops: seq<Op>)
    requires amount == COEFFICIENT_LIMIT - 1
    requires ops == [Split(account, amount), SplitScalar(account, Accept, amount), Resolve(Accept),
                     SettleScalar(SCALE / 2)]
    ensures Apply(Run(INITIAL, ops), RedeemScalar(account, Long, amount)) == Crashed(ConservationViolated)
    ensures Overdraws(Run(INITIAL, ops), RedeemScalar(account, Long, amount))
    ensures !Faults(Run(INITIAL, ops), RedeemScalar(account, Long, amount))
    ensures Run(INITIAL, ops).proposal.collateralIn == amount >= AMOUNT_LIMIT
  {
    hide Apply, Run, HalfSettled, Faults, Overdraws, Next;
    RunFour(INITIAL, ops[0], ops[1], ops[2], ops[3]);
    var m1 := Next(INITIAL, ops[0]);
    var m2 := Next(m1, ops[1]);
    var m3 := Next(m2, ops[2]);
    var m4 := Next(m3, ops[3]);
    SettledAtHalf(account, amount, m1, m2, m3, m4);
    HalfRedemptionFaults(m4, account, amount);
    HalfCollateral(m4, account, amount);
  }

  lemma HalfCollateral(m: Model, account: Account, amount: nat)
    requires HalfSettled(m, account, amount)
    ensures m.proposal.collateralIn == amount
  {}
}
