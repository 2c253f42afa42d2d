# Bleavit: a verified model of its hardest logic

Bleavit is a futarchy chain: proposals are decided by conditional markets whose claims are backed by escrowed USDC.
This project models the parts of the repository whose correctness is hardest to see, and proves what they are for.

| file | models |
|---|---|
| `Calls.dfy`, `Walks.dfy` | the nested-call safety filter: the production filter, the fuzzing oracle's budgeted walk, the declarative predicate, and the differential target that compares them |
| `Wrappers.dfy` | what several modules share |
| `Decimals.dfy` | the decimal product of an amount and a score, rounded to a hundred digits before it is floored |
| `Vault.dfy`, `LedgerDriver.dfy` | the reference ledger: aggregate proposal and baseline vaults with the payouts as computed, and the per-account driver of 21 operations over them |
| `Solvency.dfy`, `LedgerInvariant.dfy`, `LedgerSafety.dfy`, `LedgerEffects.dfy`, `LedgerPhases.dfy`, `LedgerRecords.dfy` | the ledger's invariant, its preservation by every operation, and what it means over every program: balances, collateral, phases, events and receipts |
| `LedgerPrecision.dfy` | a program whose amounts outgrow the decimal context |
| `MockLedger.dfy` | the fuzz crate's mock ledger, a vector of balances changed in place |
| `FinalizedEvents.dfy` | the monitoring exporter's catch-up over finalized heads |
| `Notifications.dfy` | the JSON-RPC client's notification buffer |
| `WeightGate.dfy` | the weight-regression gate |
| `Genesis.dfy`, `Base58.dfy` | the genesis allocation validator and the address decoder under it |
| `Bytes.dfy`, `Compact.dfy` | SCALE compact integers, written in one file and read back in another |
| `Sweep.dfy` | how a release sweep is dealt to shards and seeded |

`dafny verify dfyconfig.toml` checks everything.

## Main results

- **The stateful walk refines the declarative predicate.** For every origin and call tree, of any size, the budgeted early-exiting walk
  succeeds exactly when node count, container depth and admissibility all hold; a failing walk reports the first offending node of the
  preorder flattening. Admission is equivalent to five laws, each naming its wrappers, origins and domains. The production filter and the oracle keep different books on failure yet return the same verdict, and every
  comparison that the differential fuzz target makes holds for every input.
- **Solvency over every program.** After any sequence of the 21 ledger operations, by any holders, the escrow lies between the exact worth
  of all outstanding claims and that worth plus less than one base unit per floored redemption. Open, resolved and voided vaults obey this at
  any size; a settled vault obeys it while it has taken in less than 10^91 base units, below which every product with the score is exact.
  At any size, an operation faults in exactly two cases and otherwise goes through exactly when its caller-visible conditions hold.
  Winner, scores and outcomes are those that the accepted operations named, and a holder of a redeemable claim is paid its worth at them rounded down, in whatever order others redeemed before.
- **A vector is a map.** The mock ledger's mutable vector has a plain map's verdicts and contents over every run of calls, going on after failures.
- **Exactly once.** Over every sequence of finalized-head notifications, each block is counted once or deliberately skipped and charged as one error; a notification skips exactly the blocks out of reach of the window of 512.
- **Lossless buffering.** However calls and reads interleave, the heads returned followed by those buffered are exactly the heads among the frames taken off the socket, in order.
- **The weight gate's verdict** holds if and only if acknowledgements equal removals and regressions, and then bounds the cost at every point of the box.
- **Accepting a genesis is a partition**, although no single check says so; base58 decoding is a bijection; compact encodings round-trip and never overlap.

## Findings

- `redeem_void` of a gate leg with no gate named and amount 0, in a voided vault, passes every guard of the driver
  (tools/reference-model/generate-vectors.py:772-787) and then faults inside the vault (reference-model/src/bleavit_reference_model/ledger.py:284-311).
  `LedgerSafety.FaultIsReachable` shows a program that reaches it.
- `_floor_product` rounds to a hundred digits before it floors (reference-model/src/bleavit_reference_model/ledger.py:70-77), so a large enough leg is
  overpaid and the vault's own assertion fails (ledger.py:342-343): `LedgerPrecision.PrecisionFaultIsReachable` gives the program, with 10^100 - 1 base units
  settled at one half. `LedgerSafety.EveryRun` gives the exact condition: besides the fault above, an operation faults if and only if it redeems a single settled leg
  for a payout that, with what the vault still reckons claimable without the leg, exceeds the escrow. `LedgerEffects.SmallProgramsArePrecise` shows that
  no program offering less than 10^91 base units in all gets there.
- No call of the mock ledger is atomic (fuzz/src/lib.rs:957-960, 1044-1157): a merge whose Reject side is refused has already destroyed the Accept claim.
  `MockBalances.FailedCallConservesIff` says exactly when a failed call keeps a proposal conserved; `MockBalances.FailedMergeExample` shows one that does not.
- A mock split of zero can be followed by a matching merge that fails, since a debit of nothing still needs an entry (fuzz/src/lib.rs:947-955).
  `MockBalances.UndoGoesIff` gives the exact condition, `MockBalances.ZeroSplitExample` an input.
- `decode_compact_len` (tools/release/surface_checks.py:107-122) accepts encodings that `compact_encode` (tools/monitoring/common.py:453-463) never makes:
  `Compact.CanonicalIff` says which, from the bytes alone; `Compact.NonCanonicalExample` shows one.
- The design document bounds the settlement residue only for pair-first redemption schedules (docs/architecture/03-conditional-ledger.md:440). The code meets
  the bound under every schedule, counting each single-claim redemption as one floor (`LedgerSafety.SettledSolvency`, `LedgerSafety.VoidSolvency`,
  `LedgerSafety.BaselineSolvency`), the settled ones while products are exact.

## Model

| member | source | states |
|---|---|---|
| `Calls.WalkSucceedsIff` | fuzz/src/lib.rs:106-299 | From any depth within the limit and any count, the walk of a tree succeeds exactly when the remaining call budget covers its node count, its container depth fits above the current depth and it is admissible under the current origin and taint; then exactly the node count is added |
| `Calls.BatchSucceedsIff` | fuzz/src/lib.rs:95-104 | With one shared budget, a batch succeeds exactly when node counts sum within the limit, the deepest call is within the limit and every call is admissible on its own |
| `Calls.PreorderMeaning` | fuzz/src/lib.rs:218-299 | The preorder flattening ties both readings together: its length is the node count, no visit breaks its own rule exactly when the tree is admissible, and all visits are shallow exactly when the container depth fits |
| `Calls.OkHasNoOffence` | fuzz/src/lib.rs:106-182 | A scan succeeds exactly when no visit offends, judged as count limit, own rule, depth limit, and then every visit has been counted |
| `Calls.ErrorIsFirstOffence` | fuzz/src/lib.rs:106-182 | The first offending node of the preorder flattening decides the error, and the count stops just past it |
| `Calls.ErrorHasFirstOffence` | fuzz/src/lib.rs:413-427 | Conversely every reported error belongs to a first offending node |
| `Calls.AdmissibleIff` | fuzz/src/lib.rs:265-299 | A tree is admissible exactly when no call dispatches as another, no scheduler captures an origin but the two values origins, no leaf is Nobody, no privileged leaf stands below Proxy, ProxyAnnounced, MultisigAsMulti or MultisigAsMultiThreshold1, and every leaf belongs to the origin it runs under |
| `Calls.AdmissibleIsSafe` | fuzz/src/lib.rs:491-529 | An admissible tree has no Nobody leaf and no privileged leaf below a proxy or multisig, even across a scheduler boundary; admitted without an origin, privileged leaves stand only beneath a scheduler |
| `Calls.LeafVerdict` | crates/origins-core/src/lib.rs:59-70 | A leaf alone: Nobody is refused as such, and each privileged domain admits the one origin that owns it, internal root none |
| `Calls.WrappedPrivilegeVerdict` | crates/origins-core/src/lib.rs:203-208 | Each of the four wrappers directly above a privileged leaf draws PrivilegedWrapper under every origin |
| `Calls.DeniedVerdict` | crates/origins-core/src/lib.rs:210-222 | Dispatching as another draws DispatchAsDenied, and scheduling for an origin other than the two draws SchedulerDenied |
| `Calls.SizeVerdict` | crates/origins-core/src/lib.rs:124-138 | An admissible tree of at most 16 nodes and more than 4 levels draws TooDeep, of more nodes and at most 4 levels TooManyCalls, and is accepted within both |
| `FuzzOracle.OracleBudget.Count` | fuzz/src/lib.rs:68-74 | Adds one call without passing the 32-bit maximum; fails exactly when the limit was already reached |
| `FuzzOracle.OracleBudget.Enter` | fuzz/src/lib.rs:76-82 | Opens one level even on failure; fails exactly at the level limit |
| `FuzzOracle.OracleBudget.Leave` | fuzz/src/lib.rs:84-87 | Closes one level; every caller in the walk meets the precondition that the subtraction cannot underflow |
| `FuzzOracle.OracleWalk` | fuzz/src/lib.rs:106-153 | Verdict and count are those of the preorder scan for every tree and starting budget; depth is restored on success and every error except TooDeep, which leaves it one higher |
| `FuzzOracle.OracleMany` | fuzz/src/lib.rs:155-170 | The same for a list of siblings, one level down |
| `FuzzOracle.OracleWrapped` | fuzz/src/lib.rs:172-182 | The same for a single wrapped call |
| `FuzzOracle.OracleValidate` | fuzz/src/lib.rs:90-93 | The oracle accepts a call exactly when the independent predicate admits it, and otherwise reports the first offence |
| `FuzzOracle.OracleValidateBatch` | fuzz/src/lib.rs:95-104 | The oracle accepts a batch exactly when its summed counts, maximum depth and admissibility hold |
| `SafetyFilter.Budget.Enter` | crates/origins-core/src/lib.rs:124-128 | Opens one level; fails exactly at the level limit |
| `SafetyFilter.Budget.Leave` | crates/origins-core/src/lib.rs:130-132 | Closes one level, saturating at zero |
| `SafetyFilter.Budget.CountCall` | crates/origins-core/src/lib.rs:134-138 | Adds one call; fails exactly when the limit was already reached |
| `SafetyFilter.ValidateInner` | crates/origins-core/src/lib.rs:181-227 | The production walk has the verdict and count of the preorder scan; depth is restored on success and never drops below its start on failure, so saturation never bites |
| `SafetyFilter.ValidateMany` | crates/origins-core/src/lib.rs:229-241 | The same for a list of siblings; a failing one leaves its level open |
| `SafetyFilter.ValidateWrapped` | crates/origins-core/src/lib.rs:243-253 | The same for a single wrapped call |
| `SafetyFilter.Validate` | crates/origins-core/src/lib.rs:152-155 | The production filter accepts exactly the trees of at most 16 nodes and 4 levels that meet the five laws of admission, and otherwise reports the first offence |
| `SafetyFilter.Contains` | crates/origins-core/src/lib.rs:144-146 | The boolean entry point without an origin answers exactly what the independent predicate does |
| `SafetyFilter.ContainsFor` | crates/origins-core/src/lib.rs:148-150 | The same with an origin |
| `SafetyFilter.ValidateBatch` | crates/origins-core/src/lib.rs:165-174 | The production batch filter has the verdict of the shared-budget scan, and accepts exactly when summed counts, maximum depth and admissibility hold |
| `WrapperDifferential.AgreesOnCall` | fuzz/src/lib.rs:409-451 | For every call: filter and oracle agree on verdict and error, and with the independent predicate and the boolean entry points, and nothing unscoped is admitted without origin |
| `WrapperDifferential.AssertWrapperCase` | fuzz/src/lib.rs:408-476 | For every list of calls: the verdict on each, and filter, oracle and independent predicate agreeing on the batch |
| `Decimals.RoundedIsNearest` | reference-model/src/bleavit_reference_model/ledger.py:70-77 | A product is rounded to a hundred significant digits, no fewer, to the nearest such number, and a tie to the one whose last digit is even |
| `Decimals.FloorProductExact` | reference-model/src/bleavit_reference_model/ledger.py:70-77 | Below 10^91 the rounded product is floored exactly |
| `Decimals.FloorProductNear` | reference-model/src/bleavit_reference_model/ledger.py:70-77 | At any size the floored product misses the exact one by at most half a unit of the hundredth digit, and the floor |
| `Decimals.OverpaidHalf` | reference-model/src/bleavit_reference_model/ledger.py:70-77 | Half of 10^100 - 1 comes out one above its exact floor |
| `Solvency.SoundConserves` | reference-model/src/bleavit_reference_model/ledger.py:324-400 | While products with the score are exact, the solvency invariant implies every assertion of the vault's own conservation check, rounded claim bound included |
| `Solvency.SettledBoundIsFloor` | reference-model/src/bleavit_reference_model/ledger.py:384-400 | After settlement the claim bound is the exact worth of the winning claims rounded down once |
| `Solvency.VoidBoundNear` | reference-model/src/bleavit_reference_model/ledger.py:350-383 | Under VOID the claim bound is the worth of all claims but for at most a half and six odd legs |
| `Solvency.BaselineBoundIsFloor` | reference-model/src/bleavit_reference_model/ledger.py:519-527 | The settled baseline claim bound is the exact worth of the legs rounded down once |
| `Solvency.LiveBoundIsEscrow` | reference-model/src/bleavit_reference_model/ledger.py:345-349 | In open and resolved vaults the claim bound is the escrow |
| `Solvency.LegsFit` | reference-model/src/bleavit_reference_model/ledger.py:237-250 | Winning legs never outnumber the collateral put in, so below 10^91 base units every product is exact |
| `Solvency.SplitSound` | reference-model/src/bleavit_reference_model/ledger.py:116-123 | Splitting an open sound vault succeeds and keeps it sound |
| `Solvency.MergeSound` | reference-model/src/bleavit_reference_model/ledger.py:125-137 | Merging held claims of both branches succeeds in every live state and keeps the vault sound |
| `Solvency.SplitScalarSound` | reference-model/src/bleavit_reference_model/ledger.py:139-147 | Splitting held branch-USDC into a scalar pair succeeds and keeps the vault sound |
| `Solvency.MergeScalarSound` | reference-model/src/bleavit_reference_model/ledger.py:149-162 | Merging a held scalar pair succeeds and keeps the vault sound |
| `Solvency.SplitGateSound` | reference-model/src/bleavit_reference_model/ledger.py:164-172 | Splitting held branch-USDC into a gate pair succeeds and keeps the vault sound |
| `Solvency.MergeGateSound` | reference-model/src/bleavit_reference_model/ledger.py:174-187 | Merging a held gate pair succeeds and keeps the vault sound |
| `Solvency.ResolveSound` | reference-model/src/bleavit_reference_model/ledger.py:198-202 | Resolution keeps the vault sound |
| `Solvency.VoidSound` | reference-model/src/bleavit_reference_model/ledger.py:204-208 | Voiding revalues all claims at exactly the escrow and keeps the vault sound |
| `Solvency.SettleScalarSound` | reference-model/src/bleavit_reference_model/ledger.py:210-217 | At any score, settlement revalues the winning branch at exactly the escrow and keeps the vault sound |
| `Solvency.SettleGateSound` | reference-model/src/bleavit_reference_model/ledger.py:219-228 | Settling a gate, before or after redemptions and at any size, goes through and keeps the vault sound |
| `Solvency.RedeemSound` | reference-model/src/bleavit_reference_model/ledger.py:230-235 | Redeeming winning branch-USDC at par is covered at any size and keeps the vault sound |
| `Solvency.RedeemScalarSound` | reference-model/src/bleavit_reference_model/ledger.py:237-250 | Redeeming a single leg at the rounded and floored product goes through exactly when it does not overdraw, and then keeps the vault sound at the cost of at most one floor |
| `Solvency.FittingNeverOverdraws` | reference-model/src/bleavit_reference_model/ledger.py:237-250 | With under 10^91 base units put in no leg overdraws |
| `Solvency.RedeemScalarPairSound` | reference-model/src/bleavit_reference_model/ledger.py:252-260 | Redeeming a pair at par is covered at any size and keeps the vault sound without residue |
| `Solvency.RedeemGateSound` | reference-model/src/bleavit_reference_model/ledger.py:262-282 | Redeeming the winning gate side at par is covered at any size and keeps the vault sound |
| `Solvency.RedeemVoidSound` | reference-model/src/bleavit_reference_model/ledger.py:284-311 | Under VOID, a half for branch-USDC and a quarter for a leg, floored, is always covered |
| `Solvency.BaselineSoundConserves` | reference-model/src/bleavit_reference_model/ledger.py:508-527 | While products are exact, the baseline invariant implies every assertion of the baseline conservation check |
| `Solvency.BaselineSplitSound` | reference-model/src/bleavit_reference_model/ledger.py:449-457 | Splitting an open baseline vault succeeds and keeps it sound |
| `Solvency.BaselineMergeSound` | reference-model/src/bleavit_reference_model/ledger.py:459-465 | Merging a held baseline pair succeeds and keeps it sound |
| `Solvency.BaselineSettleSound` | reference-model/src/bleavit_reference_model/ledger.py:470-477 | Baseline settlement at any score keeps the vault sound |
| `Solvency.BaselineRedeemSound` | reference-model/src/bleavit_reference_model/ledger.py:479-490 | Redeeming one baseline leg goes through exactly when it does not overdraw, and then keeps the vault sound at the cost of at most one floor |
| `Solvency.BaselineFittingNeverOverdraws` | reference-model/src/bleavit_reference_model/ledger.py:479-490 | With under 10^91 base units put in no baseline leg overdraws |
| `Solvency.BaselineRedeemPairSound` | reference-model/src/bleavit_reference_model/ledger.py:492-498 | Redeeming a baseline pair at par is covered at any size and keeps the vault sound without residue |
| `LedgerInvariant.InitiallyValid` | tools/reference-model/generate-vectors.py:488-493 | The empty model satisfies the whole invariant |
| `LedgerInvariant.MintTotal` | tools/reference-model/generate-vectors.py:538-542 | Minting moves the total of exactly one position, by exactly the amount |
| `LedgerInvariant.BurnTotal` | tools/reference-model/generate-vectors.py:528-536 | Burning a held amount moves the total of exactly one position, by exactly the amount |
| `LedgerSafety.SplitSafe` | tools/reference-model/generate-vectors.py:567-579 | A split is refused or succeeds and keeps holders, vault, event log and holder list in agreement |
| `LedgerSafety.MergeSafe` | tools/reference-model/generate-vectors.py:581-595 | The same for a merge |
| `LedgerSafety.SplitScalarSafe` | tools/reference-model/generate-vectors.py:597-613 | The same for a scalar split |
| `LedgerSafety.MergeScalarSafe` | tools/reference-model/generate-vectors.py:597-621 | The same for a scalar merge |
| `LedgerSafety.SplitGateSafe` | tools/reference-model/generate-vectors.py:623-641 | The same for a gate split |
| `LedgerSafety.MergeGateSafe` | tools/reference-model/generate-vectors.py:623-652 | The same for a gate merge |
| `LedgerSafety.TransferSafe` | tools/reference-model/generate-vectors.py:654-676 | The same for a transfer, including one that sweeps a remainder too small to leave behind |
| `LedgerSafety.ResolveSafe` | tools/reference-model/generate-vectors.py:678-682 | The same for resolution |
| `LedgerSafety.VoidSafe` | tools/reference-model/generate-vectors.py:684-688 | The same for voiding |
| `LedgerSafety.SettleScalarSafe` | tools/reference-model/generate-vectors.py:690-700 | The same for scalar settlement, at every score, valid or not |
| `LedgerSafety.SettleGateSafe` | tools/reference-model/generate-vectors.py:702-717 | The same for gate settlement, at any size |
| `LedgerSafety.RedeemSafe` | tools/reference-model/generate-vectors.py:719-727 | Redeeming winning branch-USDC, at any size, is refused or goes through and keeps the invariant |
| `LedgerSafety.RedeemScalarSafe` | tools/reference-model/generate-vectors.py:729-752 | Redeeming one scalar leg is refused, keeps the invariant, or faults, the last exactly when it overdraws |
| `LedgerSafety.RedeemScalarPairSafe` | tools/reference-model/generate-vectors.py:729-752 | Redeeming a scalar pair, at any size, is refused or goes through and keeps the invariant |
| `LedgerSafety.RedeemGateSafe` | tools/reference-model/generate-vectors.py:754-770 | The same for redeeming the winning gate side, at any size |
| `LedgerSafety.RedeemVoidSafe` | tools/reference-model/generate-vectors.py:772-787 | Under VOID a redemption of any size is refused, keeps the invariant, or is the gate-less faulting input |
| `LedgerSafety.SplitBaselineSafe` | tools/reference-model/generate-vectors.py:789-797 | A baseline split is refused or succeeds and keeps the invariant |
| `LedgerSafety.MergeBaselineSafe` | tools/reference-model/generate-vectors.py:799-808 | The same for a baseline merge |
| `LedgerSafety.SettleBaselineSafe` | tools/reference-model/generate-vectors.py:810-815 | The same for baseline settlement |
| `LedgerSafety.RedeemBaselineSafe` | tools/reference-model/generate-vectors.py:817-839 | Redeeming one baseline leg is refused, keeps the invariant, or faults, the last exactly when it overdraws |
| `LedgerSafety.RedeemBaselinePairSafe` | tools/reference-model/generate-vectors.py:817-839 | Redeeming a baseline pair, at any size, is refused or goes through and keeps the invariant |
| `LedgerSafety.ApplySafe` | tools/reference-model/generate-vectors.py:495-513 | From a valid model an operation faults exactly on the gate-less redemption and on a leg that overdraws; whatever it publishes is valid |
| `LedgerSafety.RunKeepsValid` | tools/reference-model/generate-vectors.py:563-839 | Every program, of any amounts, keeps the invariant |
| `LedgerSafety.EveryRun` | tools/reference-model/generate-vectors.py:485-513 | Every reachable model, of any amounts, is valid and faults exactly on the gate-less redemption and on a leg that overdraws |
| `LedgerSafety.PreciseNeverOverdraws` | reference-model/src/bleavit_reference_model/ledger.py:70-77 | While the vault concerned is unsettled or has taken in less than 10^91 base units, nothing overdraws |
| `LedgerSafety.FaultIsReachable` | tools/reference-model/generate-vectors.py:772-787 | A one-step program reaches the faulting input |
| `LedgerSafety.LiveConservation` | reference-model/src/bleavit_reference_model/ledger.py:324-343 | In every reachable open or resolved state Long equals Short and GateYes equals GateNo in holders' hands, and each branch's claims equal all splits less all merges, which is the escrow |
| `LedgerSafety.BaselineConservation` | reference-model/src/bleavit_reference_model/ledger.py:508-517 | In every reachable open baseline state holders' Long and Short both equal net splits, which is the escrow |
| `LedgerSafety.SettledSolvency` | docs/architecture/03-conditional-ledger.md:440 | In every reachable settled state with under 10^91 base units put in, escrow covers the exact worth of all claims and exceeds it by under one base unit per floored redemption |
| `LedgerSafety.SettledResidue` | docs/architecture/03-conditional-ledger.md:440 | There, once nothing is claimable, the residue is under one base unit per floored redemption |
| `LedgerSafety.VoidSolvency` | docs/architecture/03-conditional-ledger.md:440 | The same two-sided bound in every reachable voided state |
| `LedgerSafety.BaselineSolvency` | docs/architecture/03-conditional-ledger.md:440 | The same two-sided bound in every reachable settled baseline state with under 10^91 base units put in, counting single-leg redemptions only |
| `LedgerSafety.BaselineRun` | tools/reference-model/generate-vectors.py:789-839 | Over every program only single-leg redemptions loosen what the baseline vault owes |
| `LedgerPhases.PhasesAreTold` | reference-model/src/bleavit_reference_model/ledger.py:198-228 | After every program the winner is that of the accepted Resolve, the scores those of the accepted settlements, and each gate outcome that of its accepted SettleGate, with no other accepted |
| `LedgerPhases.HolderIsPaid` | tools/reference-model/generate-vectors.py:719-839 | After any program a holder of enough of a claim that its accepted operations made redeemable is paid its worth at the winner, score and outcome they named, rounded down, single settled legs while the vault has taken in less than 10^91: no redemption order leaves a holder unpaid |
| `LedgerEffects.ApplyMoves` | tools/reference-model/generate-vectors.py:528-542 | Every completed operation moves every holder's balance of every position by exactly one entry of a double-entry table; nobody else's balance moves |
| `LedgerEffects.TransferLeavesNoDust` | tools/reference-model/generate-vectors.py:654-676 | A transfer leaves the source with nothing or at least the minimum of 10000, and moves exactly the amount when that is so anyway |
| `LedgerEffects.CollateralMoves` | tools/reference-model/generate-vectors.py:563-839 | Collateral enters only by splits and leaves only as the payout the receipt reports, at par for merges and pairs and, below 10^91, at most par otherwise |
| `LedgerRecords.ApplyRecords` | tools/reference-model/generate-vectors.py:544-545 | Every accepted operation appends exactly one event and answers with one receipt, naming its arguments, the winner and the collateral that really left |
| `LedgerRecords.ApplyCounts` | tools/reference-model/generate-vectors.py:538-542 | A holder is counted at the first positive mint, once, in order of first appearance |
| `LedgerEffects.RefusedIff` | tools/reference-model/generate-vectors.py:563-839 | An operation is refused exactly when the amount, the score, the phase, the gate or the holdings forbid it, and with the first of these as its error |
| `LedgerEffects.SucceedsIff` | tools/reference-model/generate-vectors.py:495-513 | After any program an operation goes through exactly when its caller-visible conditions hold, it is not the gate-less redemption and it does not overdraw |
| `LedgerEffects.SmallProgramsArePrecise` | tools/reference-model/generate-vectors.py:515-519 | After a program that offers less than 10^91 base units in all, no operation overdraws |
| `LedgerPrecision.HalfRedemptionFaults` | reference-model/src/bleavit_reference_model/ledger.py:324-343 | Redeeming all Long of a vault of 10^100 - 1 settled at one half overpays, and the vault's own assertion fails |
| `LedgerPrecision.PrecisionFaultIsReachable` | tools/reference-model/generate-vectors.py:515-519 | Four permitted operations reach that vault, and the redemption that faults overdraws and is not the gate-less one |
| `LedgerSequence.LedgerSequenceModel.ApplyOperation` | tools/reference-model/generate-vectors.py:495-513 | Atomic: a rejected or aborted operation changes no field, an accepted one publishes the whole new state, and the invariant is kept |
| `LedgerSequence.LedgerSequenceModel.constructor` | tools/reference-model/generate-vectors.py:488-493 | Starts empty and valid |
| `MockBalances.StepEffect` | fuzz/src/lib.rs:934-955 | A credit or debit moves the balance of its own position and owner and no other, and keeps entries unique |
| `MockBalances.ExecEffect` | fuzz/src/lib.rs:926-961 | Whatever list of credits and debits a call makes, entries stay unique even when it fails half way, and on success every balance moves by the sum of its steps |
| `MockBalances.ExecRefines` | fuzz/src/lib.rs:926-961 | On a vector with unique entries every call, failures included, has the verdict and the contents of a plain map |
| `MockBalances.RunRefines` | fuzz/src/lib.rs:1044-1157 | Every run of calls, going on after failures, has the verdicts and the contents of the plain map's run |
| `MockBalances.EveryRunFromEmpty` | fuzz/src/lib.rs:921-924 | From the empty ledger: unique entries, the plain map's verdicts and contents and, if all calls succeeded, every proposal and epoch conserved |
| `MockBalances.ExecTotal` | fuzz/src/lib.rs:934-955 | Every call, failed or not, moves any total by exactly the steps it got through |
| `MockBalances.CallConserves` | fuzz/src/lib.rs:1044-1157 | Every successful transfer, split and merge keeps, per proposal, Accept and Reject claims equal and both legs of every pair equal |
| `MockBalances.CallMeaning` | fuzz/src/lib.rs:1044-1157 | What each successful call changes, balance by balance from a table of the nine calls, with uniqueness and conservation |
| `MockBalances.FailedCallMeaning` | fuzz/src/lib.rs:1044-1157 | A failed call leaves every balance untouched if its first step was refused, and otherwise as after its first or its second step, given call by call |
| `MockBalances.RunConserves` | fuzz/src/lib.rs:1044-1157 | A run whose calls on a proposal leave nothing half done, whatever else fails, keeps it conserved |
| `MockBalances.RunConservesEpoch` | fuzz/src/lib.rs:1044-1157 | The same for an epoch |
| `MockBalances.CallConservesEpoch` | fuzz/src/lib.rs:1103-1106 | Every successful call keeps an epoch's Long and Short totals equal |
| `MockBalances.FailedCallConservesIff` | fuzz/src/lib.rs:1044-1157 | A failed call of any kind keeps a proposal conserved exactly when it is not on that proposal, its amount is zero or the balance its first step needs is not there |
| `MockBalances.FailedCallConservesEpochIff` | fuzz/src/lib.rs:1103-1157 | A failed call keeps an epoch's legs equal exactly when it is not on that epoch, its amount is zero or its first step was refused |
| `MockBalances.FailedMergeExample` | fuzz/src/lib.rs:1108-1117 | A failed merge that destroys one branch's claim only |
| `MockBalances.MergeUndoesSplit` | fuzz/src/lib.rs:1044-1157 | Each split followed by its matching merge restores every balance |
| `MockBalances.UndoGoesIff` | fuzz/src/lib.rs:947-955 | After a successful split the matching merge succeeds exactly when the amount is positive or both entries already exist |
| `MockBalances.ZeroSplitExample` | fuzz/src/lib.rs:1103-1106 | On an empty ledger a baseline split of nothing succeeds and the matching merge fails |
| `MockBalances.MockLedger.Balance` | fuzz/src/lib.rs:927-932 | The first matching entry's balance, or zero |
| `MockBalances.MockLedger.Credit` | fuzz/src/lib.rs:934-945 | In place: adds to the entry unless 128 bits overflow, or appends a positive one |
| `MockBalances.MockLedger.Debit` | fuzz/src/lib.rs:947-955 | In place: subtracts from an existing entry that covers the amount, otherwise changes nothing |
| `MockBalances.MockLedger.DoTransfer` | fuzz/src/lib.rs:957-960 | In place: the debit then the credit, stopping at the first failure |
| `MockBalances.MockLedger.DoSplit` | fuzz/src/lib.rs:1045-1054 | In place: both branch credits in order, stopping at the first failure |
| `MockBalances.MockLedger.DoMerge` | fuzz/src/lib.rs:1108-1117 | In place: both branch debits in order, stopping at the first failure |
| `MockBalances.MockLedger.DoSplitScalar` | fuzz/src/lib.rs:1066-1082 | In place: one debit and two credits in order, stopping at the first failure |
| `MockBalances.MockLedger.DoMergeScalar` | fuzz/src/lib.rs:1119-1134 | In place: two debits and one credit in order, stopping at the first failure |
| `MockBalances.MockLedger.DoSplitGate` | fuzz/src/lib.rs:1084-1101 | In place: one debit and two credits in order, stopping at the first failure |
| `MockBalances.MockLedger.DoMergeGate` | fuzz/src/lib.rs:1136-1152 | In place: two debits and one credit in order, stopping at the first failure |
| `MockBalances.MockLedger.DoSplitBaseline` | fuzz/src/lib.rs:1103-1106 | In place: both baseline credits in order, stopping at the first failure |
| `MockBalances.MockLedger.DoMergeBaseline` | fuzz/src/lib.rs:1154-1157 | In place: both baseline debits in order, stopping at the first failure |
| `FinalizedEvents.ProcessKeeps` | tools/monitoring/chain_alerts_exporter.py:664-708 | One notification of any kind (gap, repeat, stale, failing) keeps: counters equal the events of the processed blocks, none processed twice, every block from the first processed to the last recorded processed or skipped, never both, and skipped blocks equal to the errors charged for skipping |
| `FinalizedEvents.RunIsExactlyOnce` | tools/monitoring/chain_alerts_exporter.py:664-708 | The same over every sequence of notifications |
| `FinalizedEvents.StartIsExactlyOnce` | tools/monitoring/chain_alerts_exporter.py:356-359 | A new exporter satisfies it |
| `FinalizedEvents.ScrapeKeeps` | tools/monitoring/chain_alerts_exporter.py:1169-1226 | One scrape, of the next block or one behind the cursor, keeps the invariant however its domains fail or raise |
| `FinalizedEvents.SweepStops` | tools/monitoring/chain_alerts_exporter.py:696-708 | Catch-up counts a contiguous run of blocks and stops at the head, at a failed block that stays next in line, or just after one that raised late |
| `FinalizedEvents.ProcessCatchesUp` | tools/monitoring/chain_alerts_exporter.py:664-708 | A notification answered true leaves no block at or below its head behind; one call counts at most 512 blocks; the cursor never moves back |
| `FinalizedEvents.ProcessSkips` | tools/monitoring/chain_alerts_exporter.py:679-708 | One notification skips exactly the blocks after the cursor and at least 512 below the head, none if the gap is at most 512; catch-up starts at the block after those, and answers true exactly when all of them are read without a failure |
| `FinalizedEvents.OldHeadsCountNothing` | tools/monitoring/chain_alerts_exporter.py:668-676 | A stale head, or a repeated one without a full scrape due, changes nothing |
| `FinalizedEvents.CountIsPlaces` | tools/monitoring/chain_alerts_exporter.py:635-652 | Each counter counts exactly the records of its own pallet and event |
| `ChainExporters.Observe` | tools/monitoring/chain_alerts_exporter.py:635-652 | The per-block tally counts exactly the records of each family |
| `ChainExporters.Accumulate` | tools/monitoring/chain_alerts_exporter.py:653-655 | Each family's total grows by the block's tally |
| `ChainExporters.ChainExporter.Events` | tools/monitoring/chain_alerts_exporter.py:629-656 | A block is counted unless it is at or behind the cursor or its records cannot be read |
| `ChainExporters.ChainExporter.Scrape` | tools/monitoring/chain_alerts_exporter.py:1150-1226 | For any block: a failing event domain withdraws the event series and counts nothing, a block behind the cursor is left alone, other domains only add errors, and any may raise |
| `ChainExporters.ChainExporter.ProcessFinalized` | tools/monitoring/chain_alerts_exporter.py:664-708 | The in-place exporter refines the pure machine and keeps the exactly-once invariant |
| `ChainExporters.ChainExporter.CatchUp` | tools/monitoring/chain_alerts_exporter.py:696-708 | The loop over the window refines the recursive sweep |
| `Notifications.AwaitLossless` | tools/monitoring/common.py:393-415 | A call waiting for its answer loses no subscription's heads, whatever arrives first |
| `Notifications.NextLossless` | tools/monitoring/common.py:423-441 | A read keeps returned followed by buffered equal to received |
| `Notifications.NextYieldsOldest` | tools/monitoring/common.py:423-441 | A read yields the oldest head not yet returned, and never comes back empty-handed while one is buffered unless unreadable params make it raise |
| `Notifications.RunLossless` | tools/monitoring/common.py:393-441 | However calls and reads interleave, the heads returned followed by those buffered are exactly those received, in arrival order |
| `Notifications.AwaitFrames` | tools/monitoring/common.py:393-415 | A waiting call takes frames up to and including the first that is silence, garbage or its answer, receives exactly the messages among them, and that frame decides the outcome |
| `Notifications.CallFrames` | tools/monitoring/common.py:393-415 | A call uses the next request number and no other |
| `Notifications.NextFrames` | tools/monitoring/common.py:423-441 | A read takes the first notice its buffer holds and no frame; otherwise frames up to and including the first that is silence, a head or broken |
| `Notifications.EveryHeadArrives` | tools/monitoring/common.py:393-441 | From a fresh client, over every run, a prefix of the frames has been taken and the heads returned followed by those buffered are exactly the heads in that prefix, answers aside |
| `WsClients.WsRpc.CallRpc` | tools/monitoring/common.py:393-415 | The call loop refines the pure machine and is lossless for every subscription |
| `WsClients.WsRpc.NextHead` | tools/monitoring/common.py:423-441 | The read loop refines the pure machine and is lossless for its subscription |
| `WeightGate.WorstCaseTotals` | tools/ci/check-weight-regression.py:112-137 | The loop computes the fixed part plus slope times high bound over all ranges, or fails when a sloped component has no range |
| `WeightGate.WorstCaseDominates` | tools/ci/check-weight-regression.py:112-137 | The computed totals bound all four costs at every in-range choice of component values |
| `WeightGate.WorstCaseAttained` | tools/ci/check-weight-regression.py:112-137 | The bound is attained at the top corner |
| `WeightGate.ExceedsLimit` | tools/ci/check-weight-regression.py:373-376 | Not exceeding means at most base plus floor, or at most 110% of base |
| `WeightGate.RecordedIff` | tools/ci/check-weight-regression.py:379-392 | A function is comparable exactly when both revisions have all their ranges, and something is recorded exactly when a quantity is beyond tolerance; the records name exactly those quantities, once each, with their own totals |
| `WeightGate.NoRegressionBounds` | tools/ci/check-weight-regression.py:379-392 | No regression reported means every in-range head cost is tolerated against the base worst case |
| `WeightGate.CompareOne` | tools/ci/check-weight-regression.py:418-440 | One function of a shared path is filed correctly as removed, regressed or neither |
| `WeightGate.ComparePath` | tools/ci/check-weight-regression.py:416-440 | All functions of a shared path are filed correctly |
| `WeightGate.CompareFile` | tools/ci/check-weight-regression.py:402-440 | One path is filed correctly, removed files included |
| `WeightGate.CompareWeightSets` | tools/ci/check-weight-regression.py:395-446 | The comparison holds exactly the removals and regressions, split by acknowledgement, with their own details; stale acknowledgements are those of neither |
| `WeightGate.PassesIff` | tools/ci/check-weight-regression.py:503-507 | The gate passes exactly when acknowledged keys equal removed files, removed functions and functions beyond tolerance; every acknowledgement is active or stale, never both |
| `WeightGate.PassBoundsEveryCost` | tools/ci/check-weight-regression.py:395-446 | If the gate passes, every unacknowledged shared function is within tolerance at every point of its box |
| `Genesis.CheckedIffPartitioned` | tools/deploy/validate-chain-spec.py:521-595 | The exact totals hold exactly when pots, founders and ops accounts are the intended partition, with three different pots and disjointness that is never checked directly |
| `Genesis.EveryAccountInOnePart` | tools/deploy/validate-chain-spec.py:521-595 | No account is both pot and founder, every pot is funded, and the three parts add up to the supply |
| `Genesis.ReadBalances` | tools/deploy/validate-chain-spec.py:490-519 | Reads the rows: no failure exactly when all are readable and distinct, with their sum |
| `Genesis.CheckPot` | tools/deploy/validate-chain-spec.py:528-547 | A pot passes exactly when its address reads and its account holds the exact amount |
| `Genesis.ReadVesting` | tools/deploy/validate-chain-spec.py:555-575 | No failure exactly when every row is readable on the team schedule; founders are the accounts read |
| `Genesis.Totals` | tools/deploy/validate-chain-spec.py:577-595 | The founders' sum and the sum outside pots and founders |
| `Genesis.ValidateAllocation` | tools/deploy/validate-chain-spec.py:484-595 | No failure is reported exactly when the allocation is well formed and is the intended partition |
| `Base58.Decode` | tools/deploy/validate-chain-spec.py:160-168 | The loop computes the numeral's minimal big-endian bytes behind one zero per leading 1, or fails on a foreign character |
| `Base58.AlphabetIs` | tools/deploy/validate-chain-spec.py:109-110 | The digits and letters but for 0, I, O and l, in the order of their codes |
| `Base58.SpellingIsUnique` | tools/deploy/validate-chain-spec.py:160-168 | Without leading ones a number has one spelling in the alphabet |
| `Base58.DecodeInjective` | tools/deploy/validate-chain-spec.py:160-168 | Two different strings never decode to the same bytes, leading ones included |
| `Base58.DecodeOnto` | tools/deploy/validate-chain-spec.py:160-168 | Every byte string is decoded from some string, so decoding is a bijection |
| `Base58.OneAddressPerPrefix` | tools/deploy/validate-chain-spec.py:171-184 | Two accepted addresses of one account under one display prefix are the same string, whatever the checksum function |
| `Base58.AccountIdIff` | tools/deploy/validate-chain-spec.py:171-184 | An address is accepted for an account exactly when it decodes to a display prefix in its range, the 32 bytes and the checksum of both |
| `Compact.EncodedShape` | tools/monitoring/common.py:453-463 | Mode bits, length and payload of every encoding |
| `Compact.EncodeFailsIff` | tools/monitoring/common.py:453-463 | Exactly the values from zero up to what 67 bytes hold are encodable |
| `Compact.DecodeUndoesEncode` | tools/release/surface_checks.py:107-122 | Below 2^30, decoding between any prefix and suffix returns the value and the offset past it |
| `Compact.DecodeIff` | tools/release/surface_checks.py:107-122 | Which inputs are read and as what, and which draw which error |
| `Compact.DecodeRejectsWide` | tools/release/surface_checks.py:107-122 | Every encodable larger value is rejected, never misread |
| `Compact.EncodingsNeverOverlap` | tools/monitoring/common.py:453-463 | The encoder is injective and prefix-free |
| `Compact.CanonicalIff` | tools/release/surface_checks.py:107-122 | On every input, the decoder accepts and has read the encoder's own bytes exactly when the bytes are in the shortest mode |
| `Compact.NonCanonicalExample` | tools/release/surface_checks.py:107-122 | The decoder accepts a two-byte zero that the encoder never makes |
| `Compact.DecimalsFound` | tools/release/surface_checks.py:125-135 | For any deposit, name, symbol and trailing bytes the decimals byte is found |
| `Sweep.SeedsCollideIff` | tools/reference-model/generate-vectors.py:1731-1736 | Two shards share a seed exactly when their indices agree modulo 2^64 |
| `Sweep.SeedsAdvance` | tools/reference-model/generate-vectors.py:1731-1736 | The seeds start one step past the master seed and advance by the step modulo 2^64 |
| `Sweep.PlanShards` | tools/reference-model/generate-vectors.py:1890-1914 | Which error each bad argument draws; accepted points are dealt exactly, differing by at most one, with room for the 20 structured rows in every shard |
| `Sweep.Deal` | tools/reference-model/generate-vectors.py:1906-1914 | The first remainder-many shards take one row more |
| `Sweep.CategoriesFill` | tools/reference-model/generate-vectors.py:1829-1836 | Each category has its percentage rounded down, structured and random rows fill the shard exactly and the remainder category is never negative |
| `Sweep.CostRowInDomain` | tools/reference-model/generate-vectors.py:1797-1812 | Whatever the draws, the liquidity lies in the decade drawn, the quantity gap is at most 48 times it and the smaller quantity at most 101 times it, both floored products, and the draw says which is larger |

## Left out

- Vault and baseline vault objects: modelled on values, since the driver works on a deep copy and publishes it whole; their in-place updates and aliasing within one operation are not captured. The winner and the settled score are kept inside the state value instead of beside it.
- Decimals.FloorProductNear: a product of more than a million digits, where the decimal library itself overflows, is not modelled.
- `sweep_dust`: empties a settled vault into the treasury; it is not among the driver's operations.
- `digest`: a serialisation of the state that is modelled.
- Calls.PreorderMeaning: counts are naturals; a tree whose node count passes 32 bits in `node_count` is not modelled apart.
- Genesis.ValidateAllocation: says when no failure is reported, not which failures are.
- Base58.OneAddressPerPrefix: the checksum is a parameter; hashing is not modelled. Likewise Genesis takes the address reader as a parameter.
- WeightGate.CompareWeightSets: notices about new files and functions, the count of compared functions, justification texts and the printed report are not modelled.
- ChainExporters.ChainExporter.Scrape: the scrape domains other than finalized events appear only as a number of failures and a possible exception; how an event domain comes to fail is a parameter of each notification.
- WsClients.WsRpc.NextHead: sockets are a given sequence of decoded frames and silences; a frame that is not JSON is not modelled.
- MockBalances.MockLedger.DoSplit: with its siblings, the two-element loops over branches and legs are written out.
- Sweep: shard files, their hashes, stale-file checks and the generator's stream; draws are parameters.
- LMSR pricing, books, the execution guard and the fixed-point kernel: separate crates with their own numeric contracts.
- Fuzz input generation and SCALE decoding of calls; parsing of Rust weights, TOML, YAML and Markdown: the model starts from parsed structures.
- `encode_param_keys`, relay stagnation and lag gauges, release profiles and runbook coverage: no state or invariant shared with what is modelled.
