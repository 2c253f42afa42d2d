/** The genesis allocation checks: what accepting a chain spec's balances and vesting rows implies. */
module Genesis {
  import opened Wrappers

  /** A 32-byte account. */
  type Account = seq<int>

  const VIT: nat := 1_000_000_000_000
  const TOTAL_SUPPLY: nat := 1_000_000_000 * VIT
  const FOUNDING_TEAM_TOTAL: nat := 200_000_000 * VIT
  const OPS_FUND_TOTAL: nat := 150_000_000 * VIT
  const TREASURY_POT: nat := 300_000_000 * VIT
  const COMMUNITY_POT: nat := 250_000_000 * VIT
  const INCENTIVES_POT: nat := 100_000_000 * VIT

  const TREASURY_MAIN := "fvGJck7fS1t2fpsb9pvvJ2EYTyx6sgq1NkVTTZqzwipoLqtzp"
  const COMMUNITY := "fvGJck7fS1t2fpsb9pwPHKH5M7STmm5wAPAdpwcrr6uEeGXz5"
  const INCENTIVES := "fvGJck7fS1t2fpsb9pwQuhjP1DQpWe6PyTT4rDGaDE3Lo1J9Z"

  /** One entry of balances.balances: an address and a non-negative amount, or something else. */
  datatype BalanceRow = NotARow | Row(address: string, amount: nat)

  /** One entry of vesting.vesting. */
  datatype VestingRow = NotAVesting | Vesting(who: string, begin: int, length: int, liquid: int)

  predicate TeamSchedule(v: VestingRow)
    requires v.Vesting?
  {
    v.begin == 5_256_000 && v.length == 15_768_000 && v.liquid == 0
  }

  datatype Failure =
    | BalancesMissing | BadBalanceRow(index: nat) | BadBalanceAccount(index: nat) | DuplicateAccount(address: string)
    | WrongTotal(total: nat) | BadPotAddress(pot: string) | WrongPot(pot: string) | VestingMissing
    | BadVestingRow(index: nat) | BadVestingAccount(index: nat) | WrongSchedule(who: string)
    | WrongFoundingTotal(total: nat) | WrongOpsTotal(total: nat)

  /** How the validator reads addresses: decoding and checksum are a parameter of the checks. */
  type Reader = string -> Option<Account>

  /** The balance of each account, in the order the accounts first appear. */
  datatype Entry = Entry(account: Account, amount: nat)

  function Accounts(es: seq<Entry>): set<Account> { set i | 0 <= i < |es| :: es[i].account }

  ghost predicate Distinct(es: seq<Entry>) {
    forall i, j :: 0 <= i < j < |es| ==> es[i].account != es[j].account
  }

  function Lookup(es: seq<Entry>, a: Account): Option<nat> {
    if es == [] then None
    else if es[|es| - 1].account == a then Some(es[|es| - 1].amount)
    else Lookup(es[..|es| - 1], a)
  }

  /** The sum of the balances of the accounts in S. */
  function SumIn(es: seq<Entry>, S: set<Account>): nat {
    if es == [] then 0
    else SumIn(es[..|es| - 1], S) + (if es[|es| - 1].account in S then es[|es| - 1].amount else 0)
  }

  function Sum(es: seq<Entry>): nat {
    if es == [] then 0 else Sum(es[..|es| - 1]) + es[|es| - 1].amount
  }

  /** The sum over the accounts outside S. */
  function SumOut(es: seq<Entry>, S: set<Account>): nat {
    if es == [] then 0
    else SumOut(es[..|es| - 1], S) + (if es[|es| - 1].account in S then 0 else es[|es| - 1].amount)
  }

  // ---------- What the rows mean ----------

  ghost predicate ReadableRows(rows: seq<BalanceRow>, read: Reader) {
    forall i :: 0 <= i < |rows| ==> rows[i].Row? && read(rows[i].address).Some?
  }

  function Entries(rows: seq<BalanceRow>, read: Reader): (es: seq<Entry>)
    requires forall i :: 0 <= i < |rows| ==> rows[i].Row? && read(rows[i].address).Some?
    ensures |es| == |rows|
    ensures forall i :: 0 <= i < |rows| ==> es[i] == Entry(read(rows[i].address).value, rows[i].amount)
  {
    seq(|rows|, i requires 0 <= i < |rows| => Entry(read(rows[i].address).value, rows[i].amount))
  }

  /** Every vesting row is readable and on the founding team's schedule: a year's cliff, three years, nothing liquid. */
  ghost predicate ReadableVesting(vs: seq<VestingRow>, read: Reader) {
    forall i :: 0 <= i < |vs| ==>
      && vs[i].Vesting? && read(vs[i].who).Some?
      && vs[i].begin == 5_256_000 && vs[i].length == 15_768_000 && vs[i].liquid == 0
  }

  function Founders(vs: seq<VestingRow>, read: Reader): set<Account> {
    set i | 0 <= i < |vs| && vs[i].Vesting? && read(vs[i].who).Some? :: read(vs[i].who).value
  }

  datatype Pots = Pots(treasury: Account, community: Account, incentives: Account) {
    function Set(): set<Account> { {treasury, community, incentives} }
  }

  ghost predicate PotsHold(es: seq<Entry>, pots: Pots) {
    && Lookup(es, pots.treasury) == Some(TREASURY_POT)
    && Lookup(es, pots.community) == Some(COMMUNITY_POT)
    && Lookup(es, pots.incentives) == Some(INCENTIVES_POT)
  }

  /** The four arithmetic checks the validator makes, none of which mentions disjointness. */
  ghost predicate Checked(es: seq<Entry>, pots: Pots, founders: set<Account>) {
    && PotsHold(es, pots)
    && Sum(es) == TOTAL_SUPPLY
    && SumIn(es, founders) == FOUNDING_TEAM_TOTAL
    && SumOut(es, pots.Set() + founders) == OPS_FUND_TOTAL
  }

  /** The intended meaning: three different pots with their exact amounts, founders apart from the
      pots, everyone else in the ops fund, and each part of the partition at its exact size. */
  ghost predicate Partitioned(es: seq<Entry>, pots: Pots, founders: set<Account>) {
    && Lookup(es, pots.treasury) == Some(300_000_000_000_000_000_000)
    && Lookup(es, pots.community) == Some(250_000_000_000_000_000_000)
    && Lookup(es, pots.incentives) == Some(100_000_000_000_000_000_000)
    && |pots.Set()| == 3 && pots.Set() !! founders
    && SumIn(es, pots.Set()) == 650_000_000_000_000_000_000
    && SumIn(es, founders) == 200_000_000_000_000_000_000
    && SumOut(es, pots.Set() + founders) == 150_000_000_000_000_000_000
  }

  // ---------- Sums ----------

  lemma {:induction false} SumSplits(es: seq<Entry>, P: set<Account>, F: set<Account>)
    ensures Sum(es) == SumIn(es, P) + SumIn(es, F - P) + SumOut(es, P + F)
    ensures SumIn(es, F) == SumIn(es, F - P) + SumIn(es, F * P)
  {
    if es != [] {
      SumSplits(es[..|es| - 1], P, F);
    }
  }

  lemma {:induction false} SumInUnion(es: seq<Entry>, A: set<Account>, B: set<Account>)
    requires A !! B
    ensures SumIn(es, A + B) == SumIn(es, A) + SumIn(es, B)
  {
    if es != [] {
      SumInUnion(es[..|es| - 1], A, B);
    }
  }

  lemma {:induction false} SumInOne(es: seq<Entry>, a: Account)
    requires Distinct(es)
    ensures SumIn(es, {a}) == match Lookup(es, a) case Some(x) => x case None => 0
  {
    if es != [] {
      var init, last := es[..|es| - 1], es[|es| - 1];
      SumInOne(init, a);
      if last.account == a {
        Absent(init, a);
      }
    }
  }

  lemma {:induction false} Absent(es: seq<Entry>, a: Account)
    requires forall i :: 0 <= i < |es| ==> es[i].account != a
    ensures Lookup(es, a).None?
  {
    if es != [] {
      Absent(es[..|es| - 1], a);
    }
  }

  lemma {:induction false} SumInGrows(es: seq<Entry>, A: set<Account>, B: set<Account>)
    requires A <= B
    ensures SumIn(es, A) <= SumIn(es, B)
  {
    if es != [] {
      SumInGrows(es[..|es| - 1], A, B);
    }
  }

  /** Three different amounts cannot be held by fewer than three accounts. */
  lemma PotsDistinct(es: seq<Entry>, pots: Pots)
    requires PotsHold(es, pots) && Distinct(es)
    ensures |pots.Set()| == 3
    ensures SumIn(es, pots.Set()) == TREASURY_POT + COMMUNITY_POT + INCENTIVES_POT
  {
    var t, c, i := pots.treasury, pots.community, pots.incentives;
    assert t != c && c != i && t != i;
    SumInOne(es, t);
    SumInOne(es, c);
    SumInOne(es, i);
    SumInUnion(es, {t}, {c});
    SumInUnion(es, {t} + {c}, {i});
    assert pots.Set() == {t} + {c} + {i};
  }

  /** A founder that is also a pot brings at least the smallest pot into the founders' sum. */
  lemma SharedPotCounts(es: seq<Entry>, pots: Pots, founders: set<Account>)
    requires PotsHold(es, pots) && Distinct(es)
    ensures pots.Set() !! founders <==> SumIn(es, founders * pots.Set()) == 0
  {
    var shared := founders * pots.Set();
    assert forall a :: a in pots.Set() && a in founders ==> a in shared;
    if shared != {} {
      var a :| a in shared;
      SumInOne(es, a);
      SumInGrows(es, {a}, shared);
    } else {
      SumInNone(es);
    }
  }

  lemma {:induction false} SumInNone(es: seq<Entry>)
    ensures SumIn(es, {}) == 0
  {
    if es != [] {
      SumInNone(es[..|es| - 1]);
    }
  }

  /** The checks hold exactly when the allocation is the intended partition: the exact total stands in
      for the disjointness that is never checked. */
  lemma CheckedIffPartitioned(es: seq<Entry>, pots: Pots, founders: set<Account>)
    requires Distinct(es)
    ensures Checked(es, pots, founders) <==> Partitioned(es, pots, founders)
  {
    if PotsHold(es, pots) {
      PotsDistinct(es, pots);
      SumSplits(es, pots.Set(), founders);
      SharedPotCounts(es, pots, founders);
    }
  }

  /** What acceptance promises of every single account: it is never both pot and founder, every pot is
      funded, and pots, founders and the rest add up to the supply. */
  lemma EveryAccountInOnePart(es: seq<Entry>, pots: Pots, founders: set<Account>, a: Account)
    requires Distinct(es) && Checked(es, pots, founders)
    ensures && !(a in pots.Set() && a in founders)
            && (a in pots.Set() ==> a in Accounts(es))
            && Sum(es) == SumIn(es, pots.Set()) + SumIn(es, founders) + SumOut(es, pots.Set() + founders)
  {
    CheckedIffPartitioned(es, pots, founders);
    SumSplits(es, pots.Set(), founders);
    assert founders - pots.Set() == founders;
    if a in pots.Set() {
      Present(es, a);
    }
  }

  lemma {:induction false} Present(es: seq<Entry>, a: Account)
    requires Lookup(es, a).Some?
    ensures exists i :: 0 <= i < |es| && es[i].account == a
  {
    if es[|es| - 1].account != a {
      Present(es[..|es| - 1], a);
      var i :| 0 <= i < |es[..|es| - 1]| && es[..|es| - 1][i].account == a;
      assert es[i].account == a;
    }
  }

  // ---------- The validator ----------

  /** The allocation is well formed and is the intended partition. */
  ghost predicate Accepts(rows: Option<seq<BalanceRow>>, vesting: Option<seq<VestingRow>>, read: Reader) {
    && rows.Some? && vesting.Some?
    && ReadableRows(rows.value, read) && Distinct(Entries(rows.value, read))
    && ReadableVesting(vesting.value, read)
    && var treasury := read("fvGJck7fS1t2fpsb9pvvJ2EYTyx6sgq1NkVTTZqzwipoLqtzp");
       var community := read("fvGJck7fS1t2fpsb9pwPHKH5M7STmm5wAPAdpwcrr6uEeGXz5");
       var incentives := read("fvGJck7fS1t2fpsb9pwQuhjP1DQpWe6PyTT4rDGaDE3Lo1J9Z");
       && treasury.Some? && community.Some? && incentives.Some?
       && Partitioned(Entries(rows.value, read), Pots(treasury.value, community.value, incentives.value),
                      Founders(vesting.value, read))
  }

  lemma EntriesSnoc(rows: seq<BalanceRow>, i: nat, read: Reader)
    requires i < |rows| && ReadableRows(rows[..i + 1], read)
    ensures ReadableRows(rows[..i], read)
    ensures Entries(rows[..i + 1], read) ==
            Entries(rows[..i], read) + [Entry(read(rows[i].address).value, rows[i].amount)]
  {
    assert forall j :: 0 <= j < i ==> rows[..i][j] == rows[..i + 1][j];
  }

  method ReadBalances(rows: seq<BalanceRow>, read: Reader) returns (failures: seq<Failure>, es: seq<Entry>, total: nat)
    ensures failures == [] <==> ReadableRows(rows, read) && Distinct(Entries(rows, read))
    ensures failures == [] ==> es == Entries(rows, read) && total == Sum(es)
  {
    failures, es, total := [], [], 0;
    for i := 0 to |rows|
      invariant failures == [] <==> ReadableRows(rows[..i], read) && Distinct(Entries(rows[..i], read))
      invariant failures == [] ==> es == Entries(rows[..i], read) && total == Sum(es)
    {
      hide Distinct, Sum;
      ReadRow(rows, i, read);
      match rows[i] {
        case NotARow =>
          failures := failures + [BadBalanceRow(i)];
        case Row(address, amount) =>
          match read(address) {
            case None =>
              failures := failures + [BadBalanceAccount(i)];
            case Some(account) =>
              total := total + amount;
              if Lookup(es, account).Some? {
                failures := failures + [DuplicateAccount(address)];
              } else {
                es := es + [Entry(account, amount)];
              }
          }
      }
    }
    assert rows[..|rows|] == rows;
  }

  /** Reading one more row keeps the account well formed exactly when the row is readable and its account is new. */
  lemma ReadRow(rows: seq<BalanceRow>, i: nat, read: Reader)
    requires i < |rows|
    ensures ReadableRows(rows[..i + 1], read) <==>
            ReadableRows(rows[..i], read) && rows[i].Row? && read(rows[i].address).Some?
    ensures ReadableRows(rows[..i + 1], read) ==>
              var es, e := Entries(rows[..i], read), Entry(read(rows[i].address).value, rows[i].amount);
              && Entries(rows[..i + 1], read) == es + [e]
              && Sum(es + [e]) == Sum(es) + e.amount
              && (Distinct(es + [e]) <==> Distinct(es) && Lookup(es, e.account).None?)
  {
    assert forall j :: 0 <= j < i ==> rows[..i][j] == rows[..i + 1][j];
    assert rows[..i + 1][i] == rows[i];
    if ReadableRows(rows[..i + 1], read) {
      EntriesSnoc(rows, i, read);
      var es, e := Entries(rows[..i], read), Entry(read(rows[i].address).value, rows[i].amount);
      assert (es + [e])[..|es|] == es;
      DistinctSnoc(es, e);
    }
  }

  lemma DistinctSnoc(es: seq<Entry>, e: Entry)
    ensures Distinct(es + [e]) <==> Distinct(es) && Lookup(es, e.account).None?
  {
    var fs := es + [e];
    assert forall i :: 0 <= i < |es| ==> fs[i] == es[i];
    if Lookup(es, e.account).Some? {
      Present(es, e.account);
      var i :| 0 <= i < |es| && es[i].account == e.account;
      assert fs[i].account == fs[|es|].account;
    } else {
      LookupNone(es, e.account);
    }
  }

  lemma {:induction false} LookupNone(es: seq<Entry>, a: Account)
    requires Lookup(es, a).None?
    ensures forall i :: 0 <= i < |es| ==> es[i].account != a
  {
    if es != [] {
      LookupNone(es[..|es| - 1], a);
      assert forall i :: 0 <= i < |es| - 1 ==> es[i] == es[..|es| - 1][i];
    }
  }

  method CheckPot(es: seq<Entry>, pot: string, amount: nat, read: Reader) returns (failures: seq<Failure>)
    ensures failures == [] <==> read(pot).Some? && Lookup(es, read(pot).value) == Some(amount)
  {
    match read(pot) {
      case None => failures := [BadPotAddress(pot)];
      case Some(account) =>
        failures := if Lookup(es, account) == Some(amount) then [] else [WrongPot(pot)];
    }
  }

  method ReadVesting(vs: seq<VestingRow>, read: Reader) returns (failures: seq<Failure>, founders: set<Account>)
    ensures failures == [] <==> ReadableVesting(vs, read)
    ensures founders == Founders(vs, read)
  {
    failures, founders := [], {};
    for i := 0 to |vs|
      invariant failures == [] <==> ReadableVesting(vs[..i], read)
      invariant founders == Founders(vs[..i], read)
    {
      VestingStep(vs, i, read);
      match vs[i] {
        case NotAVesting =>
          failures := failures + [BadVestingRow(i)];
        case Vesting(who, _, _, _) =>
          match read(who) {
            case None =>
              failures := failures + [BadVestingAccount(i)];
            case Some(account) =>
              founders := founders + {account};
              if !TeamSchedule(vs[i]) {
                failures := failures + [WrongSchedule(who)];
              }
          }
      }
    }
    assert vs[..|vs|] == vs;
  }

  lemma VestingStep(vs: seq<VestingRow>, i: nat, read: Reader)
    requires i < |vs|
    ensures ReadableVesting(vs[..i + 1], read) <==>
            ReadableVesting(vs[..i], read) && vs[i].Vesting? && read(vs[i].who).Some? && TeamSchedule(vs[i])
    ensures Founders(vs[..i + 1], read) ==
            Founders(vs[..i], read) + (if vs[i].Vesting? && read(vs[i].who).Some? then {read(vs[i].who).value} else {})
  {
    assert forall j :: 0 <= j < i ==> vs[..i][j] == vs[..i + 1][j];
    assert vs[..i + 1][i] == vs[i];
  }

  method Totals(es: seq<Entry>, pots: set<Account>, founders: set<Account>) returns (founding: nat, ops: nat)
    ensures founding == SumIn(es, founders) && ops == SumOut(es, pots + founders)
  {
    founding, ops := 0, 0;
    for i := 0 to |es|
      invariant founding == SumIn(es[..i], founders) && ops == SumOut(es[..i], pots + founders)
    {
      assert es[..i + 1][..i] == es[..i];
      if es[i].account in founders { founding := founding + es[i].amount; }
      if es[i].account !in pots && es[i].account !in founders { ops := ops + es[i].amount; }
    }
    assert es[..|es|] == es;
  }

  /** No failure is reported exactly when the allocation is the intended partition. */
  method ValidateAllocation(rows: Option<seq<BalanceRow>>, vesting: Option<seq<VestingRow>>, read: Reader)
    returns (failures: seq<Failure>)
    ensures failures == [] <==> Accepts(rows, vesting, read)
  {
    hide Distinct, Sum, SumIn, SumOut, Founders, ReadableRows, ReadableVesting, Partitioned;
    if rows.None? { return [BalancesMissing]; }
    var es, total;
    failures, es, total := ReadBalances(rows.value, read);
    if total != TOTAL_SUPPLY { failures := failures + [WrongTotal(total)]; }
    var t := CheckPot(es, TREASURY_MAIN, TREASURY_POT, read);
    var c := CheckPot(es, COMMUNITY, COMMUNITY_POT, read);
    var n := CheckPot(es, INCENTIVES, INCENTIVES_POT, read);
    failures := failures + t + c + n;
    var pots := (if read(TREASURY_MAIN).Some? then {read(TREASURY_MAIN).value} else {})
              + (if read(COMMUNITY).Some? then {read(COMMUNITY).value} else {})
              + (if read(INCENTIVES).Some? then {read(INCENTIVES).value} else {});
    if vesting.None? { failures := failures + [VestingMissing]; }
    var v, founders := ReadVesting(if vesting.Some? then vesting.value else [], read);
    failures := failures + v;
    var founding, ops := Totals(es, pots, founders);
    if founding != FOUNDING_TEAM_TOTAL { failures := failures + [WrongFoundingTotal(founding)]; }
    if ops != OPS_FUND_TOTAL { failures := failures + [WrongOpsTotal(ops)]; }
    if read(TREASURY_MAIN).Some? && read(COMMUNITY).Some? && read(INCENTIVES).Some? {
      ghost var potAccounts := Pots(read(TREASURY_MAIN).value, read(COMMUNITY).value, read(INCENTIVES).value);
      assert pots == potAccounts.Set();
      if Distinct(es) {
        CheckedIffPartitioned(es, potAccounts, founders);
      }
    }
  }
}
