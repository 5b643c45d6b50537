/**
 * The group settlement engine (`settleExpenses` in the Splitwise
 * component) and the two guards of the component that calls it.
 *
 * Each expense is split equally over all `n` members; members whose
 * balance is below -0.01 become debtors and those above 0.01 creditors;
 * debtors are sorted most-negative first and creditors most-positive
 * first; two cursors then walk the lists, each step moving
 * min(|debtor|, creditor) from the current debtor to the current creditor.
 * Money is an exact real, so `min` drives one side of every step exactly
 * to zero.
 */
module Splitwise {
  import opened Common
  import opened Sorting

  /** The tolerance below which a balance or a payment counts as zero. */
  const Eps: real := 0.01

  /** One line of the settlement log. */
  datatype LogLine =
    | InvalidPayer(payer: Option<string>)          // `Error: Invalid payer - <payer>`
    | Pay(from: string, to: string, amount: real)  // `<from> will pay €<amount> to <to>`

  /** A `[memberIndex, balance]` pair of the debtor and creditor lists. */
  datatype Party = Party(index: nat, balance: real)

  /** What the Splitwise component renders. */
  datatype View = NoMembers | InvalidPaymentData | Plan(logs: seq<LogLine>)

  function Abs(x: real): real { if x < 0.0 then -x else x }

  function Min(a: real, b: real): real { if a <= b then a else b }

  // ---------------------------------------------------------------------
  // Balances
  // ---------------------------------------------------------------------

  /**
   * `members.indexOf(payer)`: the first position holding the payer, or -1.
   * An undefined payer is never found.
   */
  function IndexOf(members: seq<string>, payer: Option<string>): (r: int)
    ensures -1 <= r < |members|
    ensures r >= 0 ==> payer == Some(members[r]) && forall k :: 0 <= k < r ==> Some(members[k]) != payer
    ensures r == -1 <==> forall k :: 0 <= k < |members| ==> Some(members[k]) != payer
  {
    if members == [] || payer.None? then -1
    else if payer == Some(members[0]) then 0
    else
      var r := IndexOf(members[1..], payer);
      if r == -1 then -1 else r + 1
  }

  /**
   * What the ledger's callers guarantee: an entry whose payer is a member
   * carries a number (an `undefined` amount would make every balance NaN,
   * which this model leaves out).
   */
  ghost predicate AmountsPresent(members: seq<string>, paidBy: seq<Option<string>>, amounts: seq<Option<real>>)
  {
    forall i :: 0 <= i < |paidBy| && i < |amounts| && IndexOf(members, paidBy[i]) >= 0 ==> amounts[i].Some?
  }

  /** The inner loop of the balance computation for one valid entry. */
  function Credit(b: seq<real>, payer: nat, amt: real): seq<real>
    requires payer < |b|
  {
    var share := amt / (|b| as real);
    seq(|b|, j requires 0 <= j < |b| => if j != payer then b[j] - share else b[j] - share + amt)
  }

  /** The balances after the first `k` ledger entries. */
  function BalancesAfter(members: seq<string>, paidBy: seq<Option<string>>, amounts: seq<Option<real>>, k: nat): (b: seq<real>)
    requires k <= |paidBy| == |amounts|
    requires AmountsPresent(members, paidBy, amounts)
    ensures |b| == |members|
  {
    if k == 0 then seq(|members|, _ => 0.0)
    else
      var prev := BalancesAfter(members, paidBy, amounts, k - 1);
      var index := IndexOf(members, paidBy[k - 1]);
      if index == -1 then prev else Credit(prev, index, amounts[k - 1].value)
  }

  function Balances(members: seq<string>, paidBy: seq<Option<string>>, amounts: seq<Option<real>>): seq<real>
    requires |paidBy| == |amounts| && AmountsPresent(members, paidBy, amounts)
  {
    BalancesAfter(members, paidBy, amounts, |paidBy|)
  }

  /** The `Error: Invalid payer` lines of the first `k` entries, in ledger order. */
  function InvalidLogs(members: seq<string>, paidBy: seq<Option<string>>): seq<LogLine>
  {
    if paidBy == [] then []
    else
      var last := paidBy[|paidBy| - 1];
      InvalidLogs(members, paidBy[..|paidBy| - 1]) + (if IndexOf(members, last) == -1 then [InvalidPayer(last)] else [])
  }

  function IsNotMember(members: seq<string>): Option<string> -> bool
  {
    p => IndexOf(members, p) == -1
  }

  function AsInvalid(payers: seq<Option<string>>): seq<LogLine>
  {
    seq(|payers|, i requires 0 <= i < |payers| => InvalidPayer(payers[i]))
  }

  /** Total credited to member `j` by the first `k` entries (what `j` paid). */
  function PaidBy(members: seq<string>, paidBy: seq<Option<string>>, amounts: seq<Option<real>>, j: nat, k: nat): real
    requires k <= |paidBy| == |amounts|
    requires AmountsPresent(members, paidBy, amounts)
  {
    if k == 0 then 0.0
    else
      PaidBy(members, paidBy, amounts, j, k - 1)
      + (if IndexOf(members, paidBy[k - 1]) == j then amounts[k - 1].value else 0.0)
  }

  /** Total of the first `k` entries whose payer is a member. */
  function Spent(members: seq<string>, paidBy: seq<Option<string>>, amounts: seq<Option<real>>, k: nat): real
    requires k <= |paidBy| == |amounts|
    requires AmountsPresent(members, paidBy, amounts)
  {
    if k == 0 then 0.0
    else
      Spent(members, paidBy, amounts, k - 1)
      + (if IndexOf(members, paidBy[k - 1]) >= 0 then amounts[k - 1].value else 0.0)
  }

  function Total(b: seq<real>): real { SumOf(b, x => x) }

  // ---------------------------------------------------------------------
  // Partition and ordering
  // ---------------------------------------------------------------------

  function Parties(b: seq<real>): seq<Party>
  {
    seq(|b|, i requires 0 <= i < |b| => Party(i, b[i]))
  }

  function IsDebtor(p: Party): bool { p.balance < -Eps }

  function IsCreditor(p: Party): bool { p.balance > Eps }

  /** Debtors in member order, as the partition loop pushes them. */
  function Debtors(b: seq<real>): seq<Party> { Filter(Parties(b), IsDebtor) }

  /** Creditors in member order, as the partition loop pushes them. */
  function Creditors(b: seq<real>): seq<Party> { Filter(Parties(b), IsCreditor) }

  /** `(a, b) => a[1] - b[1]`: most negative first. */
  function DebtKey(p: Party): real { -p.balance }

  /** `(a, b) => b[1] - a[1]`: most positive first. */
  function CreditKey(p: Party): real { p.balance }

  // ---------------------------------------------------------------------
  // Greedy matching
  // ---------------------------------------------------------------------

  ghost predicate Owing(ds: seq<Party>) { forall i :: 0 <= i < |ds| ==> ds[i].balance < 0.0 }

  ghost predicate Owed(cs: seq<Party>) { forall i :: 0 <= i < |cs| ==> cs[i].balance > 0.0 }

  ghost predicate IndicesIn(ps: seq<Party>, s: set<nat>) { forall i :: 0 <= i < |ps| ==> ps[i].index in s }

  ghost predicate Indexed(ps: seq<Party>, n: nat) { forall i :: 0 <= i < |ps| ==> ps[i].index < n }

  /** The cursor moves past a party once its balance is within the tolerance. */
  function Advance(p: Party, rest: seq<Party>): seq<Party>
  {
    if Abs(p.balance) < Eps then rest else [p] + rest
  }

  /** `Math.min(Math.abs(debtor[1]), creditor[1])`. */
  function Transfer(d: Party, c: Party): real { Min(Abs(d.balance), c.balance) }

  /**
   * The log lines of the two-cursor loop, started on the remaining
   * debtors `ds` and creditors `cs` (the heads are the current cursors).
   */
  function Match(members: seq<string>, ds: seq<Party>, cs: seq<Party>): seq<LogLine>
    requires Owing(ds) && Owed(cs)
    requires Indexed(ds, |members|) && Indexed(cs, |members|)
    decreases |ds| + |cs|
  {
    if ds == [] || cs == [] then []
    else
      var d, c := ds[0], cs[0];
      var amountToPay := Transfer(d, c);
      var line := if amountToPay > Eps then [Pay(members[d.index], members[c.index], amountToPay)] else [];
      var ds' := Advance(d.(balance := d.balance + amountToPay), ds[1..]);
      var cs' := Advance(c.(balance := c.balance - amountToPay), cs[1..]);
      line + Match(members, ds', cs')
  }

  function PayLine(members: seq<string>, ds: seq<Party>, cs: seq<Party>): seq<LogLine>
    requires ds != [] && cs != [] && Indexed(ds, |members|) && Indexed(cs, |members|)
  {
    var amountToPay := Transfer(ds[0], cs[0]);
    if amountToPay > Eps then [Pay(members[ds[0].index], members[cs[0].index], amountToPay)] else []
  }

  function NextDebtors(ds: seq<Party>, cs: seq<Party>): seq<Party>
    requires ds != [] && cs != []
  {
    Advance(ds[0].(balance := ds[0].balance + Transfer(ds[0], cs[0])), ds[1..])
  }

  function NextCreditors(ds: seq<Party>, cs: seq<Party>): seq<Party>
    requires ds != [] && cs != []
  {
    Advance(cs[0].(balance := cs[0].balance - Transfer(ds[0], cs[0])), cs[1..])
  }

  /**
   * One step of the loop: neither balance crosses zero, at least one of the
   * two reaches zero exactly, so at least one cursor advances.
   */
  lemma MatchStep(members: seq<string>, ds: seq<Party>, cs: seq<Party>)
    requires ds != [] && cs != []
    requires Owing(ds) && Owed(cs) && Indexed(ds, |members|) && Indexed(cs, |members|)
    ensures Transfer(ds[0], cs[0]) > 0.0
    ensures ds[0].balance + Transfer(ds[0], cs[0]) <= 0.0 && cs[0].balance - Transfer(ds[0], cs[0]) >= 0.0
    ensures ds[0].balance + Transfer(ds[0], cs[0]) == 0.0 || cs[0].balance - Transfer(ds[0], cs[0]) == 0.0
    ensures Owing(NextDebtors(ds, cs)) && Owed(NextCreditors(ds, cs))
    ensures Indexed(NextDebtors(ds, cs), |members|) && Indexed(NextCreditors(ds, cs), |members|)
    ensures |NextDebtors(ds, cs)| + |NextCreditors(ds, cs)| < |ds| + |cs|
    ensures Match(members, ds, cs) == PayLine(members, ds, cs) + Match(members, NextDebtors(ds, cs), NextCreditors(ds, cs))
  {
  }

  /** The loop's accumulated log stays a prefix of the whole log across one step. */
  lemma AccumulateStep(members: seq<string>, ds: seq<Party>, cs: seq<Party>, before: seq<LogLine>, whole: seq<LogLine>)
    requires ds != [] && cs != []
    requires Owing(ds) && Owed(cs) && Indexed(ds, |members|) && Indexed(cs, |members|)
    requires before + Match(members, ds, cs) == whole
    ensures Owing(NextDebtors(ds, cs)) && Owed(NextCreditors(ds, cs))
    ensures Indexed(NextDebtors(ds, cs), |members|) && Indexed(NextCreditors(ds, cs), |members|)
    ensures |NextDebtors(ds, cs)| + |NextCreditors(ds, cs)| < |ds| + |cs|
    ensures (before + PayLine(members, ds, cs)) + Match(members, NextDebtors(ds, cs), NextCreditors(ds, cs)) == whole
  {
    MatchStep(members, ds, cs);
    var line, rest := PayLine(members, ds, cs), Match(members, NextDebtors(ds, cs), NextCreditors(ds, cs));
    assert (before + line) + rest == before + (line + rest);
  }

  lemma SortKeepsParties(ps: seq<Party>, key: Party -> real, s: set<nat>, n: nat)
    ensures (forall i :: 0 <= i < |ps| ==> ps[i].balance < 0.0) ==> Owing(SortDesc(ps, key))
    ensures (forall i :: 0 <= i < |ps| ==> ps[i].balance > 0.0) ==> Owed(SortDesc(ps, key))
    ensures Indexed(ps, n) ==> Indexed(SortDesc(ps, key), n)
    ensures IndicesIn(ps, s) ==> IndicesIn(SortDesc(ps, key), s)
  {
    var r := SortDesc(ps, key);
    forall i | 0 <= i < |r|
      ensures r[i] in ps
    {
      SortDescMember(ps, key, r[i]);
    }
  }

  lemma DebtorsCreditorsShape(b: seq<real>)
    ensures Owing(SortDesc(Debtors(b), DebtKey)) && Owed(SortDesc(Creditors(b), CreditKey))
    ensures Indexed(SortDesc(Debtors(b), DebtKey), |b|) && Indexed(SortDesc(Creditors(b), CreditKey), |b|)
  {
    SortKeepsParties(Debtors(b), DebtKey, {}, |b|);
    SortKeepsParties(Creditors(b), CreditKey, {}, |b|);
  }

  /** The settlement log: invalid-payer errors first, then the payments. */
  function Settle(members: seq<string>, paidBy: seq<Option<string>>, amounts: seq<Option<real>>): seq<LogLine>
    requires |paidBy| == |amounts| && AmountsPresent(members, paidBy, amounts)
  {
    var b := Balances(members, paidBy, amounts);
    DebtorsCreditorsShape(b);
    InvalidLogs(members, paidBy)
      + Match(members, SortDesc(Debtors(b), DebtKey), SortDesc(Creditors(b), CreditKey))
  }

  /**
   * The Splitwise component: no members shows "No members available.";
   * a missing payer or amount array, or arrays of different lengths, show
   * "Error: Invalid payment data."; otherwise the settlement plan.
   */
  function Render(memberNames: Option<seq<string>>, paidBy: Option<seq<Option<string>>>, amounts: Option<seq<Option<real>>>): (v: View)
    requires memberNames.Some? && paidBy.Some? && amounts.Some? ==> AmountsPresent(memberNames.value, paidBy.value, amounts.value)
    ensures v == NoMembers <==> memberNames.None? || memberNames.value == []
    ensures v == InvalidPaymentData <==>
      memberNames.Some? && memberNames.value != [] && (paidBy.None? || amounts.None? || |paidBy.value| != |amounts.value|)
    ensures v.Plan? ==>
      paidBy.Some? && amounts.Some? && |paidBy.value| == |amounts.value| &&
      v.logs == Settle(memberNames.value, paidBy.value, amounts.value)
  {
    if memberNames.None? || memberNames.value == [] then NoMembers
    else if paidBy.None? || amounts.None? || |paidBy.value| != |amounts.value| then InvalidPaymentData
    else Plan(Settle(memberNames.value, paidBy.value, amounts.value))
  }

  // ---------------------------------------------------------------------
  // The imperative engine
  // ---------------------------------------------------------------------

  /**
   * The inner loop for one valid entry: every member is charged an equal
   * share of the amount and the payer is credited the whole amount.
   */
  method ApplyPayment(balances: array<real>, payer: nat, amt: real)
    requires payer < balances.Length
    modifies balances
    ensures balances[..] == Credit(old(balances[..]), payer, amt)
  {
    var n := balances.Length;
    var share := amt / (n as real);
    ghost var prev := balances[..];
    var j := 0;
    while j < n
      invariant 0 <= j <= n
      invariant forall k :: 0 <= k < j ==> balances[k] == Credit(prev, payer, amt)[k]
      invariant forall k :: j <= k < n ==> balances[k] == prev[k]
    {
      if j != payer {
        balances[j] := balances[j] - share;
      } else {
        balances[j] := balances[j] - share + amt;
      }
      j := j + 1;
    }
  }

  /** The balance loop: every entry either logs an invalid payer or updates all `n` balances. */
  method ComputeBalances(members: seq<string>, paidBy: seq<Option<string>>, amounts: seq<Option<real>>)
    returns (balances: array<real>, logs: seq<LogLine>)
    requires |paidBy| == |amounts| && AmountsPresent(members, paidBy, amounts)
    ensures fresh(balances)
    ensures balances[..] == Balances(members, paidBy, amounts)
    ensures logs == InvalidLogs(members, paidBy)
  {
    var n := |members|;
    balances := new real[n](_ => 0.0);
    logs := [];
    var i := 0;
    while i < |paidBy|
      invariant 0 <= i <= |paidBy|
      invariant balances.Length == n
      invariant balances[..] == BalancesAfter(members, paidBy, amounts, i)
      invariant logs == InvalidLogs(members, paidBy[..i])
    {
      assert paidBy[..i + 1][..i] == paidBy[..i];
      assert paidBy[..i + 1][i] == paidBy[i];
      var paidByPerson := paidBy[i];
      var index := IndexOf(members, paidByPerson);
      assert BalancesAfter(members, paidBy, amounts, i + 1) ==
        if index == -1 then balances[..] else Credit(balances[..], index, amounts[i].value);
      if index == -1 {
        logs := logs + [InvalidPayer(paidByPerson)];
      } else {
        ApplyPayment(balances, index, amounts[i].value);
      }
      i := i + 1;
    }
    assert paidBy[..i] == paidBy;
  }

  /** The partition loop: debtors below -0.01, creditors above 0.01, in member order. */
  method Partition(balances: array<real>) returns (debtors: seq<Party>, creditors: seq<Party>)
    ensures debtors == Debtors(balances[..])
    ensures creditors == Creditors(balances[..])
  {
    debtors, creditors := [], [];
    var n := balances.Length;
    ghost var all := Parties(balances[..]);
    var i := 0;
    while i < n
      invariant 0 <= i <= n
      invariant debtors == Filter(all[..i], IsDebtor)
      invariant creditors == Filter(all[..i], IsCreditor)
    {
      assert all[..i + 1][..i] == all[..i];
      assert all[..i + 1][i] == Party(i, balances[i]);
      if balances[i] < -Eps {
        debtors := debtors + [Party(i, balances[i])];
      } else if balances[i] > Eps {
        creditors := creditors + [Party(i, balances[i])];
      }
      i := i + 1;
    }
    assert all[..i] == all;
  }

  /**
   * `debtor[1] += …` (or `creditor[1] -= …`) on the pair under the cursor,
   * then the cursor moves on when the new balance is within the tolerance.
   */
  method Update(parties: array<Party>, cursor: nat, updated: Party) returns (next: nat)
    requires cursor < parties.Length
    modifies parties
    ensures parties[..] == old(parties[..])[cursor := updated]
    ensures cursor <= next <= cursor + 1
    ensures parties[next..] == Advance(updated, old(parties[cursor + 1..]))
  {
    parties[cursor] := updated;
    assert parties[cursor + 1..] == old(parties[cursor + 1..]);
    if Abs(parties[cursor].balance) < Eps {
      next := cursor + 1;
    } else {
      next := cursor;
      assert parties[cursor..] == [updated] + parties[cursor + 1..];
    }
  }

  /** The two-cursor loop over the sorted lists, which it updates in place. */
  method SettleDebts(members: seq<string>, debtors: array<Party>, creditors: array<Party>)
    returns (logs: seq<LogLine>, ghost steps: nat)
    requires debtors != creditors
    requires Owing(debtors[..]) && Owed(creditors[..])
    requires Indexed(debtors[..], |members|) && Indexed(creditors[..], |members|)
    modifies debtors, creditors
    ensures logs == Match(members, old(debtors[..]), old(creditors[..]))
    ensures steps <= debtors.Length + creditors.Length
  {
    ghost var d0, c0 := debtors[..], creditors[..];
    logs := [];
    steps := 0;
    var debtorIdx, creditorIdx := 0, 0;
    ghost var ds, cs := d0, c0;
    while debtorIdx < debtors.Length && creditorIdx < creditors.Length
      invariant 0 <= debtorIdx <= debtors.Length && 0 <= creditorIdx <= creditors.Length
      invariant ds == debtors[debtorIdx..] && cs == creditors[creditorIdx..]
      invariant Owing(ds) && Owed(cs) && Indexed(ds, |members|) && Indexed(cs, |members|)
      invariant logs + Match(members, ds, cs) == Match(members, d0, c0)
      invariant steps + |ds| + |cs| <= |d0| + |c0|
      decreases |ds| + |cs|
    {
      var debtor := debtors[debtorIdx];
      var creditor := creditors[creditorIdx];
      var amountToPay := Min(Abs(debtor.balance), creditor.balance);
      ghost var before := logs;
      AccumulateStep(members, ds, cs, before, Match(members, d0, c0));
      if amountToPay > Eps {
        logs := logs + [Pay(members[debtor.index], members[creditor.index], amountToPay)];
      }
      assert logs == before + PayLine(members, ds, cs);
      debtorIdx := Update(debtors, debtorIdx, debtor.(balance := debtor.balance + amountToPay));
      creditorIdx := Update(creditors, creditorIdx, creditor.(balance := creditor.balance - amountToPay));
      ds, cs := NextDebtors(ds, cs), NextCreditors(ds, cs);
      steps := steps + 1;
    }
  }

  /**
   * `settleExpenses(memberNames, paidByArray, amountArray)`: the log the
   * component shows, computed in place as the source does.
   */
  method SettleExpenses(memberNames: seq<string>, paidByArray: seq<Option<string>>, amountArray: seq<Option<real>>)
    returns (logs: seq<LogLine>)
    requires |paidByArray| == |amountArray| && AmountsPresent(memberNames, paidByArray, amountArray)
    ensures logs == Settle(memberNames, paidByArray, amountArray)
  {
    var balances;
    balances, logs := ComputeBalances(memberNames, paidByArray, amountArray);
    var debtorList, creditorList := Partition(balances);
    // Array.prototype.sort, stable, with the source's comparators.
    debtorList := SortDesc(debtorList, DebtKey);
    creditorList := SortDesc(creditorList, CreditKey);
    DebtorsCreditorsShape(balances[..]);
    var debtors := new Party[|debtorList|](i requires 0 <= i < |debtorList| => debtorList[i]);
    var creditors := new Party[|creditorList|](i requires 0 <= i < |creditorList| => creditorList[i]);
    assert debtors[..] == debtorList;
    assert creditors[..] == creditorList;
    var payments, _ := SettleDebts(memberNames, debtors, creditors);
    logs := logs + payments;
  }

  // ---------------------------------------------------------------------
  // Properties
  // ---------------------------------------------------------------------

  /** The invalid-payer lines are exactly the non-member payers, in ledger order. */
  lemma {:induction false} InvalidLogsExact(members: seq<string>, paidBy: seq<Option<string>>)
    ensures InvalidLogs(members, paidBy) == AsInvalid(Filter(paidBy, IsNotMember(members)))
  {
    if paidBy != [] {
      InvalidLogsExact(members, paidBy[..|paidBy| - 1]);
    }
  }

  lemma {:induction false} BalancesAfterClosedForm(members: seq<string>, paidBy: seq<Option<string>>, amounts: seq<Option<real>>, k: nat, j: nat)
    requires k <= |paidBy| == |amounts| && AmountsPresent(members, paidBy, amounts)
    requires j < |members|
    ensures BalancesAfter(members, paidBy, amounts, k)[j]
      == PaidBy(members, paidBy, amounts, j, k) - Spent(members, paidBy, amounts, k) / (|members| as real)
  {
    if k > 0 {
      BalancesAfterClosedForm(members, paidBy, amounts, k - 1, j);
      var index := IndexOf(members, paidBy[k - 1]);
      if index != -1 {
        var prev := BalancesAfter(members, paidBy, amounts, k - 1);
        var amt := amounts[k - 1].value;
        assert Credit(prev, index, amt)[j] == prev[j] - amt / (|members| as real) + (if j == index then amt else 0.0);
        ShareStep(prev[j], PaidBy(members, paidBy, amounts, j, k - 1), Spent(members, paidBy, amounts, k - 1),
                  |members| as real, amt, j == index);
      }
    }
  }

  /** One valid entry moves a member's balance exactly as it moves the closed form. */
  lemma ShareStep(balance: real, paid: real, spent: real, n: real, amt: real, payer: bool)
    requires n > 0.0 && balance == paid - spent / n
    ensures balance - amt / n + (if payer then amt else 0.0)
      == (paid + (if payer then amt else 0.0)) - (spent + amt) / n
  {
    assert (spent + amt) / n == spent / n + amt / n;
  }

  /**
   * Each member's balance is what they paid on valid entries minus an equal
   * share of everything spent on valid entries.
   */
  lemma BalanceClosedForm(members: seq<string>, paidBy: seq<Option<string>>, amounts: seq<Option<real>>, j: nat)
    requires |paidBy| == |amounts| && AmountsPresent(members, paidBy, amounts)
    requires j < |members|
    ensures Balances(members, paidBy, amounts)[j]
      == PaidBy(members, paidBy, amounts, j, |paidBy|) - Spent(members, paidBy, amounts, |paidBy|) / (|members| as real)
  {
    BalancesAfterClosedForm(members, paidBy, amounts, |paidBy|, j);
  }

  lemma {:induction false} TotalShifted(b: seq<real>, c: seq<real>, share: real, payer: nat, amt: real)
    requires |b| == |c|
    requires forall j :: 0 <= j < |b| ==> c[j] == b[j] - share + (if j == payer then amt else 0.0)
    ensures Total(c) == Total(b) - (|b| as real) * share + (if payer < |b| then amt else 0.0)
  {
    if b != [] {
      var m := |b| - 1;
      TotalShifted(b[..m], c[..m], share, payer, amt);
    }
  }

  lemma {:induction false} BalancesAfterConserved(members: seq<string>, paidBy: seq<Option<string>>, amounts: seq<Option<real>>, k: nat)
    requires k <= |paidBy| == |amounts| && AmountsPresent(members, paidBy, amounts)
    ensures Total(BalancesAfter(members, paidBy, amounts, k)) == 0.0
  {
    if k == 0 {
      var z := BalancesAfter(members, paidBy, amounts, 0);
      TotalShifted(z, z, 0.0, |z|, 0.0);
      SumOfAgree(z, x => x, x => 0.0);
      TotalZero(z);
    } else {
      BalancesAfterConserved(members, paidBy, amounts, k - 1);
      var prev := BalancesAfter(members, paidBy, amounts, k - 1);
      var index := IndexOf(members, paidBy[k - 1]);
      if index != -1 {
        var amt := amounts[k - 1].value;
        var n := |prev| as real;
        TotalShifted(prev, Credit(prev, index, amt), amt / n, index, amt);
        assert n * (amt / n) == amt;
      }
    }
  }

  lemma {:induction false} TotalZero(z: seq<real>)
    requires forall i :: 0 <= i < |z| ==> z[i] == 0.0
    ensures Total(z) == 0.0
  {
    if z != [] {
      TotalZero(z[..|z| - 1]);
    }
  }

  /** Money is conserved: the balances always sum to zero. */
  lemma BalancesConserved(members: seq<string>, paidBy: seq<Option<string>>, amounts: seq<Option<real>>)
    requires |paidBy| == |amounts| && AmountsPresent(members, paidBy, amounts)
    ensures Total(Balances(members, paidBy, amounts)) == 0.0
  {
    BalancesAfterConserved(members, paidBy, amounts, |paidBy|);
  }

  lemma PartiesMember(b: seq<real>, p: Party)
    ensures p in Parties(b) <==> p.index < |b| && p.balance == b[p.index]
  {
    if p.index < |b| && p.balance == b[p.index] {
      assert Parties(b)[p.index] == p;
    }
  }

  /**
   * Debtors are exactly the members below -0.01 and creditors exactly those
   * above 0.01, each with its balance; no member is in both lists and a
   * member within the tolerance is in neither.
   */
  lemma PartitionExact(b: seq<real>, p: Party)
    ensures p in Debtors(b) <==> p.index < |b| && p.balance == b[p.index] && b[p.index] < -Eps
    ensures p in Creditors(b) <==> p.index < |b| && p.balance == b[p.index] && b[p.index] > Eps
    ensures !(p in Debtors(b) && p in Creditors(b))
    ensures p.index < |b| && -Eps <= b[p.index] <= Eps ==> p !in Debtors(b) && p !in Creditors(b)
  {
    FilterMember(Parties(b), IsDebtor, p);
    FilterMember(Parties(b), IsCreditor, p);
    PartiesMember(b, p);
  }

  /**
   * Before matching, debtors run from the most negative balance up and
   * creditors from the most positive down; both lists are rearrangements of
   * the partition.
   */
  lemma OrderedForMatching(b: seq<real>)
    ensures multiset(SortDesc(Debtors(b), DebtKey)) == multiset(Debtors(b))
    ensures multiset(SortDesc(Creditors(b), CreditKey)) == multiset(Creditors(b))
    ensures forall i, j :: 0 <= i < j < |SortDesc(Debtors(b), DebtKey)| ==>
      SortDesc(Debtors(b), DebtKey)[i].balance <= SortDesc(Debtors(b), DebtKey)[j].balance
    ensures forall i, j :: 0 <= i < j < |SortDesc(Creditors(b), CreditKey)| ==>
      SortDesc(Creditors(b), CreditKey)[i].balance >= SortDesc(Creditors(b), CreditKey)[j].balance
  {
    SortDescPermutes(Debtors(b), DebtKey);
    SortDescPermutes(Creditors(b), CreditKey);
    SortDescSorted(Debtors(b), DebtKey);
    SortDescSorted(Creditors(b), CreditKey);
    var ds := SortDesc(Debtors(b), DebtKey);
    forall i, j | 0 <= i < j < |ds| ensures ds[i].balance <= ds[j].balance {
      assert DebtKey(ds[i]) >= DebtKey(ds[j]);
    }
  }

  /** A log line moves more than the tolerance from a member in `from` to a member in `to`. */
  ghost predicate PayBetween(l: LogLine, members: seq<string>, from: set<nat>, to: set<nat>)
  {
    l.Pay? && l.amount > Eps &&
    exists i, j :: i in from && j in to && i < |members| && j < |members| && l.from == members[i] && l.to == members[j]
  }

  /**
   * Every line of the matching loop is a payment above the tolerance from
   * one of the debtors to one of the creditors.
   */
  lemma {:induction false} MatchPays(members: seq<string>, ds: seq<Party>, cs: seq<Party>, from: set<nat>, to: set<nat>)
    requires Owing(ds) && Owed(cs) && Indexed(ds, |members|) && Indexed(cs, |members|)
    requires IndicesIn(ds, from) && IndicesIn(cs, to)
    ensures forall k :: 0 <= k < |Match(members, ds, cs)| ==> PayBetween(Match(members, ds, cs)[k], members, from, to)
    decreases |ds| + |cs|
  {
    if ds != [] && cs != [] {
      MatchStep(members, ds, cs);
      var ds', cs' := NextDebtors(ds, cs), NextCreditors(ds, cs);
      MatchPays(members, ds', cs', from, to);
      var line := PayLine(members, ds, cs);
      if line != [] {
        assert PayBetween(line[0], members, from, to) by {
          assert ds[0].index in from && cs[0].index in to;
        }
      }
    }
  }

  /**
   * The loop takes at most |debtors| + |creditors| - 1 steps and logs at
   * most one line per step.
   */
  lemma {:induction false} MatchLength(members: seq<string>, ds: seq<Party>, cs: seq<Party>)
    requires Owing(ds) && Owed(cs) && Indexed(ds, |members|) && Indexed(cs, |members|)
    ensures ds == [] || cs == [] ==> Match(members, ds, cs) == []
    ensures ds != [] && cs != [] ==> |Match(members, ds, cs)| + 1 <= |ds| + |cs|
    decreases |ds| + |cs|
  {
    if ds != [] && cs != [] {
      MatchStep(members, ds, cs);
      MatchLength(members, NextDebtors(ds, cs), NextCreditors(ds, cs));
    }
  }

  function PaidAmount(l: LogLine): real { if l.Pay? then l.amount else 0.0 }

  function Debt(p: Party): real { -p.balance }

  function Owed'(p: Party): real { p.balance }

  /**
   * No overshoot: the payments logged never exceed what the debtors owe in
   * total, nor what the creditors are owed in total.
   */
  lemma {:induction false} MatchWithinBalances(members: seq<string>, ds: seq<Party>, cs: seq<Party>)
    requires Owing(ds) && Owed(cs) && Indexed(ds, |members|) && Indexed(cs, |members|)
    ensures SumOf(Match(members, ds, cs), PaidAmount) <= SumOf(ds, Debt)
    ensures SumOf(Match(members, ds, cs), PaidAmount) <= SumOf(cs, Owed')
    decreases |ds| + |cs|
  {
    if ds == [] || cs == [] {
      SumOfNonNegative(ds, Debt);
      SumOfNonNegative(cs, Owed');
    } else {
      MatchStep(members, ds, cs);
      var ds', cs' := NextDebtors(ds, cs), NextCreditors(ds, cs);
      MatchWithinBalances(members, ds', cs');
      var amt := Transfer(ds[0], cs[0]);
      var line := PayLine(members, ds, cs);
      SumOfAppend(line, Match(members, ds', cs'), PaidAmount);
      assert SumOf(line, PaidAmount) <= amt by {
        if line != [] { assert line == [Pay(members[ds[0].index], members[cs[0].index], amt)]; }
      }
      SumOfCons(ds, Debt);
      SumOfCons(cs, Owed');
      var d' := ds[0].(balance := ds[0].balance + amt);
      var c' := cs[0].(balance := cs[0].balance - amt);
      if ds' != ds[1..] {
        SumOfCons(ds', Debt);
        assert ds'[1..] == ds[1..];
      }
      if cs' != cs[1..] {
        SumOfCons(cs', Owed');
        assert cs'[1..] == cs[1..];
      }
    }
  }

  function DebtorIndices(b: seq<real>): set<nat> { set i | 0 <= i < |b| && b[i] < -Eps }

  function CreditorIndices(b: seq<real>): set<nat> { set i | 0 <= i < |b| && b[i] > Eps }

  /**
   * The settlement log is the invalid-payer lines followed by payments;
   * each payment exceeds 0.01 and goes from a member with balance below
   * -0.01 to a different member with balance above 0.01.
   */
  lemma SettleShape(members: seq<string>, paidBy: seq<Option<string>>, amounts: seq<Option<real>>)
    requires |paidBy| == |amounts| && AmountsPresent(members, paidBy, amounts)
    ensures var logs := Settle(members, paidBy, amounts);
      var b := Balances(members, paidBy, amounts);
      && |InvalidLogs(members, paidBy)| <= |logs|
      && logs[..|InvalidLogs(members, paidBy)|] == InvalidLogs(members, paidBy)
      && (forall k :: |InvalidLogs(members, paidBy)| <= k < |logs| ==>
            PayBetween(logs[k], members, DebtorIndices(b), CreditorIndices(b)))
      && DebtorIndices(b) !! CreditorIndices(b)
  {
    var b := Balances(members, paidBy, amounts);
    var ds, cs := SortDesc(Debtors(b), DebtKey), SortDesc(Creditors(b), CreditKey);
    DebtorsCreditorsShape(b);
    forall k | 0 <= k < |Debtors(b)| ensures Debtors(b)[k].index in DebtorIndices(b) {
      PartitionExact(b, Debtors(b)[k]);
    }
    forall k | 0 <= k < |Creditors(b)| ensures Creditors(b)[k].index in CreditorIndices(b) {
      PartitionExact(b, Creditors(b)[k]);
    }
    SortKeepsParties(Debtors(b), DebtKey, DebtorIndices(b), |b|);
    SortKeepsParties(Creditors(b), CreditKey, CreditorIndices(b), |b|);
    MatchPays(members, ds, cs, DebtorIndices(b), CreditorIndices(b));
    var logs := Settle(members, paidBy, amounts);
    var inv := InvalidLogs(members, paidBy);
    assert logs == inv + Match(members, ds, cs);
    forall k | |inv| <= k < |logs|
      ensures PayBetween(logs[k], members, DebtorIndices(b), CreditorIndices(b))
    {
      assert logs[k] == Match(members, ds, cs)[k - |inv|];
    }
  }

  /** With distinct member names, nobody is ever asked to pay themselves. */
  lemma NoSelfPayment(members: seq<string>, paidBy: seq<Option<string>>, amounts: seq<Option<real>>, k: nat)
    requires |paidBy| == |amounts| && AmountsPresent(members, paidBy, amounts)
    requires forall i, j :: 0 <= i < j < |members| ==> members[i] != members[j]
    requires k < |Settle(members, paidBy, amounts)|
    requires Settle(members, paidBy, amounts)[k].Pay?
    ensures Settle(members, paidBy, amounts)[k].from != Settle(members, paidBy, amounts)[k].to
  {
    SettleShape(members, paidBy, amounts);
    var logs := Settle(members, paidBy, amounts);
    var inv := InvalidLogs(members, paidBy);
    if k < |inv| {
      InvalidLogsExact(members, paidBy);
      assert false;
    }
  }

  /**
   * When every balance is already within the tolerance, no payment is
   * logged: only the invalid-payer errors remain.
   */
  lemma SettledNeedsNoPayments(members: seq<string>, paidBy: seq<Option<string>>, amounts: seq<Option<real>>)
    requires |paidBy| == |amounts| && AmountsPresent(members, paidBy, amounts)
    requires forall j :: 0 <= j < |members| ==> -Eps <= Balances(members, paidBy, amounts)[j] <= Eps
    ensures Settle(members, paidBy, amounts) == InvalidLogs(members, paidBy)
  {
    var b := Balances(members, paidBy, amounts);
    if Debtors(b) != [] {
      PartitionExact(b, Debtors(b)[0]);
      assert false;
    }
    assert SortDesc(Debtors(b), DebtKey) == [];
  }

  // ---------------------------------------------------------------------
  // Worked examples
  // ---------------------------------------------------------------------

  /** Alice pays 100 for Alice and Bob: Bob owes her half. */
  lemma TwoMemberExample()
    ensures Settle(["Alice", "Bob"], [Some("Alice")], [Some(100.0)]) == [Pay("Bob", "Alice", 50.0)]
  {
    TwoMemberBalances();
    TwoMemberLists();
    TwoMemberMatch();
  }

  lemma TwoMemberMatch()
    ensures Match(["Alice", "Bob"], [Party(1, -50.0)], [Party(0, 50.0)]) == [Pay("Bob", "Alice", 50.0)]
  {
    var ds, cs := [Party(1, -50.0)], [Party(0, 50.0)];
    MatchStep(["Alice", "Bob"], ds, cs);
    assert NextDebtors(ds, cs) == [] && NextCreditors(ds, cs) == [];
  }

  lemma TwoMemberBalances()
    ensures InvalidLogs(["Alice", "Bob"], [Some("Alice")]) == []
    ensures Balances(["Alice", "Bob"], [Some("Alice")], [Some(100.0)]) == [50.0, -50.0]
  {
    assert IndexOf(["Alice", "Bob"], Some("Alice")) == 0;
  }

  lemma TwoMemberLists()
    ensures SortDesc(Debtors([50.0, -50.0]), DebtKey) == [Party(1, -50.0)]
    ensures SortDesc(Creditors([50.0, -50.0]), CreditKey) == [Party(0, 50.0)]
  {
    var b := [50.0, -50.0];
    assert Parties(b) == [Party(0, 50.0), Party(1, -50.0)];
    assert Filter(Parties(b)[..1], IsDebtor) == [];
    assert Debtors(b) == [Party(1, -50.0)];
    assert Filter(Parties(b)[..1], IsCreditor) == [Party(0, 50.0)];
    assert Creditors(b) == [Party(0, 50.0)];
  }

  lemma ThreeMemberBalances()
    ensures InvalidLogs(["Alice", "Bob", "Carol"], [Some("Alice"), Some("Bob")]) == []
    ensures Balances(["Alice", "Bob", "Carol"], [Some("Alice"), Some("Bob")], [Some(90.0), Some(60.0)]) == [40.0, 10.0, -50.0]
  {
    var members, paidBy, amounts := ["Alice", "Bob", "Carol"], [Some("Alice"), Some("Bob")], [Some(90.0), Some(60.0)];
    assert IndexOf(members, Some("Alice")) == 0;
    assert IndexOf(members, Some("Bob")) == 1;
    assert BalancesAfter(members, paidBy, amounts, 1) == [60.0, -30.0, -30.0];
    assert InvalidLogs(members, [Some("Alice")]) == [];
  }

  lemma ThreeMemberLists()
    ensures SortDesc(Debtors([40.0, 10.0, -50.0]), DebtKey) == [Party(2, -50.0)]
    ensures SortDesc(Creditors([40.0, 10.0, -50.0]), CreditKey) == [Party(0, 40.0), Party(1, 10.0)]
  {
    var b := [40.0, 10.0, -50.0];
    var ps := Parties(b);
    assert ps == [Party(0, 40.0), Party(1, 10.0), Party(2, -50.0)];
    assert ps[..2][..1] == [Party(0, 40.0)];
    assert Filter(ps[..2], IsDebtor) == [];
    assert Debtors(b) == [Party(2, -50.0)];
    assert Filter(ps[..2], IsCreditor) == [Party(0, 40.0), Party(1, 10.0)];
    assert Creditors(b) == [Party(0, 40.0), Party(1, 10.0)];
    var cs := [Party(0, 40.0), Party(1, 10.0)];
    assert SortDesc(cs[1..], CreditKey) == [Party(1, 10.0)];
  }

  lemma ThreeMemberMatch()
    ensures Owing([Party(2, -50.0)]) && Owed([Party(0, 40.0), Party(1, 10.0)])
    ensures Match(["Alice", "Bob", "Carol"], [Party(2, -50.0)], [Party(0, 40.0), Party(1, 10.0)])
         == [Pay("Carol", "Alice", 40.0), Pay("Carol", "Bob", 10.0)]
  {
    var members := ["Alice", "Bob", "Carol"];
    var ds, cs := [Party(2, -50.0)], [Party(0, 40.0), Party(1, 10.0)];
    var ds1, cs1 := [Party(2, -10.0)], [Party(1, 10.0)];
    MatchStep(members, ds, cs);
    assert NextDebtors(ds, cs) == ds1 && NextCreditors(ds, cs) == cs1;
    MatchStep(members, ds1, cs1);
    assert NextDebtors(ds1, cs1) == [] && NextCreditors(ds1, cs1) == [];
  }

  /**
   * Alice pays 90 and Bob 60 for three members: the largest debtor (Carol,
   * -50) first pays the largest creditor (Alice, +40), then Bob (+10).
   */
  lemma ThreeMemberExample()
    ensures Settle(["Alice", "Bob", "Carol"], [Some("Alice"), Some("Bob")], [Some(90.0), Some(60.0)])
         == [Pay("Carol", "Alice", 40.0), Pay("Carol", "Bob", 10.0)]
  {
    ThreeMemberBalances();
    ThreeMemberLists();
    ThreeMemberMatch();
  }

  lemma InvalidPayerBalances()
    ensures InvalidLogs(["Alice", "Bob"], [Some("Zed"), Some("Bob")]) == [InvalidPayer(Some("Zed"))]
    ensures Balances(["Alice", "Bob"], [Some("Zed"), Some("Bob")], [Some(30.0), Some(10.0)]) == [-5.0, 5.0]
  {
    var members, paidBy, amounts := ["Alice", "Bob"], [Some("Zed"), Some("Bob")], [Some(30.0), Some(10.0)];
    assert IndexOf(members, Some("Zed")) == -1;
    assert IndexOf(members, Some("Bob")) == 1;
    assert InvalidLogs(members, paidBy[..1]) == [InvalidPayer(Some("Zed"))];
    assert BalancesAfter(members, paidBy, amounts, 1) == [0.0, 0.0];
  }

  lemma InvalidPayerLists()
    ensures SortDesc(Debtors([-5.0, 5.0]), DebtKey) == [Party(0, -5.0)]
    ensures SortDesc(Creditors([-5.0, 5.0]), CreditKey) == [Party(1, 5.0)]
  {
    var ps := Parties([-5.0, 5.0]);
    assert ps == [Party(0, -5.0), Party(1, 5.0)];
    assert Filter(ps[..1], IsDebtor) == [Party(0, -5.0)];
    assert Debtors([-5.0, 5.0]) == [Party(0, -5.0)];
    assert Filter(ps[..1], IsCreditor) == [];
    assert Creditors([-5.0, 5.0]) == [Party(1, 5.0)];
  }

  lemma InvalidPayerMatch()
    ensures Owing([Party(0, -5.0)]) && Owed([Party(1, 5.0)])
    ensures Match(["Alice", "Bob"], [Party(0, -5.0)], [Party(1, 5.0)]) == [Pay("Alice", "Bob", 5.0)]
  {
    var ds, cs := [Party(0, -5.0)], [Party(1, 5.0)];
    MatchStep(["Alice", "Bob"], ds, cs);
    assert NextDebtors(ds, cs) == [] && NextCreditors(ds, cs) == [];
  }

  /** A payer outside the group is reported and its entry ignored. */
  lemma InvalidPayerExample()
    ensures Settle(["Alice", "Bob"], [Some("Zed"), Some("Bob")], [Some(30.0), Some(10.0)])
         == [InvalidPayer(Some("Zed")), Pay("Alice", "Bob", 5.0)]
  {
    var members := ["Alice", "Bob"];
    InvalidPayerBalances();
    InvalidPayerLists();
    InvalidPayerMatch();
  }
}
