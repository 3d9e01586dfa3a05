/**
 * The transaction mutators and totals of FinanceManager.tsx. New entries
 * go to the front (newest first); totals are `filter` by type followed by
 * a `reduce` that adds the amounts. Amounts are exact reals: the rounding
 * of JavaScript doubles is not modelled.
 */
module Finance {
  import opened Types
  import opened Seqs

  predicate UniqueIds(txs: seq<Transaction>) {
    forall i, j :: 0 <= i < j < |txs| ==> txs[i].id != txs[j].id
  }

  predicate IsIncome(t: Transaction) { t.kind == Income }
  predicate IsExpense(t: Transaction) { t.kind == Expense }

  /** The `filter` callback of `deleteTx`. */
  function OtherThan(id: string): Transaction -> bool {
    (t: Transaction) => t.id != id
  }

  /** `addTransaction`: a no-op when the description or the amount field is
      empty, otherwise prepend the new entry. `amount` is what `parseFloat`
      made of `amountText`; the id and date come from the clock. */
  function AddTransaction(txs: seq<Transaction>, desc: string, amountText: string, amount: real,
                          kind: TxKind, category: string, id: string, date: string)
    : (r: seq<Transaction>)
    ensures desc == [] || amountText == [] ==> r == txs
    ensures desc != [] && amountText != [] ==>
              && |r| == |txs| + 1
              && r[1..] == txs
              && r[0].id == id && r[0].description == desc && r[0].amount == amount
              && r[0].kind == kind && r[0].category == category && r[0].date == date
  {
    if desc == [] || amountText == [] then txs
    else [Transaction(id, desc, amount, kind, category, date)] + txs
  }

  /** `deleteTx(id)`: keep the transactions with another id, in order. */
  function DeleteTx(txs: seq<Transaction>, id: string): (r: seq<Transaction>)
    ensures forall t :: t in r <==> t in txs && t.id != id
    ensures |r| <= |txs|
  {
    Filter(txs, OtherThan(id))
  }

  /** `reduce((a, b) => a + b.amount, 0)`: the amounts added left to right,
      starting from zero. */
  function Sum(txs: seq<Transaction>): (r: real)
    ensures txs == [] ==> r == 0.0
    ensures |txs| == 1 ==> r == txs[0].amount
    ensures (forall i :: 0 <= i < |txs| ==> txs[i].amount >= 0.0) ==> r >= 0.0
  {
    if txs == [] then 0.0 else Sum(txs[..|txs| - 1]) + txs[|txs| - 1].amount
  }

  /** `totalIncome`: the amounts of the income entries. */
  function TotalIncome(txs: seq<Transaction>): (r: real)
    ensures (forall t :: t in txs ==> t.kind == Expense) ==> r == 0.0
    ensures (forall t :: t in txs ==> t.kind == Income) ==> r == Sum(txs)
    ensures (forall t :: t in txs ==> t.amount >= 0.0) ==> r >= 0.0
  {
    var incomes := Filter(txs, IsIncome);
    FilterExtremes(txs, IsIncome);
    SumNonNegative(txs, IsIncome);
    Sum(incomes)
  }

  /** `totalExpense`: the amounts of the expense entries. */
  function TotalExpense(txs: seq<Transaction>): (r: real)
    ensures (forall t :: t in txs ==> t.kind == Income) ==> r == 0.0
    ensures (forall t :: t in txs ==> t.kind == Expense) ==> r == Sum(txs)
    ensures (forall t :: t in txs ==> t.amount >= 0.0) ==> r >= 0.0
  {
    var expenses := Filter(txs, IsExpense);
    FilterExtremes(txs, IsExpense);
    SumNonNegative(txs, IsExpense);
    Sum(expenses)
  }

  /** The "Saldo Atual" figure: income less expenses, which is twice the
      income less the sum of every amount. */
  function Balance(txs: seq<Transaction>): (r: real)
    ensures r == 2.0 * TotalIncome(txs) - Sum(txs)
    ensures (forall t :: t in txs ==> t.kind == Income) ==> r == Sum(txs)
    ensures (forall t :: t in txs ==> t.kind == Expense) ==> r == -Sum(txs)
  {
    TotalsCoverAll(txs);
    TotalIncome(txs) - TotalExpense(txs)
  }

  /** Selecting from entries that all fail selects nothing; selecting from
      entries that all pass selects them all. */
  lemma FilterExtremes(txs: seq<Transaction>, p: Transaction -> bool)
    ensures (forall t :: t in txs ==> !p(t)) ==> Filter(txs, p) == []
    ensures (forall t :: t in txs ==> p(t)) ==> Filter(txs, p) == txs
  {
    if forall t :: t in txs ==> !p(t) {
      FilterNone(txs, p);
    }
    if forall t :: t in txs ==> p(t) {
      FilterAll(txs, p);
    }
  }

  /** Selected non-negative amounts add up to a non-negative total. */
  lemma SumNonNegative(txs: seq<Transaction>, p: Transaction -> bool)
    ensures (forall t :: t in txs ==> t.amount >= 0.0) ==> Sum(Filter(txs, p)) >= 0.0
  {
    var f := Filter(txs, p);
    if forall t :: t in txs ==> t.amount >= 0.0 {
      assert forall i :: 0 <= i < |f| ==> f[i] in f;
    }
  }

  // ---------------------------------------------------------------------
  // Properties

  /** The fold over a concatenation is the sum of the two folds. */
  lemma {:induction false} SumConcat(a: seq<Transaction>, b: seq<Transaction>)
    ensures Sum(a + b) == Sum(a) + Sum(b)
  {
    if b == [] {
      assert a + b == a;
    } else {
      SumConcat(a, b[..|b| - 1]);
      assert (a + b)[..|a + b| - 1] == a + b[..|b| - 1];
    }
  }

  /** Every transaction is income or expense, so the two totals together
      are the sum of all amounts. */
  lemma {:induction false} TotalsCoverAll(txs: seq<Transaction>)
    ensures TotalIncome(txs) + TotalExpense(txs) == Sum(txs)
  {
    if txs != [] {
      var t, rest := txs[0], txs[1..];
      TotalsCoverAll(rest);
      assert txs == [t] + rest;
      SumConcat([t], rest);
      SumConcat(if IsIncome(t) then [t] else [], Filter(rest, IsIncome));
      SumConcat(if IsExpense(t) then [t] else [], Filter(rest, IsExpense));
    }
  }

  /** Recording an income raises the income total by its amount and leaves
      the expense total alone; recording an expense does the converse. */
  lemma AddTransactionMovesOneTotal(txs: seq<Transaction>, desc: string, amountText: string,
                                    amount: real, kind: TxKind, category: string,
                                    id: string, date: string)
    requires desc != [] && amountText != []
    ensures var r := AddTransaction(txs, desc, amountText, amount, kind, category, id, date);
            && TotalIncome(r) == TotalIncome(txs) + (if kind == Income then amount else 0.0)
            && TotalExpense(r) == TotalExpense(txs) + (if kind == Expense then amount else 0.0)
            && Balance(r) == Balance(txs) + (if kind == Income then amount else -amount)
  {
    var r := AddTransaction(txs, desc, amountText, amount, kind, category, id, date);
    assert r == [r[0]] + txs;
    SumConcat(if IsIncome(r[0]) then [r[0]] else [], Filter(txs, IsIncome));
    SumConcat(if IsExpense(r[0]) then [r[0]] else [], Filter(txs, IsExpense));
  }

  /** Deleting an id no transaction has changes nothing. */
  lemma DeleteTxUnknownId(txs: seq<Transaction>, id: string)
    requires forall t :: t in txs ==> t.id != id
    ensures DeleteTx(txs, id) == txs
  {
    FilterAll(txs, OtherThan(id));
  }

  /** With unique ids, deleting an entry's id removes exactly that entry and
      keeps the others in their order. */
  lemma DeleteTxRemovesOne(txs: seq<Transaction>, id: string, i: nat)
    requires UniqueIds(txs) && i < |txs| && txs[i].id == id
    ensures DeleteTx(txs, id) == txs[..i] + txs[i + 1..]
  {
    FilterAllButAt(txs, OtherThan(id), i);
  }

  /** With unique ids, deleting an entry takes its amount off the total of
      its own type and leaves the other total alone. */
  lemma DeleteTxLowersOneTotal(txs: seq<Transaction>, id: string, i: nat)
    requires UniqueIds(txs) && i < |txs| && txs[i].id == id
    ensures var r := DeleteTx(txs, id);
            && TotalIncome(r) == TotalIncome(txs) - (if IsIncome(txs[i]) then txs[i].amount else 0.0)
            && TotalExpense(r) == TotalExpense(txs) - (if IsExpense(txs[i]) then txs[i].amount else 0.0)
  {
    var before, x, after := txs[..i], txs[i], txs[i + 1..];
    DeleteTxRemovesOne(txs, id, i);
    assert txs == before + [x] + after;
    FilterAround(before, x, after, IsIncome);
    FilterAround(before, x, after, IsExpense);
    FilterConcat(before, after, IsIncome);
    FilterConcat(before, after, IsExpense);
    SumAround(Filter(before, IsIncome), if IsIncome(x) then [x] else [], Filter(after, IsIncome));
    SumAround(Filter(before, IsExpense), if IsExpense(x) then [x] else [], Filter(after, IsExpense));
  }

  lemma SumAround(a: seq<Transaction>, m: seq<Transaction>, b: seq<Transaction>)
    ensures Sum(a + m + b) == Sum(a + b) + Sum(m)
  {
    SumConcat(a + m, b);
    SumConcat(a, m);
    SumConcat(a, b);
  }

  /** Deleting the id of an entry just recorded with a fresh id undoes it. */
  lemma DeleteUndoesAdd(txs: seq<Transaction>, desc: string, amountText: string, amount: real,
                        kind: TxKind, category: string, id: string, date: string)
    requires forall t :: t in txs ==> t.id != id
    ensures DeleteTx(AddTransaction(txs, desc, amountText, amount, kind, category, id, date), id)
            == txs
  {
    FilterAll(txs, OtherThan(id));
    if desc != [] && amountText != [] {
      var r := AddTransaction(txs, desc, amountText, amount, kind, category, id, date);
      assert r == [r[0]] + txs;
      FilterConcat([r[0]], txs, OtherThan(id));
    }
  }
}
