/**
 * The figures of the `/api/dashboard` reply, computed from records already
 * fetched from the store: the month's totals, net worth, savings rate and
 * the feed of the ten most recent transactions.
 */
module Dashboard {
  import opened Options
  import opened Seqs
  import opened Dates
  import opened Schema
  import opened Categories
  import opened Numerals
  import opened OrderedMaps

  /** `monthlyIncomes.reduce((sum, income) => sum + Number(income.amount), 0)`. */
  function TotalIncome(incomes: seq<Income>): (r: Cents)
    ensures incomes == [] ==> r == 0
    ensures (forall i :: 0 <= i < |incomes| ==> incomes[i].amount >= 0) ==> r >= 0
  {
    SumNonNegative(incomes, IncomeAmount);
    Sum(incomes, IncomeAmount)
  }

  /** `monthlyExpenses.reduce((sum, expense) => sum + Number(expense.amount), 0)`. */
  function TotalExpenses(expenses: seq<Expense>): (r: Cents)
    ensures expenses == [] ==> r == 0
    ensures (forall i :: 0 <= i < |expenses| ==> expenses[i].amount >= 0) ==> r >= 0
  {
    SumNonNegative(expenses, ExpenseAmount);
    Sum(expenses, ExpenseAmount)
  }

  /** Total asset value minus total debt balance; nothing owned and nothing owed is worth 0. */
  function NetWorth(assets: seq<Asset>, debts: seq<Debt>): (r: Cents)
    ensures assets == [] && debts == [] ==> r == 0
    ensures (forall i :: 0 <= i < |assets| ==> assets[i].value >= 0) && debts == [] ==> r >= 0
  {
    SumNonNegative(assets, AssetValue);
    Sum(assets, AssetValue) - Sum(debts, DebtBalance)
  }

  /** A new asset raises net worth by its value; a new debt lowers it by its balance. */
  lemma NetWorthGrowth(assets: seq<Asset>, debts: seq<Debt>, a: Asset, d: Debt)
    ensures NetWorth(assets + [a], debts) == NetWorth(assets, debts) + a.value
    ensures NetWorth(assets, debts + [d]) == NetWorth(assets, debts) - d.balance
  {
    SumSnoc(assets, a, AssetValue);
    SumSnoc(debts, d, DebtBalance);
  }

  /** Net worth depends on which assets and debts there are, not on their order. */
  lemma NetWorthOrderFree(assets: seq<Asset>, debts: seq<Debt>, assets': seq<Asset>, debts': seq<Debt>)
    requires multiset(assets) == multiset(assets') && multiset(debts) == multiset(debts')
    ensures NetWorth(assets, debts) == NetWorth(assets', debts')
  {
    SumPermutation(assets, assets', AssetValue);
    SumPermutation(debts, debts', DebtBalance);
  }

  /**
   * The share of the month's income not spent, in percent; 0 when there is
   * no income, which avoids dividing by zero.
   */
  function SavingsRate(totalIncome: Cents, totalExpenses: Cents): (r: real)
    ensures totalIncome <= 0 ==> r == 0.0
    ensures totalIncome > 0 ==> r * totalIncome as real == (totalIncome - totalExpenses) as real * 100.0
    ensures 0 <= totalExpenses <= totalIncome ==> 0.0 <= r <= 100.0
    ensures totalIncome > 0 && totalExpenses > totalIncome ==> r < 0.0
  {
    if totalIncome > 0 then
      var rate := (totalIncome - totalExpenses) as real / totalIncome as real;
      assert rate * totalIncome as real == (totalIncome - totalExpenses) as real;
      assert 0 <= totalExpenses <= totalIncome ==> 0.0 <= rate <= 1.0;
      assert totalExpenses > totalIncome ==> rate < 0.0;
      rate * 100.0
    else 0.0
  }

  // The transaction feed

  datatype TransactionType = IncomeType | ExpenseType

  /** The shape both kinds of record are mapped to for the feed. */
  datatype Transaction = Transaction(id: string, kind: TransactionType, description: string,
                                     amount: Cents, date: Date, category: string,
                                     notes: Option<string>)

  function TransactionDate(t: Transaction): Date { t.date }

  /** An income as a feed entry: id `income-<id>`, category "Income". */
  function IncomeEntry(i: Income): (t: Transaction)
    ensures t.id == "income-" + Decimal(i.id)
    ensures t.kind == IncomeType && t.category == "Income"
    ensures t.description == i.description && t.amount == i.amount && t.date == i.date && t.notes == i.notes
  {
    Transaction("income-" + Decimal(i.id), IncomeType, i.description, i.amount, i.date, "Income", i.notes)
  }

  /** An expense as a feed entry: id `expense-<id>`, its own category. */
  function ExpenseEntry(e: Expense): (t: Transaction)
    ensures t.id == "expense-" + Decimal(e.id)
    ensures t.kind == ExpenseType && t.category == e.category
    ensures t.description == e.description && t.amount == e.amount && t.date == e.date && t.notes == e.notes
  {
    Transaction("expense-" + Decimal(e.id), ExpenseType, e.description, e.amount, e.date, e.category, e.notes)
  }

  /** `[...incomes.map(IncomeEntry), ...expenses.map(ExpenseEntry)]`. */
  function Merged(incomes: seq<Income>, expenses: seq<Expense>): (r: seq<Transaction>)
    ensures |r| == |incomes| + |expenses|
    ensures forall k :: 0 <= k < |incomes| ==> r[k] == IncomeEntry(incomes[k])
    ensures forall k :: |incomes| <= k < |r| ==> r[k] == ExpenseEntry(expenses[k - |incomes|])
  {
    seq(|incomes|, k requires 0 <= k < |incomes| => IncomeEntry(incomes[k])) +
    seq(|expenses|, k requires 0 <= k < |expenses| => ExpenseEntry(expenses[k]))
  }

  /** How many entries the dashboard's feed shows. */
  const RecentLimit: nat := 10

  function Min(a: int, b: int): int {
    if a <= b then a else b
  }

  /** The merged entries sorted newest first. */
  function SortedFeed(incomes: seq<Income>, expenses: seq<Expense>): (r: seq<Transaction>)
    ensures multiset(r) == multiset(Merged(incomes, expenses))
    ensures NewestFirst(r, TransactionDate)
  {
    SortNewestFirst(Merged(incomes, expenses), TransactionDate)
  }

  /** `.sort(newest first).slice(0, 10)` over the merged entries. */
  function RecentTransactions(incomes: seq<Income>, expenses: seq<Expense>): (r: seq<Transaction>)
    ensures |r| == Min(RecentLimit, |incomes| + |expenses|)
    ensures NewestFirst(r, TransactionDate)
    ensures multiset(r) <= multiset(Merged(incomes, expenses))
  {
    var sorted := SortedFeed(incomes, expenses);
    var r := sorted[..Min(RecentLimit, |sorted|)];
    assert sorted == r + sorted[|r|..];
    r
  }

  /** Every merged entry left out of the feed is dated no later than every entry kept. */
  lemma RecentKeepsNewest(incomes: seq<Income>, expenses: seq<Expense>)
    ensures forall y, x ::
      (y in multiset(Merged(incomes, expenses)) - multiset(RecentTransactions(incomes, expenses)) &&
       x in RecentTransactions(incomes, expenses)) ==> NoLater(y.date, x.date)
  {
    var sorted := SortedFeed(incomes, expenses);
    assert RecentTransactions(incomes, expenses) == sorted[..Min(RecentLimit, |sorted|)];
    NewestFirstPrefix(sorted, Min(RecentLimit, |sorted|), TransactionDate);
  }

  /** Every feed entry is the image of one of the incomes or one of the expenses. */
  lemma RecentFromSources(incomes: seq<Income>, expenses: seq<Expense>)
    ensures forall x :: x in RecentTransactions(incomes, expenses) ==>
      (exists k :: 0 <= k < |incomes| && x == IncomeEntry(incomes[k])) ||
      (exists k :: 0 <= k < |expenses| && x == ExpenseEntry(expenses[k]))
  {
    forall x | x in RecentTransactions(incomes, expenses)
      ensures (exists k :: 0 <= k < |incomes| && x == IncomeEntry(incomes[k])) ||
              (exists k :: 0 <= k < |expenses| && x == ExpenseEntry(expenses[k]))
    {
      assert x in multiset(Merged(incomes, expenses));
      MergedSource(incomes, expenses, x);
    }
  }

  /** An income entry and an expense entry never share an id: the prefixes differ. */
  lemma EntryKindsDistinct(i: Income, e: Expense)
    ensures IncomeEntry(i).id != ExpenseEntry(e).id
  {
    assert IncomeEntry(i).id[1] == 'n' && ExpenseEntry(e).id[1] == 'x';
  }

  /** Among incomes with unique ids, two income entries with one id are one entry. */
  lemma IncomeEntryIds(incomes: seq<Income>, i: Income, i': Income)
    requires forall a, b :: a in incomes && b in incomes && a.id == b.id ==> a == b
    requires i in incomes && i' in incomes && IncomeEntry(i).id == IncomeEntry(i').id
    ensures i == i'
  {
    assert Decimal(i.id) == IncomeEntry(i).id[7..] == IncomeEntry(i').id[7..] == Decimal(i'.id);
    DecimalInjective(i.id, i'.id);
  }

  /** Among expenses with unique ids, two expense entries with one id are one entry. */
  lemma ExpenseEntryIds(expenses: seq<Expense>, e: Expense, e': Expense)
    requires forall a, b :: a in expenses && b in expenses && a.id == b.id ==> a == b
    requires e in expenses && e' in expenses && ExpenseEntry(e).id == ExpenseEntry(e').id
    ensures e == e'
  {
    assert Decimal(e.id) == ExpenseEntry(e).id[8..] == ExpenseEntry(e').id[8..] == Decimal(e'.id);
    DecimalInjective(e.id, e'.id);
  }

  /** Every merged entry is the image of one of the incomes or one of the expenses. */
  lemma MergedSource(incomes: seq<Income>, expenses: seq<Expense>, x: Transaction)
    requires x in Merged(incomes, expenses)
    ensures (exists k :: 0 <= k < |incomes| && x == IncomeEntry(incomes[k])) ||
            (exists k :: 0 <= k < |expenses| && x == ExpenseEntry(expenses[k]))
  {
    var m := Merged(incomes, expenses);
    var j :| 0 <= j < |m| && m[j] == x;
    if j >= |incomes| {
      assert x == ExpenseEntry(expenses[j - |incomes|]);
    }
  }

  /** When record ids are unique per kind, merged entries at two positions with one id are one entry. */
  lemma MergedIdsUniqueAt(incomes: seq<Income>, expenses: seq<Expense>, j: nat, l: nat)
    requires forall a, b :: a in incomes && b in incomes && a.id == b.id ==> a == b
    requires forall a, b :: a in expenses && b in expenses && a.id == b.id ==> a == b
    requires j < |incomes| + |expenses| && l < |incomes| + |expenses|
    requires Merged(incomes, expenses)[j].id == Merged(incomes, expenses)[l].id
    ensures Merged(incomes, expenses)[j] == Merged(incomes, expenses)[l]
  {
    var n := |incomes|;
    if j < n && l < n {
      IncomeEntryIds(incomes, incomes[j], incomes[l]);
    } else if j < n {
      EntryKindsDistinct(incomes[j], expenses[l - n]);
    } else if l < n {
      EntryKindsDistinct(incomes[l], expenses[j - n]);
    } else {
      ExpenseEntryIds(expenses, expenses[j - n], expenses[l - n]);
    }
  }

  /** When record ids are unique per kind, an id names at most one merged entry. */
  lemma MergedIdsUnique(incomes: seq<Income>, expenses: seq<Expense>, x: Transaction, y: Transaction)
    requires forall a, b :: a in incomes && b in incomes && a.id == b.id ==> a == b
    requires forall a, b :: a in expenses && b in expenses && a.id == b.id ==> a == b
    requires x in Merged(incomes, expenses) && y in Merged(incomes, expenses) && x.id == y.id
    ensures x == y
  {
    var m := Merged(incomes, expenses);
    var j :| 0 <= j < |m| && m[j] == x;
    var l :| 0 <= l < |m| && m[l] == y;
    MergedIdsUniqueAt(incomes, expenses, j, l);
  }

  /** When record ids are unique per kind, a feed entry's id identifies the entry. */
  lemma RecentIdsUnique(incomes: seq<Income>, expenses: seq<Expense>)
    requires forall a, b :: a in incomes && b in incomes && a.id == b.id ==> a == b
    requires forall a, b :: a in expenses && b in expenses && a.id == b.id ==> a == b
    ensures forall x, y ::
      x in RecentTransactions(incomes, expenses) && y in RecentTransactions(incomes, expenses) && x.id == y.id ==> x == y
  {
    var r := RecentTransactions(incomes, expenses);
    var m := Merged(incomes, expenses);
    forall x, y | x in r && y in r && x.id == y.id
      ensures x == y
    {
      assert x in multiset(m) && y in multiset(m);
      MergedIdsUnique(incomes, expenses, x, y);
    }
  }

  // The reply

  /** The body of the dashboard reply. */
  datatype Summary = Summary(netWorth: Cents, monthlyIncome: Cents, monthlyExpenses: Cents,
                             savingsRate: real, expensesByCategory: seq<CategoryTotal>,
                             recentTransactions: seq<Transaction>)

  /** The reply built from the records the handler fetched. */
  function Summarize(monthlyIncomes: seq<Income>, monthlyExpenses: seq<Expense>,
                     expensesByCategory: seq<CategoryTotal>, assets: seq<Asset>, debts: seq<Debt>,
                     allIncomes: seq<Income>, allExpenses: seq<Expense>): (r: Summary)
    ensures r.monthlyIncome <= 0 ==> r.savingsRate == 0.0
    ensures r.monthlyIncome > 0 ==>
      r.savingsRate * r.monthlyIncome as real == (r.monthlyIncome - r.monthlyExpenses) as real * 100.0
    ensures r.expensesByCategory == expensesByCategory
    ensures |r.recentTransactions| == Min(RecentLimit, |allIncomes| + |allExpenses|)
  {
    var totalIncome := TotalIncome(monthlyIncomes);
    var totalExpenses := TotalExpenses(monthlyExpenses);
    Summary(NetWorth(assets, debts), totalIncome, totalExpenses,
            SavingsRate(totalIncome, totalExpenses), expensesByCategory,
            RecentTransactions(allIncomes, allExpenses))
  }

  /** The feed of one January 2024 income and one later expense lists the expense first. */
  lemma OneMonthFeed(i: Income, e: Expense)
    requires i.date == Date(2024, 1, 15) && e.date == Date(2024, 1, 20)
    ensures RecentTransactions([i], [e]) == [ExpenseEntry(e), IncomeEntry(i)]
  {
    var m := Merged([i], [e]);
    assert |m| == 2 && m[0] == IncomeEntry(i) && m[1] == ExpenseEntry(e);
    assert m == [m[0], m[1]];
    SortTwo(m[0], m[1], TransactionDate);
    assert SortedFeed([i], [e]) == [m[1], m[0]];
  }

  /**
   * One salary of 5000.00 and one food expense of 3200.00 in January 2024:
   * 36% of the income is saved, the breakdown has the single food total,
   * and the feed shows the later expense before the income.
   */
  lemma OneMonthExample(i: Income, e: Expense)
    requires i == Income(1, 1, "Salary", 500000, Date(2024, 1, 15), None)
    requires e == Expense(1, 1, "Groceries", 320000, Date(2024, 1, 20), "food", None)
    ensures SavingsRate(TotalIncome([i]), TotalExpenses([e])) == 36.0
    ensures Breakdown([e]) == [CategoryTotal("food", 320000)]
    ensures RecentTransactions([i], [e]) == [ExpenseEntry(e), IncomeEntry(i)]
  {
    SumSnoc([], i, IncomeAmount);
    SumSnoc([], e, ExpenseAmount);
    assert [] + [i] == [i] && [] + [e] == [e];
    assert TotalIncome([i]) == 500000 && TotalExpenses([e]) == 320000;
    assert Tally([e]) == AddExpense(Empty(), e) by {
      assert [e][..0] == [];
    }
    OneMonthFeed(i, e);
  }
}
