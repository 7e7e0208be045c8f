/**
 * `MemStorage`, the process-wide in-memory ledger store: five JavaScript
 * `Map`s from id to record and five id counters that start at 1.
 */
module Storage {
  import opened Options
  import opened Seqs
  import opened Dates
  import opened OrderedMaps
  import opened Schema
  import opened Categories

  /**
   * The invariant of one table with counter `next`: the keys are the ids
   * 1, 2, ..., next - 1 in the order they were handed out, and every record
   * is stored under its own id.
   */
  ghost predicate IdKeyed<V>(m: OrderedMap<nat, V>, next: nat, id: V -> nat) {
    next >= 1 && |m.keys| == next - 1 &&
    (forall i :: 0 <= i < |m.keys| ==> m.keys[i] == i + 1) &&
    m.Listed() &&
    (forall k :: k in m.entries ==> id(m.entries[k]) == k)
  }

  /** A table keeps the `Map` invariant: each key is listed once. */
  lemma IdKeyedValid<V>(m: OrderedMap<nat, V>, next: nat, id: V -> nat)
    requires IdKeyed(m, next, id)
    ensures m.Valid()
  {
  }

  /** Storing a record under the counter's value keeps the invariant once the counter is bumped. */
  lemma IdKeyedInsert<V>(m: OrderedMap<nat, V>, next: nat, id: V -> nat, v: V)
    requires IdKeyed(m, next, id) && id(v) == next
    ensures next !in m.entries
    ensures IdKeyed(m.Set(next, v), next + 1, id)
    ensures m.Set(next, v).Values() == m.Values() + [v]
  {
    SetNewValues(m, next, v);
  }

  /** The values of a table come out in increasing id order, each under its own key. */
  lemma IdKeyedValues<V>(m: OrderedMap<nat, V>, next: nat, id: V -> nat)
    requires IdKeyed(m, next, id)
    ensures forall i :: 0 <= i < |m.keys| ==> id(m.Values()[i]) == i + 1
    ensures forall i, j :: 0 <= i < j < |m.keys| ==> id(m.Values()[i]) < id(m.Values()[j])
  {
    assert forall i :: 0 <= i < |m.keys| ==> m.keys[i] in m.entries;
  }

  /** Within one table a record id names at most one record. */
  lemma IdKeyedUnique<V>(m: OrderedMap<nat, V>, next: nat, id: V -> nat)
    requires IdKeyed(m, next, id)
    ensures forall a, b :: a in m.Values() && b in m.Values() && id(a) == id(b) ==> a == b
  {
    IdKeyedValues(m, next, id);
    forall a, b | a in m.Values() && b in m.Values() && id(a) == id(b)
      ensures a == b
    {
      var i :| 0 <= i < |m.Values()| && m.Values()[i] == a;
      var j :| 0 <= j < |m.Values()| && m.Values()[j] == b;
      assert i + 1 == id(a) == id(b) == j + 1;
    }
  }

  // The filters the getters apply.

  function NamedAs(name: string): User -> bool {
    (u: User) => u.username == name
  }

  function IncomeOwnedBy(owner: int): Income -> bool {
    (i: Income) => i.userId == owner
  }

  function IncomeInMonth(owner: int, year: int, month0: int): Income -> bool {
    (i: Income) => i.userId == owner && i.date.year == year && Month0(i.date) == month0
  }

  function ExpenseOwnedBy(owner: int): Expense -> bool {
    (e: Expense) => e.userId == owner
  }

  function ExpenseInMonth(owner: int, year: int, month0: int): Expense -> bool {
    (e: Expense) => e.userId == owner && e.date.year == year && Month0(e.date) == month0
  }

  function AssetOwnedBy(owner: int): Asset -> bool {
    (a: Asset) => a.userId == owner
  }

  function DebtOwnedBy(owner: int): Debt -> bool {
    (d: Debt) => d.userId == owner
  }

  class MemStorage {
    var users: OrderedMap<nat, User>
    var incomes: OrderedMap<nat, Income>
    var expenses: OrderedMap<nat, Expense>
    var assets: OrderedMap<nat, Asset>
    var debts: OrderedMap<nat, Debt>

    // The id the next record of each kind will get.
    var userId: nat
    var incomeId: nat
    var expenseId: nat
    var assetId: nat
    var debtId: nat

    ghost predicate Valid()
      reads this
    {
      IdKeyed(users, userId, UserId) &&
      IdKeyed(incomes, incomeId, IncomeId) &&
      IdKeyed(expenses, expenseId, ExpenseId) &&
      IdKeyed(assets, assetId, AssetId) &&
      IdKeyed(debts, debtId, DebtId)
    }

    constructor ()
      ensures Valid()
      ensures users.Values() == [] && incomes.Values() == [] && expenses.Values() == []
      ensures assets.Values() == [] && debts.Values() == []
      ensures userId == 1 && incomeId == 1 && expenseId == 1 && assetId == 1 && debtId == 1
    {
      users, incomes, expenses, assets, debts := Empty(), Empty(), Empty(), Empty(), Empty();
      userId, incomeId, expenseId, assetId, debtId := 1, 1, 1, 1, 1;
    }

    // User methods

    /** `users.get(id)`. */
    function GetUser(id: nat): (r: Option<User>)
      reads this
      requires Valid()
      ensures r.Some? <==> id in users.entries
      ensures r.Some? ==> r.value.id == id && r.value in users.Values()
    {
      var r := users.Get(id);
      assert r.Some? ==> id in users.keys;
      IdKeyedValues(users, userId, UserId);
      r
    }

    /** The first stored user, in creation order, whose username is `name`. */
    function GetUserByUsername(name: string): (r: Option<User>)
      reads this
      requires Valid()
      ensures r.Some? ==> r.value in users.Values() && r.value.username == name
      ensures r.None? <==> forall u :: u in users.Values() ==> u.username != name
      ensures r.Some? ==> forall u :: u in users.Values() && u.username == name ==> r.value.id <= u.id
    {
      IdKeyedValues(users, userId, UserId);
      Find(users.Values(), NamedAs(name))
    }

    /** Store `{ ...insertUser, id }` under the next user id, whatever id the input carries. */
    method CreateUser(insertUser: InsertUser) returns (user: User)
      requires Valid()
      modifies this
      ensures Valid()
      ensures user == insertUser.WithId(old(userId))
      ensures userId == old(userId) + 1
      ensures user.id !in old(users.entries)
      ensures users == old(users).Set(user.id, user)
      ensures users.Values() == old(users.Values()) + [user]
      ensures incomes == old(incomes) && expenses == old(expenses) && assets == old(assets) && debts == old(debts)
      ensures incomeId == old(incomeId) && expenseId == old(expenseId) && assetId == old(assetId) && debtId == old(debtId)
    {
      var id := userId;
      user := insertUser.WithId(id);
      IdKeyedInsert(users, id, UserId, user);
      users, userId := users.Set(id, user), userId + 1;
    }

    // Income methods

    /** The incomes of `owner`, newest first. */
    function GetIncomes(owner: int): (r: seq<Income>)
      reads this
      requires Valid()
      ensures forall x :: x in r <==> x in incomes.Values() && x.userId == owner
      ensures multiset(r) == multiset(Filter(incomes.Values(), IncomeOwnedBy(owner)))
      ensures NewestFirst(r, IncomeDate)
    {
      SortNewestFirst(Filter(incomes.Values(), IncomeOwnedBy(owner)), IncomeDate)
    }

    /** No two of the incomes `getIncomes` returns share an id. */
    lemma IncomeIdsUnique(owner: int)
      requires Valid()
      ensures forall a, b :: a in GetIncomes(owner) && b in GetIncomes(owner) && a.id == b.id ==> a == b
    {
      IdKeyedUnique(incomes, incomeId, IncomeId);
    }

    /** The incomes of `owner` dated in `year` and 0-based `month0`, in creation order. */
    function GetIncomesByMonth(owner: int, year: int, month0: int): (r: seq<Income>)
      reads this
      requires Valid()
      ensures forall x :: x in r <==>
        x in incomes.Values() && x.userId == owner && x.date.year == year && Month0(x.date) == month0
      ensures forall i, j :: 0 <= i < j < |r| ==> r[i].id < r[j].id
    {
      IdKeyedValues(incomes, incomeId, IncomeId);
      FilterKeepsIncreasing(incomes.Values(), IncomeInMonth(owner, year, month0), IncomeId);
      Filter(incomes.Values(), IncomeInMonth(owner, year, month0))
    }

    /** Store `{ ...insertIncome, id }` under the next income id. */
    method CreateIncome(insertIncome: InsertIncome) returns (income: Income)
      requires Valid()
      modifies this
      ensures Valid()
      ensures income == insertIncome.WithId(old(incomeId))
      ensures incomeId == old(incomeId) + 1
      ensures income.id !in old(incomes.entries)
      ensures incomes == old(incomes).Set(income.id, income)
      ensures incomes.Values() == old(incomes.Values()) + [income]
      ensures users == old(users) && expenses == old(expenses) && assets == old(assets) && debts == old(debts)
      ensures userId == old(userId) && expenseId == old(expenseId) && assetId == old(assetId) && debtId == old(debtId)
    {
      var id := incomeId;
      income := insertIncome.WithId(id);
      IdKeyedInsert(incomes, id, IncomeId, income);
      incomes, incomeId := incomes.Set(id, income), incomeId + 1;
    }

    // Expense methods

    /** The expenses of `owner`, newest first. */
    function GetExpenses(owner: int): (r: seq<Expense>)
      reads this
      requires Valid()
      ensures forall x :: x in r <==> x in expenses.Values() && x.userId == owner
      ensures multiset(r) == multiset(Filter(expenses.Values(), ExpenseOwnedBy(owner)))
      ensures NewestFirst(r, ExpenseDate)
    {
      SortNewestFirst(Filter(expenses.Values(), ExpenseOwnedBy(owner)), ExpenseDate)
    }

    /** No two of the expenses `getExpenses` returns share an id. */
    lemma ExpenseIdsUnique(owner: int)
      requires Valid()
      ensures forall a, b :: a in GetExpenses(owner) && b in GetExpenses(owner) && a.id == b.id ==> a == b
    {
      IdKeyedUnique(expenses, expenseId, ExpenseId);
    }

    /** The expenses of `owner` dated in `year` and 0-based `month0`, in creation order. */
    function GetExpensesByMonth(owner: int, year: int, month0: int): (r: seq<Expense>)
      reads this
      requires Valid()
      ensures forall x :: x in r <==>
        x in expenses.Values() && x.userId == owner && x.date.year == year && Month0(x.date) == month0
      ensures forall i, j :: 0 <= i < j < |r| ==> r[i].id < r[j].id
    {
      IdKeyedValues(expenses, expenseId, ExpenseId);
      FilterKeepsIncreasing(expenses.Values(), ExpenseInMonth(owner, year, month0), ExpenseId);
      Filter(expenses.Values(), ExpenseInMonth(owner, year, month0))
    }

    /**
     * The month's expenses of `owner` folded, in creation order, into a map
     * from category to running total, returned as `{ category, total }` pairs.
     */
    method GetExpensesByCategory(owner: int, year: int, month0: int) returns (totals: seq<CategoryTotal>)
      requires Valid()
      ensures totals == Breakdown(GetExpensesByMonth(owner, year, month0))
      ensures forall i, j :: 0 <= i < j < |totals| ==> totals[i].category != totals[j].category
      ensures GrandTotal(totals) == Sum(GetExpensesByMonth(owner, year, month0), ExpenseAmount)
    {
      var monthExpenses := GetExpensesByMonth(owner, year, month0);
      var categoryMap: OrderedMap<string, Cents> := Empty();
      assert monthExpenses[..0] == [];
      for i := 0 to |monthExpenses|
        invariant categoryMap == Tally(monthExpenses[..i])
      {
        var expense := monthExpenses[i];
        var currentTotal := categoryMap.Get(expense.category).GetOr(0);
        PrefixSnoc(monthExpenses, i);
        TallySnoc(monthExpenses[..i], expense);
        AddExpenseSteps(categoryMap, expense, currentTotal);
        categoryMap := categoryMap.Set(expense.category, currentTotal + expense.amount);
      }
      assert monthExpenses[..|monthExpenses|] == monthExpenses;
      totals := Totals(categoryMap);
      BreakdownGrandTotal(monthExpenses);
    }

    /** Store `{ ...insertExpense, id }` under the next expense id. */
    method CreateExpense(insertExpense: InsertExpense) returns (expense: Expense)
      requires Valid()
      modifies this
      ensures Valid()
      ensures expense == insertExpense.WithId(old(expenseId))
      ensures expenseId == old(expenseId) + 1
      ensures expense.id !in old(expenses.entries)
      ensures expenses == old(expenses).Set(expense.id, expense)
      ensures expenses.Values() == old(expenses.Values()) + [expense]
      ensures users == old(users) && incomes == old(incomes) && assets == old(assets) && debts == old(debts)
      ensures userId == old(userId) && incomeId == old(incomeId) && assetId == old(assetId) && debtId == old(debtId)
    {
      var id := expenseId;
      expense := insertExpense.WithId(id);
      IdKeyedInsert(expenses, id, ExpenseId, expense);
      expenses, expenseId := expenses.Set(id, expense), expenseId + 1;
    }

    // Asset methods

    /** The assets of `owner`, in creation order. */
    function GetAssets(owner: int): (r: seq<Asset>)
      reads this
      requires Valid()
      ensures forall x :: x in r <==> x in assets.Values() && x.userId == owner
      ensures forall i, j :: 0 <= i < j < |r| ==> r[i].id < r[j].id
    {
      IdKeyedValues(assets, assetId, AssetId);
      FilterKeepsIncreasing(assets.Values(), AssetOwnedBy(owner), AssetId);
      Filter(assets.Values(), AssetOwnedBy(owner))
    }

    /** Store `{ ...insertAsset, id }` under the next asset id. */
    method CreateAsset(insertAsset: InsertAsset) returns (asset: Asset)
      requires Valid()
      modifies this
      ensures Valid()
      ensures asset == insertAsset.WithId(old(assetId))
      ensures assetId == old(assetId) + 1
      ensures asset.id !in old(assets.entries)
      ensures assets == old(assets).Set(asset.id, asset)
      ensures assets.Values() == old(assets.Values()) + [asset]
      ensures users == old(users) && incomes == old(incomes) && expenses == old(expenses) && debts == old(debts)
      ensures userId == old(userId) && incomeId == old(incomeId) && expenseId == old(expenseId) && debtId == old(debtId)
    {
      var id := assetId;
      asset := insertAsset.WithId(id);
      IdKeyedInsert(assets, id, AssetId, asset);
      assets, assetId := assets.Set(id, asset), assetId + 1;
    }

    // Debt methods

    /** The debts of `owner`, in creation order. */
    function GetDebts(owner: int): (r: seq<Debt>)
      reads this
      requires Valid()
      ensures forall x :: x in r <==> x in debts.Values() && x.userId == owner
      ensures forall i, j :: 0 <= i < j < |r| ==> r[i].id < r[j].id
    {
      IdKeyedValues(debts, debtId, DebtId);
      FilterKeepsIncreasing(debts.Values(), DebtOwnedBy(owner), DebtId);
      Filter(debts.Values(), DebtOwnedBy(owner))
    }

    /** Store `{ ...insertDebt, id }` under the next debt id. */
    method CreateDebt(insertDebt: InsertDebt) returns (debt: Debt)
      requires Valid()
      modifies this
      ensures Valid()
      ensures debt == insertDebt.WithId(old(debtId))
      ensures debtId == old(debtId) + 1
      ensures debt.id !in old(debts.entries)
      ensures debts == old(debts).Set(debt.id, debt)
      ensures debts.Values() == old(debts.Values()) + [debt]
      ensures users == old(users) && incomes == old(incomes) && expenses == old(expenses) && assets == old(assets)
      ensures userId == old(userId) && incomeId == old(incomeId) && expenseId == old(expenseId) && assetId == old(assetId)
    {
      var id := debtId;
      debt := insertDebt.WithId(id);
      IdKeyedInsert(debts, id, DebtId, debt);
      debts, debtId := debts.Set(id, debt), debtId + 1;
    }
  }
}
