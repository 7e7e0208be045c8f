/**
 * The API handlers that carry logic: the four POST handlers, which store
 * a record for the signed-in user whatever `userId` the body names, and
 * the dashboard handler, which assembles the month's figures.
 *
 * A request body is a JSON object whose fields may be missing; each field
 * is an `Option` here. Validation is reduced to the presence of every
 * required column of the insert schema.
 */
module Routes {
  import opened Options
  import opened Seqs
  import opened Dates
  import opened Schema
  import opened Categories
  import opened Storage
  import opened Dashboard

  /** The outcomes a handler can send: 401, 400, 201 with the record, 200 with a body. */
  datatype Reply<T> = Unauthorized | BadRequest | Created(record: T) | Ok(body: T)

  // Incomes

  datatype IncomeBody = IncomeBody(userId: Option<int>, description: Option<string>, amount: Option<Cents>,
                                   date: Option<Date>, notes: Option<string>)

  /** The JSON object an insert record is written as. */
  function IncomeBodyOf(ins: InsertIncome): IncomeBody {
    IncomeBody(Some(ins.userId), Some(ins.description), Some(ins.amount), Some(ins.date), ins.notes)
  }

  /** `insertIncomeSchema.parse`: succeeds exactly when every required column is present. */
  function ParseIncome(b: IncomeBody): (r: Option<InsertIncome>)
    ensures r.Some? <==> b.userId.Some? && b.description.Some? && b.amount.Some? && b.date.Some?
    ensures r.Some? ==> IncomeBodyOf(r.value) == b
  {
    if b.userId.Some? && b.description.Some? && b.amount.Some? && b.date.Some? then
      Some(InsertIncome(b.userId.value, b.description.value, b.amount.value, b.date.value, b.notes))
    else None
  }

  lemma ParseIncomeRoundTrip(ins: InsertIncome)
    ensures ParseIncome(IncomeBodyOf(ins)) == Some(ins)
  {
  }

  /** `parse({ ...req.body, userId: req.user.id })`: the session's id replaces the body's. */
  function IncomeRequest(uid: nat, b: IncomeBody): (r: Option<InsertIncome>)
    ensures r.Some? <==> b.description.Some? && b.amount.Some? && b.date.Some?
    ensures r.Some? ==> r.value.userId == uid && IncomeBodyOf(r.value) == b.(userId := Some(uid))
  {
    ParseIncome(b.(userId := Some(uid)))
  }

  /** POST /api/incomes. */
  method PostIncome(store: MemStorage, session: Option<nat>, body: IncomeBody) returns (reply: Reply<Income>)
    requires store.Valid()
    modifies store
    ensures store.Valid()
    ensures session.None? ==> reply == Unauthorized && unchanged(store)
    ensures session.Some? && IncomeRequest(session.value, body).None? ==> reply == BadRequest && unchanged(store)
    ensures session.Some? && IncomeRequest(session.value, body).Some? ==>
      reply == Created(IncomeRequest(session.value, body).value.WithId(old(store.incomeId))) &&
      store.incomes.Values() == old(store.incomes.Values()) + [reply.record] &&
      store.incomeId == old(store.incomeId) + 1 &&
      store.users == old(store.users) && store.expenses == old(store.expenses) &&
      store.assets == old(store.assets) && store.debts == old(store.debts)
    ensures reply.Created? ==> reply.record.userId == session.value
    ensures reply.Created? ==>
      multiset(store.GetIncomes(session.value)) == multiset(old(store.GetIncomes(session.value))) + multiset{reply.record}
    ensures reply.Created? ==> forall v :: v != session.value ==> store.GetIncomes(v) == old(store.GetIncomes(v))
  {
    if session.None? {
      return Unauthorized;
    }
    var request := IncomeRequest(session.value, body);
    if request.None? {
      return BadRequest;
    }
    ghost var before := store.incomes.Values();
    var income := store.CreateIncome(request.value);
    reply := Created(income);
    forall v | v != session.value
      ensures store.GetIncomes(v) == old(store.GetIncomes(v))
    {
      FilterSnoc(before, income, IncomeOwnedBy(v));
      assert old(store.GetIncomes(v)) == SortNewestFirst(Filter(before, IncomeOwnedBy(v)), IncomeDate);
    }
    FilterSnoc(before, income, IncomeOwnedBy(session.value));
  }

  // Expenses

  datatype ExpenseBody = ExpenseBody(userId: Option<int>, description: Option<string>, amount: Option<Cents>,
                                     date: Option<Date>, category: Option<string>, notes: Option<string>)

  /** The JSON object an insert record is written as. */
  function ExpenseBodyOf(ins: InsertExpense): ExpenseBody {
    ExpenseBody(Some(ins.userId), Some(ins.description), Some(ins.amount), Some(ins.date), Some(ins.category), ins.notes)
  }

  /** `insertExpenseSchema.parse`: succeeds exactly when every required column is present. */
  function ParseExpense(b: ExpenseBody): (r: Option<InsertExpense>)
    ensures r.Some? <==> b.userId.Some? && b.description.Some? && b.amount.Some? && b.date.Some? && b.category.Some?
    ensures r.Some? ==> ExpenseBodyOf(r.value) == b
  {
    if b.userId.Some? && b.description.Some? && b.amount.Some? && b.date.Some? && b.category.Some? then
      Some(InsertExpense(b.userId.value, b.description.value, b.amount.value, b.date.value, b.category.value, b.notes))
    else None
  }

  lemma ParseExpenseRoundTrip(ins: InsertExpense)
    ensures ParseExpense(ExpenseBodyOf(ins)) == Some(ins)
  {
  }

  /** `parse({ ...req.body, userId: req.user.id })`: the session's id replaces the body's. */
  function ExpenseRequest(uid: nat, b: ExpenseBody): (r: Option<InsertExpense>)
    ensures r.Some? <==> b.description.Some? && b.amount.Some? && b.date.Some? && b.category.Some?
    ensures r.Some? ==> r.value.userId == uid && ExpenseBodyOf(r.value) == b.(userId := Some(uid))
  {
    ParseExpense(b.(userId := Some(uid)))
  }

  /** POST /api/expenses. */
  method PostExpense(store: MemStorage, session: Option<nat>, body: ExpenseBody) returns (reply: Reply<Expense>)
    requires store.Valid()
    modifies store
    ensures store.Valid()
    ensures session.None? ==> reply == Unauthorized && unchanged(store)
    ensures session.Some? && ExpenseRequest(session.value, body).None? ==> reply == BadRequest && unchanged(store)
    ensures session.Some? && ExpenseRequest(session.value, body).Some? ==>
      reply == Created(ExpenseRequest(session.value, body).value.WithId(old(store.expenseId))) &&
      store.expenses.Values() == old(store.expenses.Values()) + [reply.record] &&
      store.expenseId == old(store.expenseId) + 1 &&
      store.users == old(store.users) && store.incomes == old(store.incomes) &&
      store.assets == old(store.assets) && store.debts == old(store.debts)
    ensures reply.Created? ==> reply.record.userId == session.value
    ensures reply.Created? ==>
      multiset(store.GetExpenses(session.value)) == multiset(old(store.GetExpenses(session.value))) + multiset{reply.record}
    ensures reply.Created? ==> forall v :: v != session.value ==> store.GetExpenses(v) == old(store.GetExpenses(v))
  {
    if session.None? {
      return Unauthorized;
    }
    var request := ExpenseRequest(session.value, body);
    if request.None? {
      return BadRequest;
    }
    ghost var before := store.expenses.Values();
    var expense := store.CreateExpense(request.value);
    reply := Created(expense);
    forall v | v != session.value
      ensures store.GetExpenses(v) == old(store.GetExpenses(v))
    {
      FilterSnoc(before, expense, ExpenseOwnedBy(v));
      assert old(store.GetExpenses(v)) == SortNewestFirst(Filter(before, ExpenseOwnedBy(v)), ExpenseDate);
    }
    FilterSnoc(before, expense, ExpenseOwnedBy(session.value));
  }

  // Assets

  datatype AssetBody = AssetBody(userId: Option<int>, name: Option<string>, value: Option<Cents>, date: Option<Date>)

  /** The JSON object an insert record is written as. */
  function AssetBodyOf(ins: InsertAsset): AssetBody {
    AssetBody(Some(ins.userId), Some(ins.name), Some(ins.value), Some(ins.date))
  }

  /** `insertAssetSchema.parse`: succeeds exactly when every required column is present. */
  function ParseAsset(b: AssetBody): (r: Option<InsertAsset>)
    ensures r.Some? <==> b.userId.Some? && b.name.Some? && b.value.Some? && b.date.Some?
    ensures r.Some? ==> AssetBodyOf(r.value) == b
  {
    if b.userId.Some? && b.name.Some? && b.value.Some? && b.date.Some? then
      Some(InsertAsset(b.userId.value, b.name.value, b.value.value, b.date.value))
    else None
  }

  lemma ParseAssetRoundTrip(ins: InsertAsset)
    ensures ParseAsset(AssetBodyOf(ins)) == Some(ins)
  {
  }

  /** `parse({ ...req.body, userId: req.user.id })`: the session's id replaces the body's. */
  function AssetRequest(uid: nat, b: AssetBody): (r: Option<InsertAsset>)
    ensures r.Some? <==> b.name.Some? && b.value.Some? && b.date.Some?
    ensures r.Some? ==> r.value.userId == uid && AssetBodyOf(r.value) == b.(userId := Some(uid))
  {
    ParseAsset(b.(userId := Some(uid)))
  }

  /** POST /api/assets. */
  method PostAsset(store: MemStorage, session: Option<nat>, body: AssetBody) returns (reply: Reply<Asset>)
    requires store.Valid()
    modifies store
    ensures store.Valid()
    ensures session.None? ==> reply == Unauthorized && unchanged(store)
    ensures session.Some? && AssetRequest(session.value, body).None? ==> reply == BadRequest && unchanged(store)
    ensures session.Some? && AssetRequest(session.value, body).Some? ==>
      reply == Created(AssetRequest(session.value, body).value.WithId(old(store.assetId))) &&
      store.assets.Values() == old(store.assets.Values()) + [reply.record] &&
      store.assetId == old(store.assetId) + 1 &&
      store.users == old(store.users) && store.incomes == old(store.incomes) &&
      store.expenses == old(store.expenses) && store.debts == old(store.debts)
    ensures reply.Created? ==> reply.record.userId == session.value
    ensures reply.Created? ==> store.GetAssets(session.value) == old(store.GetAssets(session.value)) + [reply.record]
    ensures reply.Created? ==> forall v :: v != session.value ==> store.GetAssets(v) == old(store.GetAssets(v))
  {
    if session.None? {
      return Unauthorized;
    }
    var request := AssetRequest(session.value, body);
    if request.None? {
      return BadRequest;
    }
    ghost var before := store.assets.Values();
    var asset := store.CreateAsset(request.value);
    reply := Created(asset);
    forall v | v != session.value
      ensures store.GetAssets(v) == old(store.GetAssets(v))
    {
      FilterSnoc(before, asset, AssetOwnedBy(v));
      assert old(store.GetAssets(v)) == Filter(before, AssetOwnedBy(v));
    }
    FilterSnoc(before, asset, AssetOwnedBy(session.value));
  }

  // Debts

  datatype DebtBody = DebtBody(userId: Option<int>, name: Option<string>, balance: Option<Cents>, date: Option<Date>)

  /** The JSON object an insert record is written as. */
  function DebtBodyOf(ins: InsertDebt): DebtBody {
    DebtBody(Some(ins.userId), Some(ins.name), Some(ins.balance), Some(ins.date))
  }

  /** `insertDebtSchema.parse`: succeeds exactly when every required column is present. */
  function ParseDebt(b: DebtBody): (r: Option<InsertDebt>)
    ensures r.Some? <==> b.userId.Some? && b.name.Some? && b.balance.Some? && b.date.Some?
    ensures r.Some? ==> DebtBodyOf(r.value) == b
  {
    if b.userId.Some? && b.name.Some? && b.balance.Some? && b.date.Some? then
      Some(InsertDebt(b.userId.value, b.name.value, b.balance.value, b.date.value))
    else None
  }

  lemma ParseDebtRoundTrip(ins: InsertDebt)
    ensures ParseDebt(DebtBodyOf(ins)) == Some(ins)
  {
  }

  /** `parse({ ...req.body, userId: req.user.id })`: the session's id replaces the body's. */
  function DebtRequest(uid: nat, b: DebtBody): (r: Option<InsertDebt>)
    ensures r.Some? <==> b.name.Some? && b.balance.Some? && b.date.Some?
    ensures r.Some? ==> r.value.userId == uid && DebtBodyOf(r.value) == b.(userId := Some(uid))
  {
    ParseDebt(b.(userId := Some(uid)))
  }

  /** POST /api/debts. */
  method PostDebt(store: MemStorage, session: Option<nat>, body: DebtBody) returns (reply: Reply<Debt>)
    requires store.Valid()
    modifies store
    ensures store.Valid()
    ensures session.None? ==> reply == Unauthorized && unchanged(store)
    ensures session.Some? && DebtRequest(session.value, body).None? ==> reply == BadRequest && unchanged(store)
    ensures session.Some? && DebtRequest(session.value, body).Some? ==>
      reply == Created(DebtRequest(session.value, body).value.WithId(old(store.debtId))) &&
      store.debts.Values() == old(store.debts.Values()) + [reply.record] &&
      store.debtId == old(store.debtId) + 1 &&
      store.users == old(store.users) && store.incomes == old(store.incomes) &&
      store.expenses == old(store.expenses) && store.assets == old(store.assets)
    ensures reply.Created? ==> reply.record.userId == session.value
    ensures reply.Created? ==> store.GetDebts(session.value) == old(store.GetDebts(session.value)) + [reply.record]
    ensures reply.Created? ==> forall v :: v != session.value ==> store.GetDebts(v) == old(store.GetDebts(v))
  {
    if session.None? {
      return Unauthorized;
    }
    var request := DebtRequest(session.value, body);
    if request.None? {
      return BadRequest;
    }
    ghost var before := store.debts.Values();
    var debt := store.CreateDebt(request.value);
    reply := Created(debt);
    forall v | v != session.value
      ensures store.GetDebts(v) == old(store.GetDebts(v))
    {
      FilterSnoc(before, debt, DebtOwnedBy(v));
      assert old(store.GetDebts(v)) == Filter(before, DebtOwnedBy(v));
    }
    FilterSnoc(before, debt, DebtOwnedBy(session.value));
  }

  // Dashboard

  /**
   * GET /api/dashboard for the month `month0` (0-based) of `year`, the
   * current month of the server's clock.
   */
  method GetDashboard(store: MemStorage, session: Option<nat>, year: int, month0: int) returns (reply: Reply<Summary>)
    requires store.Valid()
    ensures session.None? <==> reply == Unauthorized
    ensures session.Some? ==> reply.Ok?
    ensures reply.Ok? ==>
      var u := session.value;
      var s := reply.body;
      s.monthlyIncome == Sum(store.GetIncomesByMonth(u, year, month0), IncomeAmount) &&
      s.monthlyExpenses == Sum(store.GetExpensesByMonth(u, year, month0), ExpenseAmount) &&
      s.netWorth == Sum(store.GetAssets(u), AssetValue) - Sum(store.GetDebts(u), DebtBalance) &&
      s.savingsRate == SavingsRate(s.monthlyIncome, s.monthlyExpenses) &&
      s.expensesByCategory == Breakdown(store.GetExpensesByMonth(u, year, month0)) &&
      GrandTotal(s.expensesByCategory) == s.monthlyExpenses &&
      s.recentTransactions == RecentTransactions(store.GetIncomes(u), store.GetExpenses(u))
  {
    if session.None? {
      return Unauthorized;
    }
    var u := session.value;
    var monthlyIncomes := store.GetIncomesByMonth(u, year, month0);
    var monthlyExpenses := store.GetExpensesByMonth(u, year, month0);
    var expensesByCategory := store.GetExpensesByCategory(u, year, month0);
    var assets := store.GetAssets(u);
    var debts := store.GetDebts(u);
    var allIncomes := store.GetIncomes(u);
    var allExpenses := store.GetExpenses(u);
    reply := Ok(Summarize(monthlyIncomes, monthlyExpenses, expensesByCategory, assets, debts, allIncomes, allExpenses));
  }

  /** In the dashboard's feed for a user, an entry's id identifies the entry. */
  lemma DashboardFeedIdsUnique(store: MemStorage, u: int)
    requires store.Valid()
    ensures forall x, y ::
      (x in RecentTransactions(store.GetIncomes(u), store.GetExpenses(u)) &&
       y in RecentTransactions(store.GetIncomes(u), store.GetExpenses(u)) && x.id == y.id) ==> x == y
  {
    store.IncomeIdsUnique(u);
    store.ExpenseIdsUnique(u);
    RecentIdsUnique(store.GetIncomes(u), store.GetExpenses(u));
  }
}
