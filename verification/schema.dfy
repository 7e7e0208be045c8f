/**
 * The five tables of the ledger and the shapes the store inserts. Money
 * columns are `numeric(10, 2)` and are held here as whole cents; `date`
 * columns are calendar dates.
 */
module Schema {
  import opened Options
  import opened Dates

  /** Whole cents: a `numeric(10, 2)` value times 100. */
  type Cents = int

  datatype User = User(id: nat, username: string, password: string,
                       firstName: Option<string>, lastName: Option<string>)

  /**
   * The users insert schema does not omit `id`, so a caller may pass one;
   * the store's `{ ...insertUser, id }` overrides it.
   */
  datatype InsertUser = InsertUser(id: Option<nat>, username: string, password: string,
                                   firstName: Option<string>, lastName: Option<string>)
  {
    /** `{ ...this, id }`. */
    function WithId(newId: nat): (u: User)
      ensures u.id == newId
      ensures InsertUser(id, u.username, u.password, u.firstName, u.lastName) == this
    {
      User(newId, username, password, firstName, lastName)
    }
  }

  datatype Income = Income(id: nat, userId: int, description: string, amount: Cents,
                           date: Date, notes: Option<string>)

  datatype InsertIncome = InsertIncome(userId: int, description: string, amount: Cents,
                                       date: Date, notes: Option<string>)
  {
    /** `{ ...this, id }`. */
    function WithId(id: nat): (r: Income)
      ensures r.id == id
      ensures InsertIncome(r.userId, r.description, r.amount, r.date, r.notes) == this
    {
      Income(id, userId, description, amount, date, notes)
    }
  }

  datatype Expense = Expense(id: nat, userId: int, description: string, amount: Cents,
                             date: Date, category: string, notes: Option<string>)

  datatype InsertExpense = InsertExpense(userId: int, description: string, amount: Cents,
                                         date: Date, category: string, notes: Option<string>)
  {
    /** `{ ...this, id }`. */
    function WithId(id: nat): (r: Expense)
      ensures r.id == id
      ensures InsertExpense(r.userId, r.description, r.amount, r.date, r.category, r.notes) == this
    {
      Expense(id, userId, description, amount, date, category, notes)
    }
  }

  datatype Asset = Asset(id: nat, userId: int, name: string, value: Cents, date: Date)

  datatype InsertAsset = InsertAsset(userId: int, name: string, value: Cents, date: Date)
  {
    /** `{ ...this, id }`. */
    function WithId(id: nat): (r: Asset)
      ensures r.id == id
      ensures InsertAsset(r.userId, r.name, r.value, r.date) == this
    {
      Asset(id, userId, name, value, date)
    }
  }

  datatype Debt = Debt(id: nat, userId: int, name: string, balance: Cents, date: Date)

  datatype InsertDebt = InsertDebt(userId: int, name: string, balance: Cents, date: Date)
  {
    /** `{ ...this, id }`. */
    function WithId(id: nat): (r: Debt)
      ensures r.id == id
      ensures InsertDebt(r.userId, r.name, r.balance, r.date) == this
    {
      Debt(id, userId, name, balance, date)
    }
  }

  // Field selectors, to pass to the generic sort, filter and sum.

  function UserId(u: User): nat { u.id }
  function IncomeId(i: Income): nat { i.id }
  function ExpenseId(e: Expense): nat { e.id }
  function AssetId(a: Asset): nat { a.id }
  function DebtId(d: Debt): nat { d.id }

  function IncomeDate(i: Income): Date { i.date }
  function ExpenseDate(e: Expense): Date { e.date }

  function IncomeAmount(i: Income): Cents { i.amount }
  function ExpenseAmount(e: Expense): Cents { e.amount }
  function AssetValue(a: Asset): Cents { a.value }
  function DebtBalance(d: Debt): Cents { d.balance }
}
