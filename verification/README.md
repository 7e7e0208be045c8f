# Personal-finance ledger: store and dashboard model

A Dafny model of the server-side core of a personal-finance tracker. Users
sign in, then record incomes, expenses, assets and debts, and read a monthly
dashboard. The model covers three pieces:

- `MemStorage`, the process-wide in-memory ledger store. It is the class
  `Storage.MemStorage`, with five tables and five id counters. Each table is
  a JavaScript `Map` kept in insertion order (`OrderedMaps.OrderedMap`). The
  `create*` methods hand out ids. The getters filter one owner's records;
  two of them sort newest first. `GetExpensesByCategory` runs the source's
  loop over a local category map.
- The figures of the dashboard reply (`Dashboard`): monthly totals, net
  worth, savings rate and the ten-entry feed of recent transactions. The
  category breakdown is specified in `Categories`.
- The four POST handlers and the dashboard handler (`Routes`). The POST
  handlers answer 401 without a session and 400 on an invalid body. On a
  valid body they store the record with the session user's id, whatever
  `userId` the body carries.

Amounts are whole cents (a `numeric(10, 2)` value times 100). Dates are
written `(year, month, day)` triples; `Dates.Month0` is what `getMonth()`
returns. The savings rate is an exact `real`. The feed's record ids are
rendered by `Numerals.Decimal`, which is proved injective. Together with
the store invariant this makes the feed ids `income-<n>` and `expense-<n>`
unique (`Routes.DashboardFeedIdsUnique`).

Files, in dependency order:
- `options.dfy`
- `seqs.dfy`: filter, find and sum, with their algebra
- `dates.dfy`: date order and a newest-first sort
- `ordered_map.dfy`
- `numerals.dfy`
- `schema.dfy`: records and insert shapes
- `categories.dfy`
- `storage.dfy`
- `dashboard.dfy`
- `routes.dfy`

The month filter compares the year and the 0-based month of each date
(server/storage.ts:99-102). For valid dates this is the half-open interval
from the first of the month to the first of the next.

## Model

| member | source | states |
|---|---|---|
| Schema.InsertUser.WithId | server/storage.ts:84 | `{ ...insertUser, id }` carries the counter's id and every other field of the insert record unchanged |
| Schema.InsertIncome.WithId | server/storage.ts:109 | the stored income carries the given id and every field of the insert record unchanged |
| Schema.InsertExpense.WithId | server/storage.ts:149 | the stored expense carries the given id and every field of the insert record unchanged |
| Schema.InsertAsset.WithId | server/storage.ts:163 | the stored asset carries the given id and every field of the insert record unchanged |
| Schema.InsertDebt.WithId | server/storage.ts:177 | the stored debt carries the given id and every field of the insert record unchanged |
| Storage.MemStorage.constructor | server/storage.ts:53-64 | all five tables start empty and every counter starts at 1; the store invariant holds |
| Storage.IdKeyedInsert | server/storage.ts:83-85 | storing a record under the counter's value, then bumping the counter, keeps the table invariant (the keys are exactly the ids 1 to counter − 1 in the order handed out, each record under its own id); the key was unused, and the record is appended to the values |
| Storage.IdKeyedValid | server/storage.ts:83-85 | a table that keeps the invariant is a well-formed `Map`: each key is listed once |
| Storage.IdKeyedValues | server/storage.ts:60-64 | the i-th value of a table (from 0) has id i + 1, so the values come out in strictly increasing id order |
| Storage.IdKeyedUnique | server/storage.ts:83-85 | within one table, a record id names at most one stored record |
| Storage.MemStorage.GetUser | server/storage.ts:72-74 | a user is found exactly when the id is a key, and the user found carries that id |
| Storage.MemStorage.GetUserByUsername | server/storage.ts:76-80 | nothing is found exactly when no stored user has the name; otherwise a stored user with that name is found, and it is the one created first |
| Storage.MemStorage.CreateUser | server/storage.ts:82-87 | the new user is the input with id set to the old counter, overriding any id the input carried; the counter rises by 1; exactly one key is added and the user is appended; other tables and counters are unchanged; the invariant is kept |
| Storage.MemStorage.GetIncomes | server/storage.ts:90-94 | exactly the stored incomes of the owner, as a permutation of the filtered table, newest first |
| Storage.MemStorage.IncomeIdsUnique | server/storage.ts:90-94 | no two incomes returned for one owner share an id |
| Storage.MemStorage.GetIncomesByMonth | server/storage.ts:96-105 | exactly the owner's incomes whose year and 0-based month match, in increasing id (creation) order |
| Storage.MemStorage.CreateIncome | server/storage.ts:107-112 | the new income is the input plus id = old counter; the counter rises by 1; one key is added and the income appended; other tables and counters are unchanged; the invariant is kept |
| Storage.MemStorage.GetExpenses | server/storage.ts:115-119 | exactly the stored expenses of the owner, as a permutation of the filtered table, newest first |
| Storage.MemStorage.ExpenseIdsUnique | server/storage.ts:115-119 | no two expenses returned for one owner share an id |
| Storage.MemStorage.GetExpensesByMonth | server/storage.ts:121-130 | exactly the owner's expenses whose year and 0-based month match, in creation order |
| Storage.MemStorage.GetExpensesByCategory | server/storage.ts:132-145 | the loop's result equals the category breakdown of the month's expenses; categories are pairwise distinct; the totals add up to the month's expense total |
| Storage.MemStorage.CreateExpense | server/storage.ts:147-152 | the new expense is the input plus id = old counter; the counter rises by 1; one key is added and the expense appended; the rest is unchanged; the invariant is kept |
| Storage.MemStorage.GetAssets | server/storage.ts:155-159 | exactly the owner's stored assets, in creation order (strictly increasing ids) |
| Storage.MemStorage.CreateAsset | server/storage.ts:161-166 | the new asset is the input plus id = old counter; the counter rises by 1; one key is added and the asset appended; the rest is unchanged |
| Storage.MemStorage.GetDebts | server/storage.ts:169-173 | exactly the owner's stored debts, in creation order |
| Storage.MemStorage.CreateDebt | server/storage.ts:175-180 | the new debt is the input plus id = old counter; the counter rises by 1; one key is added and the debt appended; the rest is unchanged |
| OrderedMaps.OrderedMap.Get | server/storage.ts:73 | `Map.get` finds a value exactly when the key is listed in the iteration order, and the value found is the one bound to the key |
| OrderedMaps.OrderedMap.Values | server/storage.ts:77 | `Array.from(m.values())` has one value per key, in the keys' insertion order |
| OrderedMaps.Empty | server/storage.ts:54-58 | `new Map()` is well formed and has no keys |
| OrderedMaps.OrderedMap.Set | server/storage.ts:138 | `Map.set` keeps the map well formed and binds the key; a new key goes to the end of the iteration order, an existing key keeps its place |
| OrderedMaps.SetNewValues | server/storage.ts:85 | setting a fresh key appends its value to the values |
| Categories.AddExpense | server/storage.ts:137-138 | one loop step: the expense's category now maps to its old total (or 0) plus the amount, every other category keeps its total, and a new category goes last |
| Categories.Tally | server/storage.ts:136-139 | the map the loop builds over the expenses is a well-formed `Map` |
| Categories.Totals | server/storage.ts:141-144 | one `{category, total}` per key of the map, in the map's order |
| Categories.AddExpenseSteps | server/storage.ts:137-138 | one loop step (`get(...) \|\| 0` then `set`) is adding the expense's amount to its category's running total |
| Categories.TallyKeys | server/storage.ts:136-139 | after the loop, a category has a total exactly when some expense of the month has that category |
| Categories.TallyTotals | server/storage.ts:136-139 | after the loop, each category's total is the sum of the amounts of the expenses in that category |
| Categories.AddKnownTotals | server/storage.ts:137-141 | an expense of a category already in the map changes that category's total in place, by the expense's amount, and raises the grand total by it |
| Categories.AddNewTotals | server/storage.ts:137-141 | an expense of a new category appends a `{category, amount}` entry, raising the grand total by the amount |
| Categories.AddExpenseGrandTotal | server/storage.ts:137-138 | each loop step raises the sum of the running totals by the expense's amount |
| Categories.BreakdownGrandTotal | server/storage.ts:132-145 | the breakdown's totals add up to the sum of all the expenses' amounts |
| Categories.TallyFirstSeen | server/storage.ts:136-141 | the map's keys are ordered by where each category first occurs among the expenses |
| Categories.BreakdownDistinct | server/storage.ts:141-144 | no category appears twice in the breakdown |
| Categories.BreakdownCovers | server/storage.ts:132-145 | a category is in the breakdown exactly when some expense has it |
| Categories.BreakdownTotals | server/storage.ts:132-145 | each entry's total is the amount spent on that category |
| Categories.BreakdownFirstSeen | server/storage.ts:132-145 | entries come in first-seen order: an earlier entry's category occurs first earlier among the expenses |
| Categories.FirstIndex | server/storage.ts:136-138 | the first position of a category among the expenses: it holds that category, and no earlier position does |
| Seqs.Filter | server/storage.ts:91-92 | `filter` keeps exactly the values that pass, and only those, never lengthening the list |
| Seqs.FilterCount | server/storage.ts:91-92 | `filter` keeps each passing element as many times as it occurs and drops every other; with `FilterSnoc` (order) this fixes the result |
| Seqs.FilterKeepsIncreasing | server/storage.ts:156-158 | filtering keeps the relative order, so ids that increase along a table increase along the result |
| Seqs.FilterSnoc | server/storage.ts:91-92 | filtering a list with one more element at the end adds that element at the end exactly when it passes |
| Seqs.Find | server/storage.ts:77-79 | `find` returns nothing exactly when no element passes; otherwise it returns the first element that passes |
| Seqs.SumSnoc | server/routes.ts:148-151 | the `reduce` step: one more element at the end adds its value to the sum |
| Seqs.SumNonNegative | server/routes.ts:148-151 | a sum with no negative term is not negative |
| Seqs.SumAppend | server/routes.ts:148-151 | a `reduce` sum over two concatenated lists is the sum of the two sums |
| Seqs.SumPermutation | server/routes.ts:148-151 | sums depend only on the multiset of elements, not on their order |
| Dates.InsertNewestFirst | server/storage.ts:93 | inserting into a newest-first list keeps it newest first and adds exactly the one element |
| Dates.SortNewestFirst | server/storage.ts:93 | the sort returns a permutation of its input, ordered by date, newest first |
| Dates.SortTwo | server/routes.ts:178 | two entries come out newest first, and in input order when their dates are equal (the sort is stable) |
| Dates.NewestFirstPrefix | server/routes.ts:178-179 | cutting a newest-first list after n entries drops only entries dated no later than every entry kept |
| Dashboard.TotalIncome | server/routes.ts:148 | the month's income total is 0 on an empty list and not negative when no amount is negative |
| Dashboard.TotalExpenses | server/routes.ts:149 | the month's expense total is 0 on an empty list and not negative when no amount is negative |
| Dashboard.NetWorth | server/routes.ts:150-152 | net worth is 0 with no assets and no debts, and not negative with no debts and no negative asset |
| Dashboard.NetWorthGrowth | server/routes.ts:150-152 | one more asset raises net worth by its value; one more debt lowers it by its balance |
| Dashboard.NetWorthOrderFree | server/routes.ts:150-152 | net worth does not depend on the order of the assets or of the debts |
| Dashboard.SavingsRate | server/routes.ts:182 | 0 when income is not positive; otherwise rate × income = (income − expenses) × 100; within [0, 100] when 0 ≤ expenses ≤ income; negative when expenses exceed income |
| Dashboard.IncomeEntry | server/routes.ts:159-167 | an income's feed entry has id `income-` followed by the income's id in decimal, type income and category "Income", and keeps the description, amount, date and notes |
| Dashboard.ExpenseEntry | server/routes.ts:168-176 | an expense's feed entry has id `expense-` followed by the expense's id in decimal, type expense, its own category, and keeps the description, amount, date and notes |
| Dashboard.Merged | server/routes.ts:158-177 | the incomes' entries in order, then the expenses' entries in order |
| Dashboard.SortedFeed | server/routes.ts:158-178 | the sorted feed is a permutation of the merged entries, newest first |
| Dashboard.RecentTransactions | server/routes.ts:158-179 | the feed has min(10, incomes + expenses) entries, newest first, all drawn from the merged entries |
| Dashboard.RecentKeepsNewest | server/routes.ts:178-179 | every merged entry left out of the feed is dated no later than every entry kept |
| Dashboard.RecentFromSources | server/routes.ts:158-177 | every feed entry is the image of one of the incomes or one of the expenses |
| Dashboard.EntryKindsDistinct | server/routes.ts:160-169 | an income entry's id never equals an expense entry's id |
| Dashboard.IncomeEntryIds | server/routes.ts:160 | among incomes with unique ids, two incomes whose `income-<id>` strings are equal are the same income |
| Dashboard.ExpenseEntryIds | server/routes.ts:169 | among expenses with unique ids, two expenses whose `expense-<id>` strings are equal are the same expense |
| Dashboard.MergedIdsUniqueAt | server/routes.ts:158-177 | when each kind's ids are unique, merged entries at two positions with one id are equal |
| Dashboard.MergedIdsUnique | server/routes.ts:158-177 | when each kind's ids are unique, two merged entries with one id are equal |
| Dashboard.RecentIdsUnique | server/routes.ts:158-179 | when each kind's ids are unique, no two distinct feed entries share an id |
| Dashboard.Summarize | server/routes.ts:182-191 | the reply's savings rate is 0 without income and otherwise the share of the reply's own monthly income left after its monthly expenses, times 100; the breakdown is passed through; the feed has min(10, incomes + expenses) entries |
| Dashboard.OneMonthFeed | server/routes.ts:158-179 | an income dated 2024-01-15 and an expense dated 2024-01-20 give the feed [expense, income] |
| Dashboard.OneMonthExample | server/routes.ts:148-182 | one 5000.00 income and one 3200.00 food expense in January 2024: savings rate 36, breakdown [food 3200.00], feed expense first |
| Numerals.Decimal | server/routes.ts:160 | the `${id}` rendering is a non-empty string of decimal digits |
| Numerals.DecimalRoundTrip | server/routes.ts:160 | reading back the decimal numeral of an id gives the id |
| Numerals.DecimalInjective | server/routes.ts:169 | distinct ids have distinct numerals |
| Routes.ParseIncome | shared/schema.ts:13-20 | the insert-income parse succeeds exactly when user id, description, amount and date are present; the record parsed writes back to the same body |
| Routes.ParseExpense | shared/schema.ts:22-30 | the parse succeeds exactly when user id, description, amount, date and category are present; the record writes back to the body |
| Routes.ParseAsset | shared/schema.ts:32-38 | the parse succeeds exactly when user id, name, value and date are present; the record writes back to the body |
| Routes.ParseDebt | shared/schema.ts:40-46 | the parse succeeds exactly when user id, name, balance and date are present; the record writes back to the body |
| Routes.ParseIncomeRoundTrip | shared/schema.ts:50 | parsing the body an insert record is written as gives that record back |
| Routes.ParseExpenseRoundTrip | shared/schema.ts:51 | parsing the body an insert expense is written as gives that expense back |
| Routes.ParseAssetRoundTrip | shared/schema.ts:52 | parsing the body an insert asset is written as gives that asset back |
| Routes.ParseDebtRoundTrip | shared/schema.ts:53 | parsing the body an insert debt is written as gives that debt back |
| Routes.IncomeRequest | server/routes.ts:33-36 | with the session id spread over the body, the request is valid whatever `userId` the body carries, and the record's user id is the session user's |
| Routes.ExpenseRequest | server/routes.ts:61-64 | as for incomes: the session user's id replaces the body's |
| Routes.AssetRequest | server/routes.ts:89-92 | as for incomes: the session user's id replaces the body's |
| Routes.DebtRequest | server/routes.ts:117-120 | as for incomes: the session user's id replaces the body's |
| Routes.PostIncome | server/routes.ts:29-43 | 401 with the store unchanged when there is no session; 400 with the store unchanged on an invalid body; else 201 with the created income, owned by the session user and appended to the table; other users' income lists are unchanged |
| Routes.PostExpense | server/routes.ts:57-71 | 401 or 400 leave the store unchanged; 201 stores the expense for the session user; other users' expense lists are unchanged |
| Routes.PostAsset | server/routes.ts:85-99 | 401 or 400 leave the store unchanged; 201 appends the asset to the session user's asset list; other users' lists are unchanged |
| Routes.PostDebt | server/routes.ts:113-127 | 401 or 400 leave the store unchanged; 201 appends the debt to the session user's debt list; other users' lists are unchanged |
| Routes.DashboardFeedIdsUnique | server/routes.ts:158-179 | in the dashboard feed built from a valid store, no two distinct entries share an id |
| Routes.GetDashboard | server/routes.ts:130-195 | 401 exactly without a session; else the reply's monthly income and expenses are the sums over the month's getters, net worth is assets minus debts, the breakdown adds up to the monthly expenses, and the feed is the recent transactions of the user's records |

## Left out

- The session store (`MemoryStore`) and `setupAuth`: sign-in is modelled only as an optional session user id passed to each handler.
- `server/db.ts` and the database-backed store: an external database, not part of this model.
- Validation detail: only the presence of every required column is modelled. Bodies are assumed to carry numeric amounts and calendar dates; a non-numeric amount string, which `Number(...)` turns into `NaN` and `|| 0` then resets (server/storage.ts:137), is not modelled.
- Floating-point arithmetic: the source adds `Number(amount)` values as doubles and divides as doubles. The model uses exact cents and an exact `real` savings rate.
- JavaScript `Date` parsing and time zones: a record's year and month are taken as written; invalid dates, whose `getTime()` is `NaN`, are not modelled.
- `new Date()` in the dashboard handler: the current year and month are parameters of `Routes.GetDashboard`.
- The GET list handlers for incomes, expenses, assets and debts: they only forward to the store's getters, which are modelled.
- The 500 error paths: the in-memory store's operations do not fail.
- Express request and response objects, `createServer` and `res.json`: the replies are the `Routes.Reply` datatype.
- The React client: UI rendering only.
- Numerals.Decimal: does not model `String(n)` switching to exponent notation for ids of 1e21 and above.
- Schema.InsertIncome: amounts are unbounded integers; the `numeric(10, 2)` range limit is a database constraint that the in-memory store does not enforce.
- Storage.MemStorage.CreateUser: the in-memory store does not enforce the `unique()` username constraint of the schema, so the model allows two users with one name; `GetUserByUsername` then returns the one created first.
- Dates.SortNewestFirst: the result is proved to be a newest-first permutation; stability, which `Array.prototype.sort` guarantees, is stated only for two elements (`Dates.SortTwo`).
