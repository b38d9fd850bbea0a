# Gym back office: membership status and money aggregates

A Dafny model of the business rules of a small gym back office (clients,
membership plans, memberships, income and expense transactions, per-gym
totals). The rules are written as pure functions over immutable records.
Dates are integer day numbers and money is integer cents. The current day
is a `today` parameter. Database tables are sequences of rows, and a
foreign key is the `id` of the row it names.

Modules:

- `Records` (records.dfy): the rows `Gym`, `Client`, `MembershipType`,
  `Membership` and `Transaction`. It also holds the stored type strings
  `"income"` and `"expense"` and the 7-day expiry window.
- `Seqs` (seqs.dfy): queryset `filter` and `count` over sequences.
- `Memberships` (memberships.dfy): `is_active`, `days_remaining`,
  `membership_status`, `last_membership_day` and `num_clients`.
- `Finance` (finance.dfy): client and gym `total_income`, `total_expenses`
  and `balance`, plus the gym's `total_clients`. The sums share one
  filtered sum, `Finance.SumAmounts`.
- `Admin` (admin.dfy): the transaction appended by `MembershipAdmin.save_model`,
  the client status colour, the transaction icon and the related-client
  column.

Modelling choices:

- The transaction type is kept as the stored string. Form choices limit it
  to `"income"` and `"expense"`, but the column does not, so a third value
  is possible. Such a row gets no icon and counts in no total.
- A gym reaches transactions only through clients (`client__gym`). A gym
  total therefore sums the transactions whose client id is one of that
  gym's client ids. `Finance.GymTotalIsSumOfClientTotals` shows that this
  equals the sum of the per-client totals, given that client ids are
  distinct, as primary keys are.
- `membership_status` returns a `(code, label)` pair. `Admin.StatusValue`
  models that pair, with the label equal to the untranslated code.
- `num_clients` counts memberships, not distinct clients: a client who
  renews a plan is counted once per membership
  (`Memberships.NumClientsCountsRenewals`). This is modelled as written.

## Model

| member | source | states |
|---|---|---|
| `Memberships.MembershipStatus` | gym_management_system/core/models.py:57-69 | no_membership exactly when the client has no memberships; expired exactly when it has some and all ended before today; expiring_soon exactly when one ends in [today, today+7]; active exactly when one is current and every current one ends after today+7 (the four cases partition all inputs) |
| `Memberships.ClientStatus` | gym_management_system/core/models.py:57-69 | the status read through `membership_set` of the whole table: no_membership exactly when no row names the client; expired exactly when some row does and all of them ended before today; expiring_soon exactly when one of them ends in [today, today+7]; active exactly when one is current and every current one ends after today+7 |
| `Memberships.NearerExpiryWins` | gym_management_system/core/models.py:65-67 | one membership ending within the window makes the status expiring_soon, even when others end far in the future |
| `Memberships.NoMembershipIgnoresToday` | gym_management_system/core/models.py:59-60 | whether the status is no_membership does not depend on today |
| `Memberships.ShortRemainderMeansExpiringSoon` | gym_management_system/core/models.py:57-69 | a running membership with at most 7 days remaining makes its client expiring_soon |
| `Memberships.CalendarExample` | gym_management_system/core/models.py:57-91 | on 2024-01-01, memberships ending 2024-01-03 and 2024-06-01 give expiring_soon with horizon 2024-06-01 |
| `Memberships.LastMembershipDay` | gym_management_system/core/models.py:85-91 | none exactly when every membership ended before today; otherwise a date not before today that is some membership's end and no earlier than any membership's end |
| `Memberships.HorizonMatchesStatus` | gym_management_system/core/models.py:57-91 | the horizon is absent exactly for no_membership and expired; an active client's horizon lies past today+7 and an expiring one's is not before today |
| `Memberships.IsActive` | gym_management_system/core/models.py:123-125 | a membership can only be active when its window is well formed (start <= end) |
| `Memberships.ActiveWindowIsInclusive` | gym_management_system/core/models.py:123-125 | the first and last day of a window are active and the days just outside are not |
| `Memberships.DaysRemaining` | gym_management_system/core/models.py:127-131 | never negative; positive exactly when start <= today < end; once started, today plus the result is the end date (or today after the end); zero before the start |
| `Memberships.DaysRemainingCountsDown` | gym_management_system/core/models.py:127-131 | on two consecutive active days the count drops by exactly one |
| `Memberships.NumClients` | gym_management_system/core/models.py:106-107 | at most the number of memberships, and zero exactly when no membership uses the plan |
| `Memberships.NumClientsAddMembership` | gym_management_system/core/models.py:106-107 | recording one more membership raises the count by one exactly when it is on the plan, so the count is the number of membership rows on the plan |
| `Memberships.NumClientsCountsRenewals` | gym_management_system/core/models.py:106-107 | two memberships of one client on the same plan count as two |
| `Finance.SumAmounts` | gym_management_system/core/models.py:71-79 | a filtered sum is zero when no transaction qualifies (so also over no rows) and non-negative when all amounts are |
| `Finance.ClientIncome` | gym_management_system/core/models.py:76-79 | 0 over no transactions and when none belongs to the client (the `or 0`); non-negative when all amounts are |
| `Finance.ClientExpenses` | gym_management_system/core/models.py:71-74 | 0 over no transactions and when none belongs to the client (the `or 0`); non-negative when all amounts are |
| `Finance.GymIncome` | gym_management_system/core/models.py:25-31 | 0 over no transactions and when every transaction is client-less; non-negative when all amounts are |
| `Finance.GymExpenses` | gym_management_system/core/models.py:33-39 | 0 over no transactions and when every transaction is client-less; non-negative when all amounts are |
| `Finance.IncomeMinusExpensesIsNet` | gym_management_system/core/models.py:81-82 | income less expenses equals a one-pass signed ledger (+income, -expense, other types ignored) |
| `Finance.ClientBalance` | gym_management_system/core/models.py:81-82 | a client's balance is the signed ledger of its own transactions, and 0 over no transactions |
| `Finance.GymBalance` | gym_management_system/core/models.py:41-42 | a gym's balance is the signed ledger of its clients' transactions, and 0 over no transactions |
| `Finance.GymTotalIsSumOfClientTotals` | gym_management_system/core/models.py:25-39 | with distinct client ids, a gym's income (or expense) total is the sum of the totals of its clients |
| `Finance.ClientlessTransactionIgnored` | gym_management_system/core/models.py:25-39 | a transaction with no client changes no client or gym total |
| `Finance.TotalClients` | gym_management_system/core/models.py:22-23 | at most the number of clients; zero exactly when no client has this gym; all of them exactly when every client has this gym |
| `Finance.TotalClientsAddClient` | gym_management_system/core/models.py:22-23 | registering one more client raises the count by one exactly when the client belongs to this gym, so the count is the number of client rows of the gym |
| `Finance.TotalClientsIsNumberOfGymClientIds` | gym_management_system/core/models.py:22-27 | with distinct client ids, the client count equals the number of client ids the gym totals join through |
| `Admin.IncomeFor` | gym_management_system/core/admin.py:49-55 | the row built on save counts as income (never as expense) of the membership's client, at the plan's price, dated at the start date, with the generated description |
| `Admin.SaveModel` | gym_management_system/core/admin.py:45-55 | without the flag the transactions are unchanged; with it exactly one is appended, of type income, for the membership's client, at the plan's price, dated at the start date |
| `Admin.SaveModelIgnoresChange` | gym_management_system/core/admin.py:45-48 | creating and editing a membership append the same transactions |
| `Admin.SaveModelNotIdempotent` | gym_management_system/core/admin.py:45-55 | saving twice with the flag appends two identical income transactions |
| `Admin.SaveModelCreditsIncome` | gym_management_system/core/admin.py:45-55 | with the flag, the client's income and balance and its gyms' income grow by the price; expenses stay the same |
| `Admin.StatusValue` | gym_management_system/core/models.py:57-69 | the classifier returns a pair whose first half is the status code |
| `Admin.IndicatorAsWritten` | gym_management_system/core/admin.py:22-29 | as written: red only for the bare string "expired", yellow only for "expiring_soon", otherwise green |
| `Admin.IndicatorAsWrittenAlwaysGreen` | gym_management_system/core/admin.py:22-29 | as written, the indicator is green for every client and every day |
| `Admin.IndicatorAsWrittenMissesExpired` | gym_management_system/core/admin.py:22-29 | an expired client is shown green as written |
| `Admin.StatusIndicator` | gym_management_system/core/admin.py:22-29 | intended mapping: red exactly for expired, yellow exactly for expiring_soon, green for no_membership and active |
| `Admin.IndicatorFollowsMemberships` | gym_management_system/core/admin.py:22-29 | the intended colour is red exactly when all memberships ended, yellow exactly when one ends within the window, green when there are none or all current ones run past the window |
| `Admin.ClientIndicator` | gym_management_system/core/admin.py:22-29 | intended colour of a client from the whole table: red exactly when some row names the client and all such rows ended before today, yellow exactly when one such row ends in [today, today+7], green when no row names the client |
| `Admin.TransactionIcon` | gym_management_system/core/admin.py:63-68 | money bag exactly for income, winged money exactly for expense, no icon otherwise |
| `Admin.IconlessTransactionNotCounted` | gym_management_system/core/admin.py:63-68 | a transaction shown without an icon counts in no income or expense total |
| `Admin.SavedIncomeShowsMoneyBag` | gym_management_system/core/admin.py:48-55 | the transaction recorded on save shows the money bag |
| `Admin.RelatedClient` | gym_management_system/core/admin.py:72-76 | no related client exactly when the transaction has no client; otherwise that client |

## Findings

| source | as written | input that shows it | evidently intended | confidence | as-written member | corrected member |
|---|---|---|---|---|---|---|
| gym_management_system/core/admin.py:22-29 | compares the `(code, label)` pair from `membership_status` with the bare strings `'expired'` and `'expiring_soon'`; a tuple never equals a string, so only the final branch fires | a client whose only membership ended yesterday: status expired, indicator green | red for expired, yellow for expiring_soon, green otherwise | not executed; high (Python `tuple == str` is always False) | `Admin.IndicatorAsWrittenAlwaysGreen` | `Admin.StatusIndicator` |

`Admin.ClientIndicator`, the client-level colour, is built on the
corrected `Admin.StatusIndicator`; its contract distinguishes red and
yellow clients, which the as-written indicator never shows.

## Left out

- `GymAdmin.statistics_view` and `get_urls` (admin.py:84-104): ORM annotate/join queries and template rendering. `models.Q` is also used there without `models` being imported.
- The HTML from `format_html`, the admin URL from `reverse` and the admin registrations: only the chosen colour, icon or client id is modelled.
- The `strftime` string form of `last_membership_day`: its format is platform-dependent, so the date value is returned instead.
- `timezone.now()`: the methods each read the clock, and `days_remaining` reads it twice. All of them take one `today` parameter instead.
- Python's date range: `now + timedelta(days=7)` raises OverflowError in the last week of year 9999. Dates here are unbounded integers.
- Translation of labels and of the income description: the English message text is used.
- Decimal arithmetic: amounts and prices are integer cents.
- The row write done by `super().save_model` for the membership itself: only the transaction table is modelled.
- Database queries and referential integrity: tables are in-memory sequences. `Admin.SaveModel` requires the client and plan rows it receives to be the ones the membership's foreign keys name.
- Browser script, app configuration and signal imports: no business rules. The form's opt-in checkbox (default on) is the `addIncomeTransaction` parameter.
