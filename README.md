# master_of_coins ledger model

master_of_coins is a Telegram bot. Members of a betting team use it to file their bets as
"reports", and administrators use it to keep the books. This project models the
bookkeeping inside the bot's chat handlers, leaving out the Telegram calls:

- what accepting a report and confirming its deletion do to a member's `balance`, their
  `misha_balance`, their two commission accounts (`Salary` and `Bet20Salary`) and their
  `Charity` account;
- the administrators' account operations:
  - collecting one member's salary, or everyone's;
  - setting a salary;
  - zeroing the charity;
  - issuing balance;
  - setting the misha balance;
  - recording an operation;
  - accepting a new member;
- the read-side queries and rollups of `src/services/database/api.py` and
  `src/services/calc.py`;
- the input guards of the report conversation;
- `parse_date_interval`.

## Modules

- **`Settings`** (`settings.dfy`)
  - The constants that the handlers import from `src.data.settings`, held in a `Config` value.
  - The repository does not define them, so no relation between them is assumed. In particular, `BET_20_PARTNER_ID` and `MISHA_PARTNER_ID` may be equal.
- **`Models`** (`models.dfy`)
  - The records and their defaults.
  - Time is an `Instant`: a day ordinal plus a second of the day.
- **`Queries`** (`queries.dfy`)
  - The filters of the report, operation, partner, user and account queries.
  - A table keyed by user id is a map plus the order of its rows.
- **`Calc`** (`calc.dfy`)
  - The `get_common_*` rollups and the BET_20 totals.
  - The statistics, charity-report and business-total sums of the admin handlers.
  - How one changed row moves a rollup.
- **`Accounting`** (`accounting.dfy`)
  - What accepting or deleting a report does to the records of its member, as a pure `Delta`.
  - Exactly when deletion undoes acceptance.
- **`Parse`** (`parse.dfy`): `parse_date_interval`.
- **`Validate`** (`validate.dfy`): `str.isdigit`, `int(...)` and the salary-percent guard.
- **`Drafts`** (`drafts.dfy`): the FSM data of the report conversation, and the report the confirmation builds from it.
- **`Ledgers`** (`ledger.dfy`)
  - A `Ledger` class holding the tables.
  - One method per handler action.
  - Each method is proved against `Accounting` or against the new table contents, together with its effect on the rollups.

### Where the code and its specification part ways (the model follows the code)

- **Deleting a report**
  - Confirming a deletion does not look at whether the report is still active. Deleting it twice reverses it twice.
  - Deletion takes `amount * fraction`, not `profit * fraction`, off the commission account.
  - Deletion treats only non-BET_20 reports as erroneous.
  - Because of these rules, `RoundTripExactIff` characterises exactly which reports are fully undone.
- **Setting a salary** (`handle_set_user_salary_amount`) assigns the account's `amount` but leaves the member's `balance` alone.
- **`currency_balance`** converts the stored euro balance with `convert_to_eur`, not `convert_from_eur`.
- **A member's own operation** is recorded as `convert_to_eur(amount)`, but their `balance` grows by the unconverted `amount`.
- **`Operation.created_at`** defaults to `datetime.datetime.now()` as evaluated once, when the models module is imported. Every operation therefore carries the moment the process started (`Ledger.startedAt`).
- **Collecting salary and zeroing the charity** set `last_debiting_at` as well as `amount`.
- **Choosing a salary table**: any administrator choice other than `SalaryPartner.DEFAULT` selects the BET_20 table.

## Model

| member | source | states |
|---|---|---|
| Models.ConversionRoundTrip | src/services/database/models.py:17-21 | without rounding and with a non-zero rate, `convert_from_eur` undoes `convert_to_eur` and vice versa |
| Models.ConversionFixesExactly | src/handlers/users/messages.py:144-148 | converting an amount leaves it unchanged exactly when the rate is 1 or the amount is 0, so otherwise a member's operation records a different amount from the one added to the balance |
| Models.CurrencyBalance | src/services/database/models.py:56-58 | the shown balance is the stored one scaled by the rate: converting it back from euro gives the stored balance, and a rate of 1 shows it unchanged |
| Models.CurrencyMishaBalance | src/services/database/models.py:60-62 | the same for the misha balance |
| Models.NewUser | src/services/database/api.py:9-12 | `create_user` with the model defaults: zero balances, currency 1, active, in work, not an administrator; `EnrolKeepsRollups` states that it leaves every rollup unchanged |
| Models.NewAccount | src/services/database/api.py:15-24 | the zeroed `Salary`, `Bet20Salary` and `Charity` records, never debited; stated by `EnrolKeepsRollups` |
| Models.NewReport | src/services/database/api.py:83-100 | `create_report`, active by default and stamped `now`; `ReportAdded` and `Ledger.ConfirmReport` state its use |
| Models.Report.Profit | src/services/database/models.py:86-87 | refund less stake; `ProfitSumIsRefundsLessTurnover` states the sum |
| Queries.SelectReports | src/services/database/api.py:49-72 | a report is returned iff it is active and matches the optional user, partner and inclusive interval; each such row comes back as many times as the table holds it and no other row at all, so never more reports than the table holds |
| Queries.ReportsByInterval | src/services/database/api.py:127-134 | `get_reports_by_interval` returns exactly the active reports with `start <= created_at <= end`, each as often as the table holds it |
| Queries.UserReportsByInterval | src/services/database/api.py:49-59 | the same, restricted to one user, with the same multiplicities |
| Queries.PartnerReportsByInterval | src/services/database/api.py:62-72 | the same, restricted to one partner, with the same multiplicities |
| Queries.UserReportsByPartnerAndInterval | src/services/database/api.py:137-148 | the same, restricted to one user and one partner, with the same multiplicities |
| Queries.UserReportsByPartner | src/services/database/api.py:151-154 | the active reports of one user and partner, with no date condition, each as often as the table holds it |
| Queries.UserReports | src/services/database/api.py:75-76 | the active reports of one user, each as often as the table holds it |
| Queries.CoveringWindowSelectsAll | src/services/calc.py:16-23 | a date window that contains every report the rest of the filter selects changes nothing |
| Queries.OperationsByInterval | src/services/database/api.py:107-112 | operations are selected by the inclusive interval alone, with no active condition, each as often as the table holds it |
| Queries.ActivePartners | src/services/database/api.py:79-80 | `get_partners` returns exactly the active partners, each as often as the table holds it |
| Queries.ActiveUsersOf | src/services/database/api.py:27-28 | `get_users` returns only active users, and every active user of the table |
| Queries.ActiveIndices | src/services/database/api.py:27-28 | the positions of the user table whose user is active, strictly increasing, each active position present and no other |
| Queries.ActiveUsersAtActiveIndices | src/services/database/api.py:27-28 | `get_users` is exactly the user rows at the active positions, one entry each, in table order |
| Queries.ActiveUsersAreRows | src/services/database/api.py:27-28 | every user `get_users` returns is an active row of the table |
| Queries.AccountsOf | src/services/database/api.py:162-163 | `get_charities` returns every record, whatever the state of its user |
| Queries.ActiveAccountsOf | src/services/database/api.py:31-46 | `get_salaries`/`get_bet20_salaries` return the account of every active user |
| Queries.ActiveAccountsAtActiveIndices | src/services/database/api.py:31-46 | `get_salaries`/`get_bet20_salaries` are exactly the account rows at the active positions of the user table, one entry each, in table order |
| Queries.ActiveAccountsAreRows | src/services/database/api.py:31-46 | every account they return belongs to an active user |
| Calc.ProfitSumIsRefundsLessTurnover | src/services/database/models.py:86-87 | summed profit is summed refunds less summed stakes |
| Calc.CommonBalance | src/services/calc.py:36-38 | the sum of `balance` over `get_users`; how one user's change moves it is `SumActiveUsersUpdate` and `DeltaMovesBalanceRollups` |
| Calc.CommonMishaBalance | src/services/calc.py:41-43 | the sum of `misha_balance` over `get_users`; moved as `DeltaMovesBalanceRollups` states |
| Calc.CommonSalary | src/services/calc.py:46-53 | the sum of `amount` over `get_salaries` or `get_bet20_salaries`; moved as `SumActiveAccountsUpdate`, `AccountChangeMovesSalaryRollup` and `PayOutKeepsNet` state |
| Calc.CommonCharity | src/services/calc.py:61-63 | the sum of `amount` over `get_charities`; moved as `SumAccountsUpdate` and `DeltaMovesCharityRollups` state, 0 after `ClearComplete` |
| Calc.CommonTotalCharity | src/services/calc.py:56-58 | the sum of `total_amount` over `get_charities`; moved as `DeltaMovesCharityRollups` states, kept by `ClearComplete` |
| Calc.SumActiveUsersUpdate | src/services/calc.py:36-43 | changing one user's record, activity kept, moves a sum over `get_users` by that record's change when the user is active, and not at all otherwise |
| Calc.SumAccountsUpdate | src/services/calc.py:56-63 | changing one record moves a sum over all charity records by that record's change |
| Calc.SumActiveAccountsUpdate | src/services/calc.py:46-53 | changing one account moves a sum over the accounts of active users by its change when its user is active |
| Calc.SumAccountsZero | src/services/calc.py:61-63 | a table whose records all hold 0 sums to 0 |
| Calc.SumAccountsSameTerms | src/services/calc.py:56-58 | two tables whose records agree on the summed field have the same sum |
| Calc.NetOfActiveUnchanged | src/services/calc.py:36-53 | when no activity changes and every active user's balance less its account's amount is kept, the common balance less the common salary is kept |
| Calc.AppendUserRow | src/services/database/api.py:27-28 | a new row at the end of the user table comes last in `get_users`, and only when active |
| Calc.AppendAccountRow | src/services/database/api.py:162-163 | a new record comes last in `get_charities` |
| Calc.AppendActiveAccountRow | src/services/database/api.py:31-46 | a new account comes last in `get_salaries` when its user is active |
| Calc.Bet20ReportsFrom | src/services/calc.py:16-23 | the reports summed are exactly the user's active BET_20 reports in `[from_, now]`, or all of them when `from_` is None, each as often as the table holds it |
| Calc.TotalBet20ProfitFrom | src/services/calc.py:16-23 | the summed profit of those reports; `Bet20TotalsFromCoveringStart` states when a start date changes nothing |
| Calc.TotalBet20AmountFrom | src/services/calc.py:26-33 | the summed stake of those reports; stated by the same lemma |
| Calc.Bet20TotalsFromCoveringStart | src/services/calc.py:16-33 | a start date before all of the user's BET_20 reports gives the same profit and amount totals as no start date; with no such reports both are 0 |
| Calc.CharityReportIsShareOfTurnover | src/handlers/admin/messages.py:70-71 | the charity report is `CHARITY_FRACTION` times the turnover of the same reports |
| Calc.CharityReport | src/handlers/admin/messages.py:70-71 | the summed charity share of the fetched reports; `CharityReportIsShareOfTurnover` and `AcceptAllAccumulates` state what it equals |
| Calc.Statistics | src/handlers/admin/messages.py:114-126 | turnover is the summed stake, profit the summed profit (summed refunds less turnover) and count the number of reports |
| Calc.BusinessTotal | src/handlers/admin/callback_query.py:684-694 | the business total never exceeds the common balance, is below it by the three magnitudes, and equals it iff misha balance and both salaries are 0 |
| Ledgers.Ledger.BusinessBalance | src/handlers/admin/callback_query.py:684-694 | the business total of this database's common balance, common misha balance and both common salaries; below the common balance by their magnitudes, equal to it iff all three are 0 |
| Accounting.CreateDelta | src/handlers/users/callback_query.py:110-145 | the change accepting a report makes to its user's books; `AcceptingMovesBalances`, `AcceptingAccruesCommission` and `AcceptingErroneousFines` state it |
| Accounting.DeleteDelta | src/handlers/admin/callback_query.py:156-191 | the change confirming a deletion makes; `DeletingMovesBalances` and `DeletingReversesCommission` state it, `RoundTripExactIff` when it undoes `CreateDelta` |
| Accounting.AcceptingMovesBalances | src/handlers/users/callback_query.py:133-145 | accepting moves the balance by the profit whatever the erroneous flag, the misha balance by half the profit for the misha partner only, and both charity sums by `amount * CHARITY_FRACTION`; nothing else of those records changes |
| Accounting.AcceptingAccruesCommission | src/handlers/users/callback_query.py:110-131 | a non-erroneous report adds `profit * fraction` to both sums of Bet20Salary (fixed fraction, BET_20) or Salary (`percent / 100`), and the other account is unchanged |
| Accounting.AcceptingErroneousFines | src/handlers/users/callback_query.py:117-124 | an erroneous report with a loss puts the fine on the Default Salary's `amount` only, even for BET_20; with no loss no salary changes; Bet20Salary never changes |
| Accounting.DeletingMovesBalances | src/handlers/admin/callback_query.py:179-191 | deletion takes the profit off the balance, half of it off the misha balance for the misha partner only, and the charity share off both charity sums |
| Accounting.DeletingReversesCommission | src/handlers/admin/callback_query.py:156-177 | deletion takes `amount * fraction` off both sums of the partner's account, BET_20 even when erroneous; an erroneous non-BET_20 report instead gives a loss's fine back to Salary's `amount` |
| Accounting.RoundTripRestoresBalancesAndCharity | src/handlers/admin/callback_query.py:179-191 | accepting then deleting a report restores the user record and the charity record exactly |
| Accounting.RoundTripCommissionResidue | src/handlers/admin/callback_query.py:156-177 | what accepting then deleting leaves on the salary accounts, case by case |
| Accounting.RoundTripExactIff | src/handlers/admin/callback_query.py:156-191 | accepting then deleting restores all of the user's books iff `RestoredByDeletion` holds |
| Accounting.AccrualReversedExactlyWhen | src/handlers/admin/callback_query.py:173-177 | for a non-erroneous report the accrual is undone iff the refund is twice the stake or the fraction is 0 |
| Accounting.AcceptAllAccumulates | src/handlers/users/callback_query.py:133-145 | after a run of accepted reports the balance has moved by their summed profit and both charity sums by the charity report of the same reports |
| Accounting.DeltaMovesBalanceRollups | src/services/calc.py:36-43 | one user's change moves the common balance and common misha balance by its part when the user is active |
| Accounting.AccountChangeMovesSalaryRollup | src/services/calc.py:46-53 | one account's change moves its common salary by the change when its user is active |
| Accounting.DeltaMovesSalaryRollups | src/services/calc.py:46-53 | the same for both salary tables under a report's delta |
| Accounting.DeltaMovesCharityRollups | src/services/calc.py:56-63 | a report's delta moves both charity rollups by its charity part, active or not |
| Accounting.PayOutKeepsNet | src/handlers/admin/callback_query.py:416-420 | taking an account's amount off its user's balance (amount 0) keeps the common balance less that common salary |
| Parse.StripSpaces | src/utils/parse.py:8 | the result has no space and is shorter by the number of spaces; text without spaces is returned as is |
| Parse.StripSpacesKeepsOthers | src/utils/parse.py:8 | every non-space character is kept and none is invented |
| Parse.Split | src/utils/parse.py:9 | one more part than separators, none containing the separator |
| Parse.JoinSplitRoundTrip | src/utils/parse.py:9 | joining the parts of a split gives the text back |
| Parse.SplitJoinRoundTrip | src/utils/parse.py:9 | splitting undoes joining separator-free parts |
| Parse.DatesOf | src/utils/parse.py:10-20 | an interval comes back iff there are exactly two parts and both are dates |
| Parse.ParseDateInterval | src/utils/parse.py:7-24 | without exactly one `-` after removing spaces the result is None |
| Parse.AcceptedSplitsInTwo | src/utils/parse.py:9-18 | an accepted text splits in two dated parts, and the interval runs from 00:00:00 of the first to 23:59:59 of the second |
| Parse.ParsedTextShape | src/utils/parse.py:7-18 | every accepted text is two space-free, dash-free dates around one `-` |
| Parse.ParseOfTwoDates | src/utils/parse.py:12-18 | conversely, any two such dates parse, and a start after the end is returned as is |
| Validate.IsDigits | src/handlers/users/messages.py:98 | `str.isdigit` on ASCII digits; `CheckSalaryPercent` and `Ledger.SetMishaBalance` state the guard it makes |
| Validate.DigitsValue | src/handlers/users/messages.py:120 | `int(text)` for digits; `DecimalRoundTrip` and `LeadingZeroIgnored` state it |
| Validate.DecimalRoundTrip | src/handlers/users/messages.py:120 | `int(str(n)) == n` |
| Validate.LeadingZeroIgnored | src/handlers/users/messages.py:120 | a leading zero does not change what `int` reads |
| Validate.CheckSalaryPercent | src/handlers/users/messages.py:98-106 | non-digits are refused first, then numbers outside `[MIN_SALARY_PERCENT, MAX_SALARY_PERCENT]`; an accepted percent is `int(text)` |
| Validate.PercentAcceptsEveryInRangeNumber | src/handlers/users/messages.py:102-106 | every in-range number written in decimal is accepted as itself |
| Validate.PercentIgnoresLeadingZero | src/handlers/users/messages.py:98-106 | a leading zero never changes the guard's answer |
| Drafts.StartReport | src/handlers/users/callback_query.py:230-237 | the create buttons store the erroneous flag, ask for the photo, and keep the other data |
| Drafts.EnterPhoto | src/handlers/users/messages.py:50-59 | the photo stores the file id and the user's currency |
| Drafts.EnterStake | src/handlers/users/messages.py:62-76 | a stake that is not a float changes nothing; a float is stored as it parses |
| Drafts.EnterRefund | src/handlers/users/messages.py:80-91 | the same for the refund |
| Drafts.SelectPartner | src/handlers/users/callback_query.py:51-83 | BET_20 skips the percent step, stores percent 0 and goes to confirmation; any other partner asks for the percent |
| Drafts.EnterSalaryPercent | src/handlers/users/messages.py:95-121 | the percent is stored unchanged iff the guard accepts it, and is then in range |
| Drafts.EnterOperationAmount | src/handlers/users/messages.py:125-132 | an operation amount that is not a float leaves the stored data; a float is stored |
| Drafts.DraftReport | src/handlers/users/callback_query.py:94-109 | the report is built from the data with `dict.get` defaults and both sums converted to euro |
| Drafts.ConversationReachesConfirm | src/handlers/users/messages.py:62-121 | well-formed answers reach confirmation iff the partner is BET_20 or the percent is accepted, and the report carries the answers |
| Ledgers.Ledger.constructor | src/services/calc.py:36-63 | a fresh database has no rows, and its common balance, common salary, common charity and common total charity are 0 |
| Ledgers.Ledger.ConfirmReport | src/handlers/users/callback_query.py:93-148 | rejecting changes nothing; accepting appends the drafted report, applies `CreateDelta` to its user's books and moves the rollups by its profit and charity share |
| Ledgers.Ledger.PostReport | src/handlers/users/callback_query.py:110-145 | the accept writes, in order, equal `Apply(books, CreateDelta)` and touch no other user |
| Ledgers.Ledger.AccrueCommission | src/handlers/users/callback_query.py:110-131 | the salary writes of an accepted report equal the salary parts of `CreateDelta`: the fine on Salary for an erroneous loss, else the accrual on the partner's account |
| Ledgers.Ledger.ConfirmDeletion | src/handlers/admin/callback_query.py:148-200 | "no" or an unknown id changes nothing; "yes" applies `DeleteDelta`, without checking `active`, deactivates the report and moves the rollups back |
| Ledgers.Ledger.UnpostReport | src/handlers/admin/callback_query.py:155-191 | the deletion writes, in order, equal `Apply(books, DeleteDelta)` |
| Ledgers.Ledger.ReverseCommission | src/handlers/admin/callback_query.py:156-177 | the salary writes of a deletion equal the salary parts of `DeleteDelta` |
| Ledgers.Ledger.DeactivateReport | src/services/database/api.py:157-159 | only the report's `active` flag changes, to false |
| Ledgers.Ledger.CollectSalary | src/handlers/admin/callback_query.py:404-435 | a positive account's amount is taken off the user's balance (amount 0, stamp set, total kept), anything else changes nothing; balance less amount and common balance less common salary are kept |
| Ledgers.Ledger.PayOut | src/handlers/admin/callback_query.py:416-420 | the payout writes touch only that account and its user's balance |
| Ledgers.Ledger.PaySalaryOut | src/handlers/admin/callback_query.py:416-420 | a Salary payout: amount 0 and stamped, the balance down by the amount, the invariant and common balance less common salary kept |
| Ledgers.Ledger.PayBet20Out | src/handlers/admin/callback_query.py:416-420 | the same for Bet20Salary |
| Ledgers.Ledger.CollectEveryone | src/handlers/admin/callback_query.py:590-610 | every active user's positive account is set to 0 and stamped, its amount taken off the user's balance, and every other row is unchanged; afterwards no active account is positive, the common salary is at most 0, and common balance less common salary is kept |
| Ledgers.Ledger.SweepRow | src/handlers/admin/callback_query.py:592-598 | one row of the sweep, skipping inactive users and non-positive accounts |
| Ledgers.CollectedTableNonPositive | src/handlers/admin/callback_query.py:590-598 | after the sweep no active user's account is positive, and neither is their sum |
| Ledgers.SweptStep | src/handlers/admin/callback_query.py:592-598 | paying out one row takes the sweep one row further |
| Ledgers.SweepComplete | src/handlers/admin/callback_query.py:590-598 | a sweep over every row has collected every row |
| Ledgers.Ledger.RemoveCharity | src/handlers/admin/callback_query.py:531-540 | every charity record gets amount 0 and a stamp, total kept; the common charity becomes 0 and the common total charity does not move |
| Ledgers.Ledger.ClearCharity | src/handlers/admin/callback_query.py:537-538 | one record is cleared and nothing else changes |
| Ledgers.ClearedStep | src/handlers/admin/callback_query.py:537-538 | clearing one record takes the charity sweep one row further |
| Ledgers.ClearComplete | src/handlers/admin/callback_query.py:536-538 | clearing every record gives common charity 0 and keeps the common total charity |
| Ledgers.EnrolKeepsRollups | src/services/database/api.py:9-24 | a new member's rows, all at 0, leave every rollup where it was |
| Ledgers.EnrolKeepsConsistent | src/services/database/api.py:9-24 | a new user with its three records, as the last row, keeps every user tabled exactly once with known currency and owned records |
| Ledgers.BooksEdit | src/handlers/users/callback_query.py:110-145 | rewriting one user's four records, keeping ids, currency and owners, keeps the invariant |
| Ledgers.ReportAdded | src/services/database/api.py:83-100 | a report of a known user keeps every report owned by a user |
| Ledgers.Ledger.AcceptNewUser | src/handlers/admin/callback_query.py:248-274 | an existing user (active or not) or a decline creates nothing; otherwise the user and its three zeroed records are added and no rollup moves |
| Ledgers.Ledger.Enrol | src/handlers/admin/callback_query.py:262-266 | the new rows are the `create_*` defaults, appended after the existing ones |
| Ledgers.Ledger.IssueBalance | src/handlers/admin/messages.py:134-144 | a non-float changes nothing; otherwise `balance += amount`, and the common balance moves by it for an active user |
| Ledgers.Ledger.SetMishaBalance | src/handlers/admin/messages.py:148-157 | non-digits change nothing; otherwise the misha balance is assigned (not added) `int(text)` |
| Ledgers.Ledger.SetUserSalary | src/handlers/admin/messages.py:172-200 | a non-float changes nothing; otherwise the chosen account's amount is assigned and stamped, total and balance untouched, the other table unchanged |
| Ledgers.Ledger.RecordAdminOperation | src/handlers/admin/messages.py:204-227 | an operation with the entered amount is appended, `balance += amount`, and `misha_balance += amount` only for balance type "misha" |
| Ledgers.Ledger.RecordUserOperation | src/handlers/users/messages.py:136-158 | the operation records `convert_to_eur(amount)` while the balance grows by the unconverted amount |
| Ledgers.Ledger.Log | src/services/database/api.py:103-104 | `create_operation` appends exactly the new operation |
| Ledgers.Ledger.Store | src/handlers/admin/messages.py:213-216 | saving a user record that keeps its id and currency replaces only that record and keeps the invariant |

## Left out

- **Rounding.** `round(..., 2)` is not modelled: not in the conversions, not in the rollups, not in the charity report. Money is an exact `real`.
  - Models.ConversionRoundTrip, Models.CurrencyBalance and Models.CurrencyMishaBalance: without rounding, the round trip they state is exact. With the rounding of `convert_*`, it holds only up to a cent.
  - Calc.BusinessTotal, Ledgers.Ledger.BusinessBalance and Calc.CharityReportIsShareOfTurnover: state the unrounded sums.
- **Parsing.** Python's `float()` behind `is_float` is a parameter of the handlers that use it. `strptime(..., "%d.%m.%y")` is a parameter that gives a day ordinal.
- **`str.isdigit`.** Validate.CheckSalaryPercent and Ledgers.Ledger.SetMishaBalance accept ASCII digits only. Python also accepts other Unicode digits, and `int()` and `float()` then differ on some of them.
- **The clock.** `datetime.datetime.now()` is a parameter `now`, and an `Instant` counts whole seconds.
  - Queries.InWindow: the source's datetimes carry microseconds, and `parse_date_interval` ends an interval at 23:59:59 of its last day, so a report made at 23:59:59.5 on that day falls outside `created_at <= end` in the source but inside the window here.
  - Ledgers.Ledger.CollectEveryone: the source reads the clock afresh for each row it pays out; the model stamps every row with the one `now` of the call.
  - Ledgers.Ledger.RemoveCharity: the same, for each charity record it clears.
- **Accounting.DeleteDelta and Ledgers.Ledger.ReverseCommission** take `Model.update` to refresh the object it is called on. The base model class behind `update` is not part of this model. Deleting an erroneous loss report of a partner other than BET_20 writes the Salary record twice: first the fine is given back, then `amount - 0` is written. If `update` did not refresh `salary.amount`, the second write would put back the amount read before the refund, and the fine would not be given back on deletion. `RestoredByDeletion` and `RoundTripExactIff` rest on the refreshing reading for that case. The two writes of the accept handler touch different fields, so there both readings agree.
- **The dispatcher layer.** Middleware is not modelled. `IsActiveMiddleware` (`src/middlewares/is_active.py`) cancels every message handler for an inactive member, so the inactive branches of Ledgers.Ledger.RecordUserOperation and of the `Drafts` message steps cannot be reached in the running bot; the model keeps them as the handlers themselves are written.
- **Telegram.** Messages, templates, keyboards, forms, FSM state names, notifications to users and administrators, and the chat lookup that gives a new member's username (a parameter) are not modelled.
- **Excel export** (`src/services/excel.py`). It is a file write with no ledger logic.
- **Persistence and concurrency.** Database sessions, async scheduling and interleaving of chat sessions are not modelled. Each handler is one sequential atomic method.
- **Handlers that fail.** A handler that fails on a missing record (`Model.get` returning `None`) is modelled as changing nothing. In every such case the failure comes before the first write.
- **Management handlers outside the ledger.** These handlers are not modelled:
  - partner management;
  - setting a member's currency;
  - promoting or demoting administrators;
  - deactivating a member;
  - work intervals (`WorkInterval`, `update_user_work_staus`).
- **Report-listing handlers.** They only display query results, which `Queries` covers.
- **`get_current_month_interval`.** The month statistics handler imports it from `src/utils/parse.py`, which does not define it, so it is not part of this model.
- **`total_profit_from` and `total_bet_amount_from`.** `src/handlers/users/callback_query.py` imports them, but `src/services/calc.py` does not define them, so they are not part of this model.
- **Foreign keys and database types.** Foreign-key failures are not modelled. Ids are unbounded integers.
