# McLuck casino: a verified model of its core

McLuck is a small casino web application. An Express server keeps users, a transaction log and a game log in memory. A React client offers games, deposits, withdrawals and notifications, and an admin area lists alerts, users, transactions, audit entries and game settings. This project models that core in Dafny and proves what each part promises.

- **Server routes.**
  - The user store (`Auth`) is a class holding a `map` from email to user record.
  - The transaction log (`Transactions`) and the game log (`GameRoutes`) are classes holding `seq`s that the handlers extend or update.
  - Each handler is tied to a pure step function that returns the new state and the HTTP response. The lemmas are stated about those functions.
- **Client pages.**
  - The games page (`GamesPage`), the deposit form (`Deposits`), the withdrawal form (`Withdrawals`) and the registration form (`Register`) are classes whose methods update the page state the way the React handlers do.
  - The arithmetic each page applies (balance updates, clamping, fees) is written as functions with their own contracts.
- **Admin views and notifications.** These are pure functions over sequences of records:
  - `AdminAlerts`, `Notifications`, `UserManagement`, `TransactionManagement`, `AuditLog` and `GameManagement`.
  - Alerts and notifications share one list model (`Inbox`).
  - The filter chains share `Seqs.FilterIf`.
- **Shared support.**
  - `Wrappers` holds `Option` and `Response`.
  - `Seqs` covers `filter`, subsequences, `find` and `slice`.
  - `Strings` covers ASCII case mapping, `includes` and decimal digits.
  - `Sorting` is a stable descending sort by a numeric key whose missing key plays the part of `NaN`.

Outside inputs become parameters:
- **Clock.** `now` is a natural number of milliseconds.
- **Server randomness.** The wheel segment index, the lottery number draws and the scratch-card positions.
- **Client randomness.**
  - The wheel draw `u` in [0, 1).
  - The lottery number array and its win chance.
  - The scratch-card cards.
- **Register outcome.** Whether the `register` call throws.

## Model

| member | source | states |
|---|---|---|
| Auth.Register | server/routes/auth.ts:31-73 | invalid credentials give 400 with no change; a registered email gives 400 "Email already registered" with no change; otherwise exactly one entry is added under the email, with the id derived from the clock, the referral code derived from that id, balance 100, unverified, the given password and the creation time, and every other entry is kept; the reply is 201 with the token and the public view of the new user; the store stays well formed |
| Auth.ReferralCode | server/routes/auth.ts:41-42 | the code is "REF" followed by at most six characters |
| Auth.ReferralCodeOfId | server/routes/auth.ts:41-42 | for an id `user-<now>` the code has nine characters, and once the clock reading has six digits it is "REF" followed by the last six of them |
| Auth.Login | server/routes/auth.ts:75-102 | succeeds exactly when the credentials are valid, the email is stored and the passwords agree; invalid input gives 400, a wrong password or unknown email gives 401; the reply carries the user without the password |
| Auth.VerifyEmail | server/routes/auth.ts:104-123 | unknown user gives 404 and a wrong code gives 400, both with no change; the code "123456" sets only that user's verified flag |
| Auth.ClampedBalance | server/routes/auth.ts:158 | the new balance is max(0, balance + amount): never negative, equal to the sum when that is not negative |
| Auth.UpdateBalance | server/routes/auth.ts:149-167 | unknown email gives 404 with no change; otherwise only that user's balance changes, to the clamped sum, and the reply reports it |
| Auth.GetUser | server/routes/auth.ts:130-147 | an empty email means demo@mcluck.com; a stored user is returned without its password, and any other email gives 404 |
| Auth.RegisterThenLogin | server/routes/auth.ts:31-102 | after a successful registration, logging in with the same email and password succeeds |
| Auth.RegisterKeepsExisting | server/routes/auth.ts:36-54 | registration never changes or removes an existing user |
| Auth.UserStore.HandleRegister | server/routes/auth.ts:31-73 | updates the store and answers exactly as `Register` does, and records a new email in insertion order |
| Auth.UserStore.HandleVerifyEmail | server/routes/auth.ts:104-123 | updates the store and answers exactly as `VerifyEmail` does |
| Auth.UserStore.UpdateUserBalance | server/routes/auth.ts:149-167 | updates the store and answers exactly as `UpdateBalance` does |
| Auth.UserStore.GetAllUsers | server/routes/auth.ts:169-179 | one summary per stored user, without passwords, each equal to that user's summary, every stored user listed |
| Auth.UserStore.OrderCoversKeys | server/routes/auth.ts:170 | the insertion order lists each stored email exactly once |
| Transactions.Create | server/routes/transactions.ts:14-31 | an invalid type or an amount below 0.01 gives 400 with the log unchanged; otherwise one completed record with the request's fields is appended and returned with 201 |
| Transactions.GetTransaction | server/routes/transactions.ts:49-59 | found exactly when some record has the id; then the record at the first index with that id (no earlier record has it), otherwise 404 |
| Transactions.UpdateStatus | server/routes/transactions.ts:61-79 | an unknown id gives 404 with no change; otherwise only the first record with the id changes, in its status and update time |
| Transactions.PendingDeposit | server/routes/transactions.ts:81-111 | appends one pending deposit for the email, amount and payment method, stamped with the time and a payment id, and returns 201 with its id, the payment id and the checkout URL |
| Transactions.Confirm | server/routes/transactions.ts:113-134 | an unknown id gives 404 with no change; otherwise only the first record with the id becomes completed |
| Transactions.ConfirmIgnoresPaymentId | server/routes/transactions.ts:115-127 | the payment id has no effect on the confirmation |
| Transactions.PendingWithdrawal | server/routes/transactions.ts:136-160 | appends one pending withdrawal with the email, amount, payment method and details, stamped with the request time and without `timestamp`, and returns it with 201 |
| Transactions.EffectiveLimit | server/routes/transactions.ts:35 | a missing, unparseable or zero limit becomes 50; any other limit is kept |
| Transactions.ForEmailAll | server/routes/transactions.ts:42 | when every record belongs to the email, the email filter keeps the whole log |
| Transactions.GetTransactionsAsWritten | server/routes/transactions.ts:33-47 | an empty email gives 400; otherwise the email's records sorted by `timestamp` alone, cut at the limit |
| Transactions.GetTransactions | server/routes/transactions.ts:33-47 | an empty email gives 400; otherwise only that email's records from the log, taken from the front of the email's records sorted newest first by recorded time: min(limit, their number) of them for a positive limit, and all but the last |limit| for a negative one |
| Transactions.GetTransactionsNewestFirst | server/routes/transactions.ts:41-44 | when every record carries a time, the result is newest first |
| Transactions.WithdrawalBreaksNewestFirst | server/routes/transactions.ts:43 | on deposit t=1, withdrawal t=2, deposit t=3 the query as written returns them oldest first, and the corrected query returns the deposit at t=3 first |
| Transactions.TransactionStore.CreateTransaction | server/routes/transactions.ts:14-31 | changes the log and answers exactly as `Create` does; the old log is a prefix of the new one |
| Transactions.TransactionStore.UpdateTransactionStatus | server/routes/transactions.ts:61-79 | changes the log and answers exactly as `UpdateStatus` does; the length is kept |
| Transactions.TransactionStore.InitializePayment | server/routes/transactions.ts:81-111 | changes the log and answers exactly as `PendingDeposit` does |
| Transactions.TransactionStore.ConfirmPayment | server/routes/transactions.ts:113-134 | changes the log and answers exactly as `Confirm` does; the length is kept |
| Transactions.TransactionStore.RequestWithdrawal | server/routes/transactions.ts:136-160 | changes the log and answers exactly as `PendingWithdrawal` does |
| GameRoutes.WheelPayout | server/routes/games.ts:27-30 | a win exactly when the multiplier exceeds 1, paying floor(bet × multiplier), which lies between 2·bet−1 and 10·bet; a loss pays 0 |
| GameRoutes.WheelPlay | server/routes/games.ts:13-55 | an invalid request gives 400 with the log unchanged; otherwise exactly one entry is appended, with the clock id, the email, the segment and the time, and its bet, win flag and amount agree with the response and the payout of the drawn segment |
| GameRoutes.Matches | server/routes/games.ts:70-72 | the number of the player's numbers among the winning ones, at most the number of picks |
| GameRoutes.LotteryPayout | server/routes/games.ts:74-75 | a win exactly from four matches on, paying floor(bet × 100 × matches / 6); a loss pays 0 |
| GameRoutes.LotteryPayoutBounds | server/routes/games.ts:74-84 | a lottery win pays more than 66·bet−1 and at most 100·bet |
| GameRoutes.LotteryPlay | server/routes/games.ts:57-101 | an invalid request gives 400 with no change; otherwise one entry is appended, with the clock id, the email, the match count and the time, whose fields agree with the response and with the payout for the drawn numbers' matches |
| GameRoutes.Revealed | server/routes/games.ts:109 | the number of prize positions, at most the number of positions |
| GameRoutes.ScratchPayout | server/routes/games.ts:111-112 | a win exactly from two prize positions on, paying 5·bet |
| GameRoutes.ScratchPlay | server/routes/games.ts:103-137 | an invalid request gives 400 with no change; otherwise one entry is appended, with the clock id, the email, the prize count and the time, whose fields agree with the response and the scratch payout |
| GameRoutes.GameHistory | server/routes/games.ts:139-152 | an empty email gives 400 "Email required"; otherwise the front of the email's entries sorted newest first, min(50, their number) of them, all the email's and all from the log, in descending time order |
| GameRoutes.Winners | server/routes/games.ts:157-166 | the winning emails, none listed twice |
| GameRoutes.WinnersExactly | server/routes/games.ts:157-166 | an email is a winner exactly when it has a winning entry |
| GameRoutes.RankingCorrect | server/routes/games.ts:168-177 | the ranking lists each winner once, with its total winnings, totals non-increasing, ranks 1, 2, 3, … |
| GameRoutes.RankingComplete | server/routes/games.ts:168-177 | every winner appears in the ranking |
| GameRoutes.NoWinsNoTotal | server/routes/games.ts:160-165 | an email without winning entries totals 0 |
| GameRoutes.GameLog.GetLeaderboard | server/routes/games.ts:154-184 | the timeframe defaults to "week"; the board is the first 20 entries of the ranking, built from the entries of the loop's running totals, which equal the totals of the entries seen so far, in first-win order |
| GameRoutes.Percent | server/routes/games.ts:199-202 | the win rate lies between 0 and 100, and rate × games = 100 × wins |
| GameRoutes.DailyStats | server/routes/games.ts:186-206 | an empty email gives 400; otherwise the game count, the win count of the email's entries (at most the game count), the bet and winnings sums, and a win rate in [0, 100] that is 0 with no games and otherwise satisfies rate × games = 100 × wins |
| GameRoutes.SumBetsAtLeastGames | server/routes/games.ts:196-198 | with every bet at least 1, the total bet is at least the number of games |
| GameRoutes.WinningsAgree | server/routes/games.ts:196-198 | winnings come only from winning entries |
| GameRoutes.SumWinningsAppend | server/routes/games.ts:198 | the winnings sum adds up over consecutive stretches of the log |
| GameRoutes.GameLog.PlaySpinWheel | server/routes/games.ts:13-55 | changes the log and answers exactly as `WheelPlay` does |
| GameRoutes.GameLog.PlayLottery | server/routes/games.ts:57-101 | changes the log and answers exactly as `LotteryPlay` does |
| GameRoutes.GameLog.PlayScratchCard | server/routes/games.ts:103-137 | changes the log and answers exactly as `ScratchPlay` does |
| GamesPage.Rotation | client/pages/Games.tsx:45 | the spin adds five full turns plus a fraction of a turn |
| GamesPage.Mod360 | client/pages/Games.tsx:62 | the normalised angle lies in [0, 360) and differs from the input by whole turns |
| GamesPage.SegmentIndex | client/pages/Games.tsx:61-64 | the landed segment is a valid index, namely floor(6u) |
| GamesPage.SegmentUniform | client/pages/Games.tsx:61-64 | segment k is hit exactly for draws in [k/6, (k+1)/6) |
| GamesPage.WheelBalance | client/pages/Games.tsx:66-79 | a win adds floor(bet × multiplier) − bet; a loss takes the bet |
| GamesPage.WheelAgreesWithServer | client/pages/Games.tsx:66-79 | the page's wheel settlement equals the balance less the bet plus the server's payout for the same segment |
| GamesPage.WheelLosesAtMostStake | client/pages/Games.tsx:66-79 | a spin never costs more than the bet |
| GamesPage.LotteryBalance | client/pages/Games.tsx:89-104 | a chance above 0.95 adds 99·bet; otherwise the bet is lost |
| GamesPage.ScratchBalance | client/pages/Games.tsx:110-125 | a card with any prize adds 4·bet; otherwise the bet is lost |
| GamesPage.ScratchRulesDiffer | client/pages/Games.tsx:111-112 | the page wins exactly from one prize on; every server win is a page win |
| GamesPage.OnePrizeSplitsTheRules | client/pages/Games.tsx:111-112 | a card with one prize wins on the page and loses on the server |
| GamesPage.BetInput | client/pages/Games.tsx:184 | the typed bet when it is at least 1; clamped to 1 when it is below 1, and 1 when the input is not a number |
| GamesPage.DoubledBet | client/pages/Games.tsx:189 | the doubled bet never exceeds the balance or twice the bet |
| GamesPage.Games.BeginSpin | client/pages/Games.tsx:38-47 | ignored while spinning or when the balance is below the bet; otherwise spinning starts, the rotation advances and the draw and stake are captured |
| GamesPage.Games.FinishSpin | client/pages/Games.tsx:61-81 | the balance becomes the wheel settlement of the captured balance and stake for the captured draw, and spinning stops |
| GamesPage.Games.PlayLottery | client/pages/Games.tsx:84-105 | ignored when the balance is below the bet; otherwise the balance follows `LotteryBalance` and the result is shown |
| GamesPage.Games.PlayScratchCard | client/pages/Games.tsx:107-126 | ignored when the balance is below the bet; otherwise the balance follows `ScratchBalance` and the result is shown |
| GamesPage.Games.SetBet | client/pages/Games.tsx:184 | the bet becomes `BetInput` of the typed value; nothing else changes |
| GamesPage.Games.DoubleBet | client/pages/Games.tsx:189 | the bet becomes `DoubledBet`, never above the balance; nothing else changes |
| Deposits.FeeRate | client/pages/Deposits.tsx:38 | card 2%, bitcoin and ether 0.5%, anything else nothing |
| Deposits.Fee | client/pages/Deposits.tsx:38 | a fee of at most 2% of the amount, none for a method without a fee |
| Deposits.Credit | client/pages/Deposits.tsx:38-39 | the fee and the credit add up to the amount; the credit is at least 98% of the amount |
| Deposits.BankTransferIsFree | client/pages/Deposits.tsx:38-39 | a bank transfer is credited in full |
| Deposits.AmountInput | client/pages/Deposits.tsx:142 | the typed whole number when it is at least 10; clamped to 10 when it is below 10, and 10 when the input is not a number |
| Deposits.DepositsPage.Deposit | client/pages/Deposits.tsx:29-51 | a missing method or an amount below 10 changes nothing; otherwise a signed-in user's balance grows by the credit, the confirmation shows it, and the form resets |
| Deposits.DepositsPage.TypeAmount | client/pages/Deposits.tsx:142 | the amount becomes `AmountInput` of the typed value; nothing else changes |
| Deposits.DepositsPage.PickQuickAmount | client/pages/Deposits.tsx:157 | the amount becomes the chosen quick amount; nothing else changes |
| Deposits.DepositsPage.SelectMethod | client/pages/Deposits.tsx:95 | the chosen method is selected; nothing else changes |
| Withdrawals.CurrentMethod | client/pages/Withdrawals.tsx:29 | the first listed method with the selected id; none exactly when nothing is selected or no method has that id |
| Withdrawals.TypedAmount | client/pages/Withdrawals.tsx:160-164 | the typed amount when it is at most the method's maximum; clamped to that maximum (0 without a method) when it is above it; min(0, maximum) when the input is not a number |
| Withdrawals.QuickAmount | client/pages/Withdrawals.tsx:184-187 | min(amount, method maximum, balance): at most each of the three and equal to one of them, so unchanged when within both caps and clamped to the smaller cap otherwise |
| Withdrawals.Decide | client/pages/Withdrawals.tsx:31-37 | ignored exactly when the method, amount or details are missing; refused exactly when the amount exceeds the balance; otherwise submitted for the amount |
| Withdrawals.EnabledWithdrawalIsSafe | client/pages/Withdrawals.tsx:243 | with the button enabled and a listed method, the withdrawal goes through and leaves a non-negative balance at least the method's minimum lower |
| Withdrawals.HandlerAcceptsNegativeAmount | client/pages/Withdrawals.tsx:31-37 | the handler submits a negative amount that the button would refuse |
| Withdrawals.WithdrawalsPage.Withdraw | client/pages/Withdrawals.tsx:31-55 | follows `Decide`; a submitted withdrawal debits a signed-in user and resets the form, anything else changes nothing; a non-negative balance stays non-negative |
| Withdrawals.WithdrawalsPage.TypeAmount | client/pages/Withdrawals.tsx:160-164 | the amount becomes `TypedAmount` for the current method; nothing else changes |
| Withdrawals.WithdrawalsPage.PickQuickAmount | client/pages/Withdrawals.tsx:184-187 | the amount becomes `QuickAmount`; nothing else changes |
| Withdrawals.WithdrawalsPage.SelectMethod | client/pages/Withdrawals.tsx:112 | the chosen method is selected; nothing else changes |
| Withdrawals.WithdrawalsPage.TypeDetails | client/pages/Withdrawals.tsx:211 | the details become the typed text; nothing else changes |
| Inbox.UnreadCount | client/components/admin/AdminAlerts.tsx:77 | the number of unread items, at most the number of items |
| Inbox.NoUnread | client/components/admin/AdminAlerts.tsx:77 | nothing is unread exactly when every item is read |
| Inbox.MarkAsRead | client/components/admin/AdminAlerts.tsx:79-81 | same length, ids and contents; an item is read exactly when it was read or has the id |
| Inbox.MarkAsReadIdempotent | client/pages/Notifications.tsx:76-80 | marking twice is marking once |
| Inbox.MarkAsReadCount | client/pages/Notifications.tsx:76-80 | marking never raises the unread count, and lowers it when an unread item has the id |
| Inbox.MarkAllAsRead | client/components/admin/AdminAlerts.tsx:83-85 | same items with every read flag set |
| Inbox.MarkAllClearsUnread | client/components/admin/AdminAlerts.tsx:83-85 | after marking all, nothing is unread |
| Inbox.Remove | client/components/admin/AdminAlerts.tsx:87-89 | keeps, in order, exactly the items whose id differs, each as many times as it occurs |
| Inbox.RemoveCount | client/pages/Notifications.tsx:82-84 | removing never raises the unread count, and keeps it when no unread item has the id |
| Inbox.RemoveAbsent | client/pages/Notifications.tsx:82-84 | removing an id no item has changes nothing |
| AdminAlerts.FilteredAlerts | client/components/admin/AdminAlerts.tsx:91-98 | "all" lists everything; any other tab lists, in order, exactly the alerts it shows (unread, critical, or that type), each as many times as it occurs in the list |
| AdminAlerts.UnreadTabMatchesCount | client/components/admin/AdminAlerts.tsx:77-98 | the unread tab lists as many alerts as the unread counter says |
| AdminAlerts.CriticalCount | client/components/admin/AdminAlerts.tsx:170 | the critical counter is at most the number of alerts |
| AdminAlerts.CriticalTabMatchesCount | client/components/admin/AdminAlerts.tsx:91-98 | the critical tab lists as many alerts as the critical counter says |
| AdminAlerts.TypeColor | client/components/admin/AdminAlerts.tsx:100-108 | a known type gets its colour, any key not in the table the info colour; keys inherited from `Object.prototype` are not modelled |
| Notifications.FilteredNotifications | client/pages/Notifications.tsx:86-89 | the unread tab lists, in order, exactly the unread notifications, each as many times as it occurs; the other tabs list everything |
| Notifications.UnreadTabMatchesCount | client/pages/Notifications.tsx:125 | the unread tab lists as many notifications as the unread counter says |
| Notifications.MarkedLeavesUnreadTab | client/pages/Notifications.tsx:76-89 | after marking, the notification with that id is not on the unread tab, and the tab does not grow |
| UserManagement.Filtered | client/components/admin/UserManagement.tsx:96-116 | lists, in order, exactly the users that match the search, status and KYC filters, each as many times as it occurs in the list |
| UserManagement.FilteredUsers | client/components/admin/UserManagement.tsx:96-128 | a reordering of the filtered users; sorted descending by join date, balance or plays when that sort is chosen, in list order otherwise |
| UserManagement.ToggleSelected | client/components/admin/UserManagement.tsx:130-134 | the id is selected afterwards exactly when it was not before; other ids keep their state; a new id goes to the end |
| UserManagement.ToggleKeepsDistinct | client/components/admin/UserManagement.tsx:130-134 | toggling never selects an id twice |
| UserManagement.ToggleTwice | client/components/admin/UserManagement.tsx:130-134 | selecting and then deselecting an id restores the selection |
| UserManagement.SelectAllAsWritten | client/components/admin/UserManagement.tsx:136-142 | clears the selection when it has as many ids as there are listed users, otherwise selects every listed user |
| UserManagement.SelectAll | client/components/admin/UserManagement.tsx:136-142 | clears the selection when every listed user is selected, otherwise selects exactly the listed users |
| UserManagement.SelectAllComparesLengthsOnly | client/components/admin/UserManagement.tsx:137 | with user 3 selected and only user 1 listed, the code as written clears the selection; the corrected rule selects user 1 |
| UserManagement.LengthTestSoundOnVisibleSelections | client/components/admin/UserManagement.tsx:137 | for a selection without repeats drawn from the listed users, equal lengths mean exactly that every listed user is selected |
| TransactionManagement.FilteredTransactions | client/components/admin/TransactionManagement.tsx:119-143 | lists, in order, exactly the transactions matching the search on id, user or email, the type and the status, each as many times as it occurs in the list |
| TransactionManagement.ShownAtMostTotal | client/components/admin/TransactionManagement.tsx:366 | the shown count never exceeds the total |
| TransactionManagement.SearchIgnoresCase | client/components/admin/TransactionManagement.tsx:123-130 | a term and its upper-cased form list the same transactions |
| TransactionManagement.StatusColor | client/components/admin/TransactionManagement.tsx:177-185 | a known status gets its colour, any key not in the table the gray class; keys inherited from `Object.prototype` are not modelled |
| TransactionManagement.RiskColor | client/components/admin/TransactionManagement.tsx:187-195 | a known risk score gets its colour, any key not in the table gray text; keys inherited from `Object.prototype` are not modelled |
| TransactionManagement.ParseInt | client/components/admin/TransactionManagement.tsx:307 | NaN exactly when no digit follows the optional sign; the sign gives the sign of the result |
| TransactionManagement.StandardIdKey | client/components/admin/TransactionManagement.tsx:305-307 | an id "TXN" plus three digits selects the row key those digits spell, between 0 and 999 |
| TransactionManagement.SharedSuffixCollides | client/components/admin/TransactionManagement.tsx:305-307 | two ids with the same last three characters highlight each other's rows |
| TransactionManagement.ZeroKeyKeepsPanelClosed | client/components/admin/TransactionManagement.tsx:378 | selecting the row "TXN000" leaves the dispute panel closed |
| AuditLog.FilteredLogs | client/components/admin/AuditLog.tsx:123-142 | lists, in log order, exactly the entries matching the search on admin, target or action and the category, each as many times as it occurs in the log; never more than the log |
| AuditLog.NoFilterListsAll | client/components/admin/AuditLog.tsx:123-142 | with no search term and every category the whole log is listed |
| AuditLog.CriticalCount | client/components/admin/AuditLog.tsx:214 | at most the number of entries, and 0 exactly when no entry is critical |
| AuditLog.CriticalCountAppend | client/components/admin/AuditLog.tsx:214 | the counter adds up over consecutive stretches of the log |
| AuditLog.CriticalCountOne | client/components/admin/AuditLog.tsx:214 | one entry counts 1 exactly when it is critical |
| AuditLog.CounterIgnoresFilters | client/components/admin/AuditLog.tsx:214 | no listing shows more critical entries than the counter reports |
| AuditLog.SeverityColor | client/components/admin/AuditLog.tsx:159-167 | a known severity gets its colour, any key not in the table the gray class; keys inherited from `Object.prototype` are not modelled |
| GameManagement.NextStatus | client/components/admin/GameManagement.tsx:78 | the next status is paused exactly when the game was active, and active otherwise |
| GameManagement.ToggleStatus | client/components/admin/GameManagement.tsx:72-83 | same length and order; games with the id change only their status, to the next one; all other games are unchanged |
| GameManagement.ToggledStatusIsActiveOrPaused | client/components/admin/GameManagement.tsx:72-83 | after a toggle the game with the id is either active or paused |
| GameManagement.ToggleTwice | client/components/admin/GameManagement.tsx:72-83 | toggling a game twice restores the list when that game was active or paused |
| GameManagement.ToggleTwiceOtherStatus | client/components/admin/GameManagement.tsx:78 | any other status does not come back: two toggles leave the game paused |
| GameManagement.CurrentGame | client/components/admin/GameManagement.tsx:85 | the first game with the selected id; none exactly when nothing is selected or no game has that id |
| GameManagement.CurrentGameAfterToggle | client/components/admin/GameManagement.tsx:72-85 | after a toggle the settings panel shows the same game with its new status |
| Register.Submit | client/pages/Register.tsx:21-51 | success means no error and a `register` call; a `register` call means loading was raised |
| Register.RegisterCalledOnlyWhenValid | client/pages/Register.tsx:25-45 | `register` is called exactly when the passwords match, the terms are accepted, the email is non-empty and the password has six characters or more |
| Register.MismatchCheckedFirst | client/pages/Register.tsx:25-28 | a password mismatch is reported first, whatever else is wrong, and nothing else happens |
| Register.TermsCheckedSecond | client/pages/Register.tsx:30-33 | with matching passwords, refusing the terms is reported and nothing else happens |
| Register.LoadingRaisedAfterChecks | client/pages/Register.tsx:35 | loading is raised exactly when both checks pass |
| Register.ErrorUnlessSucceeded | client/pages/Register.tsx:37-50 | a submission succeeds exactly when no error is shown, that is, when every check passes and `register` does not throw |
| Register.RegisterForm.HandleSubmit | client/pages/Register.tsx:21-51 | sets the error, success and loading as `Submit` says; loading is false again whenever it was raised; the form fields are kept |

## Left out

- Money is modelled with exact reals. The floating-point rounding of JavaScript numbers is not modelled. `Math.floor` of a float product may differ from the exact floor at boundaries.
- `toFixed`, the string form of the win rate and the currency formatting are left out. `GameRoutes.Percent` is the exact percentage.
- The zod email validator is reduced to `Strings.ValidEmail`: a non-empty local part, exactly one `@`, and a domain with a dot that is neither its first nor its last character.
- `toLowerCase`/`toUpperCase` map ASCII letters only.
- ISO timestamps are natural numbers. `new Date(x).getTime()` on a missing time is `NaN` and is modelled as a missing key.
- The clock, the random draws and the outcome of the `register` call are parameters.
- Request bodies are untyped in the handlers, while the model gives every amount the type of a number. A string amount would make `user.balance + amount` a string concatenation (100 + "5" gives "1005"), and a missing amount would give `NaN` (server/routes/auth.ts:158, server/routes/transactions.ts:83 and 138). Neither case is modelled.
- Several handlers read `Date.now()` or `new Date()` more than once: the user id and the creation time, and the token (server/routes/auth.ts:41, 51 and 57), or the record id, the payment id and the timestamp (server/routes/transactions.ts:89, 95 and 96). The model reads the clock once per request, so all of these share one `now`.
- `password.length` and zod's `min(6)` count UTF-16 code units (client/pages/Register.tsx:39). The model counts Unicode scalar values, so a password with characters outside the Basic Multilingual Plane can have a smaller length in the model.
- Async delays, `alert`, sound, navigation and `setTimeout` are left out.
- The `useAuth` hook is not part of this model. Its `updateBalance` is taken to set the balance and `register` to either return or throw.
- The `Register` form's own field setters are not modelled. Only its submit handler is.
- `GamesPage.Games.FinishSpin`: a lottery or scratch play made while the wheel spins is overwritten when the spin settles. The settlement uses the balance captured at the click. Interleaving of React state updates is not modelled beyond that.
- The in-place `Array.prototype.sort` calls are modelled as a stable insertion sort on sequences. The model does not capture in-place mutation of the shared array, and it does not capture the engine's own choice of algorithm for comparators that are not consistent.
- `parseInt` and `parseFloat` are modelled on inputs without leading blanks. A parse result is an `Option`. `TransactionManagement.ParseInt` reads only decimal digits.
- `Auth.UserStore.GetAllUsers` lists users in insertion order, as a JavaScript `Map` iterates. The order is kept in a separate sequence field.
- Icons, badges, animations and other markup are left out.
- The admin views' static sample data is not reproduced. Every property holds for any list.
- The colour lookups `colors[key] || fallback` read only the table's own keys. In JavaScript they also read properties inherited from `Object.prototype`, so a key such as "constructor" or "toString" yields a function instead of the fallback. `Strings.LookupOr`, and with it `AdminAlerts.TypeColor`, `TransactionManagement.StatusColor`, `TransactionManagement.RiskColor` and `AuditLog.SeverityColor`, return the fallback for every key outside the table.

## Findings

| source | as written | input that shows it | evidently intended | confidence | as-written member | corrected member |
|---|---|---|---|---|---|---|
| server/routes/transactions.ts:43 | sorts on `timestamp`, which withdrawal records lack, so the comparator returns NaN and the order is left as stored | a deposit at t=1, a withdrawal requested at t=2 and a deposit at t=3 for one email come back oldest first | newest first by each record's own time (`timestamp`, or `requestedAt` for withdrawals) | not executed | Transactions.WithdrawalBreaksNewestFirst | Transactions.GetTransactions |
| client/components/admin/UserManagement.tsx:137 | "select all" clears the selection whenever the selection has as many ids as the list has users | selection [3] while the filter shows only user 1: the click clears instead of selecting user 1 | clear only when every listed user is already selected | not executed | UserManagement.SelectAllComparesLengthsOnly | UserManagement.SelectAll |
