# Chapa Telegram payment bot — a Dafny model

This project models the server side of a Telegram bot that takes payments
and pays out withdrawals through the Chapa payment provider. It covers:

- the user table and its blocked-user gate;
- the conversation session kept for each Telegram user;
- the balance table (the ledger);
- the payment records, and the checkout request sent to the provider;
- the webhook that credits a payment;
- withdrawals and their verification with the provider;
- the chat handlers that walk a user through the two flows;
- the maintenance scheduler;
- the script that re-checks pending withdrawals.

Each MongoDB collection is a class. The fields of the class are the contents
of the collection: a `map` whose key is the unique index, plus a `seq` of
keys in creation order where the source sorts by `createdAt`. Each service
operation is a method of its class. A method is proved to change its fields
exactly as a function of the old contents says, and the lemmas state what
the source promises about those functions.

Things the program takes from outside are parameters of the model:

- the clock (`now`, in milliseconds);
- `parseFloat` and the number and date formatting;
- the random part of a payment reference;
- HMAC-SHA256;
- the provider's HTTP answers (`Err` or `None` where the request throws);
- whether a database call fails.

The files are:

| file | models |
|---|---|
| `common.dfy` | option and result types, JavaScript truthiness, the decimal rendering of numbers in keys |
| `balances.dfy` | `Balance.ts` and `BalanceService.ts` |
| `sessions.dfy` | `UserSession.ts` and `SessionService.ts` |
| `users.dfy` | `User.ts` and the parts of `UserService.ts` the bot calls |
| `withdrawals.dfy` | `Withdrawal.ts` and `withdrawalService.ts` |
| `payments.dfy` | `Payment.ts` |
| `payment_service.dfy` | `PaymentService.ts` |
| `payment_controller.dfy` | the webhook and the status endpoint of `PaymentController.ts` |
| `bot_controller.dfy` | `TelegramBotController.ts` |
| `telegram_bot.dfy` | the handlers of `bot/telegramBot.ts` |
| `maintenance.dfy` | `MaintenanceService.ts` |
| `auto_check.dfy` | `auto-check-withdrawals.ts` |

Three facts about the system as written come out of the proofs.

1. **Nothing a chat user does moves money** (`TelegramBot.ChatNeverMovesMoney`,
   `TelegramBot.RunNeverMovesMoney`, `TelegramBot.MobileNeverCreatesPayment`).
   - `updateState` replaces the draft sub-record it is given. It does not
     merge it into the stored one.
   - So the mobile step of the payment flow throws away the amount, and
     `processPayment` finds no amount.
   - In the same way, the account-name step of the withdrawal flow throws
     away the amount, so "Yes" submits nothing.
   - On top of that, the catch-all text handler is registered before bank
     selection and before the Yes, No and Cancel buttons, so for a text
     message those handlers never run (`TelegramBot.LaterHandlersShadowed`).
   - The dispatch takes the balance check of the withdrawal amount step as a
     parameter, and both lemmas hold for every check: the intended one and
     the one as written (the first row of "## Findings" below). They assume the
     corrected user gate; with the gate as written no handler runs at all
     (fact 3).
2. **Webhook payments are credited to `default-user`**, never to the ledger
   key `user-<telegramId>` that the chat reads
   (`PaymentController.ChatUserNeverCredited`). A replayed delivery is credited
   again (`PaymentController.ReplayCreditsTwice`).
3. **The user gate admits nobody** (`BotController.AsWrittenGateNeverPasses`).
   `initializeUser` hands Telegram's sender object (`id`, `first_name`, ...)
   straight to `getOrCreateUser`, whose record needs `telegramId` and
   `firstName`, so the save is refused and every handler stops at the gate.
   The rest of the model, like the corrected gate
   (`BotController.CorrectedGateAdmitsSender`), maps the sender's fields onto
   the user record; facts 1 and 2 are about what happens past the gate.

## Model

| member | source | states |
|---|---|---|
| Common.NatToStringInjective | server/controllers/TelegramBotController.ts:122 | distinct numbers are rendered as distinct decimal strings |
| Common.IntToStringInjective | server/controllers/TelegramBotController.ts:122 | the rendering of a signed integer determines the integer |
| Common.SameRenderingSameSign | server/controllers/TelegramBotController.ts:122 | equal renderings have equal signs |
| Common.IntToStringSign | server/controllers/TelegramBotController.ts:122 | a rendering starts with `-` exactly for a negative number |
| Common.UserKeyInjective | server/controllers/TelegramBotController.ts:122 | two chat users never share a ledger key `user-<id>` |
| Common.UserKeyIsNotDefaultUser | server/controllers/TelegramBotController.ts:155 | no chat user's ledger key is `default-user` |
| Common.NewestKeptFirst | server/services/withdrawalService.ts:175 | the newest element that passes a filter heads the newest-first limited view |
| Common.NewestViewOrder | server/services/withdrawalService.ts:175 | the newest-first limited view lists its entries in reverse creation order |
| Common.NewestViewComplete | server/services/withdrawalService.ts:175 | with distinct keys, a kept entry newer than a listed one is listed too |
| Common.Utf16Length | server/bot/telegramBot.ts:518 | the `length` of a JavaScript string lies between its number of characters and twice that |
| Common.Utf16LengthOfBmp | server/bot/telegramBot.ts:518 | the `length` equals the number of characters exactly when no character lies above U+FFFF |
| Balances.GetOrCreate | server/models/Balance.ts:40-51 | the record exists afterwards and is the one returned; an existing ledger is unchanged; a missing user gets exactly the default record |
| Balances.IncrementRecord | server/models/Balance.ts:33-37 | the save succeeds exactly when the new balance is non-negative; on success only that record changes, by the amount; on failure nothing changes |
| Balances.Increment | server/services/BalanceService.ts:16-28 | keeps every stored balance non-negative; its effect is stated by `Balances.IncrementAddsAmount` |
| Balances.Decrement | server/services/BalanceService.ts:31-51 | keeps every stored balance non-negative; its effect is stated by `Balances.DecrementRefusesWhenShort` |
| Balances.GetOrCreateContract | server/models/Balance.ts:40-51 | a missing user gets a zero ETB record; an existing record is returned unchanged; no other record changes |
| Balances.GetOrCreateKeepsAmounts | server/models/Balance.ts:40-51 | reading a balance changes no user's amount: a missing record is created at zero |
| Balances.IncrementAddsAmount | server/services/BalanceService.ts:16-28 | a successful increment adds exactly the amount to that user and touches no other; it fails exactly when the result would be negative |
| Balances.DecrementRefusesWhenShort | server/services/BalanceService.ts:38-40 | a balance below the amount gives "Insufficient balance" and keeps the amount |
| Balances.IncrementThenDecrementRestores | server/services/BalanceService.ts:16-51 | a credit followed by a debit of the same non-negative amount both succeed and restore the amount |
| Balances.BalanceStore.constructor | server/models/Balance.ts:3-30 | the collection starts empty |
| Balances.BalanceStore.GetBalance | server/services/BalanceService.ts:5-13 | the store steps as get-or-create, and the record returned is stored |
| Balances.BalanceStore.IncrementBalance | server/services/BalanceService.ts:16-28 | the store steps as the service increment |
| Balances.BalanceStore.DecrementBalance | server/services/BalanceService.ts:31-51 | the store steps as the service decrement |
| Balances.BalanceStore.CheckBalance | server/services/BalanceService.ts:54-62 | true exactly when the balance covers the amount; false and no write when the store fails |
| Balances.BalanceStore.GetBalanceAmount | server/services/BalanceService.ts:65-75 | the stored amount, or 0 for a missing user or a failing store |
| Sessions.GetOrCreate | server/models/UserSession.ts:97-112 | the session of that user exists afterwards and is the one returned; the map stays keyed by `telegramId` |
| Sessions.UpdateIn | server/services/SessionService.ts:30-47 | keeps the map keyed by `telegramId`; its effect is stated by `Sessions.UpdateSessionStateContract` |
| Sessions.ClearIn | server/services/SessionService.ts:50-61 | keeps the map keyed by `telegramId`; its effect is stated by `Sessions.MissingSessionNoOps` and `Sessions.ClearContract` |
| Sessions.ExtendIn | server/services/SessionService.ts:64-75 | keeps the map keyed by `telegramId`; its effect is stated by `Sessions.MissingSessionNoOps` |
| Sessions.Cleanup | server/models/UserSession.ts:115-121 | keeps the map keyed by `telegramId`; its effect is stated by `Sessions.CleanupContract` |
| Sessions.NewSessionDefaults | server/models/UserSession.ts:11-48 | a new session is idle and active, has empty drafts, and expires 30 minutes after creation |
| Sessions.UpdateStateContract | server/models/UserSession.ts:80-94 | the state is set, the session activated, exactly the supplied sub-records replaced, and the expiry moved 30 minutes ahead |
| Sessions.UpdateState | server/models/UserSession.ts:80-94 | no contract of its own; its effect is stated by `Sessions.UpdateStateContract` and `Sessions.UpdateStateDropsOmittedFields` |
| Sessions.UpdateStateDropsOmittedFields | server/models/UserSession.ts:80-94 | a supplied draft becomes the whole stored draft, so every field it leaves out is gone: there is no merge |
| Sessions.ClearContract | server/models/UserSession.ts:70-77 | clearing resets state, drafts and context, deactivates, keeps the expiry, and is idempotent |
| Sessions.GetOrCreateContract | server/models/UserSession.ts:97-112 | only a missing session is created; an inactive or expired one is reactivated with a fresh expiry and keeps its state and drafts; a live one is unchanged; no other user is touched |
| Sessions.GetOrCreateIdempotent | server/models/UserSession.ts:97-112 | a second call at the same instant changes nothing |
| Sessions.UpdateSessionStateContract | server/services/SessionService.ts:30-47 | afterwards the session exists with the new state, is active for 30 more minutes, and no other user's session changed |
| Sessions.MissingSessionNoOps | server/services/SessionService.ts:50-75 | clearing or extending a user without a session changes nothing |
| Sessions.CleanupContract | server/models/UserSession.ts:115-121 | exactly the active expired sessions are deactivated, every other session is unchanged, none active and expired remains, and the count is the drop in the active count |
| Sessions.SessionStore.constructor | server/models/UserSession.ts:28-62 | the collection starts empty |
| Sessions.SessionStore.GetSession | server/services/SessionService.ts:19-27 | the stored session of that user, or none; nothing changes |
| Sessions.SessionStore.GetOrCreateSession | server/services/SessionService.ts:7-16 | the store steps as get-or-create |
| Sessions.SessionStore.UpdateSessionState | server/services/SessionService.ts:30-47 | the store steps as get-or-create followed by `updateState` |
| Sessions.SessionStore.ClearSession | server/services/SessionService.ts:50-61 | the store steps as clear-if-present |
| Sessions.SessionStore.ExtendSession | server/services/SessionService.ts:64-75 | the store steps as extend-if-present |
| Sessions.SessionStore.GetSessionData | server/services/SessionService.ts:78-102 | none exactly when there is no record; otherwise the stored fields as they are, even when inactive or expired |
| Sessions.SessionStore.CleanupExpiredSessions | server/services/SessionService.ts:105-114 | the store steps as the cleanup, and the count is the number of sessions deactivated |
| Sessions.SessionStore.GetActiveSessionsCount | server/services/SessionService.ts:117-125 | the number of active sessions |
| Users.GetOrCreateIn | server/models/User.ts:107-128 | keeps every stored user keyed by `telegramId` and named; its effect is stated by `Users.GetOrCreateContract` |
| Users.UpdateIn | server/models/User.ts:80-104 | keeps the map valid for any record method that keeps the id and the first name |
| Users.TouchIn | server/services/UserService.ts:36-46 | keeps every stored user keyed by `telegramId` and named |
| Users.PaymentStatsIn | server/models/User.ts:92-97 | keeps every stored user keyed by `telegramId` and named |
| Users.WithdrawalStatsIn | server/models/User.ts:99-104 | keeps every stored user keyed by `telegramId` and named |
| Users.NewUserDefaults | server/models/User.ts:3-73 | a new user is active and unblocked, and every counter is 0 |
| Users.ToggleBlockInvolution | server/models/User.ts:86-89 | toggling twice restores the blocked flag; toggling changes nothing else |
| Users.ToggleBlockActiveUsers | server/models/User.ts:131-133 | toggling an active user moves it into or out of the active users |
| Users.GetOrCreateActiveUsers | server/models/User.ts:107-133 | a newly registered user is among the active users at once and no one else's membership changes; a known user's sign-in leaves the active users as they were |
| Users.ActiveUsers | server/models/User.ts:131-133 | no contract of its own; its members are stated by `Users.GetOrCreateActiveUsers` and `Users.ToggleBlockActiveUsers` |
| Users.StatsUpdatesTouchOwnCounters | server/models/User.ts:92-104 | a payment adds one to the payment count and the amount to the total paid, leaving the withdrawal counters; the withdrawal update is the mirror image |
| Users.StatsUpdatesCommute | server/models/User.ts:92-104 | the payment and withdrawal updates commute |
| Users.GetOrCreateContract | server/models/User.ts:107-128 | a record is created only for an unknown id; a known one gets the new names and activity and keeps its statistics, flags and registration; other users are untouched |
| Users.GetOrCreateNoDuplicate | server/models/User.ts:107-128 | a repeated call never adds a second record |
| Users.InactiveUsersMonotone | server/models/User.ts:136-146 | a longer window selects fewer users, and every selected user is active |
| Users.InactiveUsers | server/models/User.ts:136-146 | no contract of its own; its members are stated by `Users.InactiveUsersMonotone` and `Users.UserStore.GetInactiveUsers` |
| Users.UserStore.constructor | server/models/User.ts:3-73 | the collection starts empty |
| Users.UserStore.GetOrCreateUser | server/services/UserService.ts:8-22 | the store steps as get-or-create |
| Users.UserStore.UpdateUserActivity | server/services/UserService.ts:36-46 | the store steps as the activity stamp; a missing user is left alone |
| Users.UserStore.ToggleUserBlock | server/models/User.ts:86-89 | the store steps as the toggle |
| Users.UserStore.UpdatePaymentStats | server/models/User.ts:92-97 | the store steps as the payment statistics update |
| Users.UserStore.UpdateWithdrawalStats | server/models/User.ts:99-104 | the store steps as the withdrawal statistics update |
| Users.UserStore.IsUserBlocked | server/controllers/TelegramBotController.ts:29 | true exactly for a known user whose blocked flag is set |
| Users.UserStore.GetInactiveUsers | server/models/User.ts:136-146 | exactly the active users last seen before the cutoff |
| Withdrawals.History | server/services/withdrawalService.ts:171-180 | no contract of its own; what it returns is stated by `Withdrawals.HistoryContract` |
| Withdrawals.Insert | server/models/Withdrawal.ts:3-59 | keeps the collection valid: references unique, every record savable and in the creation order |
| Withdrawals.Replace | server/models/Withdrawal.ts:62-74 | keeps the collection valid when the saved record passes the schema |
| Withdrawals.Deduct | server/services/withdrawalService.ts:113-124 | keeps every stored balance non-negative; its effect is stated by `Withdrawals.DeductContract` |
| Withdrawals.Initiate | server/services/withdrawalService.ts:53-139 | keeps the ledger and the collection valid; its paths are stated by the four `Withdrawals.Initiate*` lemmas |
| Withdrawals.Settle | server/services/withdrawalService.ts:87-132 | keeps the ledger and the collection valid |
| Withdrawals.DeductContract | server/services/withdrawalService.ts:113-124 | the deduction lowers exactly that one balance by exactly the amount |
| Withdrawals.Verify | server/services/withdrawalService.ts:142-168 | keeps the collection valid; its effect is stated by `Withdrawals.VerifyContract` |
| Withdrawals.ApplyStatusContract | server/models/Withdrawal.ts:62-74 | the status is set; the transfer id and error message are overwritten only by non-empty values; `processedAt` is set exactly for completed and failed; repeating it changes nothing |
| Withdrawals.ApplyStatus | server/models/Withdrawal.ts:62-74 | no contract of its own; its effect is stated by `Withdrawals.ApplyStatusContract` |
| Withdrawals.StoredRecordsWellFormed | server/models/Withdrawal.ts:3-59 | a stored record has a status from the enum and a non-negative amount, and references are unique |
| Withdrawals.PendingRecordDefaults | server/services/withdrawalService.ts:73-86 | a new record is pending, in ETB, under the reference `withdrawal-<userId>-<now>` |
| Withdrawals.ReferencesDiffer | server/services/withdrawalService.ts:73 | two withdrawals of one user created at different instants get different references |
| Withdrawals.InitiateRejectsWhenShort | server/services/withdrawalService.ts:66-70 | an insufficient balance is rejected before any record is written and before any deduction |
| Withdrawals.InitiateSuccessDeducts | server/services/withdrawalService.ts:113-124 | a successful transfer leaves the record processing with the transfer id, and lowers the requester's balance by exactly the amount, keeping it non-negative; no other balance changes |
| Withdrawals.InitiateSuccessSucceeds | server/services/withdrawalService.ts:87-124 | with a sufficient balance, a savable pending record under a fresh reference and a "success" answer, the withdrawal succeeds: the record is processing with the transfer id, is the newest in the collection, and the requester's balance is lower by exactly the amount |
| Withdrawals.InitiateFailureNoDeduction | server/services/withdrawalService.ts:125-132 | any other provider status marks the record failed and touches no balance |
| Withdrawals.InitiateProviderErrorLeavesPending | server/services/withdrawalService.ts:86-138 | a provider request that throws leaves the saved record pending and the ledger untouched |
| Withdrawals.VerifyContract | server/services/withdrawalService.ts:157-161 | an unknown reference or a failed request changes nothing; otherwise the record's status becomes the answered one, or pending when there is none |
| Withdrawals.HistoryContract | server/services/withdrawalService.ts:171-180 | at most 10 of the user's withdrawals, all stored, newest first; every withdrawal of the user newer than a listed one is listed too, and with fewer than 10 listed all of them are; an empty collection gives an empty history |
| Withdrawals.NewRecordHeadsHistory | server/services/withdrawalService.ts:175 | a withdrawal just created comes first in its owner's history |
| Withdrawals.WithdrawalStore.constructor | server/models/Withdrawal.ts:3-59 | the collection starts empty |
| Withdrawals.WithdrawalStore.UpdateStatus | server/models/Withdrawal.ts:62-74 | the record gets the new status and is saved, or the save is refused for a status outside the enum |
| Withdrawals.WithdrawalStore.CheckBalance | server/services/withdrawalService.ts:41-50 | the balance check, with nothing written |
| Withdrawals.WithdrawalStore.InitiateWithdrawal | server/services/withdrawalService.ts:53-139 | both collections step as `initiateWithdrawal` |
| Withdrawals.WithdrawalStore.SettleTransfer | server/services/withdrawalService.ts:87-132 | both collections step as the settlement of the provider's answer |
| Withdrawals.WithdrawalStore.VerifyWithdrawal | server/services/withdrawalService.ts:142-168 | the collection steps as `verifyWithdrawal` |
| Withdrawals.WithdrawalStore.GetWithdrawalHistory | server/services/withdrawalService.ts:171-180 | the history, or the empty list when the query fails: at most 10 of the user's stored withdrawals, newest first, and all of them when fewer than 10 come back |
| Withdrawals.WithdrawalStore.GetWithdrawalByReference | server/services/withdrawalService.ts:183-192 | the record under that reference, or none |
| Payments.NewPaymentDefaults | server/models/Payment.ts:3-48 | a new payment is pending, in ETB unless the input names a currency |
| Payments.MarkContracts | server/models/Payment.ts:55-67 | `markSuccess` sets the status, stores the argument as the provider reference even when absent, stamps `processedAt`, and changes nothing else; `markFailed` keeps the reference; both keep a record savable |
| Payments.TerminalPaymentsCanBeRemarked | server/models/Payment.ts:55-67 | neither mark looks at the current status, so a failed payment can be marked successful and back |
| Payments.TxRefIdentifiesPayment | server/models/Payment.ts:10-15 | a stored payment is the only one with its `tx_ref` |
| Payments.UserPaymentsContract | server/models/Payment.ts:92-97 | at most `limit` payments (10 when no limit is given, every one for a limit of 0), all of that user, all stored, newest first |
| Payments.UserPaymentsComplete | server/models/Payment.ts:92-97 | every payment of the user newer than a listed one is listed too; with a limit of 0 or fewer than `limit` listed, all of the user's payments are |
| Payments.UserPaymentsUncut | server/models/Payment.ts:92-97 | when the list stops short of the limit, or there is none, it holds every payment of the user |
| Payments.UserPayments | server/models/Payment.ts:92-97 | no contract of its own; what it returns is stated by `Payments.UserPaymentsContract` and `Payments.UserPaymentsComplete` |
| Payments.MarkSuccess | server/models/Payment.ts:55-60 | no contract of its own; its effect is stated by `Payments.MarkContracts` |
| Payments.MarkFailed | server/models/Payment.ts:63-67 | no contract of its own; its effect is stated by `Payments.MarkContracts` |
| Payments.PaymentStore.constructor | server/models/Payment.ts:3-48 | the collection starts empty |
| Payments.PaymentStore.CreatePayment | server/models/Payment.ts:70-84 | an empty or already used `tx_ref` is refused with no write; otherwise the pending record is added at the newest end |
| Payments.PaymentStore.MarkPaymentSuccess | server/models/Payment.ts:55-60 | the stored payment is replaced by its `markSuccess` result |
| Payments.PaymentStore.MarkPaymentFailed | server/models/Payment.ts:63-67 | the stored payment is replaced by its `markFailed` result |
| Payments.PaymentStore.FindByTxRef | server/models/Payment.ts:87-89 | none exactly for an unknown `tx_ref`; otherwise the record with that `tx_ref` |
| Payments.PaymentStore.GetUserPayments | server/models/Payment.ts:92-97 | the user-payments query: at most 10 payments when no limit is given and at most `limit` for a positive one, all stored and of that user, newest first |
| PaymentService.TxRefInjective | server/services/PaymentService.ts:129 | a reference determines its timestamp and random part, so two payments made at different instants never share a `tx_ref` |
| PaymentService.CreateRequestContract | server/services/PaymentService.ts:128-140 | the request is in ETB for the amount's text, for `<userId>@example.com` with names `userId` and "User", for the mobile, under `tx_<now>_<suffix>` |
| PaymentService.InitializePaymentContract | server/services/PaymentService.ts:21-62 | succeeds exactly when the provider answered with a checkout URL, then returns the answer unchanged; every failure has the "Payment initialization failed: " prefix |
| PaymentService.SignatureContract | server/services/PaymentService.ts:65-84 | accepted exactly when a header carries the expected digest; never with an unserialisable body or no header |
| PaymentService.SignedBodyAccepted | server/services/PaymentService.ts:65-84 | a body signed with the secret is accepted through either header, whatever the other header holds |
| PaymentService.VerifyWebhookSignature | server/services/PaymentService.ts:65-84 | no contract of its own; its meaning is stated by `PaymentService.SignatureContract` |
| PaymentService.CreateRequest | server/services/PaymentService.ts:128-140 | no contract of its own; its contents are stated by `PaymentService.CreateRequestContract` |
| PaymentService.InitializePayment | server/services/PaymentService.ts:21-62 | no contract of its own; its outcome is stated by `PaymentService.InitializePaymentContract` |
| PaymentController.HandleCallback | server/controllers/PaymentController.ts:58-111 | keeps every stored balance non-negative; its effect is stated by `PaymentController.CreditDecision` |
| PaymentController.BadSignatureRefused | server/controllers/PaymentController.ts:66-80 | with a secret, a bad signature gives 401 and writes nothing |
| PaymentController.NoSecretIgnoresSignature | server/controllers/PaymentController.ts:66-80 | without a secret the signature headers do not matter |
| PaymentController.UnverifiedNotCredited | server/controllers/PaymentController.ts:104-110 | a verification that throws gives 400 and credits nothing |
| PaymentController.CreditDecision | server/controllers/PaymentController.ts:85-95 | only a verified, authorised "charge.success" delivery changes the ledger, only for `default-user`; a 200 for it credits exactly the parsed amount; the code is 200, 400 or 401 |
| PaymentController.ChatUserNeverCredited | server/controllers/PaymentController.ts:89-95 | no chat user's balance is raised by a delivery |
| PaymentController.ReplayCreditsTwice | server/controllers/PaymentController.ts:89-95 | the same qualifying delivery twice is credited twice |
| PaymentController.PaymentStatusNeedsTxRef | server/controllers/PaymentController.ts:114-140 | the status endpoint answers 200 exactly with a non-empty `tx_ref` and an answer from the provider, and 400 otherwise; without a `tx_ref` the provider is never consulted |
| PaymentController.Authorized | server/controllers/PaymentController.ts:66-80 | no contract of its own; its meaning is stated by `PaymentController.BadSignatureRefused` and `PaymentController.NoSecretIgnoresSignature` |
| PaymentController.Qualifies | server/controllers/PaymentController.ts:85-95 | no contract of its own; its meaning is stated by `PaymentController.CreditDecision` |
| PaymentController.PaymentStatusCode | server/controllers/PaymentController.ts:114-140 | no contract of its own; its meaning is stated by `PaymentController.PaymentStatusNeedsTxRef` |
| PaymentController.HandlePaymentCallback | server/controllers/PaymentController.ts:58-111 | the ledger and the status code are those of the callback function |
| BotController.Initialized | server/controllers/TelegramBotController.ts:17-52 | keeps every store well formed (keys match records, balances non-negative, references unique); a request that goes on has a sender with a session |
| BotController.Started | server/controllers/TelegramBotController.ts:57-88 | keeps every store well formed (keys match records, balances non-negative, references unique); its effect is stated by `BotController.MenuHandlersContract` |
| BotController.PaymentInitiated | server/controllers/TelegramBotController.ts:93-109 | keeps every store well formed (keys match records, balances non-negative, references unique); its effect is stated by `BotController.MenuHandlersContract` |
| BotController.WithdrawalInitiated | server/controllers/TelegramBotController.ts:147-180 | keeps every store well formed (keys match records, balances non-negative, references unique); its effect is stated by `BotController.WithdrawalInitiationContract` |
| BotController.StatusIconContract | server/controllers/TelegramBotController.ts:205-210 | the five statuses have five different icons, and only an unknown status gets ❓ |
| BotController.StatusIcon | server/controllers/TelegramBotController.ts:205-210 | no contract of its own; its values are stated by `BotController.StatusIconContract` |
| BotController.EntriesStartWithFirst | server/controllers/TelegramBotController.ts:204-219 | the entries of a non-empty list start with the first withdrawal, numbered 1 |
| BotController.HistoryReplyContract | server/controllers/TelegramBotController.ts:197-219 | an empty history gets the "none found" reply; otherwise the header and the newest withdrawal as entry 1; withdrawals after the fifth do not change it |
| BotController.HistoryReply | server/controllers/TelegramBotController.ts:197-219 | no contract of its own; the reply is stated by `BotController.HistoryReplyContract` and `BotController.EntriesStartWithFirst` |
| BotController.HistoryShownTo | server/controllers/TelegramBotController.ts:185-233 | keeps every store well formed (keys match records, balances non-negative, references unique); the reply is stated by `BotController.HistoryReplyContract` |
| BotController.PaymentProcessed | server/controllers/TelegramBotController.ts:342-406 | keeps every store well formed (keys match records, balances non-negative, references unique); its effect is stated by `BotController.PaymentProcessedContract` |
| BotController.WithdrawalProcessed | server/controllers/TelegramBotController.ts:411-491 | keeps every store well formed (keys match records, balances non-negative, references unique); its effect is stated by `BotController.WithdrawalProcessedContract` |
| BotController.PaymentAfterGate | server/controllers/TelegramBotController.ts:350-406 | keeps every store well formed; its effect is stated by `BotController.PaymentAfterGateContract` |
| BotController.PaymentOfDraft | server/controllers/TelegramBotController.ts:361-406 | keeps every store well formed; its effect is stated by `BotController.PaymentOfDraftContract` |
| BotController.WithdrawalAfterGate | server/controllers/TelegramBotController.ts:419-491 | keeps every store well formed; its effect is stated by `BotController.WithdrawalAfterGateContract` |
| BotController.WithdrawalOfDraft | server/controllers/TelegramBotController.ts:438-491 | keeps every store well formed; its effect is stated by `BotController.WithdrawalOfDraftContract` |
| BotController.BanksForContract | server/controllers/TelegramBotController.ts:496-516 | the cache is served exactly while non-empty and under five minutes old; a fetched list is served and cached with the current time; a failed fetch serves nothing and keeps the cache |
| BotController.BanksFor | server/controllers/TelegramBotController.ts:496-516 | no contract of its own; its behaviour is stated by `BotController.BanksForContract` and `BotController.FetchedListServedForFiveMinutes` |
| BotController.FetchedListServedForFiveMinutes | server/controllers/TelegramBotController.ts:496-516 | a freshly fetched non-empty list is served unchanged for the next five minutes, whatever a fetch would give |
| BotController.GateContract | server/controllers/TelegramBotController.ts:21-35 | no sender or a blocked sender leaves every store unchanged; a sender that is not blocked passes exactly when it has a first name, and then has a record and a session afterwards; other users are untouched |
| BotController.AsWrittenGateNeverPasses | server/controllers/TelegramBotController.ts:38 | fed the Telegram sender object unmapped, the gate never lets a request through and changes no store |
| BotController.CorrectedGateAdmitsSender | server/controllers/TelegramBotController.ts:17-52 | with the sender mapped onto the user record, a sender with a first name who is not blocked gets through with a record and an active session |
| BotController.MenuHandlersContract | server/controllers/TelegramBotController.ts:57-109 | `/start` leaves the session idle and inactive; "Make Payment" leaves it awaiting an amount |
| BotController.WithdrawalInitiationContract | server/controllers/TelegramBotController.ts:147-180 | the session moves to awaiting a withdrawal amount exactly when the sender's balance is positive; otherwise it is as the gate left it |
| BotController.PaymentProcessedContract | server/controllers/TelegramBotController.ts:342-406 | every path past the gate clears the session; a checkout is created only from a draft with an amount and a mobile whose amount is positive, and only then do statistics change; ledger and withdrawals are untouched |
| BotController.WithdrawalProcessedContract | server/controllers/TelegramBotController.ts:411-491 | every path past the gate clears the session; the withdrawal service is called, and ledger or withdrawals change, only for a draft with every field and a positive amount |
| BotController.ClearInClears | server/services/SessionService.ts:50-61 | clearing an existing session leaves it idle, inactive and with empty drafts |
| BotController.PaymentAfterGateContract | server/controllers/TelegramBotController.ts:350-406 | past the gate the session ends cleared; a checkout comes only from a complete draft with a positive amount, and only it changes statistics; ledger and withdrawals are untouched |
| BotController.PaymentOfDraftContract | server/controllers/TelegramBotController.ts:361-406 | with a complete draft the session ends cleared on every path; only a created checkout, from a positive amount, changes statistics |
| BotController.WithdrawalAfterGateContract | server/controllers/TelegramBotController.ts:419-491 | past the gate the session ends cleared; an incomplete draft or bad amount changes nothing else; a submitted withdrawal had every draft field |
| BotController.WithdrawalOfDraftContract | server/controllers/TelegramBotController.ts:438-491 | with a complete draft the session ends cleared on every path; the amount is rejected exactly when it does not parse to a positive number, and then nothing else changes |
| BotController.TelegramBotController.constructor | server/controllers/TelegramBotController.ts:10-12 | the controller works on the given four stores, with an empty bank cache |
| BotController.TelegramBotController.InitializeUser | server/controllers/TelegramBotController.ts:17-52 | the stores step as the gate |
| BotController.TelegramBotController.HandleStart | server/controllers/TelegramBotController.ts:57-88 | the stores step as `/start` |
| BotController.TelegramBotController.HandlePaymentInitiation | server/controllers/TelegramBotController.ts:93-109 | the stores step as "Make Payment" |
| BotController.TelegramBotController.HandleWithdrawalInitiation | server/controllers/TelegramBotController.ts:147-180 | the stores step as "Withdraw Funds" |
| BotController.TelegramBotController.HandleWithdrawalHistory | server/controllers/TelegramBotController.ts:185-233 | the stores and the reply are those of the history function |
| BotController.TelegramBotController.ProcessPayment | server/controllers/TelegramBotController.ts:342-406 | the stores and the outcome step as `processPayment` |
| BotController.TelegramBotController.ProcessWithdrawal | server/controllers/TelegramBotController.ts:411-491 | the stores and the outcome step as `processWithdrawal` |
| BotController.TelegramBotController.WithdrawDraft | server/controllers/TelegramBotController.ts:438-491 | the stores and the outcome step as the rest of `processWithdrawal` for a complete draft |
| BotController.TelegramBotController.GetBanksForSelection | server/controllers/TelegramBotController.ts:496-516 | the cache and the list step as the cached lookup |
| BotController.HistoryMessage | server/controllers/TelegramBotController.ts:197-221 | the message the loop builds is the history reply |
| TelegramBot.LeadingDigits | server/bot/telegramBot.ts:301 | the count is at most the length, and that many leading characters are digits, followed by a non-digit or the end |
| TelegramBot.MobileNumberExamples | server/bot/telegramBot.ts:461 | `0911234567`, `+251911234567` and `911234567` are accepted; a number starting with 8 or one digit short is not |
| TelegramBot.MobileNumberShape | server/bot/telegramBot.ts:461 | an accepted number is 9, 10 or 13 characters and ends in nine digits starting with 7 or 9 |
| TelegramBot.MobileNumber | server/bot/telegramBot.ts:461 | no contract of its own; what it accepts is stated by `TelegramBot.MobileNumberShape` and `TelegramBot.MobileNumberExamples` |
| TelegramBot.DigitsValueOfRendering | server/bot/telegramBot.ts:312-315 | reading a rendered number back gives the number |
| TelegramBot.ListedLineSelectsBank | server/bot/telegramBot.ts:312-315 | the line with which the list shows the bank at position i matches the selection pattern and selects position i |
| TelegramBot.BankChoiceText | server/bot/telegramBot.ts:301 | no contract of its own; what it accepts is stated by `TelegramBot.ListedLineSelectsBank` |
| TelegramBot.ChoiceNumber | server/bot/telegramBot.ts:312-315 | no contract of its own; the number it reads is stated by `TelegramBot.ListedLineSelectsBank` and `TelegramBot.DigitsValueOfRendering` |
| TelegramBot.BankListMessage | server/bot/telegramBot.ts:556-560 | the message the loop builds is the bank list reply |
| TelegramBot.PaymentAmountEntered | server/bot/telegramBot.ts:440-456 | keeps every store well formed (keys match records, balances non-negative, references unique); its effect is stated by `TelegramBot.PaymentAmountContract` |
| TelegramBot.MobileEntered | server/bot/telegramBot.ts:458-477 | keeps every store well formed (keys match records, balances non-negative, references unique); its effect is stated by `TelegramBot.MobileNeverCreatesPayment` |
| TelegramBot.WithdrawalAmountWith | server/bot/telegramBot.ts:479-514 | keeps every store well formed (keys match records, balances non-negative, references unique) |
| TelegramBot.WithdrawalAmountEntered | server/bot/telegramBot.ts:479-514 | keeps every store well formed (keys match records, balances non-negative, references unique); its effect is stated by `TelegramBot.WithdrawalAmountContract` |
| TelegramBot.WithdrawalAmountEnteredAsWritten | server/bot/telegramBot.ts:479-514 | keeps every store well formed (keys match records, balances non-negative, references unique); its effect is stated by `TelegramBot.AsWrittenAcceptsAmountAboveBalance` |
| TelegramBot.AccountNameEntered | server/bot/telegramBot.ts:516-537 | keeps every store well formed (keys match records, balances non-negative, references unique); its effect is stated by `TelegramBot.AccountDetailsContract` |
| TelegramBot.AccountNumberEntered | server/bot/telegramBot.ts:539-567 | keeps every store well formed (keys match records, balances non-negative, references unique); its effect is stated by `TelegramBot.AccountDetailsContract` |
| TelegramBot.TextReceived | server/bot/telegramBot.ts:259-298 | keeps every store well formed (keys match records, balances non-negative, references unique); its effect is stated by `TelegramBot.TextIgnoredOutsideInputStates` and `TelegramBot.TextKeepsNothingToConfirm` |
| TelegramBot.BankChosen | server/bot/telegramBot.ts:301-363 | keeps every store well formed (keys match records, balances non-negative, references unique); its effect is stated by `TelegramBot.BankChoiceContract` |
| TelegramBot.YesPressed | server/bot/telegramBot.ts:366-382 | keeps every store well formed (keys match records, balances non-negative, references unique); its effect is stated by `TelegramBot.ButtonsContract` and `TelegramBot.YesSubmitsNothing` |
| TelegramBot.NoPressed | server/bot/telegramBot.ts:384-401 | keeps every store well formed (keys match records, balances non-negative, references unique); its effect is stated by `TelegramBot.ButtonsContract` |
| TelegramBot.CancelPressed | server/bot/telegramBot.ts:403-417 | keeps every store well formed (keys match records, balances non-negative, references unique); its effect is stated by `TelegramBot.ButtonsContract` |
| TelegramBot.Dispatch | server/bot/telegramBot.ts:259-417 | keeps every store well formed (keys match records, balances non-negative, references unique); its effect is stated by `TelegramBot.ChatNeverMovesMoney` |
| TelegramBot.LaterHandlersShadowed | server/bot/telegramBot.ts:259-417 | a text message never reaches bank selection or the Yes, No and Cancel handlers; the text "Yes" is routed to the catch-all text handler |
| TelegramBot.Routed | server/bot/telegramBot.ts:42-417 | no contract of its own; its routing is stated by `TelegramBot.LaterHandlersShadowed` and `TelegramBot.StartRouting` |
| TelegramBot.StartRouting | server/bot/telegramBot.ts:42-53 | a text goes to `/start` exactly when it is the command `/start` or `/start@<bot>`, alone or followed by a payload |
| TelegramBot.StartRoutingExamples | server/bot/telegramBot.ts:42-53 | `/start`, `/start ref42` and `/start@<bot>` start the bot; `/starts` is plain text |
| TelegramBot.TextIgnoredOutsideInputStates | server/bot/telegramBot.ts:259-298 | with no sender, no session, or a state outside the five input states, the text handler changes nothing |
| TelegramBot.PaymentAmountContract | server/bot/telegramBot.ts:440-456 | NaN or a non-positive amount changes nothing; a positive one moves to awaiting a mobile with exactly `{ amount: text }` as draft |
| TelegramBot.WithdrawalAmountContract | server/bot/telegramBot.ts:479-514 | NaN or a non-positive amount changes nothing; one above the balance leaves the session unchanged; any other moves to awaiting the account name with exactly `{ amount: text }`; no balance amount changes |
| TelegramBot.AsWrittenAcceptsAmountAboveBalance | server/bot/telegramBot.ts:492-495 | as written, an amount above the balance is accepted, while the intended check keeps the session where it was |
| TelegramBot.AccountDetailsContract | server/bot/telegramBot.ts:516-567 | a name shorter than 2 or a number outside 10 to 16 UTF-16 code units (the `length` of a JavaScript string) changes nothing; otherwise that one field becomes the whole withdrawal draft |
| TelegramBot.BankChoiceContract | server/bot/telegramBot.ts:301-363 | acts only while awaiting a bank choice; accepts exactly a number from 1 to the list length; an accepted choice awaits confirmation with a draft holding only that bank |
| TelegramBot.ButtonsContract | server/bot/telegramBot.ts:366-417 | Yes and No act only while awaiting confirmation; No and Cancel leave the session cleared |
| TelegramBot.MobileNeverCreatesPayment | server/bot/telegramBot.ts:458-477 | the mobile step replaces the draft, so `processPayment` finds no amount, clears the session and creates no checkout |
| TelegramBot.GateKeepsDrafts | server/controllers/TelegramBotController.ts:17-52 | the gate leaves every session's state and drafts as they were |
| TelegramBot.UpdateKeepsNothingToConfirm | server/models/UserSession.ts:80-94 | an update keeps "no session awaits confirmation with an amount" unless it sets such a draft |
| TelegramBot.GateKeepsNothingToConfirm | server/controllers/TelegramBotController.ts:17-52 | the gate keeps the invariant and touches no withdrawal and no balance amount |
| TelegramBot.PaymentKeepsNothingToConfirm | server/controllers/TelegramBotController.ts:342-406 | `processPayment` keeps the invariant and touches no withdrawal and no balance amount |
| TelegramBot.PaymentAfterGateKeepsNothingToConfirm | server/controllers/TelegramBotController.ts:350-406 | past the gate, `processPayment` keeps the invariant and touches neither ledger nor withdrawals |
| TelegramBot.PaymentOfDraftKeepsNothingToConfirm | server/controllers/TelegramBotController.ts:361-406 | for a complete draft, the rest of `processPayment` keeps the invariant and touches neither ledger nor withdrawals |
| TelegramBot.ClearKeepsNothingToConfirm | server/services/SessionService.ts:50-61 | clearing keeps the invariant |
| TelegramBot.YesSubmitsNothing | server/bot/telegramBot.ts:366-382 | with the invariant, Yes submits no withdrawal and moves no money |
| TelegramBot.AnyAmountCheckKeepsNothingToConfirm | server/bot/telegramBot.ts:479-514 | whatever the balance check, the withdrawal amount step keeps the invariant, touches no withdrawal and changes no balance amount |
| TelegramBot.TextKeepsNothingToConfirm | server/bot/telegramBot.ts:259-298 | for every balance check, the text handler keeps the invariant, touches no withdrawal and changes no balance amount |
| TelegramBot.BankChoiceKeepsNothingToConfirm | server/bot/telegramBot.ts:301-363 | bank selection keeps the invariant: the draft it confirms holds only the bank |
| TelegramBot.MenuKeepsNothingToConfirm | server/controllers/TelegramBotController.ts:57-233 | /start, "Make Payment" and "Withdrawal History" keep the invariant and touch neither ledger nor withdrawals |
| TelegramBot.WithdrawMenuKeepsNothingToConfirm | server/controllers/TelegramBotController.ts:147-183 | "Withdraw Funds" keeps the invariant, touches no withdrawal and changes no balance amount |
| TelegramBot.ChatNeverMovesMoney | server/bot/telegramBot.ts:259-417 | for every balance check, the one as written included, every update keeps the invariant, submits no withdrawal and changes no balance amount |
| TelegramBot.Run | server/bot/telegramBot.ts:259-417 | keeps every store well formed (keys match records, balances non-negative, references unique) over a whole conversation |
| TelegramBot.RunNeverMovesMoney | server/bot/telegramBot.ts:259-417 | for every balance check, the one as written included, a conversation that starts with nothing to confirm submits no withdrawal and changes no balance amount |
| TelegramBot.HandlePaymentAmount | server/bot/telegramBot.ts:440-456 | the stores step as the payment amount handler |
| TelegramBot.HandlePaymentMobile | server/bot/telegramBot.ts:458-477 | the stores step as the mobile handler |
| TelegramBot.HandleWithdrawalAmount | server/bot/telegramBot.ts:479-514 | the stores step as the withdrawal amount handler with the intended check |
| TelegramBot.HandleAccountName | server/bot/telegramBot.ts:516-537 | the stores step as the account name handler |
| TelegramBot.HandleAccountNumber | server/bot/telegramBot.ts:539-567 | the stores, cache and reply step as the account number handler |
| TelegramBot.HandleText | server/bot/telegramBot.ts:259-298 | the stores and cache step as the text dispatch with the intended balance check |
| TelegramBot.HandleBankSelection | server/bot/telegramBot.ts:301-363 | the stores and cache step as bank selection |
| TelegramBot.HandleYes | server/bot/telegramBot.ts:366-382 | the stores step as the Yes handler |
| TelegramBot.HandleNo | server/bot/telegramBot.ts:384-401 | the stores step as the No handler |
| TelegramBot.HandleCancel | server/bot/telegramBot.ts:403-417 | the stores step as the Cancel handler |
| Maintenance.ErrorsCountFailedSubtasks | server/services/MaintenanceService.ts:53-104 | `errors` is the number of subtasks that threw, at most 3, and the warning is logged exactly when one threw |
| Maintenance.SubtasksIndependent | server/services/MaintenanceService.ts:61-92 | each subtask's effect and counter depend only on whether that subtask threw |
| Maintenance.RunCounters | server/services/MaintenanceService.ts:61-92 | the cleanup count is the drop in active sessions (0 and no change when it throws); `inactiveUsersFound` counts the active users idle for 30 days; no session is added or removed |
| Maintenance.Maintained | server/services/MaintenanceService.ts:53-104 | no contract of its own; its effect is stated by `Maintenance.RunCounters`, `Maintenance.ErrorsCountFailedSubtasks` and `Maintenance.SubtasksIndependent` |
| Maintenance.MissingResetAlwaysWarns | server/services/MaintenanceService.ts:70-75 | when `resetStuckSessions` throws, the run warns and resets nothing |
| Maintenance.StatusContract | server/services/MaintenanceService.ts:113-124 | running exactly while a handle is set, and then the next run is 30 minutes away |
| Maintenance.StatusOf | server/services/MaintenanceService.ts:113-124 | no contract of its own; its value is stated by `Maintenance.StatusContract` |
| Maintenance.HealthContract | server/services/MaintenanceService.ts:137-159 | fails exactly when a lookup that can fail does, with one message; otherwise reports the running flag and the users idle for 7 days |
| Maintenance.Health | server/services/MaintenanceService.ts:137-159 | no contract of its own; its value is stated by `Maintenance.HealthContract` |
| Maintenance.MaintenanceService.constructor | server/services/MaintenanceService.ts:11-12 | no handle is set |
| Maintenance.MaintenanceService.PerformMaintenance | server/services/MaintenanceService.ts:48-108 | the sessions and the counters step as one run, and the warning flag is that of the counters |
| Maintenance.MaintenanceService.StartMaintenance | server/services/MaintenanceService.ts:14-32 | nothing when already started; otherwise the handle is stored and a first run made |
| Maintenance.MaintenanceService.StopMaintenance | server/services/MaintenanceService.ts:37-43 | no handle is set afterwards |
| Maintenance.MaintenanceService.GetStatus | server/services/MaintenanceService.ts:113-124 | the status of the current handle |
| Maintenance.MaintenanceService.ForceMaintenance | server/services/MaintenanceService.ts:129-132 | one run, whether or not the service is started |
| Maintenance.MaintenanceService.GetHealthMetrics | server/services/MaintenanceService.ts:137-159 | the metrics of the current collections and handle |
| AutoCheck.CheckOne | server/auto-check-withdrawals.ts:27-54 | keeps the collection valid; its report is stated by `AutoCheck.CheckOneContract` |
| AutoCheck.CheckAll | server/auto-check-withdrawals.ts:27-54 | keeps the collection valid; its reports are stated by `AutoCheck.CheckAllReports` and `AutoCheck.CheckAllFrame` |
| AutoCheck.PendingContract | server/auto-check-withdrawals.ts:13-18 | the list holds exactly the pending or processing entries of `default-user`'s newest 10, as stored |
| AutoCheck.CheckOneContract | server/auto-check-withdrawals.ts:35-53 | a change is reported exactly when the provider's status differs from the listed one and the save went through; a failure is reported exactly when the check threw, and then nothing changed |
| AutoCheck.CheckAllReports | server/auto-check-withdrawals.ts:27-54 | every listed withdrawal is checked exactly once, in list order; a failed check does not stop the rest |
| AutoCheck.CheckAllFrame | server/auto-check-withdrawals.ts:27-54 | no record outside the list changes, and none is added or removed |
| AutoCheck.NothingPendingNothingChecked | server/auto-check-withdrawals.ts:20-23 | with nothing pending, nothing is checked and nothing changes |
| AutoCheck.CheckWithdrawal | server/auto-check-withdrawals.ts:28-53 | the collection and the report step as one check of the spec |
| AutoCheck.CheckPendingWithdrawals | server/auto-check-withdrawals.ts:13-54 | the collection and the reports are those of checking the pending list in order |

## Left out

- I/O: HTTP, Telegram replies and logging are left out. Their inputs are parameters and the messages they build are results.
- Persistence failures are not modelled, except where the source catches them and answers with a default. Those places have an explicit failure flag.
- Concurrency is not modelled: two updates of one user racing on the session or the ledger. Every method is one sequential request.
- Floating point: amounts are `real`. `parseFloat` is an abstract `string -> Option<real>`, with `None` for NaN; `Infinity` is not modelled.
- The `\s` of the bank-selection pattern is modelled as ASCII whitespace only.
- `UserService.isUserBlocked`, `updatePaymentStats`, `updateWithdrawalStats` and `getInactiveUsers` are called by the bot and the scheduler but not defined in `UserService.ts`. They are given the behaviour of the record and static methods of `User.ts` they name.
- `WithdrawalService.createWithdrawal` is called but not defined. It is modelled as `initiateWithdrawal` on the draft's fields.
- `SessionService.resetStuckSessions` and `getStuckSessions` are not defined either. Their answers are inputs, and `None` means the call throws.
- `payment.checkoutUrl` and `payment.reference`, which `processPayment` reads, do not exist on the service's answer. Only the branch structure they guard is modelled.
- The help, balance, statistics, admin, active users, maintenance menu and main-menu handlers of `telegramBot.ts` are not modelled. `Routed` answers `None` for them.
- TelegramBot.Routed: grammy ends a command at the first character that is not a letter, a digit, `_` or `@`; the message entities Telegram sends are not modelled, and neither are commands in photo captions. The `@<bot>` part is compared exactly, where grammy ignores its case.
- `handleBankConfirmation` is not modelled: its only effect is a reply.
- `getUserByTelegramId`, `getUserStats`, `getAllUsers` and `getActiveUsersCount` of `UserService.ts` are not modelled: the bot core does not call them.
- `getSystemStats` is modelled only as a flag saying whether it throws, inside the health metrics.
- The `initializePayment` HTTP endpoint of `PaymentController.ts`, the balance and withdrawal controllers, the routes, the client and the test scripts are not modelled.
- `PaymentService.getPaymentStatus` is modelled only through the status endpoint's answer code.
- `getBanks` is modelled as the provider's answer handed to the bank cache.
- Users.InactiveUsers: the cutoff is `now - days * 24h`, in milliseconds; the source subtracts calendar days with `setDate`, which differs across daylight-saving changes.
- AutoCheck.CheckPendingWithdrawals: the one-second pause between checks is not modelled, and every check carries the same timestamp.
- Maintenance.MaintenanceService.StartMaintenance: the interval ticks of `setInterval` are not modelled; each later tick is one more `PerformMaintenance` call. The first run, which the source does not await, is modelled as finished before the method returns.
- BotController.PaymentProcessed: the catch block clears the session of the `userId` argument. The model keeps that argument as a separate input rather than assuming it equals the sender.
- Payments.UserPayments: the limit is a natural number; a negative `limit`, which MongoDB reads as its absolute value with a single batch, is not modelled.
- BotController.AsWrittenGateNeverPasses: the as-written gate's lookup by an undefined `telegramId` is collapsed into the refused save, which ends the same way.
- Withdrawals.History: the `createdAt` sort is modelled by creation order; two records created in the same millisecond keep insertion order.
- The chat-side ledger key is `user-<telegramId>`, while the webhook and the auto-checker use `default-user`. This is modelled as written.

## Findings

| source | as written | input that shows it | evidently intended | confidence | as-written member | corrected member |
|---|---|---|---|---|---|---|
| server/bot/telegramBot.ts:492-495 | `amount > balance` compares the amount with the Balance document, which converts to NaN, so the check never fires | a user with balance 0 (no record) sends "100" at the withdrawal amount step: the handler asks for the account name | refuse an amount above `balance.balance` and keep the session where it was | high (not executed) | TelegramBot.AsWrittenAcceptsAmountAboveBalance | TelegramBot.WithdrawalAmountEntered |
| server/controllers/TelegramBotController.ts:38 | `getOrCreateUser(ctx.from)` passes Telegram's sender object, whose fields are `id` and `first_name`, so the new record has neither `telegramId` nor `firstName` and its save is refused | any update from a sender who is not blocked, say id 42 with first name "A": the gate answers null and no handler runs | map `id`, `first_name`, `last_name` and `username` onto `telegramId`, `firstName`, `lastName` and `username` before the call | high (not executed) | BotController.AsWrittenGateNeverPasses | BotController.CorrectedGateAdmitsSender |
