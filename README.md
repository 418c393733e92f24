# Wallet ledger engine, modelled in Dafny

This project models the ledger engine of a two-currency digital-wallet
platform. Users hold a balance in FC and a balance in USD. They can send
money to each other and buy catalogue products. Administrators can record
money creation and can credit an account directly.

What is modelled:

- the four balance-changing HTTP handlers of `server/routes.ts`:
  `POST /api/transfer`, `POST /api/products/:id/purchase`,
  `POST /api/admin/create-money` and `POST /api/admin/credit-account`;
- the blocked-user check of `authenticateToken` and the `requireAdmin` gate;
- the `DatabaseStorage` primitives of `server/storage.ts` that these handlers
  call;
- the enumerations, column defaults and request validators of
  `shared/schema.ts`.

Files:

- `wrappers.dfy`: `Option` and `Result`.
- `schema.dfy` (module `Schema`), modelling `shared/schema.ts`:
  - rows as datatypes;
  - insert shapes whose missing columns take the schema's defaults;
  - the zod validators as functions returning `Option`.
- `storage.dfy` (module `Storage`), modelling `server/storage.ts`:
  - `DatabaseStorage` is a class over five tables held as sequences;
  - the inserts and updates are methods that change those tables in place;
  - the queries are functions of the tables;
  - `Valid()` states the integrity the store keeps:
    - emails are unique, a key of `users`;
    - every record refers only to rows that exist, foreign keys of the schema;
    - amounts, prices and stock fit their column types;
    - there is one wallet per user. No constraint of the schema forces this:
      it holds because `createUser` always calls `createWallet`, which
      `Storage.DatabaseStorage.CreateUser` proves;
    - ids are row positions, a convention of the model rather than a constraint.
- `ledger.dfy` (module `Ledger`), the meaning of the transaction log:
  - the signed effect of one record on one balance;
  - the replay of the log;
  - the total supply held in wallets;
  - one lemma per kind of record, showing that the record keeps every balance
    explained by the log.
- `routes.dfy` (module `Routes`), modelling `server/routes.ts`. Each handler
  has three parts:
  - a pure `Check…` function: it runs the handler's guards in the handler's
    order, and either refuses the request with a `Failure` or yields a plan;
  - an `Apply…` method: it runs the plan's storage calls one after another;
  - a `Post…` method: it joins the check and the calls, and its contract states
    the handler's whole effect on the store, branch by branch.

  The invariant `Routes.Justified` says:
  - the store is valid;
  - every balance equals the replay of the log;
  - no balance is negative;
  - every record is `completed`.

  The transfer handler as written (`Routes.PostTransferAsWritten`) breaks it
  when the credit to the recipient overflows. The sender stays debited with no
  record of it, so the balances no longer match the log (see Findings).
  Therefore the handlers of the program as written are specified on any valid
  store with no negative balance, and each keeps that:
  - `PostTransferAsWritten`;
  - `Routes.PostPurchase`;
  - `Routes.PostCreateMoney`;
  - `Routes.PostCreditAccount`.

  Each of them also keeps `Justified` when it held before. For the transfer
  handler this is so only when the credit fits.
  `Routes.CreditAfterPartialTransfer` runs a credit on the store the partial
  transfer leaves.

  The corrected transfer handler `Routes.PostTransfer` is the one handler
  specified under `Justified` itself, the invariant of the corrected program.

Modelling conventions:

- Amounts are whole cents.
- A `numeric(12, 2)` column holds fewer than 10^12 cents in absolute value
  (`Schema.FitsDecimal`). A value outside that range is the database's
  "numeric field overflow" (`DbError.NumericOverflow`). Stock is an `integer`
  column (`Schema.FitsInteger`).
- Record ids are the rows' positions, and creation time is insertion order.
  Queries ordered by `desc(createdAt)` therefore return rows in reverse
  insertion order.
- A request carries a token that has already been verified. The model
  represents it by the user id it carries.
- A password reaches `createUser` already hashed.

Points where the handlers do not do what a reader of the schema might expect;
the model follows the handlers:

- **Replay is by record type.** A replay by role would credit the recipient or
  target named on a record and debit its sender, and so would debit the
  administrator on every deposit. The handlers do something else:
  - a `deposit` names the administrator as sender, but only the target is
    credited;
  - a `money_creation` names the administrator, but no wallet changes.

  `Ledger.Effect` therefore gives a record's effect by its type:
  - `transfer`: debits the sender and credits the recipient;
  - `purchase`: debits the buyer;
  - `deposit`: credits the target only;
  - `money_creation`: changes nothing.
- **No atomicity.** A use case is not committed as one unit. The handlers issue
  their storage calls one by one, and a failure part-way is not rolled back
  (see Findings).
- **Inactive products can be bought.** The purchase handler does not check
  that the product is active (routes.ts:228-243).
- **Debits are always checked by the handler.** `updateWalletBalance` does no
  sufficiency check. A debit below zero is refused only by the handler's
  earlier comparison with the balance.

## Model

| member | source | states |
|---|---|---|
| Schema.ParseCurrency | shared/schema.ts:17 | A currency is accepted exactly when it is "FC" or "USD", and the accepted value names back to the input. |
| Schema.CurrencyNamesRoundTrip | shared/schema.ts:17 | Parsing a currency's name gives that currency, and it is the only name that does. |
| Schema.ColumnDefaults | shared/schema.ts:25-83 | Each insert that leaves a column out gets that column's default: role `client`, not blocked, both wallet balances 0, product currency FC, stock 0, active, status "completed", unread. |
| Schema.ParseLogin | shared/schema.ts:172-175 | A login is accepted exactly when the email is well formed and the password has at least 6 characters; the accepted input is the given one. |
| Schema.ParseRegister | shared/schema.ts:177-182 | As for login, and exactly when both names are non-empty. |
| Schema.ParseTransfer | shared/schema.ts:184-188 | A transfer request is accepted exactly when the recipient email is well formed, the amount is positive and the currency is FC or USD; it keeps the email and amount and reads the currency. |
| Schema.ParseCreateMoney | shared/schema.ts:190-193 | A money-creation request is accepted exactly when the amount is positive and the currency is FC or USD. |
| Schema.ParseCreditAccount | shared/schema.ts:195-199 | A credit request is accepted exactly when the target email is well formed, the amount is positive and the currency is FC or USD. |
| Storage.AddToBalance | server/storage.ts:120-125 | Adding a signed delta changes exactly the balance the currency selects, by exactly the delta, and keeps the owner and the other currency. It fails exactly when the result leaves numeric(12, 2). |
| Storage.DatabaseStorage.GetUserById | server/storage.ts:63-66 | Finds a user exactly when the id exists; the user found is a row of the table and carries that id. |
| Storage.DatabaseStorage.GetUserByEmail | server/storage.ts:68-71 | Any user found is in the table and has that email; finding none means no user has it. |
| Storage.DatabaseStorage.GetWalletByUserId | server/storage.ts:99-105 | Any wallet found belongs to that user. In a valid store, a wallet is found exactly when the user exists, and it is the user's own. |
| Storage.DatabaseStorage.GetProductById | server/storage.ts:141-147 | Finds a product exactly when the id exists; the product found is a row of the table and carries that id. |
| Storage.DatabaseStorage.GetAllProducts | server/storage.ts:133-139 | Returns exactly the active products, newest first. |
| Storage.DatabaseStorage.GetTransactionsByUserId | server/storage.ts:189-195 | Returns exactly the records the user sent or received, newest first. |
| Storage.NewestFirstDescends | server/storage.ts:189-195 | Selecting from a table whose keys ascend, and taking the newest first, gives strictly descending keys. |
| Storage.DatabaseStorage.CreateUser | server/storage.ts:73-87 | A taken email is refused with no change. Otherwise the user is appended with the role and blocked-flag defaults, together with a zero wallet, and no other table changes. |
| Storage.DatabaseStorage.CreateWallet | server/storage.ts:107-113 | Appends a wallet with both balances 0 for an existing user; an unknown user is a foreign-key error. |
| Storage.DatabaseStorage.CreateProduct | server/storage.ts:149-155 | Appends the product with its column defaults; a price or stock out of its column's range is refused. |
| Storage.DatabaseStorage.CreateTransaction | server/storage.ts:179-187 | Appends exactly one record, defaulting the status to "completed". Existing records never change. An amount out of numeric(12, 2), or a reference to a missing row, is refused with no change. |
| Storage.DatabaseStorage.CreateNotification | server/storage.ts:213-221 | Appends exactly one unread notification for an existing user; existing notifications never change. |
| Storage.DatabaseStorage.UpdateWalletBalance | server/storage.ts:115-130 | Adds the signed delta to the selected balance of that user's wallet only, with no sufficiency check; only column overflow refuses it, with no change. |
| Storage.DatabaseStorage.UpdateProductStock | server/storage.ts:166-176 | Sets that product's stock to stock minus the quantity; all other products stay the same. |
| Storage.DatabaseStorage.MarkNotificationAsRead | server/storage.ts:231-236 | Sets `isRead` on that notification only. |
| Ledger.Effect | server/routes.ts:186-200 | A record moves only the balances in its own currency of users it names; a `money_creation` moves none. |
| Ledger.ReplaySelection | server/storage.ts:189-195 | Replaying only the records that name a user gives the same balance as replaying the whole log. |
| Ledger.HistoryReplaysBalance | server/storage.ts:189-195 | The history `getTransactionsByUserId` returns replays to the same balance as the whole log. |
| Ledger.TransferKeepsLedger | server/routes.ts:186-200 | Debiting the sender and crediting a distinct recipient, with one `transfer` record, keeps every balance explained by the log and non-negative, and keeps the supply of each currency. |
| Ledger.TransferConserves | server/routes.ts:187-190 | Moving an amount the sender holds to a distinct recipient keeps every balance non-negative and the supply of each currency, whatever the log says. |
| Ledger.UpdateKeepsSolvent | server/storage.ts:115-130 | Moving one balance of one wallet to a value that is not negative keeps every balance non-negative. |
| Ledger.UpdateSupply | server/storage.ts:115-130 | Moving one balance by a delta moves the supply of that currency by exactly the delta and leaves the other currency's supply. |
| Ledger.PurchaseKeepsLedger | server/routes.ts:245-259 | Debiting the buyer by the price, with one `purchase` record, keeps the balances explained and non-negative; the supply of that currency falls by the price and the other stays. |
| Ledger.DepositKeepsLedger | server/routes.ts:334-345 | Crediting the target, with one `deposit` record, keeps the balances explained and non-negative; supply rises by the amount. |
| Ledger.MintKeepsLedger | server/routes.ts:310-317 | A `money_creation` record leaves every balance explained by the log although no wallet changes. |
| Ledger.NewWalletKeepsLedger | server/storage.ts:83-84 | A new zero wallet, for a user no record names, keeps every balance explained and non-negative. |
| Routes.BalanceIsHistory | server/routes.ts:275-280 | In a justified store, the history shown to a user adds up to the user's balance, and that balance is at least 0. |
| Routes.Authenticate | server/routes.ts:38-45 | A caller is admitted exactly when the user exists and is not blocked; otherwise 401. The identity passed on is the user's own. |
| Routes.AuthenticateAdmin | server/routes.ts:53-57 | An admin route admits exactly the unblocked administrators: an unknown or blocked user gets 401, any other role gets 403. |
| Routes.CheckTransfer | server/routes.ts:167-185 | Accepted only for an unblocked sender, a recipient that exists, is different and has that email, a positive amount, and a sender balance covering it. Conversely, once the caller, the input and a distinct recipient pass, the request is accepted exactly when the balance covers the amount, with the plan for that sender, recipient, amount and currency; otherwise the answer is `InsufficientFunds`. Unknown caller, invalid input, missing recipient and self-transfer each give their own failure. |
| Routes.ApplyTransfer | server/routes.ts:187-207 | Runs the handler's four storage calls in order, on any valid store with no negative balance, and keeps it so. If the credit fits, exactly both balances move, one record and one notification are appended, the supply stays, and a justified store stays justified. If not, the sender stays debited with nothing recorded or notified. |
| Routes.PostTransferAsWritten | server/routes.ts:165-213 | On any valid store with no negative balance, which it keeps, and with users and products unchanged: a refused check changes nothing. A credit that fits moves exactly both balances, appends one `transfer` record and one notification, and keeps a justified store justified. A credit that overflows answers 400 and leaves only the sender debited, with no record and no notification. |
| Routes.PostTransfer | server/routes.ts:165-213 | Keeps the store justified, and any refusal changes nothing. On success the sender loses the amount (staying at least 0) and the recipient gains it, in that currency only; no other wallet changes; the supply of each currency stays; and exactly one `transfer` record and one notification for the recipient are appended. |
| Routes.CheckPurchase | server/routes.ts:226-243 | Accepted only for an unblocked buyer, an existing product with stock above 0, and a balance covering the price. Conversely, once the caller passes and the product exists with stock, the purchase is accepted exactly when the balance covers the price, with the plan for that buyer and product; otherwise the answer is `InsufficientFunds`. Unknown caller, missing product and empty stock each give their own failure. |
| Routes.ApplyPurchase | server/routes.ts:245-266 | On any valid store with no negative balance, which it keeps, and keeping a justified store justified: either nothing changes (the debit overflows, 500), or the buyer is debited by the price, the stock drops by 1, and one record and one notification are appended, with supply falling by the price. |
| Routes.PostPurchase | server/routes.ts:225-272 | On any valid store with no negative balance, which it keeps, and keeping a justified store justified; any refusal changes nothing. On success the buyer loses exactly the price in the product's currency, that product's stock drops by exactly 1, and one `purchase` record (buyer, product, no recipient) and one notification for the buyer are appended. |
| Routes.CheckCreateMoney | server/routes.ts:306-308 | Accepted exactly for an unblocked administrator with a valid request, and then with that request's amount and currency; the gate's failure or `InvalidInput` otherwise. |
| Routes.PostCreateMoney | server/routes.ts:306-323 | On any valid store with no negative balance, which it keeps, and keeping a justified store justified: appends exactly one `money_creation` record from the administrator and changes no wallet, user, product or notification; an amount out of range is refused with no change. |
| Routes.CheckCreditAccount | server/routes.ts:325-332 | Accepted exactly for an unblocked administrator, a valid request and an existing target, and then with the plan crediting the user who has that email; the gate's failure, `InvalidInput` or (for an unknown email, 404) `UserNotFound` otherwise. |
| Routes.ApplyCredit | server/routes.ts:334-352 | On any valid store with no negative balance, which it keeps, and keeping a justified store justified: either nothing changes (the credit overflows), or the target is credited, one record and one notification are appended, and supply rises by the amount. |
| Routes.PostCreditAccount | server/routes.ts:325-358 | On any valid store with no negative balance, which it keeps, and keeping a justified store justified; any refusal changes nothing. On success only the target's balance in that currency rises, by the amount, with no debit anywhere, and one `deposit` record from the administrator to the target is appended. |
| Routes.AddUser | server/storage.ts:73-87 | Creating a user keeps the store justified: the new zero wallet is named by no existing record. |
| Routes.RecordPurchase | server/routes.ts:247-265 | After the debit: exactly one item leaves that product's stock, one `purchase` record with status "completed" and one notification for the buyer are appended, and users and wallets stay. |
| Routes.CreditAfterPartialTransfer | server/routes.ts:325-358 | After the partial transfer, an administrator's credit of 1.00 FC to the sender is still served. The sender's balance returns to 1.00 FC, while the log now replays it to 2.00 FC. |
| Routes.PartialTransferWitness | server/routes.ts:188-190 | A concrete run of the handler as written. It answers 400, leaves the sender at 0, and leaves the log without the transfer, which still replays the sender's balance to 1.00 FC. |

## Left out

- Token handling is left out: the missing token (401), JWT verification and the invalid token (403) are foreign library calls. A caller is the user id inside a verified token.
- Password hashing with bcrypt (`hashPassword`, `verifyPassword`) is left out. `createUser` stores the password as given.
- The register, login, `me`, wallet and notification-list routes, and `getAllTransactions`, `getNotificationsByUserId`, `getTransactionById`, `updateUser` and `updateProduct`, are left out. They are not part of the ledger engine. Only the register and login validators are modelled.
- The stub admin routes `GET /api/admin/users` and `POST /api/admin/products` are left out: they have no logic.
- Concurrency is left out. Each handler runs to completion before the next one starts, so the race between reading the balance and debiting it does not arise.
- The JavaScript numbers in requests are modelled only as whole cents. An amount with more than two decimals, which the database would round, cannot be expressed. `Number(...)` conversions are exact in the model.
- UUIDs are modelled as positions and timestamps as insertion order. `updatedAt` columns are left out.
- Rows returned by `.returning()` after an update are left out: no core handler uses them.
- Response texts are left out, except the statuses given by `Routes.Status`. Zod's error text is also left out. The transaction descriptions and notification texts are modelled, with amounts printed by `Routes.NumberText` (JavaScript's printing of small non-negative numbers) and prices by `Routes.DecimalText` (the database's two-decimal text).
- `Schema.ValidEmail`: a coarse version of zod's email check. It requires exactly one `@`, a non-empty local part, and a `.` in the domain. It does not apply zod's full pattern. `Schema.ParseLogin`, `Schema.ParseRegister`, `Schema.ParseTransfer` and `Schema.ParseCreditAccount` use it, so they accept some addresses zod refuses. For example, zod refuses "a@b.c" as a transfer recipient with 400. The model accepts it, and the recipient lookup then answers 404.
- `Schema.ParseLogin`, `Schema.ParseRegister`: lengths count characters, whereas zod counts UTF-16 code units.
- `isBlocked`, `products.isActive` and `notifications.isRead` are nullable in the schema. The model takes them as booleans. An insert of the model either leaves such a column out, which gives its default, or sets it; it cannot store null. No core handler stores null there. A null `isBlocked` behaves like `false` in the handlers. A product with a null `isActive` would be left out by `getAllProducts`, and the model cannot express one.
- A missing wallet for an existing user (the `!` assertions in the handlers) cannot occur: every user has a wallet in a valid store.

## Findings

| source | as written | input that shows it | evidently intended | confidence | as-written member | corrected member |
|---|---|---|---|---|---|---|
| server/routes.ts:187-190 | The transfer handler debits the sender and then credits the recipient in two separate updates. If the credit overflows the recipient's numeric(12, 2) balance, the database raises an error after the debit has committed. The handler answers 400, but the sender has lost the amount, nothing is recorded, and the recipient gets nothing. | Sender holds 1.00 FC. Recipient holds 9,999,999,999.99 FC, one cent below the column's limit. The sender transfers 1.00 FC to the recipient. | The transfer is refused with no change, as when both updates commit as one unit. | medium, not executed | Routes.PostTransferAsWritten | Routes.PostTransfer |
