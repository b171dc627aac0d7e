# Wallet ledger of the Telegram earn-coins bot

This project models the coin ledger behind the Telegram bot in `app.py` and proves properties of it in Dafny.
The bot keeps two SQLite tables:

- `users` holds one row per Telegram user: username, first name and coins.
- `transactions` is an append-only log. Each row has an AUTOINCREMENT id, a user id, an amount, a description and a status.

The only writer is `update_user_coins`. It upserts the user row: a new user gets `coins = amount`, and an existing one gets the new profile fields and `coins + amount`. It then appends one transaction row, and commits both together. `get_user_data` reads a user row back, or returns `None` for an unknown id. Two handlers feed the writer:

- `/start` sends a zero-amount "Initial registration" touch.
- The mini-app payload handler applies `reward` only when the payload's `type` is `complete_offer`.

Files:

- `options.dfy` (module `Options`): Option, standing for Python's `None`.
- `wallet.dfy` (module `Wallet`): the rows and the balance function `Balance` (the sum of one user's amounts over the log). It also holds the table invariant `TablesValid` and its lemmas, and the class `Ledger`. The class has the `users` map, the `log` sequence and the `nextId` counter as fields.
- `events.dfy` (module `Events`): the parsed payload and the pure function from an event to `(amount, description)`.
- `bot.dfy` (module `Bot`): the `start` and `web_app_data` handlers over a `Ledger`, a redelivery client and a worked scenario.

The invariant `TablesValid` has three parts:

- Every user's `coins` equals the sum of `amount` over that user's rows, whatever their status.
- Every row's `user_id` names an existing user.
- Row ids strictly increase and stay below `nextId`.

`Ledger.UpdateUserCoins` keeps the invariant because the upsert and the append are one step.

The code has no idempotency key and no duplicate suppression. Every row keeps the default status `'pending'`. A redelivered offer payload is therefore applied a second time. `ReplayAppliesTwice` and `Bot.RedeliveredOffer` state this, and `Bot.Scenario` ends with 120 coins after a redelivery.

## Model

| member | source | states |
|---|---|---|
| Wallet.Upsert | app.py:66-73 | a new user is inserted with coins = amount; an existing user gets the new username and first_name and coins + amount; every other user row is unchanged; the key set grows by exactly the user |
| Wallet.BalanceAppend | app.py:76-79 | appending a row changes only its owner's sum of amounts, by exactly the row's amount |
| Wallet.BalanceWithoutRows | app.py:34-39 | a user who owns no row has a sum of 0 |
| Wallet.UnknownUserHasZeroBalance | app.py:39 | under the invariant, a user absent from `users` owns no row, so the log sums to 0 for them |
| Wallet.CommitPreservesValid | app.py:61-82 | the upsert followed by the append of a pending row with the next id keeps all three parts of the invariant: coins equal sums, rows name known users, ids strictly increase |
| Wallet.ReplayAppliesTwice | app.py:61-82 | two identical calls keep the invariant, raise the user's coins and log sum by 2*amount, and append two rows with distinct ids |
| Wallet.Ledger.constructor | app.py:19-43 | init_db on a new database creates both tables empty, and the invariant holds |
| Wallet.Ledger.InitDb | app.py:22-41 | CREATE TABLE IF NOT EXISTS on an existing database leaves both tables and the id counter unchanged |
| Wallet.Ledger.UpdateUserCoins | app.py:61-82 | keeps the invariant; the users map is the upsert of the old one; exactly one row (next id, user, amount, description, 'pending') is appended after the unchanged old rows; the user's coins and log sum rise by amount |
| Wallet.Ledger.GetUserData | app.py:45-59 | None exactly when the id is unknown; otherwise the stored user_id, username, first_name and coins; it reads and never writes |
| Wallet.Ledger.GetUserDataMatchesLog | app.py:45-59 | under the invariant, the coins reported for a known user equal the log's sum for them, and an unknown user's log sum is 0 |
| Events.WebAppDelta | app.py:110-120 | a delta exists exactly when type == 'complete_offer'; its amount is reward, defaulting to 0; its description is "Completed offer " followed by the offer id as Python prints it |
| Events.OfferOfDescription | app.py:119 | the inverse of the app.py:119 description format, used by the round-trip lemma (app.py itself has no such parser): succeeds exactly when the description starts with "Completed offer ", and the prefix plus the result rebuilds the description |
| Events.OfferDescriptionRoundTrip | app.py:110-120 | the description of an offer's delta gives back that offer's printed id |
| Events.OfferDescriptionsDistinct | app.py:119 | offers whose ids print differently get different descriptions |
| Bot.Start | app.py:86-89 | applies one update with amount 0 and "Initial registration"; the user's coins do not move; the invariant holds |
| Bot.WebAppData | app.py:105-125 | a 'complete_offer' payload applies exactly one update with the payload's delta, and the confirmation reports its reward; any other payload changes nothing and sends no confirmation |
| Bot.RedeliveredOffer | app.py:110-120 | delivering the same offer payload twice upserts the user twice (other users unchanged), raises coins by twice the reward, keeps the old rows and appends two pending rows for the user with the reward, the same description and consecutive ids: nothing suppresses duplicates |
| Bot.Scenario | app.py:19-125 | fresh database: start, re-run of init_db, offer 777 (50) twice, offer 778 (20) gives user 1 120 coins and 4 rows; user 999 is unknown |

## Left out

- SQLite plumbing is not modelled: connections, SQL text, `conn.close()`, and the `created_at` timestamps of both tables. The tables are a map and a sequence, and the commit is one atomic step. An exception before `commit` rolls back both statements, so it has the same effect as a call that never happened.
- The integers are unbounded. SQLite's 64-bit INTEGER columns and their overflow behaviour are not modelled.
- SQLite does not enforce its FOREIGN KEY clause unless a pragma turns that on. Here the foreign key holds anyway because the upsert runs first. The model proves it as an invariant rather than modelling enforcement.
- `json.loads` and payloads that are not JSON objects are left out; the model starts from an already-parsed record. So are JSON values of other types: a `reward` that is not an integer, or a `type` that is not a string. `offerId` is the text Python's string formatting makes of the value. A missing id prints as `None`, so it cannot be told apart from the string "None".
- Events.WebAppDelta: does not model `"reward": null`. `data.get('reward', 0)` returns `None` when the key is present with a null value; the 0 default applies only when the key is missing. SQLite then evaluates `coins + NULL` to NULL, which wipes an existing user's coins. So on this input the program breaks the conservation invariant the model proves. The confirmation also reads "You earned None coins!".
- Bot.WebAppData: does not cover payloads whose `offer_id` holds a lone surrogate such as `"\ud800"`. Dafny strings are sequences of Unicode scalar values and cannot hold one. In the code, `json.loads` accepts it and the f-string keeps it. Then the transactions INSERT raises an encoding error after the upsert has run. `commit` is never reached, so both statements roll back and no reply is sent.
- `update_user_coins` has a default `description=""` that neither call site uses. Dafny has no default arguments, so every call passes a description.
- The Telegram plumbing is left out as I/O: replies and their text, inline keyboards, `handle_message`, `main`, polling, the placeholder callback handler, logging and configuration constants. `Bot.WebAppData` returns the reward that the confirmation message would report.
- `app.js` is left out. It renders the page and simulates a backend fetch with random numbers. Its `balance += reward` is a local display copy, not the ledger.
- Concurrency is left out: the code has no locking of its own, and the model is sequential.
- The code has none of the following, so the model has none: idempotency keys, status transitions beyond the default 'pending', and validation of the amount.
