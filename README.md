# Referral commission engine

A model of the backend of a referral system (`backend/app.js`). Users form a
forest through an optional `parentId`; each user refers at most eight others
and sits one level below the referrer they registered under. A purchase above
1000 pays a flat 5 percent of the whole amount to the buyer's referrer and,
when that referrer is still registered and was itself referred, 1 percent to
the referrer's referrer. Each payment writes one Transactions row and credits
the beneficiary's Earnings row, which is created on the first credit and then
incremented. Each credit broadcasts an `earnings_update` event.

The three tables live in one `Store` class (`store.dfy`):

- `users`, a map from id to `User`;
- `txs`, the Transactions rows in insertion order;
- `earnings`, a map from user id to `Earn`;
- `nextId`, the Users autoincrement counter (ids are never reused);
- `events`, the log of broadcasts.

Handlers that change the tables are methods of `Store`. The read-only reports
are a function or a method that only reads. A handler with an error path
returns a `Result` or `Outcome` in place of an HTTP status code. The
distribution report has no error path and returns its body directly. Pure
parts are functions in their own modules:

- `Commission` holds the profit rule.
- `Transactions` holds the queries over the Transactions table.
- `Ledger` holds the Earnings table, the broadcast payload, and the agreement between the two tables.
- `Referrals` holds the consistency of the Users forest.
- `Engine` computes the rows that one purchase writes.

Amounts are exact `real`s. Ids are integers from 1 up. An absent `parentId` is
`None`.

Behaviour of the code that the model keeps:

- No `InvalidAmount` check is made. An amount of 1000 or less, including a negative one, pays nothing and succeeds.
- A tier other than 1 or 2 is not an error. `updateEarnings` then moves no total, and creates a zero row if none exists.
- The event sent when an Earnings row is first created carries absent totals, not the new ones.
- Tier 2 is paid when the referrer's row exists and has a `parentId`. Whether the grandparent itself still exists is not checked.

## Model

| member | source | states |
|---|---|---|
| Commission.CalculateProfit | backend/app.js:53-56 | nothing at or below 1000; above it, a positive 5 percent of the amount at level 1 and 1 percent at any other level |
| Commission.FlatTiers | backend/app.js:53-56 | both tiers come from the full amount: tier 1 is five times tier 2, and together they pay 6 percent |
| Commission.StrictThreshold | backend/app.js:54 | exactly 1000 pays nothing at either tier; every amount above it pays more than 50 and 10 |
| Transactions.Filter | backend/app.js:195 | a `where` query keeps exactly the matching rows, each from the table |
| Transactions.FilterAppend | backend/app.js:195 | a query keeps table order: querying a concatenation concatenates the results |
| Transactions.Purge | backend/app.js:113 | what `destroy` where `userId` is the buyer leaves: exactly the rows the buyer did not make, never more rows than before |
| Transactions.PurgeNoMore | backend/app.js:113 | removing a buyer's rows never raises what any user has earned from the table at either tier |
| Transactions.PurgeLess | backend/app.js:113 | removing a buyer's rows strictly lowers what a user earned at a tier, when one of those rows paid that user a positive profit at that tier |
| Transactions.Sources | backend/app.js:199-203 | one source per row, at the same position, carrying the buyer, the amount and the profit |
| Transactions.SumSplitsByTier | backend/app.js:195-198 | a beneficiary's distribution total is the sum of what the 5 percent rows pay them and what the 1 percent rows pay them |
| Ledger.Credit | backend/app.js:59-73 | after a credit the user has a row; only the total of the credited tier moves, by exactly the profit; every other row is unchanged. Totals are read through `DirectOf` and `IndirectOf`, which count a missing row as 0 |
| Ledger.CreditMonotone | backend/app.js:67-72 | a credit of a non-negative profit lowers no user's total |
| Ledger.Notice | backend/app.js:75-79 | the event names the credited user; its totals are absent exactly when the row was just created, and otherwise are the totals after the credit |
| Ledger.CreditKeepsReconciled | backend/app.js:137-144 | writing a row and crediting its beneficiary at its tier keeps both totals equal to the sums of the rows paying them |
| Ledger.DistributionMatchesEarnings | backend/app.js:193-205 | with the tables in agreement, the distribution total of a user is their direct plus indirect earnings |
| Ledger.DeleteLeavesStaleTotals | backend/app.js:113-114 | for every table in agreement with its ledger, deleting any user who made at least one row removes their rows but leaves the totals those rows paid, so the tables no longer agree |
| Referrals.ChildIdsBelow | backend/app.js:180 | exactly the registered users whose `parentId` is the user, in ascending id order |
| Referrals.ReferralsBelow | backend/app.js:180-187 | every entry is a registered user whose parent is the given user, with that user's name; ids ascend; no such user below the bound is missing |
| Referrals.InsertKeepsForest | backend/app.js:85-97 | adding a user under an existing parent with fewer than eight `Children` (the count at line 91), at `LevelUnder` the parent (its level plus one, or 1 for a root; lines 85 and 94), keeps the forest consistent and keeps every user at most eight referrals |
| Referrals.RemoveKeepsForest | backend/app.js:113-117 | removing a user keeps the forest consistent; children keep their `parentId` and level |
| Engine.Payouts | backend/app.js:133-160 | at most two rows; none when the buyer is unknown, has no parent, or the amount is at most 1000; the first pays the parent 5 percent; a second row pays the grandparent 1 percent exactly when the parent's row exists and has a parent |
| Engine.Rows | backend/app.js:137-157 | the rows the payouts write, in order |
| Engine.NoticesFor | backend/app.js:144-158 | one event per payout, naming its beneficiary, in order |
| Engine.PayoutsProper | backend/app.js:133-158 | in a consistent forest every row written pays 5 or 1 percent of an amount above 1000 to someone registered before the buyer |
| Engine.ApplyAllFrame | backend/app.js:144-158 | `ApplyAll`, the chain of `updateEarnings` calls, gives a row to every beneficiary and leaves every other user's row as it was |
| Engine.ApplyAllKeepsReconciled | backend/app.js:137-158 | crediting a purchase's rows keeps the Earnings totals equal to the sums of the rows |
| Engine.ApplyAllMonotone | backend/app.js:144-158 | no purchase lowers any user's direct or indirect total |
| Engine.TwoTierTotals | backend/app.js:134-160 | with parent P and grandparent G, P's direct total rises by 5 percent and G's indirect total by 1 percent; nothing else in the Earnings table changes |
| Engine.OneTierTotals | backend/app.js:133-148 | with parent P that is deleted or has no parent, only P's direct total rises, even when P no longer exists |
| Engine.TwoTierExample | backend/app.js:127-164 | a purchase of 2000 under P under G writes rows paying 100 to P and 20 to G, credits both, and broadcasts two events |
| ReferralStore.Store.constructor | backend/app.js:31-50 | all tables, and the event log, start empty |
| ReferralStore.Store.Register | backend/app.js:83-99 | an unknown parent gives NotFound; a parent with 8 or more referrals (`Children`, line 91) gives LimitExceeded; each leaves the store unchanged. Otherwise exactly one user is added under a fresh id, at `LevelUnder` the parent (its level plus one, or 1), and every other user is unchanged |
| ReferralStore.Store.DeleteUser | backend/app.js:102-124 | an unknown id gives NotFound and changes nothing. Otherwise it removes exactly the user, the rows the user bought and the user's Earnings row; children and rows paying the user stay |
| ReferralStore.Store.UpdateEarnings | backend/app.js:58-80 | the Earnings table becomes the credited table and exactly one event is appended; the users and the transactions are untouched |
| ReferralStore.Store.Pay | backend/app.js:137-144 | one tier: appends the row, then credits and notifies its beneficiary |
| ReferralStore.Store.RecordTransaction | backend/app.js:127-164 | an unknown buyer gives NotFound and changes nothing. Otherwise it appends exactly the purchase's payout rows, credits them in order (`ApplyAll`), and appends their events; it keeps the tables in agreement and lowers no total |
| ReferralStore.Store.GetEarnings | backend/app.js:166-171 | the user's Earnings row, or NotFound exactly when there is none |
| ReferralStore.Store.EarningsReport | backend/app.js:174-191 | NotFound exactly for an unknown user. Otherwise it gives the name, both totals through `DirectOf` and `IndirectOf` (0 when there is no row, lines 185-186), and every direct referral with its name, in id order |
| ReferralStore.Store.DistributionReport | backend/app.js:193-208 | over `Credits`, the rows paying the user (line 195, `Filter` on `parentId`), the total is the sum of their profit; there is one source per such row, in row order |

## Left out

- HTTP routing, body parsing, CORS, status codes and server start-up are not modelled. Handlers return `Result` or `Outcome` values instead.
- Sequelize and SQLite are replaced by in-memory maps, a sequence and an id counter. The `500` path of the delete handler is left out, because in-memory maps cannot fail.
- The socket.io broadcast is modelled only as an append to `events`. Delivery and observers are not modelled.
- The `await` interleavings and the check-then-act races in registration and `updateEarnings` are not modelled. Each handler runs as one atomic step.
- `FLOAT` columns are modelled as exact reals, so float rounding is not modelled.
- JavaScript truthiness is not modelled. `parentId` is an option over ids from 1 up, and a `0` or `null` parent is `None`.
- `isActive` is never read by the backend, so it is not modelled.
- The order of `findAll` results is taken to be ascending id (insertion order). The earnings report lists referrals in that order.
- The React frontend (`frontend/referral_frontend/src/App.jsx`) has no domain logic and is not part of this model.
