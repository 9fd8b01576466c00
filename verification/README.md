# Donation store and its routes, in Dafny

The server of this donation tracker keeps its data in a hand-written document
store that stands in for a Prisma client. The store holds one snapshot with two
collections, `users` and `donations`. Each call reads the whole snapshot.
The calls that change it (`create`, `update`, `updateMany`, and `deleteMany`
with an empty `where`) write the whole snapshot back; the others only read.
Two route files sit on top of it:

- the donation routes let a signed-in user start a (mock) payment, confirm it
  and read their own history;
- the admin routes report statistics, list users and donations, and wipe
  either collection.

This project models the store and both route files as Dafny and proves what
they do.

- `model.dfy` (module `Model`): the stored records (`User`, `Donation`), the
  payloads callers pass (`UserData`, `DonationData`, `DonationPatch`), the
  query result row (`Row`, with the optional joined owner), and JavaScript's
  `||` default on strings (`OrElse`).
- `queries.dfy` (module `Queries`): the array operations the store's queries
  are built from: `filter`, `findIndex`, `find`, the `reduce` that sums
  amounts, the `map` that joins owners, and the newest-first `sort`. The sort
  is a stable insertion sort, because JavaScript's `Array.prototype.sort` is
  stable. `StableOrderIsUnique` shows that every stable newest-first sort
  gives the same result, so the choice of algorithm does not matter.
- `store.dfy` (module `DocumentStore`): class `Store`, whose two `seq`
  fields are the snapshot. The delegate calls that change the snapshot
  (`create`, `update`, `updateMany`, `deleteMany`) are methods with
  `modifies this`. The queries (`findUnique`, `count`, `findMany`,
  `aggregate`) are functions that read it. `ApplyUpdate` and
  `MergeMatching` specify `update` and `updateMany` on values.
- `donations.dfy` (module `DonationRoutes`) and `admin.dfy` (module
  `AdminRoutes`): each handler takes the store. Handlers that only read are
  functions, so they cannot change the store. The two clear handlers and the
  two payment handlers are methods.

Behaviour of the code that the model keeps on purpose:

- Create-payment-intent stores the new donation with status `FAILED`, not
  `PENDING`.
- Confirm-payment overwrites the status with `SUCCESS` whatever it was before.
  There is no terminal-state check. Confirming twice is still harmless to the
  SUCCESS total (`ConfirmTwiceCountsOnce`).
- Ids are the collection length plus one. A payload that carries its own `id`
  overrides that, because the payload is spread after the generated id. With no
  explicit ids, the ids stay dense (`id == position + 1`). After a wipe,
  numbering starts again at 1. So a user created after "clear users" gets the
  id of a deleted user, and old donations with that `userId` join to the new
  user.
- Filters in `where` clauses test JavaScript truthiness. A `userId` of 0
  switches the `findMany` filter off, so every donation comes back; the
  history query for a caller id of 0 therefore returns every donation. An
  absent or empty payment-intent id makes `updateMany` match nothing, so it
  changes nothing and reports 0.
- The `select` projections are ignored by the store. Both the user list and
  the owner joined to each donation in the admin list carry the whole user
  record, its `password` field included.
- `deleteMany` with a non-empty `where` deletes nothing and reports 0.
- Confirm-payment never checks that the donation belongs to the caller. Any
  signed-in user can confirm any donation id (donations.js:33-42), so
  `ConfirmPayment` takes no caller id.
- The payment reference confirm-payment stores is always `mock_pi_` followed
  by the clock reading, never an empty string.

Where the code's own comments and the code disagree, the model follows the code:

- The comment at server/src/routes/donations.js:11 says the record is created
  in `PENDING` state, but the call at donations.js:16 passes `status: 'FAILED'`.
  That line's own comment says FAILED is the default on purpose ("as per user
  request"), to be updated to SUCCESS on payment, so the model keeps FAILED.
- The update at donations.js:36-42 runs whatever the donation's current status
  is, so nothing makes `SUCCESS` or `FAILED` final.

## Model

| member | source | states |
|---|---|---|
| `Queries.FilterMembers` | server/src/utils/prisma.js:104-106 | a filtered collection holds exactly the elements of the input that pass the filter |
| `Queries.FilterCounts` | server/src/utils/prisma.js:104-106 | filtering keeps each passing element as many times as it is stored, and drops every other |
| `Queries.FilterAppend` | server/src/utils/prisma.js:130-131 | filtering a concatenation is the concatenation of the filtered parts |
| `Queries.IndexOf` | server/src/utils/prisma.js:78 | `findIndex` returns the first position whose record passes the test, or none when no record does |
| `Queries.FindFirst` | server/src/utils/prisma.js:17-18 | `find` returns the first passing record, or nothing when no record passes |
| `Queries.FilteredSumIsStatusSum` | server/src/utils/prisma.js:128-134 | filter-by-status followed by the amount `reduce` equals the reference total, where each donation adds its amount if its status matches and 0 otherwise |
| `Queries.StatusSumAppend` | server/src/utils/prisma.js:130-132 | appending a donation raises a status total by that donation's contribution only |
| `Queries.StatusSumReplace` | server/src/utils/prisma.js:130-132 | replacing one donation changes a status total by exactly the new contribution minus the old |
| `Queries.StatusSumNoMatch` | server/src/routes/admin.js:11-19 | when no donation has the status, its total is 0 |
| `Queries.Attach` | server/src/utils/prisma.js:108-113 | the join keeps every donation in place and gives each one the first user with its `userId`, or undefined |
| `Queries.AttachCounts` | server/src/utils/prisma.js:108-113 | without the join, each donation appears as a bare row as often as it is stored |
| `Queries.NewestFirstPairwise` | server/src/utils/prisma.js:116-118 | newest-first between neighbours means newest-first between any two rows |
| `Queries.Insert` | server/src/utils/prisma.js:117 | inserting into a newest-first sequence keeps it newest-first and adds exactly that one row |
| `Queries.SortNewestFirst` | server/src/utils/prisma.js:115-118 | the sorted result has non-increasing `createdAt` and is a permutation of the input |
| `Queries.SortIsStable` | server/src/utils/prisma.js:117 | rows with equal `createdAt` keep their input order |
| `Queries.StableOrderIsUnique` | server/src/utils/prisma.js:117 | two newest-first orders that agree on every group of equal timestamps are identical |
| `Queries.SortIsTheStableOrder` | server/src/utils/prisma.js:115-118 | the sort returns exactly the one stable newest-first order of its input |
| `DocumentStore.DenseLookup` | server/src/utils/prisma.js:66-84 | with dense ids, id `k` finds the `k`-th donation and ids outside 1..length find nothing |
| `DocumentStore.ApplyUpdate` | server/src/utils/prisma.js:76-84 | an update fails with "Donation not found" exactly when no donation has the id; otherwise it merges the patch into the first donation with the id and leaves every other donation and the length unchanged |
| `DocumentStore.UpdateManyWithoutIntent` | server/src/utils/prisma.js:86-97 | `updateMany` without a truthy payment-intent id matches nothing and changes nothing |
| `DocumentStore.Store.Init` | server/src/utils/prisma.js:7-9 | a new database starts with both collections empty |
| `DocumentStore.Store.FindUniqueUser` | server/src/utils/prisma.js:15-20 | the lookup uses the email when it is non-empty, else the id when it is non-zero, else returns nothing; it returns the first matching user or nothing |
| `DocumentStore.Store.CreateUser` | server/src/utils/prisma.js:22-33 | appends exactly one user with id = previous count + 1 unless the payload gives one, role = the given role or `USER`, and the creation time; earlier users and donations are unchanged and dense ids stay dense |
| `DocumentStore.Store.DeleteManyUsers` | server/src/utils/prisma.js:46-59 | with an empty filter, empties the users and returns their previous count; with a non-empty filter, returns 0 and changes nothing; donations are never touched |
| `DocumentStore.Store.CreateDonation` | server/src/utils/prisma.js:63-74 | appends exactly one donation with id = previous count + 1 unless the payload gives one, status = the given status or `PENDING`, and the creation time; earlier records are unchanged and dense ids stay dense |
| `DocumentStore.Store.UpdateDonation` | server/src/utils/prisma.js:76-84 | on a missing id, returns "Donation not found" and leaves the store unchanged; otherwise applies `ApplyUpdate` and returns the merged record; users are untouched and dense ids stay dense when the patch carries no id |
| `DocumentStore.Store.UpdateManyDonations` | server/src/utils/prisma.js:86-98 | merges the patch into exactly the donations whose payment-intent id equals a truthy filter, and returns how many there were |
| `DocumentStore.Store.FindManyDonations` | server/src/utils/prisma.js:100-121 | returns the donations, filtered by a truthy `userId` and optionally joined with their owner; when sorted, the result is newest-first, a permutation of those rows, and rows with equal timestamps keep their store order; unsorted, it keeps store order |
| `DocumentStore.Store.AggregateDonations` | server/src/utils/prisma.js:128-134 | the sum of `amount` over donations with the status, and 0 when none has it |
| `DocumentStore.Store.DeleteManyDonations` | server/src/utils/prisma.js:136-148 | with an empty filter, empties the donations and returns their previous count; with a non-empty filter, returns 0 and changes nothing; users are never touched |
| `DonationRoutes.ConfirmOverwritesStatus` | server/src/routes/donations.js:36-42 | confirming sets `SUCCESS` and the payment reference whatever the previous status, keeps the donation's id, amount, currency, owner and creation time, and leaves every other donation and the length unchanged |
| `DonationRoutes.ConfirmUnknownChangesNothing` | server/src/routes/donations.js:35-46 | confirming an id no donation has leaves the donations unchanged |
| `DonationRoutes.ConfirmSuccessTotal` | server/src/routes/donations.js:36-42 | after a confirmation the SUCCESS total gains the donation's amount, minus what it already counted if it was SUCCESS before |
| `DonationRoutes.ConfirmTwiceCountsOnce` | server/src/routes/donations.js:36-42 | confirming the same id twice leaves the length, the SUCCESS status and the SUCCESS total as after the first confirmation |
| `DonationRoutes.CreatePaymentIntent` | server/src/routes/donations.js:7-29 | appends exactly one donation for the caller with the given amount, currency or `usd`, and status `FAILED`; returns its id (previous count + 1) and a mock client secret; the SUCCESS total and dense ids are preserved |
| `DonationRoutes.ConfirmPayment` | server/src/routes/donations.js:32-47 | succeeds exactly when some donation has the id, and then stores the confirmed donations with the reference `mock_pi_` + the clock reading; otherwise reports "Donation not found" and changes nothing |
| `DonationRoutes.HistoryRows` | server/src/routes/donations.js:52-55 | a permutation of the caller's bare rows holds only the caller's donations, each as often as it is stored |
| `DonationRoutes.MyHistory` | server/src/routes/donations.js:50-60 | for a non-zero caller id, exactly the caller's donations, each as often as stored, without owners, newest first and ties in store order; for id 0, every donation, newest first and ties in store order |
| `AdminRoutes.GetStats` | server/src/routes/admin.js:7-24 | `totalUsers` is the user count, `totalDonationsCount` the donation count, and `totalAmount` the SUCCESS total, 0 when nothing succeeded |
| `AdminRoutes.ListUsers` | server/src/routes/admin.js:27-36 | every user in insertion order, unprojected |
| `AdminRoutes.ClearUsers` | server/src/routes/admin.js:39-47 | afterwards there are no users, the count returned is the previous user count, and donations are unchanged |
| `AdminRoutes.ListedRows` | server/src/routes/admin.js:52-55 | a permutation of the joined donations has one row per donation, each carrying the first user with its `userId` |
| `AdminRoutes.ListDonations` | server/src/routes/admin.js:50-60 | every donation as often as stored, each joined with its owner, newest first and ties in store order |
| `AdminRoutes.ClearDonations` | server/src/routes/admin.js:63-70 | afterwards there are no donations, the count returned is the previous donation count, users are unchanged, and stats report 0 donations and a total of 0 |

`Store.CountUsers`, `Store.CountDonations` and `Store.FindManyUsers` return the
collection length or the collection itself. They have no contract of their
own. What they give is stated by `GetStats` and `ListUsers`.

## Left out

- File persistence and JSON: creating `db.json` when it is missing, and the `readDb`/`writeDb` round trip (server/src/utils/prisma.js:1-12). The snapshot is the state of the `Store` object. `Store.Init` stands for a freshly created file.
- Concurrency: requests run one at a time. The lost update that two interleaved read-modify-write calls can cause is not modelled.
- Express plumbing: routing, the `authenticateToken`/`isAdmin` middleware (server/src/middleware/auth.js is not part of this model), HTTP status codes and CORS. A thrown error becomes an `Err` result carrying the error message.
- Clocks: `new Date()` timestamps are integer milliseconds passed in by the caller. The ISO strings the store writes, and their parsing back in the sort, are not modelled. The `getTime()` readings appended to `mock_secret_` and `mock_pi_` are passed in as strings.
- Number parsing: `parseFloat(amount)` and `parseInt(donationId)` are taken as already parsed. NaN amounts and ids are not modelled.
- Floating point: amounts are `real`, so sums have no rounding.
- Payload shapes: payloads carry the fields the routes use (plus an optional `id`). Other arbitrary keys a JavaScript caller could spread into a record are not modelled.
- `$connect`/`$disconnect` (server/src/utils/prisma.js:158-159) do nothing and are not modelled.
- The payment-provider helpers: server/src/utils/payhere.js (an MD5 hash and number formatting). The `create-razorpay-order`, `verify-razorpay-payment` and `payment-failed` endpoints that client/src/pages/Donate.jsx:27,46,82 calls have no counterpart in the two route files modelled here.
- User registration and login: server/src/routes/auth.js is not part of this model.
- The client pages and components are presentation only.
