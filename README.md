# Bistro Boss server: authorization, checkout and reporting

This project models the decision and data logic in the route handlers of
`index.js`, the Express back end of a restaurant's ordering site. The
MongoDB database is an in-memory `Store` (module `Server`). It holds five
fields: `users`, `menu`, `carts`, `payments` and an id generator `nextId`.
The handlers that write to the database are methods on the store. The
checks and reports that only read are pure functions of its contents.

- `Tokens`: `verifyJWT` and the `/jwt` issuance window. The header's second
  space-separated field is the token, through a model of JavaScript's
  `split(" ")`. The signature check is an abstract `Verifier` (a token
  string maps to the payload it signs, or to nothing). A token is accepted
  while `now < exp`, and `/jwt` sets `exp = iat + 3600`.
- `Access`: `verifyAdmin` (the role of the first user whose email is the
  caller's), the admin self-check of `GET /users/admin/:email`, and the
  owner check of `GET /carts`.
- `Directory` and `Carts`: the queries the handlers run on the users and
  carts collections. `findOne`, `updateOne` and `deleteOne` act on the first
  matching document. `deleteMany({_id: {$in}})` acts on every match.
- `Reports`: the `/order-stats` pipeline as a pure function. It does
  `$lookup`, then `$unwind`, then `$group` by category. The `/admin-stats`
  revenue is the `reduce` fold over payment prices.
- `Server`: the `Store` class. It has one method per writing handler. The
  route functions put `verifyJWT` and `verifyAdmin` in front of the handlers
  in the same order as `index.js`. Every writing method keeps the store's
  invariant `Valid`. It says every id is below `nextId`, users and cart
  entries have unique ids, and no two users share an email.

Prices are integer cents, so `$round: 2` and `toFixed(2)` change nothing.

The model follows the code wherever the code and the intended design
differ:
- The self-check answers `{admin: false}` on an email mismatch. It does not
  reject the request.
- `PATCH /users/admin/:id`, `DELETE /user/delete/:id`, `POST /users`,
  `POST /carts` and `DELETE /carts/:id` have no gate.
- `POST /users` stores the body's `role` as sent. So a new account can
  register itself as admin (`Access.SelfRegisteredAdminPassesGate`).
- `POST /payments` only authenticates. It does not check that the payment's
  email or its cart entries belong to the caller.
- Checkout is two steps, an insert and then a `deleteMany`, not one
  transaction. A body without a `cartItems` array is stored, and then
  `payment.cartItems.map` throws. The cart entries stay and no response is
  sent, but the payment already counts in the revenue
  (`Server.AbortedCheckoutIsHalfDone`).
- `$lookup` with an array `localField` matches each menu item once. So a
  repeated menu id in one payment counts once, and an id with no menu item
  is dropped. The counts are not counts of line-item occurrences.
- The routes are the source's (`/jwt`, `/users/admin/:email`,
  `/order-stats`, …). Role values other than "admin" are whatever the
  client stored.

## Model

| member | source | states |
|---|---|---|
| `Tokens.Split` | index.js:23 | `split(" ")` always gives at least one field, and no field contains the separator |
| `Tokens.JoinSplit` | index.js:23 | joining the fields of a split string with the separator gives the string back |
| `Tokens.SplitJoin` | index.js:23 | splitting a join of separator-free fields gives those fields back |
| `Tokens.Issue` | index.js:72-78 | the payload `/jwt` signs; its partner `Tokens.IssuedTokenAuthenticates` shows it authenticates as its claims until `iat + 3600`, and `Tokens.ExpiredTokenRejected` shows it is refused from then on |
| `Tokens.BearerToken` | index.js:23 | a second field exists exactly when the header contains a space, and it contains no space |
| `Tokens.Authenticate` | index.js:14-33 | every failure is 401 "unauthorized access"; a missing or empty header fails; on success the request carries a non-empty second header field whose signature verifies and whose `exp` is still in the future, and the caller's identity is exactly the signed claims |
| `Tokens.IssuedTokenAuthenticates` | index.js:72-78 | round trip: a token `/jwt` signed for some claims, sent as `<word> <token>` before `iat + 3600`, authenticates as exactly those claims, whatever the scheme word |
| `Tokens.ExpiredTokenRejected` | index.js:24-29 | a token whose `iat` is 3600 or more seconds old is refused with 401, whatever header carries it |
| `Directory.FirstWithEmail` | index.js:58-59 | `findOne({email})`: the index of a user with that email that no earlier user shares, or nothing exactly when no user has it |
| `Directory.FirstWithId` | index.js:99 | the same lookup by `_id` |
| `Directory.FindByEmail` | index.js:58-59 | `findOne({email})` gives nothing exactly when no user has the email, and otherwise a stored user with that email (the first, through `Directory.FirstWithEmail`) |
| `Directory.Registered` | index.js:117-125 | the directory after `POST /users`: unchanged, or the body appended exactly when no user had its email; afterwards some user has the email |
| `Directory.WithoutUser` | index.js:110-115 | `deleteOne({_id})` keeps only stored users, and removes one user exactly when some user has the id |
| `Directory.Promoted` | index.js:97-107 | promotion keeps length, ids and emails, changes no user but the first with the id, and gives that user role "admin" |
| `Directory.PromoteIdempotent` | index.js:97-107 | promoting the same id twice leaves the directory as promoting once did |
| `Directory.RegisterIdempotent` | index.js:117-125 | registering a second body with an already registered email leaves the directory unchanged, so registering twice equals registering once |
| `Directory.RegisterThenFind` | index.js:117-125 | registering a new email appends exactly one user, and `findOne` then returns that user |
| `Directory.DeleteRemovesOnlyThatUser` | index.js:110-115 | with unique ids, deleting by id leaves no user with that id, keeps every other user and unique ids, removes one user exactly when one had the id, and changes nothing when none had it |
| `Directory.UniqueEmailFound` | index.js:58-59 | when no two users share an email, `findOne({email})` finds each user by their own email |
| `Directory.RegisterKeepsUniqueEmails` | index.js:117-125 | registration never creates a second user with an existing email |
| `Directory.PromoteKeepsUniqueEmails` | index.js:97-107 | promotion keeps emails unique |
| `Directory.DeleteKeepsUniqueEmails` | index.js:110-115 | deletion keeps emails unique |
| `Access.RequireAdmin` | index.js:56-64 | `verifyAdmin` lets the caller through unchanged exactly when the first user with the caller's email has role "admin"; otherwise 403 "forbidden", including when no user has that email |
| `Access.AdminGate` | index.js:66 | admin routes run `verifyJWT` first: 401 if authentication fails, else the verdict of `verifyAdmin` on the authenticated claims |
| `Access.AdminSelfCheck` | index.js:85-92 | false when the path email is not the caller's; otherwise true exactly when the first user with that email has role "admin" |
| `Access.SelfCheckAgreesWithGate` | index.js:56-92 | for the caller's own email, the self-check answers true exactly when `verifyAdmin` would let the caller through |
| `Access.ReadCarts` | index.js:159-171 | a missing or empty query email gives `[]`; another user's email gives 403 "forbidden access"; the caller's own email gives exactly the caller's entries, with their multiplicities |
| `Access.ReadCartsOnlyOwn` | index.js:163-171 | any successful cart read contains only stored entries owned by the authenticated caller |
| `Access.PromotedUserPassesGate` | index.js:97-107 | after a promotion, the promoted user passes `verifyAdmin` if they are the first user with their email |
| `Access.PromotionGrantsAdmin` | index.js:56-64 | with unique emails, as the store keeps them, every promoted user passes `verifyAdmin` |
| `Access.SelfRegisteredAdminPassesGate` | index.js:117-125 | a new email registered with a body role of "admin" passes `verifyAdmin` |
| `Carts.CartsOf` | index.js:170-171 | `find({email})` returns only entries with that email, and every stored entry with that email as often as it is stored |
| `Carts.RemoveIds` | index.js:257-260 | after `deleteMany` no remaining entry has a listed id, every remaining entry was there before, and every entry with an unlisted id remains |
| `Carts.RemoveIdsKeepsOthers` | index.js:257-260 | `deleteMany` keeps each entry with an unlisted id exactly as often as before, and none with a listed id |
| `Carts.RemoveIdsCount` | index.js:260 | the number of entries `deleteMany` matches is exactly the number removed |
| `Carts.CountIn` | index.js:260 | the `deletedCount` of `deleteMany`: at most the number of entries, and 0 exactly when no entry has a listed id |
| `Carts.RemoveIdsReplay` | index.js:253-262 | replaying the deletion changes nothing and matches 0 entries |
| `Carts.FirstWithId` | index.js:184-185 | the first-match lookup by `_id` in the carts: the index of an entry with the id that no earlier entry shares, or nothing exactly when no entry has it |
| `Carts.WithoutEntry` | index.js:182-187 | `deleteOne({_id})` keeps only stored entries, and removes one entry exactly when some entry has the id |
| `Carts.DeleteRemovesOnlyThatEntry` | index.js:182-187 | with unique ids, `DELETE /carts/:id` leaves no entry with that id, keeps every other entry and unique ids, removes one entry exactly when one had the id, and changes nothing when none had it |
| `Reports.Matches` | index.js:205-212 | `$lookup` for one payment yields exactly the menu items whose id the payment lists, each as many times as the menu holds it (once per stored item), however often the payment lists its id |
| `Reports.Rows` | index.js:204-215 | `$lookup` then `$unwind`: every row is a menu item, and every menu item a payment lists is a row |
| `Reports.MatchesOnlyMembership` | index.js:205-212 | the join depends only on which ids a payment lists, not on their order or repetition |
| `Reports.RepeatedIdCountsOnce` | index.js:205-215 | listing a menu id again in the same payment adds no row |
| `Reports.UnknownIdDropped` | index.js:213-215 | an id that no menu item has adds no row |
| `Reports.RowsAppend` | index.js:204-215 | a payment appended to the collection adds exactly its own joined rows |
| `Reports.CountCat` | index.js:219 | a category's row count is positive exactly when some row has that category |
| `Reports.SumCat` | index.js:220 | a category with no rows has total 0 |
| `Reports.TallyStat` | index.js:216-222 | folding one row into the groups bumps that row's category (count + 1, total + price, or a new group at 1) and no other category |
| `Reports.TallyDistinct` | index.js:216-222 | folding in a row keeps one group per category |
| `Reports.TallyCounts` | index.js:219 | folding in a row raises the sum of the counts by one |
| `Reports.Tally` | index.js:216-222 | one `$group` step; `Reports.TallyStat`, `Reports.TallyDistinct` and `Reports.TallyCounts` state what it does |
| `Reports.Group` | index.js:216-222 | `$group` by category; `Reports.GroupStat` proves it against the reference `Reports.CountCat` and `Reports.SumCat` |
| `Reports.GroupStat` | index.js:216-222 | the grouping matches the reference: a category has a group exactly when it has rows, and then the group's count and total are its row count and price sum |
| `Reports.GroupDistinct` | index.js:217-218 | `$group` yields at most one document per category |
| `Reports.GroupCounts` | index.js:219 | the group counts add up to the number of rows |
| `Reports.OrderStats` | index.js:203-233 | the `/order-stats` pipeline; `Reports.OrderStatsCorrect` characterises its whole result |
| `Reports.OrderStatsCorrect` | index.js:203-235 | `/order-stats` has one document per category that occurs in some (payment, matched menu item) row and none for any other; each count is positive and equals the category's rows, each total is their price sum, and the counts add up to the number of rows |
| `Reports.RevenueFrom` | index.js:243 | the `reduce` fold; `Reports.RevenueFromIsTotal` proves it equals the start value plus the reference `Reports.TotalPrice` |
| `Reports.Revenue` | index.js:242-243 | the fold from 0; `Reports.RevenueIsSum` proves it is the sum of the prices |
| `Reports.RevenueFromIsTotal` | index.js:243 | the `reduce` fold from any start value equals the start plus the sum of all payment prices |
| `Reports.RevenueIsSum` | index.js:242-249 | the revenue is the sum of all payment prices, and one more payment raises it by that payment's price |
| `Reports.Dashboard` | index.js:237-251 | `/admin-stats` reports the numbers of users, payments and menu items, and the revenue as the sum of payment prices |
| `Server.Store.Register` | index.js:117-126 | "user already exist" with no change to the store when the email is registered; otherwise one user with a fresh id is appended; other collections unchanged |
| `Server.Store.Promote` | index.js:97-108 | the directory becomes `Promoted(old, id)`; `matchedCount` is 1 exactly when a user has the id, and `modifiedCount` is 1 exactly when that user was not already admin |
| `Server.Store.DeleteUser` | index.js:110-115 | deletes the first user with the id; `deletedCount` is the number removed, 1 or 0 |
| `Server.Store.AddCartEntry` | index.js:175-180 | appends one entry with a fresh id; other collections unchanged |
| `Server.Store.DeleteCartEntry` | index.js:182-187 | deletes the first entry with the id; `deletedCount` is the number removed, 1 or 0 |
| `Server.Store.DeleteMany` | index.js:257-260 | the carts become `RemoveIds(old, ids)`; `deletedCount` is both the number removed and the number matched; nothing else changes |
| `Server.Store.Checkout` | index.js:254-262 | the payments grow by exactly the submitted record under a fresh id; with a `cartItems` array the carts become `RemoveIds(old, cartItems)` and `deletedCount` is both the number removed and the number matched; without one the handler aborts after the insert, with the carts unchanged and no response; users and menu unchanged |
| `Server.AbortedCheckoutIsHalfDone` | index.js:254-258 | after an aborted checkout one more payment is stored and its price is already in the revenue, while every cart entry remains |
| `Server.Store.PostPayment` | index.js:253-263 | unauthenticated: 401 and nothing changes; authenticated: the checkout above, completed or aborted, whoever the caller is |
| `Server.Store.ListUsers` | index.js:66-70 | all users, and only behind both gates |
| `Server.Store.AdminCheck` | index.js:80-95 | 401 without authentication; otherwise the self-check for the authenticated claims |
| `Server.Store.GetCarts` | index.js:155-173 | 401 without authentication; otherwise the cart read for the authenticated claims |
| `Server.Store.GetOrderStats` | index.js:203-235 | the category breakdown of the current payments and menu, and only behind both gates |
| `Server.Store.GetAdminStats` | index.js:237-251 | the dashboard, and only behind both gates, with revenue equal to the sum of payment prices |

## Left out

- Express routing, CORS, JSON parsing, configuration and `app.listen` are transport, not logic.
- The MongoDB connection, ping and client lifecycle are I/O.
- JWT cryptography, the secret and the token text encoding belong to a foreign library. Verification is the `Verifier` function, and signing is `Tokens.Issue` (the payload only).
- `Tokens.Authenticate`: claims other than `email`, tokens without `exp`, `nbf`/`iat` checks and clock tolerance are not modelled. `/jwt` refusing a body that already has `exp` is not modelled either.
- `Tokens.Claims` always carries an email. A token whose claims lack `email` is not modelled: that would need MongoDB's matching of an `undefined` filter value.
- `/create-payment-intent` is a Stripe call, with a float `parseInt(price * 100)`.
- Floating-point prices and their rounding are not modelled: prices are integer cents.
- `Reports.Dashboard`: `estimatedDocumentCount` is modelled as the exact number of documents.
- Concurrency is not modelled. The model is sequential, so interleavings between the two checkout steps and between requests are not captured.
- Failed `ObjectId` parsing is not modelled: ids are abstract. So is the mismatch a string id in `menuItems` would cause against ObjectId `_id`s. A `cartItems` id that `new ObjectId` rejects would throw at the same point as a missing `cartItems` array and leave the same half-done checkout; only the missing or non-array case is modelled (`cartItems` is `None`).
- The second `res.send` after the unreturned `{admin: false}` and `[]` responses is not modelled: it is an error after the first response, and only the first response is modelled.
- Stored documents keep only the fields the core reads: user `email` and `role`; cart `email`, `menuItemId` and `price`; payment `email`, `price`, `cartItems` and `menuItems`. A payment body without a `cartItems` array is stored with `cartItems` as `None`. Other missing body fields are not modelled. The store generates ids, and a body's own `_id` is not modelled.
- The menu and review list handlers, and the menu insert and delete bodies behind the admin gate, are plain database pass-through. The menu is fixed when the store is built.
- `Reports.OrderStats`: MongoDB leaves the order of `$group` output unspecified. The model emits categories in order of first appearance, and no property depends on that order.
