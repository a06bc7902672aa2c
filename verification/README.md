# Credit ledger of the AI tool store

A Dafny model of the credit ledger behind the store's Cloud Functions API
(`functions/index.js`). Each user has an account document (`creditsRemaining`,
`isPremium`, `premiumExpires`, `createdAt`) and an append-only ledger of
`debit` and `purchase` entries. Three handlers touch it:

- `POST /runTool` prices a run by its model (`gpt-4` costs 2 credits, every
  other model 1). In one transaction it debits the balance and logs a `debit`
  entry of `-cost`, or aborts because the user is not found or has too few
  credits.
- `POST /purchaseWebhook` picks the buyer, the credit amount and the pack out
  of a Stripe, Google Play or App Store payload. In one transaction it adds
  the credits, creating the account on a first purchase. A premium pack grants
  premium until 30 days from now. It logs a `purchase` entry.
- `POST /logActivity` writes an activity record only for a user who is
  premium right now. The model keeps only that premium test.

Each Firestore transaction is one atomic step over an immutable `Store`
(`Accounts.RunTransaction`): an aborted body leaves the store exactly as it
was, and a committed one writes the account and appends one ledger entry
together. Time is an integer count of milliseconds passed in as `now`. It
stands for both `new Date()` and the server timestamp of the same request.

Modules: `Wrappers` (Option, Result), `Accounts` (documents, ledger sums,
commit), `ToolRun`, `PurchaseWebhook`, `Entitlement`, `LedgerInvariants`
(sequences of requests, conservation and non-negativity).

Three behaviours of the code are worth stating plainly:

- A payload delivered twice credits twice
  (`LedgerInvariants.DuplicateDeliveryCreditsTwice`).
- Nothing rejects a negative amount (`LedgerInvariants.NegativeCreditIsAccepted`).
- Any thrown error other than `Insufficient credits.` answers 500. That
  includes a missing account on a tool run, and a prompt that is not text,
  which fails only after the run has been charged.

JavaScript truthiness is modelled explicitly:

- `creditsRemaining || 0` reads an absent field as 0.
- `!uid` rejects an absent or empty buyer.
- `!creditsToAdd` rejects an absent or zero amount.
- `premiumExpires &&` tests only that an expiry is stored.
- `isPremium === true` needs the stored flag to be exactly `true`.
- A supported provider with no payload at all fails reading its fields. The
  handler reports that as a 500 (`MalformedPayload`).
- An absent pack name prints as `undefined` in the ledger note, and a `null`
  one prints as `null`.

The buyer id of a delivery comes from an unsigned payload and is resolved as a
path below `users`. The model refuses a buyer id whose path contains `//` or
does not have an even number of segments; other ids the document reference
refuses are listed under "Left out". The handler answers such a
delivery with a 500 before any transaction (`InvalidDocumentPath`), so
nothing is written.

## Model

| member | source | states |
|---|---|---|
| ToolRun.Cost | functions/index.js:67 | a run costs 1 or 2 credits, and 2 exactly when the model is `gpt-4`, so every run costs something |
| ToolRun.RunTool | functions/index.js:73-95 | a missing account fails as user-not-found, and a debit never creates one; too few credits (an absent balance read as 0) aborts as its own outcome; any abort leaves every account and ledger unchanged; a commit lowers the balance by the cost, leaves it non-negative, writes no other field, appends exactly one `debit` entry of `-cost` and touches no other user |
| ToolRun.StatusOf | functions/index.js:101-114 | too few credits, and only that, answers 402; user-not-found answers 500; a committed run answers 200 when the prompt is text and 500 when it is not, although it has been charged |
| PurchaseWebhook.ParsePurchase | functions/index.js:133-154 | an unknown provider, a known provider without a payload, and a missing or falsy buyer or amount are each rejected, each exactly in its case, and every other payload is accepted; Stripe names the buyer in `client_reference_id`, the mobile stores in `uid`; an accepted purchase has a non-empty buyer and a non-zero amount taken from the payload |
| PurchaseWebhook.PurchaseNote | functions/index.js:192 | the ledger note reads `Purchase of <pack> pack`, with an absent pack printed as `undefined` and a `null` one as `null`; the pack text can be read back from between the fixed prefix and suffix |
| PurchaseWebhook.CreditWrite | functions/index.js:161-187 | a balance is always stored, and it is the old one (0 for a new account or absent field) plus the amount; a premium pack sets the flag and an expiry of now plus 30 days whatever expiry was stored; a first purchase stamps `createdAt`; a later one keeps `createdAt`, and a plain purchase keeps both premium fields |
| PurchaseWebhook.HandleWebhook | functions/index.js:129-203 | a delivery is accepted exactly when its payload parses and its buyer id names a user document; a validation error is reported as such, and a buyer id that is not a document path as `InvalidDocumentPath`; a rejected delivery changes nothing; an accepted one moves the buyer's balance by the amount of the one `purchase` entry it appends, and touches no other user |
| PurchaseWebhook.PlainIdIsOneSegment | functions/index.js:157 | a non-empty buyer id without `/` is one path segment, so it always names a user document |
| PurchaseWebhook.TwoSegmentIdRefused | functions/index.js:157 | a buyer id of two `/`-separated segments does not name a document, and a delivery naming it is answered with an error and leaves the store unchanged |
| Accounts.RunTransaction | functions/index.js:73-95 | a transaction that aborts leaves the store as it was and reports its error; one that commits applies its account write and ledger append together |
| Accounts.Commit | functions/index.js:179-194 | a commit writes the account and appends the entry to that user's ledger, and leaves every other user's account and ledger alone |
| Entitlement.LogsActivity | functions/index.js:220-232 | a missing account is an error; otherwise an activity is recorded exactly when the user is premium at that moment |
| Entitlement.EntitlementLapses | functions/index.js:228-230 | for the premium test `IsPremium` (the flag is exactly `true`, an expiry is stored, and it is after now): premium at a later time implies premium at any earlier time, and it lapses at the stored expiry with nothing written |
| Entitlement.PremiumPurchaseEntitlesUntil | functions/index.js:170-176 | after an accepted premium delivery at `now`, the buyer is premium at exactly the times before `now` plus 30 days |
| Entitlement.RepeatPremiumDoesNotStack | functions/index.js:170-176 | a repeat premium purchase restarts the window at the purchase time; the time left over from the earlier window is lost |
| Entitlement.PlainPurchaseKeepsEntitlement | functions/index.js:164-180 | a non-premium delivery, accepted or not, changes nobody's entitlement at any time |
| LedgerInvariants.StepKeepsConsistent | functions/index.js:73-194 | if every balance equals its ledger sum, it still does after any one tool run or delivery |
| LedgerInvariants.ReplayKeepsConsistent | functions/index.js:73-194 | balance equals ledger sum is kept by any sequence of requests |
| LedgerInvariants.LedgerConservation | functions/index.js:179-194 | starting with no accounts, after any sequence of requests each user's balance is the sum of the amounts in their ledger |
| LedgerInvariants.StepKeepsNonNegative | functions/index.js:73-194 | one request keeps every balance non-negative, provided it credits no negative amount |
| LedgerInvariants.ReplayKeepsNonNegative | functions/index.js:152-163 | any sequence of requests keeps every balance non-negative, provided none of them credits a negative amount |
| LedgerInvariants.NegativeCreditIsAccepted | functions/index.js:152-163 | a negative `credits_purchased` passes validation and leaves a new account with a negative balance |
| LedgerInvariants.DuplicateDeliveryCreditsTwice | functions/index.js:157-194 | delivering the same accepted payload twice adds twice the amount and logs two entries |
| LedgerInvariants.DebitRaceHasOneWinner | functions/index.js:73-88 | of two runs, on any models, when the balance covers the first run's cost but not both costs together, the first commits and the second is refused as too few credits, changing nothing |
| LedgerInvariants.MissingBalanceReadsAsZero | functions/index.js:80-85 | an account with no stored balance holds 0 credits: every run on it is refused, and a purchase sets its balance to exactly the credits bought |

## Left out

- HTTP routing, the required-field checks of `/runTool` and `/logActivity`, and the status codes of the webhook. These are transport plumbing; only the status of a tool run is kept (`ToolRun.StatusOf`).
- Token verification (`authenticate`, `verifyIdToken`). It is a call into Firebase Auth; the model takes the caller's uid as given.
- The AI model call stub, console logging and the `user_activity` document write. They have no ledger state. Only the premium test that guards the write is modelled, and whether the stub's reply can be built from the prompt (`ToolRun.StatusOf`).
- Transaction retries and contention. Every transaction is one atomic step, and requests run in the order given.
- Calendar arithmetic. `setDate(getDate() + 30)` is modelled as exactly 30 × 86 400 000 ms, so daylight-saving shifts are not modelled. Firestore timestamp precision is not modelled either.
- Server timestamps. Each is modelled as the request's `now`, not as a commit time.
- PurchaseWebhook.HandleWebhook: an accepted buyer id is used as an opaque key. A `/` inside it is a path separator in Firestore, so a leading or trailing `/` is dropped and an id of three segments addresses a document nested under another user. The model does not follow those paths; it only refuses ids that contain `//` or have an even number of segments. Buyer ids are modelled as strings only: in the source a truthy non-string id (a number, `true`) is refused by the document reference and answered 500 with no write, which the model cannot express. Ids that Firestore reserves (`.`, `..`, `__…__`) are not refused by the model either, although the source answers them with a 500 and no write.
- Webhook signature and receipt verification. The code stubs them out.
- JavaScript number semantics. Credits are unbounded integers. A payload amount that is a string or a fraction, which JavaScript would concatenate or keep as a float, is not modelled.
- Ledger ordering. Ledger documents have generated ids and no order; the model keeps each ledger as a sequence in commit order.
- Other fields. An account document may hold fields these handlers never write. The model lists only the four it knows, and every write keeps the fields it does not name.
