# Banking API mock — a Dafny model

This project models the core of `banking-api-mock`, an Express service that imitates a retail banking REST API over in-memory data. The model covers:

- the mock-data generators;
- the five resource routers (accounts, transactions, payments, beneficiaries, statements);
- the authentication stub;
- the error handler with its `createError` helper.

Every route handler becomes a Dafny function or method over the store it reads or changes. HTTP, the clock, `uuidv4()` and `Math.random()` become parameters.

Module layout:

| module | models |
|---|---|
| `Wrappers`, `Text` | `Option`; the string operations the routes use (`substring`, `startsWith`, `replace`, `split(' ')[0]`, `toLowerCase`, `${n}`), and JavaScript truthiness of an optional string |
| `ErrorHandler` | `createError`, the global error handler and its defaults |
| `Auth` | the authentication middleware |
| `MockData` | the generators and `generatePagination` |
| `Tables` | a route's in-memory object store as a map plus the insertion order that `Object.values` lists |
| `Query` | the filters, the stable descending sort (an in-place insertion sort on an array, proved equal to a functional specification) and the page slice that the list routes share |
| `Accounts`, `Transactions`, `Beneficiaries`, `Payments`, `Statements` | the routers |

Modelling conventions:

- **Money.** Amounts are integer pence. Interest rates are hundredths of a percent: 2.5 % is 250 and 0.1 % is 10.
- **Time.** Times are milliseconds (`Time`). Date-only fields are day numbers (`Day`, a time divided by 86 400 000), which is what `toISOString().split('T')[0]` keeps.
- **Random draws.** Each generator takes a record of its random draws. The record's `InRange()` predicate states the range that `Math.random()` and `Math.floor` give each draw.
- **Missing inputs.** A request field or query parameter is an `Option`; `None` means absent. A string counts as given when it is truthy, that is, present and non-empty.
- **Objects the routes mutate.** Each store is a class whose `table` field the mutating routes reassign. The seeding loops run when the store is constructed.
- **Read-only routes.** These are functions that read the store, or methods that change nothing.

Each store class has a `Valid()` invariant that every mutating method preserves:

- **Accounts:** the five seeded accounts, in seeding order.
- **Transactions:** every key is its transaction's ID. Every stored transaction is negative exactly when it is a DEBIT, and its size is between 10.00 and 510.00.
- **Beneficiaries:** every stored beneficiary is `ACTIVE`.
- **Payments:** completion data is present exactly when the payment is COMPLETED, and cancellation data exactly when it is CANCELLED. A stored reason has at least five characters, and the amount is positive.

## Model

| member | source | states |
|---|---|---|
| ErrorHandler.HandleError | src/middleware/errorHandler.js:6-29 | status is the error's status or 500; code and message default to INTERNAL_SERVER_ERROR and "An unexpected error occurred"; details are copied exactly when present; the correlation ID is the header when given, else a fresh uuid |
| ErrorHandler.CorrelationId | src/middleware/errorHandler.js:9 | the `x-correlation-id` header when truthy, else the generated uuid |
| ErrorHandler.CreateError | src/middleware/errorHandler.js:34-42 | the error carries the given status, code and message; details are attached exactly when given |
| ErrorHandler.ReplyNeverBlank | src/middleware/errorHandler.js:13-21 | whatever error reaches the handler, the reply has a non-zero status and a non-empty code and message |
| ErrorHandler.ShapeCreatedError | src/middleware/errorHandler.js:34-42 | round trip: an error from `createError` with a real status, code and message is replied with exactly those and its details |
| Auth.BearerToken | src/middleware/auth.js:27 | `replace('Bearer ', '')` removes the first occurrence anywhere in the header, or returns the header unchanged when none occurs; a header that starts with the prefix yields the rest |
| Auth.Decide | src/middleware/auth.js:7-59 | UNAUTHORIZED when no credential header is truthy; else INVALID_TOKEN when a bearer token is under 10 characters; else INVALID_CREDENTIALS when a truthy API key or client ID is under 10 characters; accepted exactly when none of these holds; every rejection is 401 with the request's correlation ID; an accepted user gets the eight scopes |
| Auth.Request.Authenticate | src/middleware/auth.js:52-59 | sets `req.user` exactly when the decision accepts, and otherwise returns the 401 reply and leaves `req.user` unset |
| Auth.Request.constructor | src/middleware/auth.js:7 | a request starts with its headers and no user |
| Auth.ShortTokenReportedFirst | src/middleware/auth.js:26-50 | a too-short bearer token is reported as INVALID_TOKEN even when the API key is too short as well |
| Statements.DownloadStatement | src/routes/statements.js:9-53 | 400 INVALID_STATEMENT_ID without the `stmt-` prefix; then 404 STATEMENT_NOT_FOUND outside the five known IDs; then a PDF or CSV attachment named `statement-<id>.<ext>` by the case-folded format (default pdf); else 400 INVALID_FORMAT; succeeds exactly for a known ID with format pdf or csv |
| Statements.UnknownBeforeFormat | src/routes/statements.js:27-51 | an unknown ID is reported as not found whatever format is asked for |
| Statements.FormatIgnoresCase | src/routes/statements.js:33-39 | `PDF`, `Pdf` and an absent format give the same download; `CSV` is accepted |
| Statements.FixedIdsHavePrefix | src/routes/statements.js:19-25 | every known statement ID passes the prefix check, so none is unreachable |
| MockData.IdOr | src/utils/mockData.js:7 | a truthy ID is reused verbatim; otherwise the ID starts with the prefix, and what follows it is a prefix of the uuid of length min(13, uuid length) |
| MockData.GenerateAccount | src/utils/mockData.js:6-31 | the account is well formed: overdraft 1000.00 exactly for CHECKING; interest 2.5 % for SAVINGS, else 0.1 %; the nickname follows the type; both balances lie within [1000.00, 51000.00]; currency GBP, status ACTIVE, an 8-character masked account number; the opened date and the last transaction date are not in the future |
| MockData.GenerateTransaction | src/utils/mockData.js:36-69 | the type is one of the five; the amount is negative exactly for DEBIT and its size is within [10.00, 510.00]; the merchant is one of the five; the date lies within the last 30 days; the ID is reused or `txn-`-prefixed |
| MockData.GeneratePayment | src/utils/mockData.js:74-96 | the status is one of the four generated ones, never CANCELLED; completion time and transaction ID are present exactly when COMPLETED; no cancellation data; the amount and parties are passed through; scheduled today |
| MockData.GenerateBeneficiary | src/utils/mockData.js:101-133 | the type is one of two, and the name comes from that type's list; the nickname is the name's `split(' ')[0]`, a space-free prefix of it; the account and routing numbers have 8 and 6 digits; the phone is `+44` followed by 10 digits; the email is `EmailFor` of the name; status ACTIVE, bank Barclays |
| MockData.EmailFor | src/utils/mockData.js:127 | the address ends in `@example.com`, and its local part has no white space and no upper-case letter |
| MockData.GenerateStatement | src/utils/mockData.js:138-155 | the period is the 30 days ending today; the size is in [100000, 1000000); format PDF, status AVAILABLE |
| MockData.CeilDiv | src/utils/mockData.js:164 | `Math.ceil(n / d)`: the least multiple count with n <= q*d < n+d |
| MockData.GeneratePagination | src/utils/mockData.js:160-167 | echoes page, limit and total; totalPages * limit covers the total with less than one page to spare, and is 0 exactly for an empty list |
| Tables.Table.Values | src/routes/transactions.js:43 | `Object.values(store)`: one entry per key, in insertion order |
| Tables.Table.Insert | src/routes/beneficiaries.js:94 | `store[k] = v`: the entry is written; a new key goes last in the listing, and an existing key keeps its place |
| Tables.Table.Remove | src/routes/beneficiaries.js:158 | `delete store[k]`: the entry and its key are gone; the listing keeps the other keys |
| Tables.InsertFreshValues | src/routes/payments.js:49 | a new key is listed after everything already stored |
| Tables.InsertExistingValues | src/routes/beneficiaries.js:130-132 | rewriting a stored key replaces its entry in place and leaves the rest of the listing as it was |
| Tables.RemoveValues | src/routes/beneficiaries.js:158 | deleting a key drops exactly its entry from the listing, keeping the others in order |
| Tables.ValuesComplete | src/routes/transactions.js:43 | every stored entity is listed |
| Query.Filter | src/routes/transactions.js:46-48 | `filter`: keeps exactly the elements meeting the predicate, never more than there were |
| Query.Count | src/routes/transactions.js:91 | the number of elements meeting a predicate, at most the length |
| Query.FilterCount | src/routes/transactions.js:91 | a filtered list's length, which the routes report as totalRecords, is the number of elements meeting the predicate |
| Query.Map | src/routes/accounts.js:43-51 | `list.map(f)`: one image per element, in order; used for the summary projections of accounts.js:43-51 and beneficiaries.js:40-49 |
| Query.FilterCommutes | src/routes/transactions.js:45-79 | two filters give the same list, order included, in either order |
| Query.FilterFuse | src/routes/transactions.js:46-79 | two filters in a row equal one filter by their conjunction |
| Query.StepIsFilter | src/routes/transactions.js:46-48 | `if (param) list = list.filter(p)` equals one filter by "parameter absent or p" |
| Query.FilterKeepsNone | src/routes/beneficiaries.js:29-31 | a filter no element passes leaves the empty list |
| Query.Paginate | src/routes/transactions.js:85-87 | `slice((page-1)*limit, (page-1)*limit+limit)`: at most `limit` elements; empty exactly when the start is past the end; element i is element start+i of the list |
| Query.PageEmptyBeyondLast | src/routes/transactions.js:85-91 | a page is empty exactly when its number exceeds the pagination's totalPages |
| Query.ElementOnItsPage | src/routes/transactions.js:85-87 | element i of a list appears on page i/limit + 1, at position i mod limit |
| Query.PageOfSorted | src/routes/transactions.js:82-87 | a page cut from a sorted list is sorted and holds only elements of that list |
| Query.PageWithin | src/routes/accounts.js:37-39 | a page holds only elements of the list it is cut from |
| Query.SortDescSorted | src/routes/transactions.js:82 | the stable sort orders by key, newest first |
| Query.SortDescPermutes | src/routes/transactions.js:82 | the sort keeps exactly the same elements (a permutation) |
| Query.InsertLast | src/routes/transactions.js:82 | one insertion step in place: `a[i]` moves left past every element with a smaller key |
| Query.SortInPlace | src/routes/transactions.js:82 | sorting the array in place yields exactly the stable specification sort of its old contents |
| Query.SortedCopy | src/routes/accounts.js:135 | the sorted list equals the specification sort, is ordered newest first and is a permutation of its input |
| Transactions.ChainIsOneFilter | src/routes/transactions.js:45-79 | the six optional filters, applied in the route's order, keep exactly the transactions meeting every supplied filter, in store order |
| Transactions.Chain | src/routes/transactions.js:45-79 | the route's six guarded filters keep exactly the stored transactions that meet every supplied filter, and never more than there were |
| Transactions.ChainOrderIndependent | src/routes/transactions.js:45-79 | applying the six filters in the opposite order gives the same list |
| Transactions.ListOf | src/routes/transactions.js:31-93 | the pagination counts every matching transaction, before the page is cut |
| Transactions.ListSound | src/routes/transactions.js:31-93 | every listed transaction is stored and meets every filter; the page is sorted newest first and holds at most `limit` entries |
| Transactions.ListComplete | src/routes/transactions.js:31-93 | every stored transaction that meets the filters is in the sorted list the page is cut from |
| Transactions.TransactionStore.List | src/routes/transactions.js:31-93 | the route's filter-then-sort-then-slice equals the specification `ListOf` over the store's values; it is sorted, bounded, and sound |
| Transactions.TransactionStore.Get | src/routes/transactions.js:99-109 | 404 TRANSACTION_NOT_FOUND for an unknown ID; otherwise the stored transaction, whose ID is the one asked for |
| Transactions.SeedFixed | src/routes/transactions.js:10-19 | the three fixed transactions are generated under their IDs and accounts and stored first, in order |
| Transactions.FixedSeed | src/routes/transactions.js:10-19 | the three fixed transactions, generated with their IDs and accounts in the seed's order |
| Transactions.SeedRandom | src/routes/transactions.js:21-25 | seventeen random writes never overwrite a fixed transaction; the ID of each of the seventeen generated transactions is a key of the store; every new entry belongs to one of `acc-0` to `acc-4` and is one of the seventeen transactions `generateTransaction` returns (`RandomTxns`); the store grows by at most seventeen |
| Transactions.TransactionStore.constructor | src/routes/transactions.js:6-25 | the store is valid, starts with the fixed seed, holds every one of the seventeen random IDs, and has 3 to 20 transactions; every entry outside the fixed IDs belongs to one of `acc-0` to `acc-4` and is one of the seventeen generated transactions |
| Transactions.DebitFilterListsNegativeAmounts | src/routes/transactions.js:51-53 | asking for DEBIT lists only negative amounts |
| Accounts.FixedIdsWellFormatted | src/routes/accounts.js:10-16 | every seeded ID matches `^acc-\d{9}$`, so the format check never hides a stored account |
| Accounts.SeedAccounts | src/routes/accounts.js:18-21 | the five accounts are generated with their fixed IDs and types and stored in that order |
| Accounts.SeededAccounts | src/routes/accounts.js:10-21 | the five seeded accounts: each generated with its fixed ID and type, and well formed |
| Accounts.AccountStore.constructor | src/routes/accounts.js:10-21 | the store holds exactly the seeded accounts, in seeding order, each generated for its ID and type |
| Accounts.AccountStore.Find | src/routes/accounts.js:63-72 | 400 INVALID_ACCOUNT_ID when the ID is not `acc-` and nine digits; else 404 ACCOUNT_NOT_FOUND when unknown; succeeds exactly for a well-formatted stored ID, with that well-formed account |
| Accounts.AccountStore.List | src/routes/accounts.js:27-54 | at most `limit` summaries, each that of a stored account of the requested type; totalRecords is the number of stored accounts of that type (all of them without a type); the page is the route's slice of those accounts in store order, each projected by `Accounts.Summary` (the seven fields the route's map keeps) after the type filter `Accounts.OfType` |
| Accounts.ListSound | src/routes/accounts.js:30-51 | every summary on any page is that of a stored account of the requested type |
| Accounts.DefaultListIsAllAccounts | src/routes/accounts.js:10-54 | the unfiltered default page lists the five seeded accounts in seeding order, with pagination (1, 20, 1, 5) |
| Accounts.FilterByTypeComplete | src/routes/accounts.js:33-35 | filtering by a type keeps every seeded account of that type |
| Accounts.AccountStore.GetBalance | src/routes/accounts.js:81-104 | fails exactly as the lookup does; otherwise the account's currency, balances and overdraft, with pendingBalance 0 and the given clock reading |
| Accounts.GenerateBatch | src/routes/accounts.js:127-132 | the loop generates the batch of transactions for the account, in order |
| Accounts.GeneratedBatch | src/routes/accounts.js:127-132 | n generated transactions, all of the account and well formed |
| Accounts.SortedBatchOwned | src/routes/accounts.js:130-135 | the sorted batch still has n entries, all of the account and well formed |
| Accounts.AccountStore.Transactions | src/routes/accounts.js:110-141 | fails exactly as the lookup does; otherwise min(50, limit) fresh transactions of the account, sorted newest first, a permutation of those generated, with pagination over 50 records whatever the page |
| Accounts.AccountStore.Statements | src/routes/accounts.js:147-172 | fails exactly as the lookup does; otherwise twelve fresh statements of the account, each ending today |
| Beneficiaries.SeedBeneficiaries | src/routes/beneficiaries.js:9-13 | every one of the ten generated beneficiaries is stored under its ID; every entry is one of them; 1 to 10 entries, all ACTIVE |
| Beneficiaries.SeededBeneficiaries | src/routes/beneficiaries.js:9-13 | the ten beneficiaries the loop generates, in order, all ACTIVE |
| Beneficiaries.BeneficiaryStore.constructor | src/routes/beneficiaries.js:9-13 | the store is valid; every generated beneficiary's ID is stored; every entry is one of the generated beneficiaries; 1 to 10 entries |
| Beneficiaries.Validate | src/routes/beneficiaries.js:71-80 | passes exactly when type, name, account number, routing number and bank name are all truthy; otherwise 400 VALIDATION_ERROR with all five field issues |
| Beneficiaries.FromInput | src/routes/beneficiaries.js:82-92 | the required fields are copied from the body; nickname defaults to the name; bank address, email and phone default to the generated ones; ID, status and times are kept |
| Beneficiaries.Patch | src/routes/beneficiaries.js:129-132 | each truthy nickname, email or phone replaces the stored one; nothing else changes |
| Beneficiaries.PatchIdempotent | src/routes/beneficiaries.js:129-132 | repeating the same update changes nothing more |
| Beneficiaries.EmptyPatchIsIdentity | src/routes/beneficiaries.js:129-132 | an update with no truthy field leaves the beneficiary unchanged |
| Beneficiaries.MatchingMembership | src/routes/beneficiaries.js:24-32 | the two optional filters keep exactly the beneficiaries of the given type and status |
| Beneficiaries.MatchingIsOneFilter | src/routes/beneficiaries.js:24-32 | the two optional filters in a row are one filter by their combined predicate |
| Beneficiaries.ListSound | src/routes/beneficiaries.js:22-49 | every summary on any page is that of a stored beneficiary passing both supplied filters |
| Beneficiaries.BeneficiaryStore.List | src/routes/beneficiaries.js:19-52 | at most `limit` summaries, each that of a stored beneficiary passing both supplied filters; totalRecords is the number of stored beneficiaries passing them; the page is the route's slice of the matches in store order, each projected by `Beneficiaries.Summary` (the eight fields the route's map keeps) after the filters `Beneficiaries.OfType` and `Beneficiaries.WithStatus` |
| Beneficiaries.BeneficiaryStore.Get | src/routes/beneficiaries.js:103-113 | 404 BENEFICIARY_NOT_FOUND for an unknown ID; otherwise the stored, ACTIVE beneficiary |
| Beneficiaries.BeneficiaryStore.Create | src/routes/beneficiaries.js:58-97 | a validation failure leaves the store unchanged; otherwise the generated beneficiary overwritten with the body is stored under its ID |
| Beneficiaries.BeneficiaryStore.Update | src/routes/beneficiaries.js:119-135 | 404 and no change for an unknown ID; otherwise the stored beneficiary is replaced by its patch |
| Beneficiaries.BeneficiaryStore.Delete | src/routes/beneficiaries.js:141-161 | 404 for an unknown ID; 422 BENEFICIARY_HAS_PENDING_PAYMENTS when the random draw says so; both leave the store unchanged; otherwise exactly that entry is removed |
| Beneficiaries.OnlyActiveListed | src/routes/beneficiaries.js:29-32 | a status filter other than ACTIVE always lists nothing, because no route changes a status |
| Beneficiaries.DeleteDropsOnlyThatEntry | src/routes/beneficiaries.js:158 | after a delete the others are listed as before, in order |
| Payments.Validate | src/routes/payments.js:25-39 | 400 VALIDATION_ERROR with all six field issues when a required field is falsy; then 422 INVALID_AMOUNT for a negative amount; passes exactly for all six present and a positive amount |
| Payments.ZeroAmountIsMissing | src/routes/payments.js:26-37 | an amount of 0 is falsy, so it is reported as a missing field, never as INVALID_AMOUNT |
| Payments.FromInput | src/routes/payments.js:41-47 | currency, payment type and reference come from the body; scheduled date defaults to today; urgency defaults to NORMAL only when absent; nothing else of the generated payment changes |
| Payments.CancelTransition | src/routes/payments.js:84-99 | in order: 422 PAYMENT_ALREADY_COMPLETED, 422 PAYMENT_ALREADY_CANCELLED, 400 VALIDATION_ERROR for a falsy or short reason; succeeds exactly otherwise, setting status, time and reason and nothing else |
| Payments.CancelKeepsStoredPayment | src/routes/payments.js:96-99 | cancelling keeps the payment lifecycle invariant |
| Payments.CancelTwiceFails | src/routes/payments.js:88-90 | a second cancel of a just-cancelled payment always fails with PAYMENT_ALREADY_CANCELLED |
| Payments.CompletedNeverCancels | src/routes/payments.js:84-86 | a COMPLETED payment can never be cancelled, whatever the reason |
| Payments.PaymentStore.Create | src/routes/payments.js:13-52 | a failed validation leaves the store unchanged; otherwise the generated payment overwritten with the body is stored under its ID, with a positive amount |
| Payments.PaymentStore.constructor | src/routes/payments.js:7 | the store starts empty |
| Payments.PaymentStore.Get | src/routes/payments.js:58-68 | 404 PAYMENT_NOT_FOUND for an unknown ID; otherwise the stored payment, which satisfies the lifecycle invariant |
| Payments.PaymentStore.Cancel | src/routes/payments.js:74-102 | 404 and no change for an unknown ID; otherwise the outcome of `CancelTransition`, written back only on success |

## Behaviour worth knowing

- **A second cancel fails.** Cancelling a payment that is already CANCELLED fails with 422 PAYMENT_ALREADY_CANCELLED (`Payments.CancelTwiceFails`).
- **Deletion can be refused.** Deleting a beneficiary fails one time in five with 422 BENEFICIARY_HAS_PENDING_PAYMENTS. The model takes that draw as the `hasPendingPayments` input.
- **No parameter validation.** No route validates page or limit, and none caps a payment amount. Only the account and statement routes check an ID format. The model requires page and limit to be at least 1.
- **Closed ranges.** `toFixed(2)` rounds, so balances lie in [1000.00, 51000.00] and transaction amounts in [10.00, 510.00], both ends included.
- **Zero amounts.** A payment amount of 0 is falsy, so it is reported as a missing field (400 VALIDATION_ERROR) and never reaches the `amount <= 0` check.

## Left out

- HTTP wiring is not modelled: `server.js`, the request logger, the health route and the OpenAPI documentation. The model covers the handlers, not Express.
- The clock, `uuidv4()` and `Math.random()` are parameters. Each call takes one clock reading `now`, where the source reads the clock several times within a request.
- Money is integer pence rather than floating point. `parseFloat` of query amounts and payment amounts with fractions of a penny are not modelled.
- Date strings are already parsed times. An unparsable `startDate` or `endDate` makes every JavaScript comparison false; that case is not modelled. A client's `scheduledDate` is a day number, not an arbitrary string.
- Query coercion is not modelled. `page` and `limit` arrive as strings and are coerced by `*`, `-` and `parseInt`; the model takes them as integers of at least 1. NaN and fractional values are not modelled.
- The model fixes the types of the inputs: a payment `amount` is a JSON number (in pence), `scheduledDate` a date, `bankAddress` an address object, every other body field and header a string, and each query value a single string. Each may also be absent.
- A non-number `amount` is not modelled. For example, a string such as `"abc"` or the value `true` is truthy and not `<= 0`, so payments.js:26-37 accepts it and stores it unchanged. The stored-payment invariant "the amount is positive" holds only because the model types the field as a number.
- Other non-string body values (a number, an array, `null`) are not modelled.
- Lookups by `store[id]` in the source also find inherited object properties such as `constructor`. The model's map lookup finds only stored entries.
- `Text.ToLower`: folds ASCII letters only, not full Unicode `toLowerCase`.
- `Text.DotSpaces`: collapses the ASCII whitespace characters and the vertical tab and form feed, not the other Unicode spaces `\s` matches.
- String lengths count Dafny characters, not UTF-16 code units.
- Auth.Request.Authenticate: states that `req.user` is set exactly on acceptance. The `next()` continuation and the response object are not modelled.
- Beneficiaries.SeedBeneficiaries: states 1 to 10 entries rather than exactly 10, because random IDs may collide. The source does not rule that out, and a colliding write overwrites.
- Transactions.SeedRandom: assumes 36-character uuids, as `uuidv4()` produces, so that a random ID cannot equal a fixed one.
- The `year` and `month` query parameters of the statements route are read but never used, so the model has none. The same holds for the `startDate` and `endDate` that the per-account transactions route destructures (accounts.js:112).
- Logging by the error handler (`console.error`) is not modelled.
