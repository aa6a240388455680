# Payments service model

A Dafny model of a small payments service. Clients create, fetch and list
payment records over HTTP. Three Lambda handlers sit in front of one
DynamoDB table that is keyed by `paymentId` and has a secondary index on
`currency`.

- `payments.dfy` (module `Payments`) models the record store. The table is a
  `PaymentsTable` object whose `items` field maps each key to its stored item.
  - `CreatePayment` is the unconditional put, and the only method that changes
    the table. It stores `paymentId`, `amount` and `currency`, nothing else.
  - `GetPayment`, `ListPayments` and `ListPaymentsByCurrency` are read-only.
    They have no `modifies` clause, so Dafny checks that they leave the table
    alone.
  - A scan or an index query returns its items in no particular order. The
    predicate `IsListing` gives the allowed answers: every stored item that
    passes the filter, exactly once. Lemmas show that:
    - two such answers differ only in order;
    - a currency query gives exactly the scanned items of that currency;
    - an answer has one entry per matching key;
    - an empty table lists as an empty sequence.
- `gateway.dfy` (module `Gateway`) holds the shapes the handlers exchange
  with API Gateway:
  - parsed bodies and JSON values, with JavaScript truthiness;
  - schema violations, each a `(path, kind)` pair;
  - the `(statusCode, body)` response.
- `create_payment.dfy`, `list_payments.dfy` and `get_payment.dfy` model the
  three handlers. Each handler is a method over the table. For every status
  code it can return, its contract gives:
  - the inputs that lead to that code, as an if-and-only-if;
  - the exact body;
  - what happens to the table.

  No status code depends on the `fault` flag unless the store is called.
  That is how the model states that the store is never called on invalid
  input.
- `lifecycle.dfy` states the integration tests' scenario as a client of the
  handlers' contracts. It creates a payment, gets it back, lists it, and
  filters it in and out by currency. It also creates the same payment twice
  and proves that this gives two records.

Currency lengths are JavaScript string lengths, counted in UTF-16 code
units (`Gateway.Utf16Length`): a character above U+FFFF counts as 2.

The code and its unit tests disagree on an empty `currency` query parameter.
The code's schema rejects `""` like any other string whose length is not 3.
It answers 400 with body `{ error: "Invalid Input", details }` and makes no
store call (`be-test/src/listPayments.ts:17-24`). The test instead expects
the body `{ error: "Currency parameter cannot be empty" }`
(`be-test/test/listPayment.test.ts:70-73`). The model follows the code.
Which body was intended is left unresolved.

## Model

| member | source | states |
|---|---|---|
| `Payments.Lookup` | be-test/src/lib/payments.ts:9-20 | the point get finds an item exactly when the key is stored, and in a keyed table that item's `paymentId` is the key |
| `Payments.Put` | be-test/src/lib/payments.ts:48-58 | the put adds `p.id` to the keys and stores `{paymentId: p.id, amount, currency}` under it, replacing any earlier item; every other key keeps its item; the table stays keyed |
| `Payments.PaymentsTable.GetPayment` | be-test/src/lib/payments.ts:9-20 | `getPayment` fails exactly when the backend does; otherwise it gives the item under the key, or none (null); the returned item's `paymentId` is the key asked for; the table is not changed |
| `Payments.PaymentsTable.ListPayments` | be-test/src/lib/payments.ts:22-30 | `listPayments` fails exactly when the backend does; otherwise it gives every stored item exactly once and nothing else (an empty sequence for an empty table); the table is not changed |
| `Payments.PaymentsTable.ListPaymentsByCurrency` | be-test/src/lib/payments.ts:32-46 | `listPaymentsByCurrency(c)` fails exactly when the backend does; otherwise it gives exactly the stored items with `currency == c`, each once; the table is not changed |
| `Payments.PaymentsTable.Collect` | be-test/src/lib/payments.ts:22-46 | the store's walk over its keys, in any order, yields an allowed answer to the scan or query: each stored item that passes the filter, once, and nothing else |
| `Payments.PaymentsTable.CreatePayment` | be-test/src/lib/payments.ts:48-59 | `createPayment` fails exactly when the backend does, and a failed put leaves the table unchanged; otherwise the new table is the old one with `p`'s three fields put under `p.id` |
| `Payments.ListingsAgree` | be-test/src/lib/payments.ts:22-46 | two answers to the same scan or query contain the same items (equal multisets): only the order is unspecified |
| `Payments.CurrencyListingWithinScan` | be-test/src/lib/payments.ts:32-46 | an index query for `c` gives exactly the scanned items whose currency is `c`: a sub-multiset of the scan, never longer |
| `Payments.ListingSize` | be-test/src/lib/payments.ts:22-46 | a listing has exactly one entry per stored key whose item passes the filter |
| `Payments.EmptyTableListsNothing` | be-test/src/lib/payments.ts:29 | a scan or query of an empty table gives an empty sequence |
| `Payments.ListingAfterPut` | be-test/src/lib/payments.ts:48-58 | after a put, a scan contains the new item, and a query contains it exactly when it asks for the item's currency |
| `Gateway.Utf16Length` | be-test/src/createPayment.ts:9-12 | the JavaScript length the schemas' `min`, `max` and `length` rules compare: between the number of characters and twice it, and equal to it exactly when every character is below U+10000 |
| `Gateway.AstralCharacterCountsTwice` | be-test/src/listPayments.ts:7 | the two-character string U+1F600 "A" has JavaScript length 3 |
| `CreatePaymentHandler.CheckPayment` | be-test/src/createPayment.ts:7-13 | the schema accepts exactly the objects whose `amount` is a number > 0 and whose `currency` is a string of JavaScript length 3, and passes both values on unchanged; a rejection lists at least one violation; a violation is reported at `amount` exactly when the amount rule fails, and at `currency` exactly when the currency rule fails; a non-object is rejected as a whole |
| `CreatePaymentHandler.MissingAmountReported` | be-test/test/createPayment.test.ts:73-98 | a body without `amount` is rejected, with a type violation (expected a number) at `amount` |
| `CreatePaymentHandler.NonPositiveAmountReported` | be-test/test/createPayment.test.ts:100-127 | a number `amount <= 0` is rejected, with an exclusive lower-bound-0 violation at `amount` |
| `CreatePaymentHandler.CurrencyLengthReported` | be-test/test/createPayment.test.ts:129-184 | a string currency whose JavaScript length is more than 3 gives a maximum-3 violation at `currency`; one that is shorter gives an inclusive minimum-3 violation there |
| `CreatePaymentHandler.AstralCurrencyMeasuredInUtf16` | be-test/src/createPayment.ts:9-12 | the currency bounds count UTF-16 units: U+1F600 "A" (length 3) is accepted, and two U+1F600 (length 4) get only a maximum-3 violation |
| `CreatePaymentHandler.MissingBodyRejected` | be-test/src/createPayment.ts:19 | a missing body reads as `{}`, which is rejected with type violations at `amount` and at `currency` |
| `CreatePaymentHandler.Handler` | be-test/src/createPayment.ts:15-34 | 422 exactly when the schema fails, with body `{error: "Invalid input", details}`, and the table is untouched; 500 exactly when the input is valid and the put fails, with body `{error: "Internal server error"}`, and the table is untouched; 201 exactly when the input is valid and the put succeeds, with `result` equal to the fresh id; on 201 the table gains one item, stored under the fresh id (never the client's `id`), with the input's amount and currency; every stored item keeps amount > 0 and a currency of JavaScript length 3 |
| `ListPaymentsHandler.CurrencyIssues` | be-test/src/listPayments.ts:6-8 | a query value passes the currency schema exactly when it is a string of JavaScript length 3; every violation is at `currency`; a non-string gives a type violation |
| `ListPaymentsHandler.Handler` | be-test/src/listPayments.ts:10-35 | 400 exactly when a currency is given but is not a string of JavaScript length 3, with body `{error: "Invalid Input", details}` and non-empty details; 500 exactly when the filter is acceptable and the store call fails; 200 exactly when it is acceptable and the call succeeds; on 200 the data is the full scan when the parameter is absent, and otherwise the index query for exactly the given string |
| `ListPaymentsHandler.EmptyCurrencyRejected` | be-test/src/listPayments.ts:17-25 | an empty currency string is rejected (400) with a length violation at `currency`, so no query is made |
| `ListPaymentsHandler.ScanOnlyWhenAbsent` | be-test/src/listPayments.ts:27-29 | once validation passes, the code's truthiness test selects the scan exactly when the parameter is absent; a present currency always selects the index query with that same string |
| `GetPaymentHandler.Handler` | be-test/src/getPayment.ts:5-28 | 400 `{error: "Payment ID is required"}` exactly when the path id is absent or empty, whatever the store would do; 500 `{error: "Internal server error"}` exactly when the lookup fails; 404 `{error: "Payment not found"}` exactly when no item has that key; 200 exactly when one does, with the stored item returned as it is (so its `paymentId` is the path id) |
| `Lifecycle.CreateThenRead` | be-test/test/integration-test/integration.test.ts:152-181 | after a create returns 201 with the fresh id, a get of that id returns 200 with `{paymentId, amount, currency}`; the full list contains the item, a list of its currency contains it, and a list of another currency does not |
| `Lifecycle.CreateTwice` | be-test/src/createPayment.ts:28-30 | two creates with the same amount and currency return two different ids and leave two new records: create is not idempotent |

## Left out

- The DynamoDB client, the SDK command objects and async/await are replaced by an in-memory map. Whether a backend call fails is an input to each store call (`fault`). A failed put is modelled as writing nothing.
- `randomUUID()` becomes the `freshId` input of `CreatePaymentHandler.Handler`. It is required to be non-empty, different from every stored key and different from the client's `id` field. Real UUIDs have these properties only with overwhelming probability.
- `parseInput` and `buildResponse` (`./lib/apigateway`) are not part of this model. The request body is given already parsed. Malformed JSON is assumed to parse to a value that is not an object, which the schema rejects, so the response is 422. If `parseInput` threw instead, the real handler would answer 500. JSON serialisation of the response is not modelled.
- Zod's issue objects are reduced to a path and a violation kind. Messages, `received` and other issue fields are not modelled. For the list filter, the kind is an abstract "JavaScript length not exactly 3". The unit test expects code `invalid_string` and a message other than the schema's custom one; which code Zod reports is not decided here.
- `amount` is an exact `real`, not a JavaScript double. The code only compares it with 0, but parsing can change that comparison. `JSON.parse` reads `1e400` as Infinity, which `z.number().positive()` accepts. It reads `1e-400` as 0, which the schema rejects. The model accepts both, as positive reals. NaN is left out because JSON text cannot express it.
- Strings are Dafny strings of Unicode scalar values. A JavaScript string can also hold a lone surrogate (a `\uD83D` escape in the JSON text). The model cannot represent such a currency, so it does not say how the schemas judge one.
- `{...payment, id}` passes any extra body fields on to `createPayment`, which drops them when it builds the item. The model drops them one step earlier, when it builds the `Payment`. The stored item is the same.
- Unexpected exceptions are not modelled, apart from store failures. This covers the 500 branches' catch-all.
- Pages are not modelled. A DynamoDB Scan or Query returns at most 1 MB per call, and the code never follows `LastEvaluatedKey` (`payments.ts:23-29`, `payments.ts:35-45`). So on a larger table the real `listPayments` and `listPaymentsByCurrency` return only the first page. The model assumes every answer fits in one page, and its listings hold every matching item.
- Consistency is not modelled. The map is read-after-write consistent; DynamoDB is not here. The `GetCommand` sets no `ConsistentRead` (`payments.ts:12-17`), and a query on a global secondary index is always eventually consistent (`payments.ts:36-43`). So `Payments.ListingAfterPut` and `Lifecycle.CreateThenRead` describe reads made once the put has propagated. A read right after the put may not see it yet.
- The CDK stack and the app entry point are not modelled (`be-test/lib/be-test-stack.ts`, `be-test/bin/be-test.ts`). This covers the table, the index, routes, Lambda wiring and CORS. The stack names the table `"PaymentsTable"` (`be-test-stack.ts:16`), but the store code queries `"Payments"` (`payments.ts:14`). This is a deployment-level mismatch and is not modelled.
- Concurrent requests are not modelled. Each handler call is one atomic step on the table.
