# Apple receipt validator, modelled in Dafny

This project models the receipt-validation AWS Lambda of the Apple receipt
service (`lambda/index.ts`). The handler does the following, in order:

- it checks that `TABLE_NAME` is configured;
- it reads `receipt-data` from the JSON body;
- it gets the App Store shared secret from the SSM parameter store, keeping it in a module-level cache;
- it posts `{receipt-data, password, exclude-old-transactions: true}` to Apple's production `verifyReceipt` endpoint;
- it posts the same request once more to the sandbox endpoint only when production answers status 21007;
- on status 0 it pops the last `in_app` transaction;
- it puts one item keyed by (`receipt-data`, `transactionId`) into DynamoDB;
- it maps the outcome to 200, 400 or 500.

Files:

- `Wrappers.dfy`: `Option` and `Result`.
- `ReceiptModel.dfy`: the data (responses, transactions, records, the call
  log, the state of the process) and one pure function per step:
  - `FetchSecret` is `getSharedSecret`;
  - `ReceiptDataOf`, `Verify`, `TakeLatest`, `MakeRecord` and `Upsert` are the steps of the handler;
  - `Conclude` is what follows the verification, `Validate` is the `try`
    block from the secret onwards, and `Invoke` is one invocation's answer,
    new cache, calls and new table;
  - `Handle` is the whole handler over the state of the process;
  - `Run` runs one process over a series of invocations.
- `ReceiptHandler.dfy`: the class `ReceiptValidator`, written the way the
  source runs. Its fields are the module-level `sharedSecret`, the
  environment read at load time, the table, and a log of every outside call
  (`GetParameter`, `Post`, `Put`). `GetSharedSecret` fills the cache at most
  once. `Handler` checks the configuration and the body, `ValidateReceipt`
  fetches the secret and calls `VerifyReceipt` (the one or two posts), and
  `StoreLatest` pops `in_app` with `Pop` and puts the item. Each method is
  proved to produce exactly the outcome and new state of its function in
  `ReceiptModel`.
- `ReceiptProperties.dfy`: lemmas about `Handle`, `Upsert` and `Run`.

The outside world is given as parameters:

- the parameter store is a function from a name to `Success(Some(value))`,
  `Success(None)` (no `Parameter.Value`), or `Failure(message)` (the `send`
  rejects);
- Apple's endpoints are one function from a URL and a request to
  `Success(response)` or `Failure(message)`; an axios error, including a
  non-2xx reply, is a `Failure`;
- the put's outcome is an `Option<string>`: `Some(message)` when the write
  rejects;
- the request body is already parsed. `None` means `JSON.parse` (or indexing
  its result) throws. `Some(None)` means `receipt-data` is absent.
  `Some(Some(v))` means it is present.

JavaScript truthiness is modelled literally as `Truthy`: `undefined` and `""`
are falsy. It applies to `TABLE_NAME`, the parameter name, the cache, the
stored secret value and `receipt-data`.

Behaviour of the code worth noting:

- The response returned with 200, and the response spread into the stored
  item, are the response after `pop()`. When a transaction was taken, that
  response lacks the latest transaction and still holds the earlier ones. So
  the other `in_app` entries are persisted inside the item, and the caller
  does not get Apple's raw response.
- A missing `TABLE_NAME` is reported before the body is parsed. It gives a
  500 whose body has only a `message` (`Internal server error: TABLE_NAME
  missing`) and no `error`.
- A parameter store value that is the empty string is rejected like a
  missing one (`Could not retrieve shared secret from SSM Parameter Store`).
- `in_app` present but empty passes the check on line 78. `pop()` then
  returns `undefined`, so nothing is written and the response is unchanged.

## Model

| member | source | states |
|---|---|---|
| ReceiptModel.FetchSecret | lambda/index.ts:19-36 | A truthy cached secret is returned at once, with no lookup. With an empty cache, an unset parameter name fails with `APPLE_SHARED_SECRET_PARAM_NAME is not set` and no lookup. Otherwise there is exactly one decrypted lookup of that name: a rejection propagates its message, a missing or empty value fails with `Could not retrieve shared secret from SSM Parameter Store`, and a truthy value is returned and cached. On every failure the cache is unchanged. |
| ReceiptModel.ReceiptDataOf | lambda/index.ts:47-59 | The handler goes on only when the body parsed and `receipt-data` is present and not empty, and then with exactly that value. |
| ReceiptModel.BuildRequest | lambda/index.ts:63-67 | The request posted to Apple carries the received `receipt-data`, the secret as `password`, and `exclude-old-transactions` set. |
| ReceiptModel.Verify | lambda/index.ts:69-76 | The first call is always a post to production. A second post, of the identical request, goes to the sandbox exactly when production succeeded with status 21007, and its answer is final. Otherwise production's answer is final. There are never more than two posts. |
| ReceiptModel.InAppOf | lambda/index.ts:78 | `receipt?.in_app` is present exactly when both the receipt and its `in_app` are, and is then that array. |
| ReceiptModel.TakeLatest | lambda/index.ts:78-80 | A transaction is taken exactly when the status is 0 and `in_app` is present and non-empty. It is the last element, and the response afterwards has `in_app` without it. Status and all other fields are unchanged, and with nothing taken the response is unchanged. |
| ReceiptModel.MakeRecord | lambda/index.ts:81-91 | The item is keyed (`receipt-data`, the transaction's `transaction_id`). It holds the transaction's product id, purchase date, expiry date and original transaction id, and the response spread into it. |
| ReceiptModel.Upsert | lambda/index.ts:81-93 | After the put the item's key maps to the item and every other key is unchanged. The table gains a record only if the key was new. The invariant that every item sits under its own key is kept. |
| ReceiptModel.ValidationFailed | lambda/index.ts:101-109 | Anything thrown in the `try` block answers 500 with `Failed to validate receipt.` and the thrown message. |
| ReceiptModel.Conclude | lambda/index.ts:76-109 | After the verification the answer is 200 or 500. The cache is untouched. A 500 leaves the table unchanged. The invariant that every item sits under its own key is kept. |
| ReceiptModel.Validate | lambda/index.ts:61-109 | The `try` block answers 200 or 500. A 500 leaves the table unchanged. A truthy-or-empty cache stays so, and the table stays keyed. |
| ReceiptModel.Invoke | lambda/index.ts:38-111 | One invocation answers 200, 400 or 500. A non-200 answer leaves the table unchanged. The cache stays truthy-or-empty and the table stays keyed. |
| ReceiptModel.Handle | lambda/index.ts:38-111 | The answer is always 200, 400 or 500. The call log only grows. A non-200 answer leaves the table unchanged. A valid state (an empty or truthy cache, items under their keys) stays valid. |
| ReceiptModel.Run | lambda/index.ts:17-22 | Over any series of invocations of one process, the call log only grows and the state stays valid. |
| ReceiptHandler.ReceiptValidator.constructor | lambda/index.ts:10-17 | A fresh process holds the configured environment, an empty cache, no calls, and the existing table. |
| ReceiptHandler.ReceiptValidator.GetSharedSecret | lambda/index.ts:19-36 | The imperative cache returns exactly the result, new cache and calls of `FetchSecret`, and keeps the cache truthy-or-empty. |
| ReceiptHandler.ReceiptValidator.Handler | lambda/index.ts:38-111 | The imperative handler returns exactly the response of `Handle`. Its new cache, call log and table are exactly those of `Handle`. |
| ReceiptHandler.ReceiptValidator.VerifyReceipt | lambda/index.ts:69-74 | The imperative posts return exactly the final reply of `Verify` and append exactly its posts to the call log. |
| ReceiptHandler.ReceiptValidator.ValidateReceipt | lambda/index.ts:61-109 | The imperative `try` block returns exactly the response of `Validate`. Its new cache and table are those of `Validate`, and the call log grows by exactly `Validate`'s calls. The state stays valid. |
| ReceiptHandler.ReceiptValidator.StoreLatest | lambda/index.ts:76-109 | After the verification, the imperative pop and put return exactly the response of `Conclude`. The call log grows by exactly its calls and the table becomes its table. The state stays valid. |
| ReceiptHandler.Pop | lambda/index.ts:79 | `pop()` on an empty array gives nothing and leaves it. Otherwise it gives the last element and leaves the prefix. In both cases the rest followed by what was taken is the original array. |
| ReceiptProperties.HandleCalls | lambda/index.ts:38-111 | The calls of one invocation, in order: none when the table name or the body is rejected. Otherwise first the secret fetch's calls: one lookup, or none when the secret is cached or the parameter name is unset. When the fetch fails, nothing follows. Otherwise the verification posts follow, then the put of the selected transaction if verification succeeded and a transaction was taken. |
| ReceiptProperties.ValidateCalls | lambda/index.ts:61-95 | The calls of the `try` block are the secret fetch's calls. When the fetch succeeds, the verification posts follow, then the put of the selected transaction, if any. |
| ReceiptProperties.TableNameCheckedFirst | lambda/index.ts:39-45 | Without `TABLE_NAME` every request, whatever its body, gets 500 `Internal server error: TABLE_NAME missing`. The state is unchanged: no secret fetch, no post, no write. |
| ReceiptProperties.BadRequestExactlyOnInvalidBody | lambda/index.ts:47-59 | With `TABLE_NAME` set, the answer is 400 if and only if the body does not parse or `receipt-data` is missing or empty. A 400 carries the fixed message and leaves the state unchanged. |
| ReceiptProperties.SecretFailureIs500 | lambda/index.ts:101-109 | A failing secret fetch gives 500 with `Failed to validate receipt.` and the fetch's message. The cache and the table are unchanged, and nothing is posted or written. |
| ReceiptProperties.CachedSecretReused | lambda/index.ts:19-22 | With a cached secret, an invocation keeps the cache, makes no lookup, and posts only requests whose `password` is the cached secret. |
| ReceiptProperties.VerifyPosts | lambda/index.ts:69-74 | The verification calls are exactly the production post, followed by the sandbox post of the same request only after a 21007. |
| ReceiptProperties.ProductionThenSandbox | lambda/index.ts:63-74 | An invocation's posts are exactly one post of {received `receipt-data`, the secret, `exclude-old-transactions = true`} to production. The same request goes to the sandbox if and only if production answered status 21007. |
| ReceiptProperties.VerificationFailureIs500 | lambda/index.ts:69-109 | When the final verification call fails, the answer is 500 with `Failed to validate receipt.` and its message. Nothing is put and the table is unchanged. |
| ReceiptProperties.PutsAfterVerification | lambda/index.ts:78-95 | After a successful verification, the invocation's puts are exactly the one put of the record built from the selected transaction, or none. |
| ReceiptProperties.WriteExactlyOnValidStatusWithTransactions | lambda/index.ts:78-100 | After a successful verification, a put happens if and only if the status is 0 and `in_app` is present and non-empty. Without a put the answer is 200 with Apple's response unchanged, whatever its status, and the table is unchanged. |
| ReceiptProperties.LatestTransactionWritten | lambda/index.ts:78-100 | The put is the invocation's last call. Its item is keyed (`receipt-data`, last element's `transaction_id`), holds only that element's fields, and holds the popped response, whose `in_app` is the other elements. A successful put upserts the table and answers 200 with the popped response. A failed put answers 500 with its message and leaves the table unchanged. |
| ReceiptProperties.UpsertSameKeyOverwrites | lib/apple_receipt_service-stack.ts:14-16 | Two puts with the same (`receipt-data`, `transactionId`) key leave one record, the later one. |
| ReceiptProperties.RepeatedRequestIsIdempotent | lambda/index.ts:38-111 | The same request, met by the same store, endpoints and put outcome, twice in a row gets the same answer and leaves the same table as the first time. |
| ReceiptProperties.TwoTransactionExample | lambda/index.ts:78-100 | `receipt-data` "abc123" with transactions "1" and "2" of different products gives 200 with the response holding only "1". The table becomes the old table plus exactly one record keyed ("abc123", "2") with transaction "2"'s fields and that popped response. |
| ReceiptProperties.CachedSecretKeptForLife | lambda/index.ts:17-36 | Once the secret is cached, no later invocation of the process changes it or looks it up again, and every later post carries it as `password`. |

## Left out

- The AWS SDK clients, the region (lines 9, 13-15) and axios are not modelled. They are replaced by the parameter-store, endpoint and put-outcome parameters described above.
- `JSON.parse` and `JSON.stringify` are not modelled. Bodies are structured values.
- A `receipt-data` that is a truthy non-string (a number, an object) is not modelled. The source would post it to Apple; the model takes the field as a string.
- Malformed replies from Apple are not modelled: a missing `data`, a non-numeric `status`, an `in_app` that is not an array, or falsy array entries. Endpoints return well-formed responses.
- The fields of the `...validationResponse` spread are not modelled. The item holds the response as one opaque field. In the source the spread comes last, so any response field named like a projected field would win. Apple's top-level fields do not clash with them.
- Transaction fields that are `undefined` are not modelled. They are strings.
- DynamoDB's own validation of an item is part of the put-outcome parameter.
- Console logging (lines 40, 72, 102) is left out.
- async/await and concurrent invocations racing to fill the cache are left out. Invocations of one process run one after another (`Run`).
- The DynamoDB table is outside the process. It is kept as a field of the process object so that a write can be stated.
- `lib/apple_receipt_service-stack.ts` is infrastructure. Only its key schema is used.
- `test-lambda.ts` is a manual harness with no assertions.
