# Payments core: a Dafny model

This project models the payments app of a Django shop that takes payments through Paystack. It covers:

- **The intent store.** A `PaymentIntent` row records:
  - the order;
  - a unique reference;
  - the amount in cents;
  - the currency and provider;
  - the status;
  - the authorization URL and access code;
  - the metadata and the last webhook event.

  `save` normalises the currency to upper case and the provider to lower case before it writes. `create_or_update_intent` upserts a row by reference. The read-only selectors query the store.
- **The services.**
  - `_to_minor_units` converts amounts to minor units.
  - `validate_paystack_signature` checks the HMAC signature.
  - `initialize_paystack_transaction` calls the provider and then upserts the intent.
  - `finalize_intent_and_order` takes an intent that is paid, or whose amount does not match, to its final status, and pays the order only after the intent has been saved.
- **The four endpoints.**
  - The Paystack webhook has an ordered chain of guards, a duplicate-payload short cut through `metadata["last_webhook_hash"]`, and event dispatch.
  - Transaction initialisation has:
    - validation errors in a fixed priority;
    - a default amount, the sum of the order's lines;
    - a default reference;
    - an idempotency ledger keyed by the `Idempotency-Key` header, else the reference.
  - The intent upsert fills in the amount and the metadata when they are missing.
  - The intent lookup answers only the owner of the intent's order.
- **The request serializers and the choice enumerations.**

The model's form follows the code:
- Entities that are values become datatypes: `IntentRow`, `Event`, `Order`, and the responses.
- Things the code updates in place become classes:
  - the ORM instance `PaymentIntent`;
  - the table `IntentTable`;
  - the order table `OrderTable`;
  - the idempotency `Ledger`.
- Each method is proved against a function of the old state: `FinalizeSpec`, `WebhookSpec`, `InitializeViewSpec`, `UpsertViewSpec`, `InitializeSpec` and `UpsertRows`. The properties the code promises are lemmas about those functions.
- The item-total loops stay loops (`OrderItemsTotal`).
- Amounts are whole cents, because every amount in the store is a two-place decimal. `_to_minor_units` takes a general `Decimal(units, scale)`, so that its truncation toward zero is explicit.

Three collaborators live in `orders/services.py`, which is not part of this model: `pay_order`, `cancel_order` and `with_idempotency`. Their bodies are written from the orders tests:
- Paying a paid order is a no-op.
- A cancelled order cannot be paid, and a paid order cannot be cancelled.
- Each successful transition prepends a status event, on the assumption that inserting the event succeeds (see "## Left out").
- The ledger answers 409 "Idempotency key reused with different request payload" when the hash does not match. It checks this first.
- The ledger answers 409 "Request in progress" for an entry that has no response yet.
- Otherwise the ledger replays the stored response.

Some parts of the environment become parameters:
- the HMAC-SHA512 and SHA-256 digests;
- JSON decoding;
- the provider's HTTP reply;
- `compute_request_hash`;
- the clock;
- whether recording the webhook hash fails.

Files:
- `wrappers.dfy`: Option and Result.
- `text.dfy`: ASCII case mapping.
- `choices.dfy`: the enumerations.
- `decimals.dfy`: decimals and the DecimalField precision check.
- `models.dfy`: rows, the table and the instance.
- `selectors.dfy`: the read-only queries.
- `orders.dfy` and `idempotency.dfy`: the collaborators.
- `serializers.dfy`: request validation.
- `services.dfy`: the services.
- `http.dfy`: responses.
- `views.dfy`: the endpoints.

Some behaviours of the code that a reader might not expect are modelled as the code has them:
- An idempotency entry that is in progress and has a matching hash is answered with 409 "Request in progress", as the orders tests require. It is not run again.
- `charge.failed` sets the intent to `failed` whatever the intent's status was, even `succeeded`. The validation in `views.py:409-412` has no status guard.
- A signed body that is JSON but not an object passes the JSON check and the IP check, and then fails at `event.get`. So does an object whose `data` member is truthy but not an object: it fails at `.get("reference")`. The model answers both with a 500 (`Http.Crash`). A falsy `data` becomes `{}` and gets 400 "Missing reference".
- A non-empty signature header with a character outside ASCII makes `hmac.compare_digest` raise `TypeError`, and the model answers it with a 500.

## Model

| member | source | states |
|---|---|---|
| Choices.ParseOrderStatus | common/choices.py:34-37 | a string parses to an order status exactly when it is that status's value |
| Choices.ParsePaymentIntentStatus | common/choices.py:40-45 | a string parses to an intent status exactly when it is that status's value |
| Choices.ParsePaymentProvider | common/choices.py:48-49 | a string parses to a provider exactly when it is that provider's value |
| Choices.ParseCurrency | common/choices.py:52-58 | a string parses to a currency exactly when it is that currency's code |
| Choices.OrderStatusIsExactly | common/choices.py:34-37 | the order statuses are exactly pending, paid and cancelled, with distinct values |
| Choices.PaymentIntentStatusIsExactly | common/choices.py:40-45 | the intent statuses are exactly initialized, processing, succeeded, failed and cancelled, with distinct values |
| Choices.CurrencyIsExactly | common/choices.py:52-58 | the currencies are exactly NGN, USD, GHS, ZAR, KES and XOF, with distinct codes |
| Choices.CurrencyValueIsUpper | common/choices.py:52-58 | every currency code is its own upper case, so the currency normalisation in save keeps it |
| Choices.ProviderValueIsLower | common/choices.py:48-49 | the only provider value is "paystack"; it parses back to the provider and is its own lower case |
| Text.ToUpper | payments/models.py:70-71 | upper casing keeps the length, leaves no lower-case letter, and changes a character only when it is a lower-case letter |
| Text.ToLower | payments/models.py:72-73 | lower casing keeps the length, leaves no upper-case letter, and changes a character only when it is an upper-case letter |
| Text.ToUpperFixes | payments/models.py:70-71 | a string with no lower-case letter is unchanged by upper casing |
| Text.ToLowerFixes | payments/models.py:72-73 | a string with no upper-case letter is unchanged by lower casing |
| Text.ToUpperIdempotent | payments/models.py:70-71 | upper casing twice is upper casing once |
| Text.ToLowerIdempotent | payments/models.py:72-73 | lower casing twice is lower casing once |
| Decimals.NumDigits | payments/serializers.py:26 | the digit count d of n satisfies 10^(d-1) <= n < 10^d, and zero has one digit |
| Decimals.TruncDiv | payments/services.py:41 | Python's int() of a quotient: the remainder has the dividend's sign and is smaller than the divisor |
| Decimals.QuantizeCents | payments/serializers.py:26 | a decimal with at most two places is exactly its cent count divided by 100 |
| Decimals.FieldAmountFitsColumn | payments/models.py:35-40 | an amount that the 12-digit, 2-place field accepts is below 10^12 cents in magnitude |
| Models.Normalized | payments/models.py:68-74 | save upper-cases the currency, lower-cases the provider, and changes no other field |
| Models.NormalizedIdempotent | payments/models.py:68-74 | normalising twice gives what normalising once gives |
| Models.NormalizedKeepsChoices | payments/models.py:68-74 | a row whose currency and provider are choice values is unchanged by normalisation |
| Models.CreatedWithDefaults | payments/models.py:34-54 | a new row starts initialized, with amount 0, provider paystack and no metadata or event; it fits its columns iff the reference is at most 64 characters and the currency at most 8 |
| Models.IndexOfReference | payments/models.py:34 | finds a row with the reference, or reports correctly that none has it |
| Models.IndexOfId | payments/models.py:14 | finds a row with the id, or reports correctly that none has it |
| Models.UniqueReferenceIndex | payments/models.py:34 | when references are unique, the lookup by reference returns the row's own index |
| Models.UpsertCandidate | payments/services.py:57-69 | the row that update_or_create writes carries the requested reference |
| Models.UpsertRowsSpec | payments/services.py:57-69 | after an upsert, references stay unique, exactly the candidate row has the reference, every other row keeps its index and value, and the table grows by one only for a new reference |
| Models.IntentTable.Empty | payments/models.py:14-63 | an empty table is well formed and its next id is 1 |
| Models.IntentTable.UpdateColumns | payments/services.py:185-192 | save(update_fields=…) writes only the listed columns of the instance's row, and the table stays well formed |
| Models.IntentTable.UpdateOrCreate | payments/services.py:57-69 | a constraint violation (negative amount, amount too large, column too long) leaves the table unchanged; otherwise the table becomes the upsert of the old one |
| Models.PaymentIntent.Load | payments/models.py:14-55 | a loaded instance holds the row's fields |
| Models.PaymentIntent.Save | payments/models.py:68-74 | the instance is normalised and its listed columns are written to its own row |
| Selectors.GetIntentByReference | payments/selectors.py:14-22 | None for the empty reference; otherwise a row is returned iff one has the reference, and the returned row has it |
| Selectors.ListIntentsForOrder | payments/selectors.py:25-34 | returns exactly the order's rows, filtered by status only when a status is given |
| Selectors.ListIntentsForOrderNewestFirst | payments/models.py:57 | over a table in id order, the order's intents come back with strictly decreasing ids |
| Selectors.FailedRows | payments/selectors.py:43-44 | exactly the failed rows, a sub-multiset of the table |
| Selectors.InsertByCreated | payments/selectors.py:44 | inserting into a newest-first list keeps it newest first and adds exactly that element |
| Selectors.SortNewestFirst | payments/selectors.py:44 | order_by("-created_at"): a newest-first permutation |
| Selectors.ListRecentFailedIntents | payments/selectors.py:37-47 | a negative limit is an error; otherwise failed intents of the table, newest first, with no row repeated beyond its number of copies in the table, as many as the limit allows and no more than there are |
| Selectors.RecentFailedAreTheNewest | payments/selectors.py:37-47 | a failed intent left out is no newer than any intent returned, and something is left out only when the limit was reached |
| Orders.Pay | orders/tests/test_orders_full_coverage.py:46-59 | pay fails iff the order is cancelled; otherwise it is paid, only status and events change, a paid order is unchanged, and paying a pending order prepends the event pending→paid |
| Orders.Cancel | orders/tests/test_orders_new_features.py:299-307 | cancel fails iff the order is paid; otherwise it is cancelled, a cancelled order is unchanged, and cancelling a pending order prepends the event pending→cancelled |
| Orders.PayIdempotentAndTerminal | orders/tests/test_orders_full_coverage.py:54-59 | paying a paid order gives the same order, and it can no longer be cancelled |
| Orders.CancelIdempotentAndTerminal | orders/tests/test_orders_full_coverage.py:62-67 | cancelling a cancelled order gives the same order, and it can no longer be paid |
| Orders.AfterPay | orders/tests/test_orders_new_features.py:90-95 | paying an order by id stores the paid order, keeps the set of orders and every other order, and changes nothing when the order is missing or cannot be paid |
| Orders.RepeatPay | orders/tests/test_orders_full_coverage.py:54-59 | paying n times keeps the set of orders |
| Orders.AfterPayIdempotent | orders/tests/test_orders_full_coverage.py:54-59 | paying the same order twice is paying it once |
| Orders.RepeatedPayEqualsOnce | orders/tests/test_orders_full_coverage.py:54-59 | paying the same order any positive number of times is paying it once |
| Orders.OrderTable.constructor | orders/tests/test_orders_full_coverage.py:23-36 | the table holds the given orders, and no pay_order call is logged |
| Orders.OrderTable.PayOrder | orders/tests/test_orders_new_features.py:74-95 | returns the pay result and stores the paid order; a failure changes nothing; the call is logged with the intent rows it sees |
| Orders.OrderTable.CancelOrder | orders/tests/test_orders_new_features.py:97-105 | returns the cancel result and stores the cancelled order; a failure changes nothing; no pay_order call is logged |
| Idempotency.Decide | orders/tests/test_orders_new_features.py:196-236 | executes iff the identity is new; refuses with 409 iff the hash differs ("reused" message) or no response is stored yet; replays the stored response otherwise |
| Idempotency.AfterBegin | orders/tests/test_orders_full_coverage.py:79-101 | a new identity is recorded with the hash and no response; a known one leaves the ledger unchanged |
| Idempotency.AfterComplete | orders/tests/test_orders_new_features.py:223-236 | stores the response for the identity and changes no other entry |
| Idempotency.Ledger.constructor | orders/tests/test_orders_new_features.py:196-210 | the ledger holds the given records |
| Idempotency.Ledger.Begin | orders/tests/test_orders_new_features.py:196-236 | returns the decision for the old ledger and records a new identity as in progress |
| Idempotency.Ledger.Complete | orders/tests/test_orders_new_features.py:223-236 | the ledger becomes the completion of the old one |
| Idempotency.CompletedRequestReplays | orders/tests/test_orders_new_features.py:223-236 | after begin and complete, the same hash replays the stored response and another hash is refused as reused |
| Idempotency.InProgressRefusesAll | orders/tests/test_orders_full_coverage.py:79-101 | an entry in progress refuses every hash with 409 |
| Idempotency.AtMostOneExecution | payments/views.py:285-294 | any sequence of begins and completes for one identity runs the handler at most once, and never when the identity was already known |
| Serializers.DecimalFieldCents | payments/serializers.py:26 | the field accepts a decimal iff it fits 12 digits with 2 places, and then yields its exact cent count, below 10^12 in magnitude |
| Serializers.ValidateAmount | payments/serializers.py:30-33 | rejects exactly the negative amounts with "Amount must be non-negative" and returns the others unchanged |
| Serializers.ValidateCurrency | payments/serializers.py:35-41 | returns the upper-cased code; rejects it with "Unsupported currency" iff a supported list is configured and lacks it |
| Serializers.InitializeOrderId | payments/serializers.py:25 | order_id is required: valid iff given, and never absent |
| Serializers.InitializeAmount | payments/serializers.py:26-33 | omitted means absent; valid iff given, within precision and non-negative, then the exact non-negative cent count |
| Serializers.SignOfQuantized | payments/serializers.py:30-33 | the cent count is non-negative iff the decimal is |
| Serializers.InitializeCurrency | payments/serializers.py:27 | omitted means the default NGN is validated; a blank value is an error; a given value is valid iff validate_currency accepts it; a valid code is upper case and supported |
| Serializers.InitializeReference | payments/serializers.py:28 | optional, and blank allowed; valid iff at most 64 characters, and then unchanged |
| Serializers.ValidateInitialize | payments/serializers.py:15-41 | a non-object is a non-field error; a field is in the error set iff that field is invalid; on success the data are the given order_id, the amount as its field validates it (exact cents, absent iff omitted), the upper-cased currency or "NGN", and the reference when given |
| Serializers.ValidateUpsertAmount | payments/serializers.py:54-59 | None passes; a negative amount is rejected; others are returned unchanged |
| Serializers.UpsertReference | payments/serializers.py:48 | required and non-blank, at most 64 characters |
| Serializers.UpsertAmount | payments/serializers.py:49 | omitted means absent; valid iff given, within precision and non-negative, then the exact cent count |
| Serializers.UpsertCurrency | payments/serializers.py:50 | defaults to NGN; a given string is valid iff it is exactly a currency code |
| Serializers.UpsertProvider | payments/serializers.py:51 | defaults to paystack; a given string is valid iff it is exactly "paystack" |
| Serializers.UpsertMetadata | payments/serializers.py:52 | optional; a given dictionary is kept |
| Serializers.ValidateUpsert | payments/serializers.py:44-59 | succeeds iff every field is valid; the data carry the given order_id and reference, the amount as its field validates it (exact cents, absent iff omitted), the currency (default NGN), and the metadata iff given |
| Services.Multiplier | payments/services.py:38-40 | every currency code, known or not, uses multiplier 100 |
| Services.ToMinorUnits | payments/services.py:28-41 | None gives 0; otherwise the amount times 100, truncated toward zero |
| Services.MinorUnitsIgnoresCurrency | payments/services.py:38-41 | the result does not depend on the currency code |
| Services.MinorUnitsExact | payments/services.py:28-41 | an amount with at most two places maps to its exact cent count |
| Services.MinorUnitsOfCents | payments/services.py:28-41 | a stored amount of c cents maps to c |
| Services.MinorUnitsNonNegative | payments/services.py:38-41 | a non-negative amount maps to a non-negative count |
| Services.MinorUnitsExamples | payments/tests/test_services_coverage.py:26-30 | 12.34 NGN is 1234, 2 XYZ is 200, and None is 0 |
| Services.ValidatePaystackSignature | payments/services.py:144-151 | false for an empty signature; an error (compare_digest's TypeError) for a non-ASCII one; for ASCII strings, true iff the signature equals the HMAC-SHA512 hex digest of the body under the secret |
| Services.UpsertDefaults | payments/services.py:57-69 | status initialized, provider given or paystack, the URL and access code as given, and metadata given or {} |
| Services.UpsertedIntentFields | payments/services.py:57-69 | the upserted intent has the reference, status initialized, provider paystack by default, URL and access code "" when not given, and metadata {} when not given |
| Services.CreateOrUpdateIntent | payments/services.py:44-70 | returns the upserted intent and stores the upserted table, or fails on a constraint and changes nothing |
| Services.Recorded | payments/services.py:185-192 | recording an event keeps the table's length |
| Services.RecordEvent | payments/services.py:185-192 | sets the instance's event and status, normalises it, and writes only those two columns of its row |
| Services.FinalizeIntentAndOrder | payments/services.py:154-203 | the instance, the intent table and the orders become FinalizeSpec of the old state, and the pay_order calls FinalizeSpec predicts are logged, each with the intent rows that pay_order itself sees |
| Services.FinalizeSkipsSucceeded | payments/services.py:160-161 | a succeeded intent is left alone and pay_order is not called |
| Services.FinalizeMismatchFails | payments/services.py:169-188 | two non-zero amounts that differ make the intent failed with the event kept, with no pay_order call and the orders unchanged |
| Services.FinalizeSucceeds | payments/services.py:190-203 | otherwise there is exactly one pay_order call, and the intent rows it sees already hold the intent as succeeded; the order is paid as pay_order says, and the row stays succeeded whatever pay_order does |
| Services.FinalizeTouchesOnlyItsRow | payments/services.py:185-192 | finalisation changes only the status and webhook_event of the intent's own row |
| Services.FinalizeIdempotent | payments/services.py:160-161 | after a finalisation with a matching amount, a second one changes nothing |
| Services.IndexOfIdAfterWrite | payments/services.py:185-192 | rewriting a row while keeping its id keeps every lookup by id |
| Services.IndexOfIdSameIds | payments/services.py:185-192 | two tables with the same ids have the same lookups by id |
| Services.FinalizePaysMatchingCharge | payments/tests/test_paystack_integration.py:153-184 | an intent of 50.00 NGN and a charge of 5000 mark the intent succeeded and pay the pending order with its status event |
| Services.TransactionCurrency | payments/services.py:90 | the empty currency means NGN, and the result is upper case |
| Services.InitializeRequestFor | payments/services.py:90-97 | the payload's amount is the cent amount, its currency is the upper-cased currency or NGN, its email is the customer's or the order's, and its metadata is the given metadata or {} |
| Services.ReplyCheck | payments/services.py:99-120 | the call proceeds iff the reply is 200 with a true status and object-valued or missing data; a body that is not JSON fails in r.json(); any other non-200 reply, or a false status, is the initialisation failure; a 200 reply that is not an object fails at .get |
| Services.InitializePaystackTransaction | payments/services.py:73-131 | the result and the new table are InitializeSpec of the provider's reply to the payload |
| Services.InitializeRefusedWritesNothing | payments/services.py:101-117 | a JSON reply that is not 200, or an object reply with a false status, fails with ValueError and nothing is written |
| Services.InitializeAcceptedUpserts | payments/services.py:119-130 | an accepted reply upserts the only intent with that reference, with the reply's URL and access code, the upper-cased currency, status initialized and provider paystack |
| Views.WebhookReference | payments/views.py:368 | a non-empty reference comes from data.reference or data.reference_code |
| Views.WebhookGuards | payments/views.py:340-384 | an admitted request has a valid signature, a decodable object body whose data is an object or falsy, and an allowed peer, and names a known intent by its reference |
| Views.Tracked | payments/views.py:390-396 | recording the hash marks the payload as a duplicate and changes nothing but the metadata |
| Views.RowInTableHasIndex | payments/views.py:377 | a row of the table is found by its id |
| Views.TrackedInstance | payments/views.py:395-400 | tracking keeps the instance's id, order and status |
| Views.TrackedRows | payments/views.py:395-400 | tracking keeps the table's length and the row's lookup by id |
| Views.TrackWebhookPayload | payments/views.py:387-400 | reports a duplicate iff the stored hash equals the payload's, and changes nothing then; otherwise stores the hash in the metadata, and saves that column unless the save fails |
| Views.DispatchEvent | payments/views.py:402-418 | the response and both tables become Dispatch of the old state |
| Views.PaystackWebhookPost | payments/views.py:339-418 | the response and both tables become WebhookSpec of the old state |
| Views.WebhookBadSignature | payments/views.py:340-347 | a missing signature, or a wrong ASCII one, is 401 whatever the body and the peer, and nothing changes |
| Views.WebhookNonAsciiSignatureCrashes | payments/services.py:151 | a non-empty signature with a non-ASCII character makes compare_digest raise: a 500, and nothing changes |
| Views.WebhookEventDataNotObjectCrashes | payments/views.py:368 | a signed object whose data is truthy but not an object is 403 for a forbidden peer and otherwise a 500, and nothing changes |
| Views.WebhookUndecodable | payments/views.py:349-356 | a signed body that is not JSON is 400 before the IP check |
| Views.WebhookForbiddenPeer | payments/views.py:358-366 | a decodable body from a peer outside a non-empty allow-list is 403 |
| Views.WebhookReferenceGuards | payments/views.py:368-384 | no reference is 400 "Missing reference"; an unknown reference is 404 "Intent not found" |
| Views.WebhookDuplicateIgnored | payments/views.py:386-394 | a payload whose hash was the last recorded is "ignored", and nothing changes |
| Views.WebhookSpecAdmitted | payments/views.py:386-405 | a new payload is dispatched over the tracked instance and rows |
| Views.WebhookTrackingFaultHarmless | payments/views.py:398-400 | a failure while recording the hash changes neither the response nor the orders |
| Views.DispatchOrdersOnly | payments/views.py:402-414 | dispatch's response and orders depend only on the intent's status, order and amount check |
| Views.FinalizeOrdersOnly | payments/services.py:160-195 | what finalisation does to the orders depends only on status, order and the amount check |
| Views.NormalizedAmountCheck | payments/services.py:168 | normalising the instance does not change the amount check |
| Views.DispatchOutcome | payments/views.py:402-418 | charge.success finalises and answers processed with the order id; charge.failed sets failed and the event and answers processed; any other event is ignored and changes nothing |
| Views.WebhookDispatchOutcome | payments/views.py:386-418 | for an admitted new payload, the intent's row ends as the event asks: succeeded stays put; a match succeeds and pays; a mismatch fails without paying; charge.failed fails with the event |
| Views.UniqueIdRow | payments/models.py:57 | in a table in id order, a row is the one its id finds |
| Views.DispatchKeepsReferencesAndMetadata | payments/views.py:409-412 | dispatch keeps every row's reference and metadata |
| Views.IndexOfReferenceSameReferences | payments/selectors.py:22 | two tables with the same references have the same lookups by reference |
| Views.WebhookRedeliveryIgnored | payments/views.py:386-397 | delivering the same admitted request again after it was processed is "ignored", and nothing changes |
| Views.OrderItemsTotal | payments/views.py:242-247 | the loop's total is the sum over items of (unit_price or 0) * quantity |
| Views.ItemsTotalAppend | payments/views.py:244-246 | the total of two runs of items is the sum of their totals |
| Views.ItemsTotalNonNegative | payments/views.py:244-246 | prices and quantities that are not negative give a total that is not negative |
| Views.ItemsTotalExample | payments/tests/test_intent_upsert.py:14-38 | a line of quantity 2 at 25.00 makes 5000 cents, and a line without a price adds 0 |
| Views.OrderMetadata | payments/views.py:263 | the default metadata has exactly the keys order_id and user_id, holding the order's id and the user's id |
| Views.DigitChar | payments/views.py:262 | a digit below 10 becomes that decimal digit character |
| Views.NatToString | payments/views.py:262 | str() of a natural number is a non-empty string of digits |
| Views.ParseNatToString | payments/views.py:262 | reading the digits back gives the number |
| Views.IntToString | payments/views.py:262 | str() of an integer starts with '-' iff the integer is negative |
| Views.IntToStringInjective | payments/views.py:262 | different ids print differently |
| Views.DefaultReference | payments/views.py:262 | the default reference is never empty |
| Views.DefaultReferenceDistinct | payments/views.py:262 | two orders with the same number and different ids get different default references |
| Views.ChosenReference | payments/views.py:262 | a given non-blank reference is used; a missing or blank one gives DefaultReference(order); never empty |
| Views.IdempotencyKeyFor | payments/views.py:288 | the key is the Idempotency-Key header when it is set, else the reference |
| Views.InitializeErrorPriority | payments/views.py:205-229 | a currency error wins over every other, then amount, then a missing order_id, else "Invalid payload" |
| Views.SecondCurrencyCheckRedundant | payments/views.py:251-259 | after validation, the currency is already upper case and supported, so the view's second check never refuses |
| Views.InitializeUnderLedger | payments/views.py:265-294 | the response, the table and the ledger become LedgerSpec of the old state |
| Views.PaystackInitializePost | payments/views.py:202-305 | the response, the table and the ledger become InitializeViewSpec of the old state |
| Views.InitializeRetryReplays | payments/views.py:285-294 | a completed initialize sent again replays its response and writes nothing |
| Views.InitializeViewReachesLedger | payments/views.py:230-294 | a valid request for an owned order runs under the ledger with the computed amount, currency, reference and key |
| Views.InitializeViewWritesOnlyWhenAdmitted | payments/views.py:202-239 | only a valid request for an order the user owns changes the ledger |
| Views.LedgerSpecRecords | payments/views.py:285-294 | the ledger changes only for a new identity, which it records with the request hash |
| Views.LedgerSpecMismatch | payments/views.py:285-294 | a known key with a different request hash is 409 "Idempotency key reused…", and nothing is written |
| Views.InitializeKeyReuseConflicts | payments/tests/test_initialize_idempotency.py:49-63 | reusing an idempotency key for a different body after a request that reached the ledger is 409, and nothing is written |
| Views.UpsertMetadataFor | payments/views.py:109 | given non-empty metadata is kept; otherwise it is the order and user ids |
| Views.PaymentIntentCreateUpdatePost | payments/views.py:84-120 | the response and the table become UpsertViewSpec of the old state |
| Views.UpsertViewResult | payments/views.py:96-120 | a 200 leaves exactly one intent with the reference: initialized, in the validated currency and provider, with no URL or access code, and with the given or computed amount |
| Views.PaymentIntentDetail | payments/views.py:138-144 | 404 "Intent not found" iff the reference is unknown or the intent's order is not the user's; otherwise 200 with that intent |
| Views.DetailHidesOtherUsersIntents | payments/views.py:139-143 | someone else's intent gets exactly the answer an unknown reference gets |

## Left out

- Outbound HTTP (`httpx.post` in `initialize_paystack_transaction`) is not modelled; the provider's reply is a parameter.
- `verify_paystack_transaction` is left out. It is only an HTTP GET whose JSON it returns unchanged, and nothing in this model calls it.
- The HMAC-SHA512 and SHA-256 digests, JSON decoding and `compute_request_hash` (from orders/services.py) are uninterpreted parameters, so they are not modelled.
- The constant time of `compare_digest` is a timing property and is not modelled: the model compares ASCII strings for equality. Its `TypeError` on non-ASCII input is modelled.
- Concurrency is left out: simultaneous webhook deliveries, and database atomicity and uniqueness races. The model is single-threaded.
- Logging, Sentry capture, DRF permissions and throttling, schema decorators and `select_related` are left out; they carry no modelled behaviour.
- `updated_at` is left out, and `created_at` is the clock value passed in (`now`). `TimeStampedModel` is not part of this model.
- Text.ToUpper: does not model Python's full Unicode case mapping. Only ASCII letters change case.
- Text.ToLower: does not model Python's full Unicode case mapping either. Only ASCII letters change case, and the length never changes. Python's `str.lower()` also maps non-ASCII letters ("Ä" to "ä"), and it can lengthen a string ("İ" lowers to two characters).
- The column constraints modelled by `IntentRow.FitsColumns` are those of a database that enforces varchar lengths, such as PostgreSQL. SQLite would store an overlong reference, currency or access code.
- The DRF CharField's trimming of surrounding whitespace is not modelled.
- The input types are modelled as given:
  - a reference in a webhook event is a string;
  - the gateway reply's fields are strings;
  - metadata values are strings or integers, or opaque otherwise.
- Views.PaystackInitializePost: an exception from the handler is modelled as a 500 that leaves the ledger entry in progress. This is how with_idempotency behaves when the handler raises, and the orders tests do not show it.
- The side effects of `pay_order` and `cancel_order` are left out: the paid e-mail, scheduling fulfilment, and reimbursement. The orders tests show that their failures are swallowed. Only the status transition and the status event are modelled.
- Orders.Pay and Orders.Cancel: a failing status-event insert is also swallowed, and the transition still succeeds with no event (orders/tests/test_orders_full_coverage.py:46-51 and 70-76). The model assumes the insert succeeds, so it always prepends the event.
- `verify_orders_webhook` in orders/services.py is not part of this model.
- The decimal context of Python's `Decimal` is not modelled, and neither are amounts with a positive exponent. Decimals are `units * 10^-scale`.
- The gateway's JSON body, which `initialize_paystack_transaction` also returns, is not carried into the model. The view uses only the intent.
