# Dinger payment integration for a Laravel shop, in Dafny

This project models the order and payment core of a Laravel 12 shop that takes
payments through the Dinger gateway (Myanmar wallets and cards). The model
covers the following parts:

- **Order service.** Order creation against the product table: the item checks,
  the price snapshots, the total and the stock decrement. It also covers the
  payment-status transition, the order-status update and the order queries.
- **Payment service.** It covers:
  - phone normalisation;
  - the mapping of gateway transaction statuses;
  - the payment payload;
  - the four-call payment initiation;
  - the signed callback that settles a payment.
- **Payment-token request.** The validation closures: the provider → method
  table, the phone check and the card-only fields.
- **Product service.** Listing dispatch, lookup, creation with a default status,
  update and deletion.
- **Order and Product models.** Their state predicates.

Modules:

| file | module | role |
|---|---|---|
| `wrappers.dfy` | `Wrappers` | `Option` (null / absent key) and `Result` (value or thrown exception) |
| `php.dfy` | `Php` | the PHP behaviours the code leans on: `empty`, `??`, `trim`, `strtoupper`, `str_starts_with`, integer interpolation |
| `dinger.dfy` | `Dinger` | provider names, card providers, gateway status vocabulary |
| `product.dfy` | `Products` | the product row and `isAvailable` / `hasStock` |
| `order.dfy` | `Orders` | the order row, its lines, the status vocabularies, `isPaid` / `isPendingPayment` / `isCompleted` |
| `errors.dfy` | `Errors` | the exceptions the services throw on the modelled paths, with their messages |
| `store.dfy` | `Store` | `Database`: the product and order tables, as a class whose fields the service methods update |
| `order_service.dfy` | `OrderService` | order creation, lookups, listings, status updates |
| `payment_service.dfy` | `PaymentService` | phone normalisation, status mapping, payload, initiation, callback |
| `payment_token_request.dfy` | `PaymentTokenRequest` | the request's rule closures |
| `product_service.dfy` | `ProductService` | product listing dispatch and CRUD |

Modelling choices:

- **Money.** Amounts are integer cents, because `price` and `total_amount` are
  two-place decimals.
- **The database.** It is one `Database` object. Its table invariant covers
  three facts:
  - product keys are the products' ids and lie below the auto-increment counter;
  - order ids count up from 1;
  - `order_id` is unique.

  Service operations that write are methods with `modifies db`. Each one proves
  the invariant is kept and states its whole new state. Lookups and dispatch
  are functions over the table values.
- **Side channels.** The clock (`now()`, `time()`) and `uniqid()` are
  parameters. Freshness of the generated `order_id` is a precondition.
- **The gateway.** Its four HTTP replies are input values. The initiation
  returns the list of calls it made.
- **Crypto.** AES-256-ECB decryption, SHA-256 and `json_decode` are
  function-valued inputs, and the model reasons only about the checks made on
  their results.

Behaviours of the code that the model keeps as they are:

- The stock check reads the undecremented stock, so a product repeated in one
  request can drive stock negative. See `OrderService.RepeatedItemCanOverdraw`.
  With distinct ids, stock stays non-negative
  (`OrderService.DistinctItemsKeepStockNonNegative`).
- Payment-status updates have no monotonicity guard
  (`OrderService.NoGuardAgainstRegression`).
- With a status filter, a user's order listing replaces non-matching orders by
  null in place, because the result of `filter()` is discarded.
- `normalizePhone` is not idempotent on inputs whose normal form is `"0"`, since
  PHP's `empty("0")` holds (`PaymentService.NormalizePhoneNotIdempotentOnZero`).
- The phone check keys on the raw, case-sensitive method name. A lower-case
  `pin` passes the method rule but switches the phone check off
  (`PaymentTokenRequest.LowerCaseMethodSkipsPhoneCheck`).
- The active-only product listing filters on status alone. It can list products
  that are out of stock (`ProductService.ActiveListingIgnoresStock`).
- The phone normaliser replaces the four characters `+959` by `09`, so
  `+95912345678` becomes `0912345678`, ten digits
  (`PaymentService.PlusCountryCodeDropped`).
- The payload reads each line's product name from the product table. Once a
  product is deleted, building the payload for an order that contains it
  fails after the auth call and before encryption, because PHP reads `name`
  on null (`PaymentService.PreparePayload`, `PaymentService.Outcome`).

## Model

| member | source | states |
|---|---|---|
| Products.IsAvailable | app/Models/Product.php:43-46 | a product is available iff its status is `active` and it has stock for one unit |
| Products.HasStock | app/Models/Product.php:51-54 | stock for a quantity iff taking that many units leaves no negative stock |
| Orders.IsPaid | app/Models/Order.php:66-69 | paid iff the payment status is `success`; a paid order is never pending payment |
| Orders.IsPendingPayment | app/Models/Order.php:74-77 | pending payment iff the payment status is `pending` |
| Orders.IsCompleted | app/Models/Order.php:82-85 | completed iff the order status is `completed`, whatever the payment status |
| Orders.Total | app/Services/OrderService.php:130-133 | the running total: 0 for no lines, never negative when no subtotal is |
| Errors.RejectionMessageCarriesProviderText | app/Services/PaymentService.php:241-243 | the message of a rejected payment is `Payment failed: ` followed by the provider's own text, which can be read back after that prefix |
| Products.InactiveNeverAvailable | app/Models/Product.php:43-46 | a product whose status is not `active` is never available, whatever its stock |
| Products.AvailableHasOneUnit | app/Models/Product.php:43-54 | an available product has stock for one unit |
| Products.HasStockDownwardClosed | app/Models/Product.php:51-54 | stock for `q` units means stock for any smaller quantity |
| Orders.PaidIsNotPending | app/Models/Order.php:66-77 | an order is never both paid and pending payment |
| Orders.CompletedIgnoresPaymentStatus | app/Models/Order.php:82-85 | completion depends on the order status alone, not on the payment status |
| Php.TrimLeftSkipsBlanks | app/Services/PaymentService.php:153 | trim characters written in front are exactly what the left trim removes there |
| Php.TrimRightSkipsBlanks | app/Services/PaymentService.php:153 | trim characters written behind are exactly what the right trim removes there |
| Php.TrimLeftAppend | app/Services/PaymentService.php:153 | left-trimming a concatenation trims the first part, and reaches the second only when the first part is all trim characters |
| Php.TrimIgnoresPadding | app/Services/PaymentService.php:153 | `trim` of a string padded with trim characters on both sides is `trim` of the string |
| Php.UpperCommutesWithTrimLeft | app/Services/PaymentService.php:153 | upper-casing before or after the left trim gives the same string |
| Php.UpperCommutesWithTrimRight | app/Services/PaymentService.php:153 | upper-casing before or after the right trim gives the same string |
| Orders.TotalAppend | app/Services/OrderService.php:132-133 | adding a line adds its subtotal to the running total |
| OrderService.ItemError | app/Services/OrderService.php:115-128 | an item passes iff its product exists, is available and has stock for the quantity; checks in that order with the code's three errors |
| OrderService.CheckItems | app/Services/OrderService.php:115-141 | the request succeeds iff every item passes; then one snapshot line per item, in request order, at the product's current price with subtotal price × quantity; otherwise the error is the first failing item's |
| OrderService.CheckItemsFailureSticks | app/Services/OrderService.php:115-128 | once a prefix of the request fails, the whole request fails with the same error |
| OrderService.Decrement | app/Services/OrderService.php:156-165 | the insert loop's decrements keep the key set of the product table |
| OrderService.DecrementLowersByReserved | app/Services/OrderService.php:156-165 | after the insert loop each product's stock is lowered by exactly the units the lines take from it, and nothing else about it changes |
| OrderService.DecrementStep | app/Services/OrderService.php:161-164 | one more line lowers its product's stock by that line's quantity and leaves the other products alone |
| OrderService.ReservedUnreferenced | app/Services/OrderService.php:156-165 | a product no line refers to loses no stock |
| OrderService.ReservedDistinct | app/Services/OrderService.php:156-165 | with distinct product ids, a product loses exactly its line's quantity |
| OrderService.DistinctItemsKeepStockNonNegative | app/Services/OrderService.php:115-165 | when the request's product ids are distinct and it passes the checks, no stock goes negative |
| OrderService.RepeatedItemCanOverdraw | app/Services/OrderService.php:126-163 | a request naming one product twice passes the checks on stock 1 and leaves stock -1 |
| OrderService.TotalIsSnapshotSum | app/Services/OrderService.php:130-150 | the order total equals the sum over the request of the product price times quantity |
| OrderService.NewOrderId | app/Services/OrderService.php:144 | the generated `order_id` starts with `ORDER-` and ends with the unique part |
| OrderService.NewOrder | app/Services/OrderService.php:147-153 | a new order has the given id, user and `order_id`, is pending on both statuses, not paid, not completed, carries the lines' total and exactly those lines, and has no transaction id, provider, method, timestamps or failure reason |
| OrderService.PriceItems | app/Services/OrderService.php:111-141 | the validation loop returns what `CheckItems` specifies, and the accumulated total equals the lines' total |
| OrderService.InsertLines | app/Services/OrderService.php:156-165 | the insert loop attaches the lines to the new order in order and leaves the products as `Decrement` specifies |
| OrderService.InsertOrder | app/Services/OrderService.php:147-165 | once every item passed, exactly one pending order with those lines is appended, stock is decremented as `Decrement` says, and the table invariant holds |
| OrderService.CreateKeepsWellFormed | app/Services/OrderService.php:147-165 | appending the new order and decrementing stock keeps the table invariant |
| OrderService.CreateOrder | app/Services/OrderService.php:108-169 | on a failing item nothing changes and the error is the first failing item's; otherwise exactly one pending order is appended with one line per item and stock is decremented; the table invariant holds |
| OrderService.First | app/Repositories/OrderRepository.php:43-58 | the first order satisfying the condition, or none iff no order does |
| OrderService.Where | app/Repositories/OrderRepository.php:80-97 | the orders satisfying the condition, and only those |
| OrderService.GetOrderById | app/Services/OrderService.php:62-71 | found iff an order has that id; otherwise the not-found error for that id |
| OrderService.GetOrderByOrderId | app/Services/OrderService.php:78-87 | found iff an order has that `order_id`; otherwise not-found |
| OrderService.GetOrderByOrderIdAndUserId | app/Services/OrderService.php:94-103 | found iff an order has that `order_id` and belongs to that user; another user's order is not found |
| OrderService.OrderIdFindsTheOnlyMatch | app/Services/OrderService.php:78-87 | with unique `order_id`s, the lookup returns the one order that has it |
| OrderService.SelectOrderQuery | app/Services/OrderService.php:27-38 | a status filter wins over a payment-status filter, which wins over none |
| OrderService.GetAllOrders | app/Services/OrderService.php:27-38 | the listing holds exactly the orders of the winning filter, or all orders |
| OrderService.GetOrdersByUserId | app/Services/OrderService.php:43-55 | one entry per order of the user; with a status filter, an order of another status becomes null in place |
| OrderService.ApplyPaymentStatus | app/Services/OrderService.php:185-219 | `success` makes the order processing and stamps completion; `failed`/`cancelled` make it failed, stamp failure, and set the reason only if supplied; any other value leaves status and timestamps alone; the payment status is always overwritten; transaction id, provider and method only when supplied; identity, total and lines never change |
| OrderService.ApplyPaymentStatusIsConsistent | app/Services/OrderService.php:193-202 | after any update a successful payment has a completion time and a non-failed order, and a failed or cancelled one has a failure time and a failed order |
| OrderService.ApplyPaymentStatusIdempotent | app/Services/OrderService.php:185-216 | repeating an update with the same arguments and clock changes nothing |
| OrderService.RepeatedSuccessMovesCompletionTime | app/Services/OrderService.php:193-195 | a second success moves the completion time to the later clock |
| OrderService.NoGuardAgainstRegression | app/Services/OrderService.php:189-191 | a pending update after a success takes the payment back to pending while the order stays processing |
| OrderService.UpdatePaymentStatus | app/Services/OrderService.php:185-219 | an unknown `order_id` is not found and nothing changes; otherwise only that order is rewritten as `ApplyPaymentStatus` says |
| OrderService.UpdateOrderStatus | app/Services/OrderService.php:174-180 | an unknown id is not found and nothing changes; otherwise only that order's status changes, to any value |
| PaymentService.KeepPhoneChars | app/Services/PaymentService.php:292 | the result holds only digits and `+` signs and is no longer than the input; a string of such characters is unchanged; a string with none becomes empty |
| PaymentService.KeepPhoneCharsMembers | app/Services/PaymentService.php:292 | a character is in the result iff it is in the input and is a digit or `+` |
| PaymentService.KeepPhoneCharsAppend | app/Services/PaymentService.php:292 | filtering a concatenation is concatenating the filtered parts |
| PaymentService.RewritePhone | app/Services/PaymentService.php:294-305 | `+959…` becomes `09` followed by the rest after those four characters; otherwise `959…` becomes `09` followed by the rest after those three; otherwise a 9-character input not starting with `09` gets `09` in front; anything else is unchanged; only digits and `+` come out of such input |
| PaymentService.NineCharacterNumberPrefixed | app/Services/PaymentService.php:303-305 | a 9-character number in none of the `09`, `959` and `+959` forms normalises to `09` followed by it |
| PaymentService.RewritePhoneIdempotent | app/Services/PaymentService.php:294-305 | rewriting twice is rewriting once |
| PaymentService.NormalizePhone | app/Services/PaymentService.php:286-308 | PHP-empty input (`""`, `"0"`; a null phone reaches it as `""` through the caller's `?? ''`) gives `""`; any other input is filtered to digits and `+` and then rewritten as `RewritePhone` states; the result holds only digits and `+`; no length check |
| PaymentService.NormalizePhoneIdempotent | app/Services/PaymentService.php:286-308 | normalising twice is normalising once, for every normal form other than `"0"` |
| PaymentService.NormalizePhoneNotIdempotentOnZero | app/Services/PaymentService.php:288-292 | `"x0"` normalises to `"0"`, and `"0"` normalises to `""` |
| PaymentService.DigitsKept | app/Services/PaymentService.php:292 | a prefix of digits and `+` followed by digits passes the filter unchanged |
| PaymentService.PlusCountryCodeDropped | app/Services/PaymentService.php:295-297 | `+959` followed by digits becomes `09` followed by those digits |
| PaymentService.CountryCodeDropped | app/Services/PaymentService.php:299-301 | `959` followed by digits becomes `09` followed by those digits |
| PaymentService.LocalNumberKept | app/Services/PaymentService.php:294-307 | `09` followed by digits is its own normal form |
| PaymentService.SeparatorsFilteredOut | app/Services/PaymentService.php:288-292 | separators in front of a number are filtered away, and the separated form is not empty to PHP |
| PaymentService.LeadingSeparatorsIgnored | app/Services/PaymentService.php:292 | separators written before a number do not change its normal form |
| PaymentService.MapTransactionStatus | app/Services/PaymentService.php:313-320 | total, with three outcomes: `success` iff SUCCESS, `failed` iff one of the five failure statuses, `pending` for anything else including null |
| PaymentService.ItemEntry | app/Services/PaymentService.php:142-148 | an entry carries the product's current name beside the price and quantity fixed on the line at order time; it exists only for a line whose product row exists |
| PaymentService.NormalizeMethod | app/Services/PaymentService.php:153 | the method name sent has no lower-case letters and no blanks at either end |
| PaymentService.NormalizeMethodIgnoresCaseAndBlanks | app/Services/PaymentService.php:153 | blanks around the method name and upper-casing it first do not change the name sent |
| PaymentService.PayloadFor | app/Services/PaymentService.php:138-177 | one entry per order line in order; order id, total and provider carried over; method trimmed and upper-cased; request name and phone win over the account's, the phone normalised; card fields present only for Visa/Master/JCB and then exactly as given |
| PaymentService.PreparedPayload | app/Services/PaymentService.php:138-177 | a payload iff every line's product row exists, with one entry per line and the order's id; otherwise the name-on-null error |
| PaymentService.PreparePayload | app/Services/PaymentService.php:138-177 | when every line's product exists, the item loop and field assembly build exactly `PayloadFor`; otherwise it fails reading the name of the missing product |
| PaymentService.PayloadEntriesAddUpToTotal | app/Services/PaymentService.php:142-154 | for lines with subtotal = price × quantity, the entries' amount × quantity add up to the lines' total |
| PaymentService.CreatedOrderPayloadAddsUp | app/Services/PaymentService.php:142-154 | for an order built by order creation, over the products it was built from, a payload is built and its entries add up to the total it announces |
| PaymentService.EncryptionToken | app/Services/PaymentService.php:120-133 | the auth step succeeds iff the HTTP status is not an error and the token is non-empty |
| PaymentService.EncryptedPayload | app/Services/PaymentService.php:182-198 | the encrypt step succeeds iff the HTTP status is not an error and the ciphertext is non-empty |
| PaymentService.PaymentToken | app/Services/PaymentService.php:203-220 | the token step succeeds iff the token is non-empty; the HTTP status is not checked |
| PaymentService.PayOutcome | app/Services/PaymentService.php:225-246 | the pay step fails with the HTTP status on an error status; otherwise a reply with no `code` key fails with PHP's undefined-key error, and one whose `code` is not `000` (null included) fails with the provider message (default "Unknown error"); it succeeds iff the status is below 400 and the code is `000` |
| PaymentService.Outcome | app/Services/PaymentService.php:43-59 | the initiation succeeds iff the four gateway steps and the payload all do, and then returns the pay reply; otherwise the error is the first failing step's, the payload coming between auth and encryption |
| PaymentService.CallsMade | app/Services/PaymentService.php:43-59 | auth is always called; each later call is made iff every earlier step succeeded, the payload included |
| PaymentService.CallsCarryEarlierResults | app/Services/PaymentService.php:47-59 | the payload is encrypted under the auth token, and the pay call carries the payment token and the ciphertext returned earlier |
| PaymentService.InitiationExtras | app/Services/PaymentService.php:62-67 | the bookkeeping records the transaction number, the provider and the raw (unnormalised) method name, and no failure reason |
| PaymentService.InitiationNeverSettles | app/Services/PaymentService.php:62-67 | the initiation's update leaves the payment pending and unpaid, the order status and both settlement times untouched |
| PaymentService.Initiate | app/Services/PaymentService.php:45-59 | the five steps run in order and return `Outcome` and the calls `CallsMade` lists, for the payload `preparePayload` gives |
| PaymentService.GetPaymentToken | app/Services/PaymentService.php:43-78 | a failing step or a reply with no transaction number leaves the orders unchanged; otherwise only the paying order is marked pending with the transaction details |
| PaymentService.DecryptCallback | app/Services/PaymentService.php:251-281 | accepted iff both fields are non-empty, decryption succeeds, the SHA-256 of the plaintext equals the checksum and the decoded map is non-empty; each failing check gives its own error, in the code's order |
| PaymentService.SettlementFor | app/Services/PaymentService.php:87-105 | missing `merchantOrderId` or `transactionId` is rejected; otherwise the mapped status and the transaction id are recorded, with failure reason "Payment status: …" exactly when the status is not SUCCESS; provider and method are never recorded |
| PaymentService.Callback | app/Services/PaymentService.php:83-115 | a callback rejected by any guard changes nothing; an accepted one updates only its order, as `ApplyPaymentStatus` says |
| PaymentService.ForgedCallbackRejected | app/Services/PaymentService.php:267-270 | a checksum that does not match the decrypted text is rejected whatever the text says |
| PaymentService.SuccessCallbackPays | app/Services/PaymentService.php:98-105 | a SUCCESS callback pays the order, moves it to processing, stamps completion and records no failure reason |
| PaymentService.FailureCallbackRecordsReason | app/Services/PaymentService.php:98-105 | a failure-status callback fails the order, stamps failure and records "Payment status: STATUS" |
| PaymentService.UnknownStatusCallbackStaysPending | app/Services/PaymentService.php:98-105 | an unknown or missing status leaves the payment pending and the order status untouched; the reason passed along is dropped |
| PaymentTokenRequest.ProviderMethods | app/Http/Requests/Payment/PaymentTokenRequest.php:29-48 | the method table has exactly the thirteen listed providers, each with at least one method |
| PaymentTokenRequest.UpperAll | app/Http/Requests/Payment/PaymentTokenRequest.php:57 | each allowed method is upper-cased, position by position |
| PaymentTokenRequest.TableIsUpperCase | app/Http/Requests/Payment/PaymentTokenRequest.php:34-57 | upper-casing the table changes nothing |
| PaymentTokenRequest.MethodRule | app/Http/Requests/Payment/PaymentTokenRequest.php:33-62 | passes iff the provider is listed and the trimmed, upper-cased method is one it offers; an unknown provider fails with "The selected providerName is invalid.", a known one with "The selected methodName is invalid for {provider}." |
| PaymentTokenRequest.CardProvidersOfferOnlyOtp | app/Http/Requests/Payment/PaymentTokenRequest.php:45-47 | Visa, Master and JCB are listed and offer OTP alone |
| PaymentTokenRequest.WalletsOfferNoOtp | app/Http/Requests/Payment/PaymentTokenRequest.php:35-44 | no listed provider other than the card providers offers OTP |
| PaymentTokenRequest.OtpOnlyForCards | app/Http/Requests/Payment/PaymentTokenRequest.php:35-47 | OTP is accepted for a listed provider iff it is Visa, Master or JCB |
| PaymentTokenRequest.CardsOnlyAcceptOtp | app/Http/Requests/Payment/PaymentTokenRequest.php:45-47 | a card provider accepts a method iff it normalises to OTP |
| PaymentTokenRequest.MethodRuleIgnoresCaseAndBlanks | app/Http/Requests/Payment/PaymentTokenRequest.php:56-59 | for any provider, blanks around the method name and its letter case do not change the rule's verdict or message |
| PaymentTokenRequest.PinNormalizes | app/Http/Requests/Payment/PaymentTokenRequest.php:56 | `pin` normalises to `PIN` |
| PaymentTokenRequest.RequestPhoneForm | app/Http/Requests/Payment/PaymentTokenRequest.php:72-80 | the validator's copy of the rewrite gives the payment service's normal form for every non-empty phone |
| PaymentTokenRequest.PhoneRule | app/Http/Requests/Payment/PaymentTokenRequest.php:69-90 | runs only for the raw method names PIN, PWA, OTP and a non-empty phone; then passes iff the normal form is 11 digits starting with 09, and otherwise reports the prefix, then the length, then the digit failure |
| PaymentTokenRequest.PhoneAcceptedMeansLocalMobileInPayload | app/Http/Requests/Payment/PaymentTokenRequest.php:69-90 | a phone the rule accepted reaches every payload built as an 11-digit `09` number |
| PaymentTokenRequest.LowerCaseMethodSkipsPhoneCheck | app/Http/Requests/Payment/PaymentTokenRequest.php:70-71 | `pin` passes the method rule for AYA Pay, yet the phone rule then accepts `abc`, whose normal form is empty |
| PaymentTokenRequest.CardFieldRule | app/Http/Requests/Payment/PaymentTokenRequest.php:97-127 | fails iff the provider is Visa, Master or JCB and the value is empty, with that field's message; never fails for other providers |
| PaymentTokenRequest.CardRequestCarriesCardFields | app/Http/Requests/Payment/PaymentTokenRequest.php:97-127 | a card request that passed the three rules, whenever a payload is built, sends one with all three card fields non-empty |
| ProductService.SelectProductQuery | app/Services/ProductService.php:21-32 | `status = active` selects the active listing even with a search; otherwise a search term selects search; otherwise everything |
| ProductService.OtherStatusFiltersIgnored | app/Services/ProductService.php:23-31 | a status filter other than `active` acts as if unset |
| ProductService.ActiveListingIgnoresStock | app/Repositories/ProductRepository.php:24-30 | the active listing includes an active product with no stock, which is not available |
| ProductService.GetProductById | app/Services/ProductService.php:39-48 | found iff the id is in the table; otherwise the not-found error for that id |
| ProductService.NotFoundMessageNamesTheId | app/Services/ProductService.php:41-45 | the message for id 999 is "Product with ID 999 not found." |
| ProductService.WithDefaultStatus | app/Services/ProductService.php:55-58 | an unset status becomes `active`; a given status is kept; nothing else changes |
| ProductService.CreateProduct | app/Services/ProductService.php:53-61 | inserts one product under a fresh id with the given fields and status defaulting to `active`, readable by `GetProductById`; nothing else changes |
| ProductService.Patched | app/Services/ProductService.php:68-74 | the id never changes; each supplied field takes the supplied value; each field not supplied keeps its value |
| ProductService.PatchIdempotent | app/Services/ProductService.php:68-74 | applying one update twice is applying it once |
| ProductService.EmptyPatchChangesNothing | app/Services/ProductService.php:68-74 | an update supplying no field changes nothing |
| ProductService.UpdateProduct | app/Services/ProductService.php:68-74 | an unknown id is not found and nothing changes; otherwise only that product changes, supplied fields taking the supplied values and the others keeping theirs |
| ProductService.DeleteProduct | app/Services/ProductService.php:81-86 | an unknown id is not found and nothing changes; otherwise exactly that product is removed and `true` returned; afterwards the id is not found |

## Left out

- Pagination, the `created_at desc` ordering of listings and the LIKE search of
  products: listings are modelled as membership in table order.
- `OrderService.GetAllOrders`: states which orders are listed, not their order.
- `OrderService.GetOrdersByUserId`: lists the user's orders in table order, not
  newest first.
- Controllers, routes, response envelopes and resources. This includes the
  controller's already-paid guard before initiation.
- Logging and `env()` configuration. The gateway credentials appear only as the
  project name the payload uses.
- Transaction isolation and concurrent requests. `createOrder` is one atomic
  step, which is what `DB::transaction` gives a single request.
- `OrderService.CreateOrder`: requires the generated `order_id` to be fresh. The
  source relies on `time()` and `uniqid()` for that.
- Floating-point casts of amounts in the payload and JSON encoding. Amounts stay
  integer cents, and the JSON-encoded item list is a sequence of entries.
- AES-256-ECB, SHA-256 and `json_decode` internals. They are inputs. Decoded
  callback values are strings.
- HTTP request bodies and headers sent to the gateway, other than what
  `PaymentService.Call` records. The replies are inputs.
- `PaymentService.NormalizePhoneIdempotent`: requires the normal form not to be
  `"0"`, because the code maps `"0"` on to `""`. Idempotence fails there
  (`PaymentService.NormalizePhoneNotIdempotentOnZero`).
- Laravel's own validation rules (`required`, `nullable`, `string`, `max`,
  `email`, `exists`, `Rule::in` messages) and its policy on when closure rules
  run. The model states what each closure decides when it is called.
- Explicit `null` values in product update data: a supplied field always carries
  a value.
- What the database does to order lines when their product row is deleted
  (foreign-key behaviour). Lines keep their product id.
- `PaymentService.ItemEntry`: is defined only for a line whose product row
  exists. A line whose product is gone makes `PaymentService.PreparePayload`
  fail with the `ErrorException` PHP raises for reading `name` on null, which
  `getPaymentToken` logs and rethrows after the auth call.
- `PaymentService.EncryptionToken`, `PaymentService.EncryptedPayload`,
  `PaymentService.PaymentToken`, `PaymentService.PayOutcome`: replies are JSON
  objects. A non-JSON reply makes `$response->json()` null. The log call of a
  failing step, and the pay step's log of every reply, then end in a
  `TypeError` rather than the modelled outcome.
- `PaymentService.Initiate`, `PaymentService.GetPaymentToken`: every call reaches
  the gateway and gets a reply. A connection failure or timeout makes the HTTP
  client throw a `ConnectionException` at any of the four calls, which no
  modelled outcome matches.
- `PaymentService.DecryptCallback`: decoded text is a JSON object or nothing. A
  text that decodes to a non-empty scalar reaches the log call, which ends in a
  `TypeError`.
- Seeders, the migration and service-provider wiring.
