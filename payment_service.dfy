/** Dinger payment workflow (app/Services/PaymentService.php): phone
    normalisation, the transaction-status mapping, the payment payload, the
    four-step payment initiation and the callback reconciler. The gateway's
    HTTP replies, AES decryption, SHA-256 and JSON decoding are inputs. */
module PaymentService {
  import opened Wrappers
  import opened Php
  import opened Dinger
  import opened Products
  import opened Orders
  import opened Errors
  import opened Store
  import opened OrderService

  /* ---------------- normalizePhone ---------------- */

  /** The characters `/[^\d+]/` does not match. */
  predicate IsPhoneChar(c: char) {
    IsDigit(c) || c == '+'
  }

  /** `preg_replace('/[^\d+]/', '', $s)`: the digits and plus signs of `s`, in order. */
  function KeepPhoneChars(s: string): (r: string)
    ensures |r| <= |s|
    ensures forall i :: 0 <= i < |r| ==> IsPhoneChar(r[i])
    ensures (forall i :: 0 <= i < |s| ==> IsPhoneChar(s[i])) ==> r == s
    ensures (forall i :: 0 <= i < |s| ==> !IsPhoneChar(s[i])) ==> r == []
    decreases |s|
  {
    if s == [] then []
    else
      var last := s[|s| - 1];
      var rest := KeepPhoneChars(s[..|s| - 1]);
      assert s == s[..|s| - 1] + [last];
      if IsPhoneChar(last) then rest + [last] else rest
  }

  /** The filter keeps exactly the phone characters of its input. */
  lemma {:induction false} KeepPhoneCharsMembers(s: string, c: char)
    ensures c in KeepPhoneChars(s) <==> c in s && IsPhoneChar(c)
    decreases |s|
  {
    if s != [] {
      var init := s[..|s| - 1];
      KeepPhoneCharsMembers(init, c);
      assert s == init + [s[|s| - 1]];
    }
  }

  /** Filtering distributes over concatenation. */
  lemma {:induction false} KeepPhoneCharsAppend(a: string, b: string)
    ensures KeepPhoneChars(a + b) == KeepPhoneChars(a) + KeepPhoneChars(b)
    decreases |b|
  {
    if b == [] {
      assert a + b == a;
    } else {
      var last := b[|b| - 1];
      var front := b[..|b| - 1];
      assert (a + b)[..|a + b| - 1] == a + front;
      assert (a + b)[|a + b| - 1] == last;
      KeepPhoneCharsAppend(a, front);
    }
  }

  /** The rewrite `normalizePhone` applies to the filtered number. */
  function RewritePhone(p: string): (r: string)
    // every rewrite produces a local `09…` number
    ensures r == p || StartsWith(r, "09")
    // no branch touches a number that is already local
    ensures StartsWith(p, "09") ==> r == p
    ensures (forall i :: 0 <= i < |p| ==> IsPhoneChar(p[i])) ==> forall i :: 0 <= i < |r| ==> IsPhoneChar(r[i])
    // the country-code forms lose exactly the country code, and keep the rest
    ensures StartsWith(p, "+959") ==> r == "09" + p[4..] && |r| == |p| - 2
    ensures !StartsWith(p, "+959") && StartsWith(p, "959") ==> r == "09" + p[3..] && |r| == |p| - 1
    // a 9-character number in none of the other forms is prefixed, and only such a number
    ensures !StartsWith(p, "+959") && !StartsWith(p, "959") && |p| == 9 && !StartsWith(p, "09") ==> r == "09" + p
    ensures |r| > |p| ==> |p| == 9 && r == "09" + p
    // anything else passes through
    ensures !StartsWith(p, "+959") && !StartsWith(p, "959") && (|p| != 9 || StartsWith(p, "09")) ==> r == p
  {
    assert StartsWith(p, "09") ==> p[0] == '0';
    if StartsWith(p, "+959") then assert p[0] == '+'; "09" + p[4..]
    else if StartsWith(p, "959") then "09" + p[3..]
    else if |p| == 9 && !StartsWith(p, "09") then "09" + p
    else p
  }

  lemma RewritePhoneIdempotent(p: string)
    ensures RewritePhone(RewritePhone(p)) == RewritePhone(p)
  {}

  /** `normalizePhone($phone)` for the string the payload passes it. */
  function NormalizePhone(phone: string): (r: string)
    ensures Falsy(Some(phone)) ==> r == ""
    // otherwise the filtered number goes through the rewrite rules
    ensures !Falsy(Some(phone)) ==> r == RewritePhone(KeepPhoneChars(phone))
    ensures forall i :: 0 <= i < |r| ==> IsPhoneChar(r[i])
    // unchanged after filtering, or rewritten to a local `09…` number
    ensures r == "" || r == KeepPhoneChars(phone) || StartsWith(r, "09")
    ensures StartsWith(KeepPhoneChars(phone), "09") ==> r == KeepPhoneChars(phone)
    // no length check is made
    ensures !Falsy(Some(phone)) ==> |KeepPhoneChars(phone)| - 2 <= |r| <= |KeepPhoneChars(phone)| + 2
  {
    if Falsy(Some(phone)) then "" else RewritePhone(KeepPhoneChars(phone))
  }

  /** Normalising twice changes nothing, except for the one normal form PHP
      treats as empty: "0". */
  lemma {:induction false} NormalizePhoneIdempotent(phone: string)
    requires NormalizePhone(phone) != "0"
    ensures NormalizePhone(NormalizePhone(phone)) == NormalizePhone(phone)
  {
    var r := NormalizePhone(phone);
    if r != "" {
      assert KeepPhoneChars(r) == r;
      RewritePhoneIdempotent(KeepPhoneChars(phone));
    }
  }

  /** "x0" normalises to "0", which PHP's `empty` then normalises to "". */
  lemma {:induction false} NormalizePhoneNotIdempotentOnZero()
    ensures NormalizePhone("x0") == "0"
    ensures NormalizePhone("0") == ""
  {
    assert "x0"[..1] == "x";
    assert KeepPhoneChars("x") == [];
    assert KeepPhoneChars("x0") == "0";
  }

  /** A prefix of phone characters followed by digits survives the filter unchanged. */
  lemma {:induction false} DigitsKept(prefix: string, s: string)
    requires forall i :: 0 <= i < |prefix| ==> IsPhoneChar(prefix[i])
    requires forall i :: 0 <= i < |s| ==> IsDigit(s[i])
    ensures KeepPhoneChars(prefix + s) == prefix + s
  {
    var t := prefix + s;
    forall i | 0 <= i < |t|
      ensures IsPhoneChar(t[i])
    {
      if i >= |prefix| {
        assert t[i] == s[i - |prefix|];
      }
    }
  }

  /** The international spelling +959… normalises to the local 09…. */
  lemma {:induction false} PlusCountryCodeDropped(rest: string)
    requires forall i :: 0 <= i < |rest| ==> IsDigit(rest[i])
    ensures NormalizePhone("+959" + rest) == "09" + rest
  {
    var t := "+959" + rest;
    DigitsKept("+959", rest);
    assert StartsWith(t, "+959") by { assert t[..4] == "+959"; }
    assert t[4..] == rest;
  }

  /** The international spelling 959… without the plus normalises to the local 09…. */
  lemma {:induction false} CountryCodeDropped(rest: string)
    requires forall i :: 0 <= i < |rest| ==> IsDigit(rest[i])
    ensures NormalizePhone("959" + rest) == "09" + rest
  {
    var t := "959" + rest;
    DigitsKept("959", rest);
    assert StartsWith(t, "959") by { assert t[..3] == "959"; }
    assert !StartsWith(t, "+959") by { assert t[0] != '+'; }
    assert t[3..] == rest;
  }

  /** A local 09… number is its own normal form. */
  lemma {:induction false} LocalNumberKept(rest: string)
    requires forall i :: 0 <= i < |rest| ==> IsDigit(rest[i])
    ensures NormalizePhone("09" + rest) == "09" + rest
  {
    var t := "09" + rest;
    DigitsKept("09", rest);
    assert StartsWith(t, "09") by { assert t[..2] == "09"; }
  }

  /** A 9-character number in none of the 09, 959 or +959 forms gets 09 in
      front: 912345678 becomes 0912345678. */
  lemma {:induction false} NineCharacterNumberPrefixed(d: string)
    requires |d| == 9 && forall i :: 0 <= i < |d| ==> IsPhoneChar(d[i])
    requires !StartsWith(d, "09") && !StartsWith(d, "959") && !StartsWith(d, "+959")
    ensures NormalizePhone(d) == "09" + d
  {
    assert !Falsy(Some(d));
    assert KeepPhoneChars(d) == d;
  }

  /** Filtering a number behind separators leaves the number, and the
      separated form is not empty to PHP either. */
  lemma {:induction false} SeparatorsFilteredOut(noise: string, number: string)
    requires forall i :: 0 <= i < |noise| ==> !IsPhoneChar(noise[i])
    requires !Falsy(Some(number))
    requires forall i :: 0 <= i < |number| ==> IsPhoneChar(number[i])
    ensures KeepPhoneChars(noise + number) == number
    ensures !Falsy(Some(noise + number))
  {
    KeepPhoneCharsAppend(noise, number);
    assert KeepPhoneChars(noise) == [] && KeepPhoneChars(number) == number;
    assert [] + number == number;
    if noise == [] {
      assert noise + number == number;
    } else {
      assert |noise + number| >= 2;
    }
  }

  /** Separators written before a number do not change its normal form. */
  lemma {:induction false} LeadingSeparatorsIgnored(noise: string, number: string)
    requires forall i :: 0 <= i < |noise| ==> !IsPhoneChar(noise[i])
    requires !Falsy(Some(number))
    requires forall i :: 0 <= i < |number| ==> IsPhoneChar(number[i])
    ensures NormalizePhone(noise + number) == NormalizePhone(number)
  {
    SeparatorsFilteredOut(noise, number);
  }

  /* ---------------- mapTransactionStatus ---------------- */

  /** `mapTransactionStatus($transactionStatus)`: total, with three outcomes. */
  function MapTransactionStatus(status: Option<string>): (r: string)
    ensures r in {PaymentSuccess, PaymentFailed, PaymentPending}
    ensures r == PaymentSuccess <==> status == Some(SuccessStatus)
    ensures r == PaymentFailed <==> status.Some? && status.value in FailureStatuses
    ensures r == PaymentPending <==> status.None? || (status.value != SuccessStatus && status.value !in FailureStatuses)
  {
    match status
    case Some(s) =>
      if s == SuccessStatus then PaymentSuccess
      else if s in FailureStatuses then PaymentFailed
      else PaymentPending
    case None => PaymentPending
  }

  /* ---------------- preparePayload ---------------- */

  /** The validated request fields the controller hands over; `None` is null. */
  datatype PaymentData = PaymentData(
    providerName: string,
    methodName: string,
    customerName: Option<string>,
    customerPhone: Option<string>,
    email: Option<string>,
    billAddress: Option<string>,
    billCity: Option<string>)

  /** The ordering user's name and phone (`$order->user`). */
  datatype Customer = Customer(name: Option<string>, phone: Option<string>)

  /** The merchant configuration the payload uses (`DINGER_PROJECT_NAME`). */
  datatype Config = Config(projectName: string)

  /** One entry of the payload's `items`; the amount is in cents. */
  datatype PayloadItem = PayloadItem(name: string, amount: int, quantity: int)

  /** The payload sent for encryption; amounts in cents, card fields `None` when absent. */
  datatype Payload = Payload(
    providerName: string,
    methodName: string,
    totalAmount: int,
    items: seq<PayloadItem>,
    orderId: string,
    customerName: string,
    customerPhone: string,
    description: string,
    email: Option<string>,
    billAddress: Option<string>,
    billCity: Option<string>)

  /** Whether every line's product row still exists, so that its name can be read. */
  predicate LinesPresent(order: Order, products: map<int, Product>) {
    forall i :: 0 <= i < |order.items| ==> order.items[i].productId in products
  }

  /** The entry for one order line: the product's current name, and the line's
      snapshot price and quantity. */
  function ItemEntry(products: map<int, Product>, line: OrderItem): (e: PayloadItem)
    requires line.productId in products
    ensures e.name == products[line.productId].name
    ensures e.amount == line.price && e.quantity == line.quantity
  {
    PayloadItem(products[line.productId].name, line.price, line.quantity)
  }

  /** `strtoupper(trim($methodName))` */
  function NormalizeMethod(m: string): (r: string)
    ensures forall i :: 0 <= i < |r| ==> !IsLower(r[i])
    ensures r == [] || (!IsTrimChar(r[0]) && !IsTrimChar(r[|r| - 1]))
  {
    var t := Trim(m);
    ToUpper(t)
  }

  /** Blanks around the method name and its letter case do not change the
      name the gateway receives. */
  lemma {:induction false} NormalizeMethodIgnoresCaseAndBlanks(m: string, front: string, back: string)
    requires forall i :: 0 <= i < |front| ==> IsTrimChar(front[i])
    requires forall i :: 0 <= i < |back| ==> IsTrimChar(back[i])
    ensures NormalizeMethod(front + m + back) == NormalizeMethod(m)
    ensures NormalizeMethod(ToUpper(m)) == NormalizeMethod(m)
  {
    TrimIgnoresPadding(front, m, back);
    UpperCommutesWithTrimLeft(m);
    UpperCommutesWithTrimRight(TrimLeft(m));
    assert Trim(ToUpper(m)) == ToUpper(Trim(m));
  }

  /** One entry per order line, in line order. */
  function Entries(products: map<int, Product>, lines: seq<OrderItem>): (es: seq<PayloadItem>)
    requires forall i :: 0 <= i < |lines| ==> lines[i].productId in products
    ensures |es| == |lines|
    ensures forall i :: 0 <= i < |es| ==> es[i] == ItemEntry(products, lines[i])
  {
    seq(|lines|, i requires 0 <= i < |lines| => ItemEntry(products, lines[i]))
  }

  /** The payload `preparePayload($order, $paymentData)` builds. */
  function PayloadFor(order: Order, data: PaymentData, customer: Customer,
                      products: map<int, Product>, config: Config): (p: Payload)
    requires LinesPresent(order, products)
    ensures |p.items| == |order.items|
    ensures forall i :: 0 <= i < |p.items| ==> p.items[i] == ItemEntry(products, order.items[i])
    ensures p.orderId == order.orderId && p.totalAmount == order.totalAmount
    ensures p.providerName == data.providerName && p.description == config.projectName
    ensures p.methodName == NormalizeMethod(data.methodName)
    // card fields travel only for card providers, and only when given
    ensures !IsCardProvider(data.providerName) ==> p.email.None? && p.billAddress.None? && p.billCity.None?
    ensures IsCardProvider(data.providerName) ==>
      p.email == data.email && p.billAddress == data.billAddress && p.billCity == data.billCity
    // the request's name and phone win over the account's
    ensures p.customerName == data.customerName.OrElse(customer.name).GetOr("")
    ensures p.customerPhone == NormalizePhone(data.customerPhone.OrElse(customer.phone).GetOr(""))
  {
    var card := IsCardProvider(data.providerName);
    Payload(
      data.providerName,
      NormalizeMethod(data.methodName),
      order.totalAmount,
      Entries(products, order.items),
      order.orderId,
      data.customerName.OrElse(customer.name).GetOr(""),
      NormalizePhone(data.customerPhone.OrElse(customer.phone).GetOr("")),
      config.projectName,
      if card then data.email else None,
      if card then data.billAddress else None,
      if card then data.billCity else None)
  }

  /** What `preparePayload` gives: the payload, or the error raised by a line
      whose product row is gone. */
  function PreparedPayload(order: Order, data: PaymentData, customer: Customer,
                           products: map<int, Product>, config: Config): (r: Result<Payload, ServiceError>)
    ensures r.Success? <==> forall i :: 0 <= i < |order.items| ==> order.items[i].productId in products
    ensures r.Success? ==> r.value.items == Entries(products, order.items) && r.value.orderId == order.orderId
    ensures r.Failure? ==> r.error == ProductNameOnNull
  {
    if LinesPresent(order, products) then Success(PayloadFor(order, data, customer, products, config))
    else Failure(ProductNameOnNull)
  }

  /** `preparePayload($order, $paymentData)`: the item loop, then the fields. */
  method PreparePayload(order: Order, data: PaymentData, customer: Customer,
                        products: map<int, Product>, config: Config) returns (r: Result<Payload, ServiceError>)
    ensures LinesPresent(order, products) ==> r == Success(PayloadFor(order, data, customer, products, config))
    ensures !LinesPresent(order, products) ==> r == Failure(ProductNameOnNull)
  {
    var items: seq<PayloadItem> := [];
    var k := 0;
    while k < |order.items|
      invariant 0 <= k <= |order.items|
      invariant |items| == k
      invariant forall i :: 0 <= i < k ==> order.items[i].productId in products
      invariant forall i :: 0 <= i < k ==> items[i] == ItemEntry(products, order.items[i])
    {
      var line := order.items[k];
      if line.productId !in products {
        return Failure(ProductNameOnNull);
      }
      items := items + [ItemEntry(products, line)];
      k := k + 1;
    }
    var card := IsCardProvider(data.providerName);
    var p := Payload(
      data.providerName,
      NormalizeMethod(data.methodName),
      order.totalAmount,
      items,
      order.orderId,
      data.customerName.OrElse(customer.name).GetOr(""),
      NormalizePhone(data.customerPhone.OrElse(customer.phone).GetOr("")),
      config.projectName,
      None, None, None);
    if card {
      p := p.(email := data.email, billAddress := data.billAddress, billCity := data.billCity);
    }
    assert LinesPresent(order, products);
    assert p == PayloadFor(order, data, customer, products, config);
    r := Success(p);
  }

  /** Sum of amount × quantity over payload entries. */
  function EntriesSum(entries: seq<PayloadItem>): int
    decreases |entries|
  {
    if entries == [] then 0
    else EntriesSum(entries[..|entries| - 1]) + entries[|entries| - 1].amount * entries[|entries| - 1].quantity
  }

  /** For lines priced as order creation prices them, the payload entries add up
      to the order total the payload announces. */
  lemma {:induction false} PayloadEntriesAddUpToTotal(products: map<int, Product>, lines: seq<OrderItem>, entries: seq<PayloadItem>)
    requires forall i :: 0 <= i < |lines| ==> lines[i].subtotal == lines[i].price * lines[i].quantity
    requires forall i :: 0 <= i < |lines| ==> lines[i].productId in products
    requires |entries| == |lines| && forall i :: 0 <= i < |lines| ==> entries[i] == ItemEntry(products, lines[i])
    ensures EntriesSum(entries) == Total(lines)
    decreases |lines|
  {
    if lines != [] {
      var n := |lines| - 1;
      PayloadEntriesAddUpToTotal(products, lines[..n], entries[..n]);
      assert entries[n] == ItemEntry(products, lines[n]);
    }
  }

  /** While the products it was created from still exist, an order that order
      creation produced yields a payload, and that payload announces a total
      equal to the sum of its entries. */
  lemma {:induction false} CreatedOrderPayloadAddsUp(products: map<int, Product>, items: seq<ItemRequest>, id: int, userId: int,
                                  orderId: string, data: PaymentData, customer: Customer, config: Config)
    requires CheckItems(products, items).Success?
    ensures var r := PreparedPayload(NewOrder(id, userId, orderId, CheckItems(products, items).value), data, customer, products, config);
      r.Success? && EntriesSum(r.value.items) == r.value.totalAmount
  {
    var lines := CheckItems(products, items).value;
    var o := NewOrder(id, userId, orderId, lines);
    forall i | 0 <= i < |lines|
      ensures lines[i].productId in products
      ensures lines[i].subtotal == lines[i].price * lines[i].quantity
    {
      assert lines[i] == Snapshot(products[items[i].productId], items[i]);
    }
    assert LinesPresent(o, products);
    var p := PayloadFor(o, data, customer, products, config);
    PayloadEntriesAddUpToTotal(products, lines, p.items);
  }

  /* ---------------- getPaymentToken ---------------- */

  /** `$response->failed()`: a client or server error status. */
  predicate HttpFailed(status: int) {
    status >= 400
  }

  /** The gateway's reply to each of the four calls, as inputs to the model. */
  datatype AuthReply = AuthReply(httpStatus: int, token: Option<string>)
  datatype EncryptReply = EncryptReply(httpStatus: int, encryptedData: Option<string>)
  datatype TokenReply = TokenReply(paymentToken: Option<string>)
  /** A key of a decoded JSON reply read without a `??` fallback: missing, or
      present with a value that may be null. */
  datatype JsonKey = Missing | Present(value: Option<string>)
  datatype PayReply = PayReply(httpStatus: int, code: JsonKey, message: Option<string>, transactionNum: Option<string>)
  datatype Gateway = Gateway(auth: AuthReply, encrypt: EncryptReply, token: TokenReply, pay: PayReply)

  /** The calls made to the gateway, with what each one sends. */
  datatype Call =
    | Auth
    | Encrypt(authToken: string, payload: Payload)
    | FetchToken
    | Pay(paymentToken: string, encryptedPayload: string)

  /** `getEncryptionToken()` */
  function EncryptionToken(a: AuthReply): (r: Result<string, ServiceError>)
    ensures r.Success? <==> !HttpFailed(a.httpStatus) && !Falsy(a.token)
    ensures r.Success? ==> r.value == a.token.value && r.value != ""
    ensures r.Failure? ==> r.error == EncryptionTokenFailed
  {
    if HttpFailed(a.httpStatus) || Falsy(a.token) then Failure(EncryptionTokenFailed) else Success(a.token.value)
  }

  /** `encryptPayload($authToken, $payloadData)` */
  function EncryptedPayload(e: EncryptReply): (r: Result<string, ServiceError>)
    ensures r.Success? <==> !HttpFailed(e.httpStatus) && !Falsy(e.encryptedData)
    ensures r.Success? ==> r.value == e.encryptedData.value && r.value != ""
    ensures r.Failure? ==> r.error == EncryptionFailed
  {
    if HttpFailed(e.httpStatus) || Falsy(e.encryptedData) then Failure(EncryptionFailed) else Success(e.encryptedData.value)
  }

  /** `fetchPaymentToken()`: only the token is checked, not the HTTP status. */
  function PaymentToken(t: TokenReply): (r: Result<string, ServiceError>)
    ensures r.Success? <==> !Falsy(t.paymentToken)
    ensures r.Success? ==> r.value == t.paymentToken.value && r.value != ""
    ensures r.Failure? ==> r.error == PaymentTokenFailed
  {
    if Falsy(t.paymentToken) then Failure(PaymentTokenFailed) else Success(t.paymentToken.value)
  }

  /** `executePayment($paymentToken, $encryptedPayload)` */
  function PayOutcome(p: PayReply): (r: Result<PayReply, ServiceError>)
    ensures r.Success? <==> !HttpFailed(p.httpStatus) && p.code == Present(Some(PayOkCode))
    ensures r.Success? ==> r.value == p
    ensures HttpFailed(p.httpStatus) ==> r == Failure(PayCallFailed(p.httpStatus))
    ensures !HttpFailed(p.httpStatus) && p.code.Missing? ==> r == Failure(PayCodeMissing)
    ensures !HttpFailed(p.httpStatus) && p.code.Present? && p.code.value != Some(PayOkCode) ==>
      r == Failure(PaymentRejected(p.message.GetOr("Unknown error")))
  {
    if HttpFailed(p.httpStatus) then Failure(PayCallFailed(p.httpStatus))
    else if p.code.Missing? then Failure(PayCodeMissing)
    else if p.code.value != Some(PayOkCode) then Failure(PaymentRejected(p.message.GetOr("Unknown error")))
    else Success(p)
  }

  /** What the initiation returns or throws, before any order update, given the
      gateway's replies and what preparing the payload gave: the first failing
      step decides. */
  function Outcome(g: Gateway, prepared: Result<Payload, ServiceError>): (r: Result<PayReply, ServiceError>)
    ensures r.Success? <==>
      && EncryptionToken(g.auth).Success? && prepared.Success? && EncryptedPayload(g.encrypt).Success?
      && PaymentToken(g.token).Success? && PayOutcome(g.pay).Success?
    ensures r.Success? ==> r.value == g.pay && g.pay.code == Present(Some(PayOkCode))
    ensures EncryptionToken(g.auth).Failure? ==> r == Failure(EncryptionTokenFailed)
    ensures EncryptionToken(g.auth).Success? && prepared.Failure? ==> r == Failure(prepared.error)
    ensures EncryptionToken(g.auth).Success? && prepared.Success? && EncryptedPayload(g.encrypt).Failure? ==>
      r == Failure(EncryptionFailed)
    ensures
      && EncryptionToken(g.auth).Success? && prepared.Success? && EncryptedPayload(g.encrypt).Success?
      && PaymentToken(g.token).Failure?
      ==> r == Failure(PaymentTokenFailed)
    ensures
      && EncryptionToken(g.auth).Success? && prepared.Success? && EncryptedPayload(g.encrypt).Success?
      && PaymentToken(g.token).Success?
      ==> r == PayOutcome(g.pay)
  {
    if EncryptionToken(g.auth).Failure? then Failure(EncryptionTokenFailed)
    else if prepared.Failure? then Failure(prepared.error)
    else if EncryptedPayload(g.encrypt).Failure? then Failure(EncryptionFailed)
    else if PaymentToken(g.token).Failure? then Failure(PaymentTokenFailed)
    else PayOutcome(g.pay)
  }

  /** The calls the initiation makes: each step only after the previous one
      succeeded, and nothing after the auth call when the payload cannot be built. */
  function CallsMade(g: Gateway, prepared: Result<Payload, ServiceError>): (calls: seq<Call>)
    ensures 1 <= |calls| <= 4 && calls[0] == Auth
    ensures |calls| >= 2 <==> EncryptionToken(g.auth).Success? && prepared.Success?
    ensures |calls| >= 3 <==>
      EncryptionToken(g.auth).Success? && prepared.Success? && EncryptedPayload(g.encrypt).Success?
    ensures |calls| == 4 <==>
      && EncryptionToken(g.auth).Success? && prepared.Success? && EncryptedPayload(g.encrypt).Success?
      && PaymentToken(g.token).Success?
  {
    match EncryptionToken(g.auth)
    case Failure(_) => [Auth]
    case Success(authToken) =>
      match prepared
      case Failure(_) => [Auth]
      case Success(payload) =>
        match EncryptedPayload(g.encrypt)
        case Failure(_) => [Auth, Encrypt(authToken, payload)]
        case Success(encrypted) =>
          match PaymentToken(g.token)
          case Failure(_) => [Auth, Encrypt(authToken, payload), FetchToken]
          case Success(paymentToken) => [Auth, Encrypt(authToken, payload), FetchToken, Pay(paymentToken, encrypted)]
  }

  /** The payload goes out under the auth token, and the pay call carries the
      payment token and the ciphertext the earlier steps returned. */
  lemma {:induction false} CallsCarryEarlierResults(g: Gateway, prepared: Result<Payload, ServiceError>)
    ensures var calls := CallsMade(g, prepared);
      && (|calls| >= 2 ==> calls[1] == Encrypt(g.auth.token.value, prepared.value))
      && (|calls| >= 3 ==> calls[2] == FetchToken)
      && (|calls| == 4 ==> calls[3] == Pay(g.token.paymentToken.value, g.encrypt.encryptedData.value))
  {
    var calls := CallsMade(g, prepared);
    if |calls| >= 2 {
      assert EncryptionToken(g.auth) == Success(g.auth.token.value);
    }
    if |calls| >= 3 {
      assert EncryptedPayload(g.encrypt) == Success(g.encrypt.encryptedData.value);
    }
    if |calls| == 4 {
      assert PaymentToken(g.token) == Success(g.token.paymentToken.value);
    }
  }

  /** The bookkeeping after a successful pay call: pending, with the gateway's
      transaction number and the request's provider and raw method name. */
  function InitiationExtras(g: Gateway, data: PaymentData): (x: PaymentExtras)
    ensures x.failureReason.None? && x.transactionId == g.pay.transactionNum
    ensures x.providerName == Some(data.providerName) && x.methodName == Some(data.methodName)
  {
    PaymentExtras(None, g.pay.transactionNum, Some(data.providerName), Some(data.methodName))
  }

  /** The initiation's order update never settles the payment: the order status
      and both settlement timestamps stay as they were, and the order is not paid. */
  lemma InitiationNeverSettles(o: Order, g: Gateway, data: PaymentData, now: Timestamp)
    ensures var u := ApplyPaymentStatus(o, PaymentPending, InitiationExtras(g, data), now);
      && u.IsPendingPayment() && !u.IsPaid()
      && u.status == o.status
      && u.paymentCompletedAt == o.paymentCompletedAt && u.paymentFailedAt == o.paymentFailedAt
      && u.dingerTransactionId == g.pay.transactionNum.OrElse(o.dingerTransactionId)
  {}

  /** Steps 1 to 5 of `getPaymentToken`: auth, payload, encrypt, token, pay.
      Each step runs only after the previous one succeeded. */
  method Initiate(order: Order, data: PaymentData, customer: Customer, products: map<int, Product>,
                  config: Config, g: Gateway)
    returns (r: Result<PayReply, ServiceError>, calls: seq<Call>)
    ensures var prepared := PreparedPayload(order, data, customer, products, config);
      r == Outcome(g, prepared) && calls == CallsMade(g, prepared)
  {
    var authToken := EncryptionToken(g.auth);
    if authToken.Failure? {
      return Failure(authToken.error), [Auth];
    }
    var prepared := PreparePayload(order, data, customer, products, config);
    if prepared.Failure? {
      return Failure(prepared.error), [Auth];
    }
    var encrypt := Encrypt(authToken.value, prepared.value);
    var encrypted := EncryptedPayload(g.encrypt);
    if encrypted.Failure? {
      return Failure(encrypted.error), [Auth, encrypt];
    }
    var paymentToken := PaymentToken(g.token);
    if paymentToken.Failure? {
      return Failure(paymentToken.error), [Auth, encrypt, FetchToken];
    }
    r := PayOutcome(g.pay);
    calls := [Auth, encrypt, FetchToken, Pay(paymentToken.value, encrypted.value)];
  }

  /** `getPaymentToken($order, $paymentData)`: the five steps; then, only when
      the pay reply carries a transaction number, the order is marked pending
      with the transaction details. */
  method GetPaymentToken(db: Database, order: Order, data: PaymentData, customer: Customer,
                         config: Config, g: Gateway, now: Timestamp)
    returns (r: Result<PayReply, ServiceError>, calls: seq<Call>)
    requires db.Valid()
    modifies db
    ensures db.Valid()
    ensures db.products == old(db.products) && db.nextProductId == old(db.nextProductId)
    ensures calls == CallsMade(g, PreparedPayload(order, data, customer, old(db.products), config))
    // a failing step, or a reply without a transaction number, leaves the orders alone
    ensures var outcome := Outcome(g, PreparedPayload(order, data, customer, old(db.products), config));
      outcome.Failure? || g.pay.transactionNum.None? ==> r == outcome && db.orders == old(db.orders)
    ensures var outcome := Outcome(g, PreparedPayload(order, data, customer, old(db.products), config));
      outcome.Success? && g.pay.transactionNum.Some? ==>
      match First(old(db.orders), OrderIdIs(order.orderId))
      case None =>
        r == Failure(OrderIdNotFound(order.orderId)) && db.orders == old(db.orders)
      case Some(i) =>
        && r == outcome
        && db.orders == old(db.orders)[i := ApplyPaymentStatus(old(db.orders)[i], PaymentPending, InitiationExtras(g, data), now)]
  {
    r, calls := Initiate(order, data, customer, db.products, config, g);
    if r.Success? && r.value.transactionNum.Some? {
      var updated := UpdatePaymentStatus(db, order.orderId, PaymentPending, InitiationExtras(g, data), now);
      if updated.Failure? {
        r := Failure(updated.error);
      }
    }
  }

  /* ---------------- callback ---------------- */

  /** The two fields of the callback request the reconciler reads. */
  datatype CallbackData = CallbackData(paymentResult: Option<string>, checksum: Option<string>)

  /** AES-256-ECB decryption under the callback key (`None` is `false`),
      `hash("sha256", …)`, and `json_decode(…, true)` to a string map. */
  datatype Crypto = Crypto(
    decrypt: string -> Option<string>,
    sha256: string -> string,
    jsonDecode: string -> Option<map<string, string>>)

  /** The checks of `decryptCallback` before the decoded values are trusted. */
  predicate Authentic(data: CallbackData, crypto: Crypto) {
    && !Falsy(data.paymentResult) && !Falsy(data.checksum)
    && crypto.decrypt(data.paymentResult.value).Some?
    && crypto.sha256(crypto.decrypt(data.paymentResult.value).value) == data.checksum.value
  }

  /** `decryptCallback($callbackData)` */
  function DecryptCallback(data: CallbackData, crypto: Crypto): (r: Result<map<string, string>, ServiceError>)
    ensures r.Success? <==>
      Authentic(data, crypto)
      && crypto.jsonDecode(crypto.decrypt(data.paymentResult.value).value).Some?
      && crypto.jsonDecode(crypto.decrypt(data.paymentResult.value).value).value != map[]
    ensures r.Success? ==> r.value == crypto.jsonDecode(crypto.decrypt(data.paymentResult.value).value).value
    ensures Falsy(data.paymentResult) || Falsy(data.checksum) ==> r == Failure(MissingResultOrChecksum)
    ensures !Falsy(data.paymentResult) && !Falsy(data.checksum) && crypto.decrypt(data.paymentResult.value).None? ==>
      r == Failure(DecryptionFailed)
    ensures
      && !Falsy(data.paymentResult) && !Falsy(data.checksum) && crypto.decrypt(data.paymentResult.value).Some?
      && crypto.sha256(crypto.decrypt(data.paymentResult.value).value) != data.checksum.value
      ==> r == Failure(ChecksumMismatch)
    ensures Authentic(data, crypto) && r.Failure? ==> r.error == DecodeFailed
  {
    if Falsy(data.paymentResult) || Falsy(data.checksum) then Failure(MissingResultOrChecksum)
    else
      match crypto.decrypt(data.paymentResult.value)
      case None => Failure(DecryptionFailed)
      case Some(plain) =>
        if crypto.sha256(plain) != data.checksum.value then Failure(ChecksumMismatch)
        else
          match crypto.jsonDecode(plain)
          case None => Failure(DecodeFailed)
          case Some(values) => if values == map[] then Failure(DecodeFailed) else Success(values)
  }

  /** What an accepted callback asks the order service to record. */
  datatype Settlement = Settlement(orderId: string, paymentStatus: string, extras: PaymentExtras)

  /** The field checks and the mapping of `callback($callbackData)`. */
  function SettlementFor(values: map<string, string>): (r: Result<Settlement, ServiceError>)
    ensures r.Failure? <==> Falsy(Lookup(values, "merchantOrderId")) || Falsy(Lookup(values, "transactionId"))
    ensures r.Failure? ==> r.error == MissingCallbackFields
    ensures r.Success? ==>
      && r.value.orderId == values["merchantOrderId"]
      && r.value.paymentStatus == MapTransactionStatus(Lookup(values, "transactionStatus"))
      && r.value.extras.transactionId == Some(values["transactionId"])
      && r.value.extras.providerName.None? && r.value.extras.methodName.None?
    // a failure reason accompanies every status but SUCCESS
    ensures r.Success? ==>
      (r.value.extras.failureReason.Some? <==> Lookup(values, "transactionStatus") != Some(SuccessStatus))
    ensures r.Success? && r.value.extras.failureReason.Some? ==>
      r.value.extras.failureReason.value == "Payment status: " + Lookup(values, "transactionStatus").GetOr("")
  {
    var status := Lookup(values, "transactionStatus");
    var merchantOrderId := Lookup(values, "merchantOrderId");
    var transactionId := Lookup(values, "transactionId");
    if Falsy(merchantOrderId) || Falsy(transactionId) then Failure(MissingCallbackFields)
    else
      var reason := if status != Some(SuccessStatus) then Some("Payment status: " + status.GetOr("")) else None;
      Success(Settlement(merchantOrderId.value, MapTransactionStatus(status),
                         PaymentExtras(reason, transactionId, None, None)))
  }

  /** `callback($callbackData)`: every guard runs before the order is touched. */
  method Callback(db: Database, data: CallbackData, crypto: Crypto, now: Timestamp)
    returns (r: Result<Order, ServiceError>)
    requires db.Valid()
    modifies db
    ensures db.Valid()
    ensures db.products == old(db.products) && db.nextProductId == old(db.nextProductId)
    ensures DecryptCallback(data, crypto).Failure? ==>
      r == Failure(DecryptCallback(data, crypto).error) && db.orders == old(db.orders)
    ensures DecryptCallback(data, crypto).Success? && SettlementFor(DecryptCallback(data, crypto).value).Failure? ==>
      r == Failure(MissingCallbackFields) && db.orders == old(db.orders)
    ensures DecryptCallback(data, crypto).Success? && SettlementFor(DecryptCallback(data, crypto).value).Success? ==>
      var s := SettlementFor(DecryptCallback(data, crypto).value).value;
      match First(old(db.orders), OrderIdIs(s.orderId))
      case None => r == Failure(OrderIdNotFound(s.orderId)) && db.orders == old(db.orders)
      case Some(i) =>
        && r == Success(ApplyPaymentStatus(old(db.orders)[i], s.paymentStatus, s.extras, now))
        && db.orders == old(db.orders)[i := r.value]
  {
    var values := DecryptCallback(data, crypto);
    if values.Failure? {
      return Failure(values.error);
    }
    var settlement := SettlementFor(values.value);
    if settlement.Failure? {
      return Failure(settlement.error);
    }
    var s := settlement.value;
    r := UpdatePaymentStatus(db, s.orderId, s.paymentStatus, s.extras, now);
  }

  /** A callback whose checksum does not match the decrypted text is rejected,
      whatever the text says. */
  lemma ForgedCallbackRejected(data: CallbackData, crypto: Crypto)
    requires !Falsy(data.paymentResult) && !Falsy(data.checksum)
    requires crypto.decrypt(data.paymentResult.value).Some?
    requires crypto.sha256(crypto.decrypt(data.paymentResult.value).value) != data.checksum.value
    ensures DecryptCallback(data, crypto) == Failure(ChecksumMismatch)
  {}

  /** A SUCCESS callback pays the order and moves it to processing, recording
      the transaction id and no failure reason. */
  lemma {:induction false} SuccessCallbackPays(values: map<string, string>, o: Order, now: Timestamp)
    requires !Falsy(Lookup(values, "merchantOrderId")) && !Falsy(Lookup(values, "transactionId"))
    requires Lookup(values, "transactionStatus") == Some(SuccessStatus)
    ensures SettlementFor(values).Success?
    ensures var s := SettlementFor(values).value;
      var u := ApplyPaymentStatus(o, s.paymentStatus, s.extras, now);
      && u.IsPaid() && u.status == Processing && u.paymentCompletedAt == Some(now)
      && u.paymentFailureReason == o.paymentFailureReason
      && u.dingerTransactionId == Some(values["transactionId"])
  {
    var s := SettlementFor(values).value;
    assert s.paymentStatus == PaymentSuccess;
  }

  /** A failing status fails the order and records why. */
  lemma {:induction false} FailureCallbackRecordsReason(values: map<string, string>, o: Order, now: Timestamp)
    requires !Falsy(Lookup(values, "merchantOrderId")) && !Falsy(Lookup(values, "transactionId"))
    requires Lookup(values, "transactionStatus").Some? && values["transactionStatus"] in FailureStatuses
    ensures SettlementFor(values).Success?
    ensures var s := SettlementFor(values).value;
      var u := ApplyPaymentStatus(o, s.paymentStatus, s.extras, now);
      && !u.IsPaid() && u.paymentStatus == PaymentFailed && u.status == Failed
      && u.paymentFailedAt == Some(now)
      && u.paymentFailureReason == Some("Payment status: " + values["transactionStatus"])
  {
    var s := SettlementFor(values).value;
    assert values["transactionStatus"] != SuccessStatus;
    assert s.paymentStatus == PaymentFailed;
  }

  /** An unrecognised or missing status leaves the payment pending: the order
      status is untouched and the failure reason passed along is dropped. */
  lemma {:induction false} UnknownStatusCallbackStaysPending(values: map<string, string>, o: Order, now: Timestamp)
    requires !Falsy(Lookup(values, "merchantOrderId")) && !Falsy(Lookup(values, "transactionId"))
    requires Lookup(values, "transactionStatus").None?
      || (values["transactionStatus"] != SuccessStatus && values["transactionStatus"] !in FailureStatuses)
    ensures SettlementFor(values).Success?
    ensures var s := SettlementFor(values).value;
      var u := ApplyPaymentStatus(o, s.paymentStatus, s.extras, now);
      && s.extras.failureReason.Some?
      && u.IsPendingPayment() && u.status == o.status
      && u.paymentFailureReason == o.paymentFailureReason
  {
    var s := SettlementFor(values).value;
    assert s.paymentStatus == PaymentPending;
  }
}
