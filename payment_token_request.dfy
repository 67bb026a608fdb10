/** The rule closures of the payment-token request
    (app/Http/Requests/Payment/PaymentTokenRequest.php). Each closure becomes a
    function that returns the message it fails with, or `None` when it passes. */
module PaymentTokenRequest {
  import opened Wrappers
  import opened Php
  import opened Dinger
  import opened PaymentService

  /* ---------------- providerName and methodName ---------------- */

  /** The provider → methods table of the `methodName` rule. */
  function ProviderMethods(provider: string): (r: Option<seq<string>>)
    // the table has exactly the providers the `providerName` rule lists
    ensures r.Some? <==> provider in Providers
    ensures r.Some? ==> |r.value| > 0
  {
    if provider == "AYA Pay" then Some(["QR", "PIN"])
    else if provider == "OK$" then Some(["PIN"])
    else if provider == "Sai Sai Pay" then Some(["PIN"])
    else if provider == "Onepay" then Some(["PIN"])
    else if provider == "MPitesan" then Some(["PIN"])
    else if provider == "MPT Pay" then Some(["PIN"])
    else if provider == "CB Pay" then Some(["QR"])
    else if provider == "UAB Pay" then Some(["PIN"])
    else if provider == "KBZ Pay" then Some(["QR", "PWA"])
    else if provider == "Wave Pay" then Some(["PIN"])
    else if provider == "Visa" then Some(["OTP"])
    else if provider == "Master" then Some(["OTP"])
    else if provider == "JCB" then Some(["OTP"])
    else None
  }

  /** `array_map('strtoupper', $methods)` */
  function UpperAll(methods: seq<string>): (r: seq<string>)
    ensures |r| == |methods|
    ensures forall i :: 0 <= i < |r| ==> r[i] == ToUpper(methods[i])
  {
    seq(|methods|, i requires 0 <= i < |methods| => ToUpper(methods[i]))
  }

  /** Every method name in the table is already upper case. */
  lemma {:induction false} TableIsUpperCase(provider: string)
    requires provider in Providers
    ensures UpperAll(ProviderMethods(provider).value) == ProviderMethods(provider).value
  {
    var ms := ProviderMethods(provider).value;
    forall i | 0 <= i < |ms|
      ensures ToUpper(ms[i]) == ms[i]
    {
      var m := ms[i];
      assert m in ["QR", "PIN", "PWA", "OTP"];
      assert forall j :: 0 <= j < |m| ==> !IsLower(m[j]);
    }
  }

  const InvalidProviderMessage: string := "The selected providerName is invalid."

  function InvalidMethodMessage(provider: string): string {
    "The selected methodName is invalid for " + provider + "."
  }

  /** The `methodName` closure: the method, trimmed and upper-cased, must be one
      the provider offers. */
  function MethodRule(provider: Option<string>, methodName: string): (r: Option<string>)
    ensures r.None? <==>
      provider.Some? && provider.value in Providers
      && NormalizeMethod(methodName) in ProviderMethods(provider.value).value
    ensures provider.None? || provider.value !in Providers ==> r == Some(InvalidProviderMessage)
    ensures provider.Some? && provider.value in Providers && r.Some? ==>
      r.value == InvalidMethodMessage(provider.value)
  {
    if provider.None? || ProviderMethods(provider.value).None? then Some(InvalidProviderMessage)
    else
      var allowed := UpperAll(ProviderMethods(provider.value).value);
      TableIsUpperCase(provider.value);
      if NormalizeMethod(methodName) in allowed then None
      else Some(InvalidMethodMessage(provider.value))
  }

  /** The card providers offer OTP and nothing else. */
  lemma {:induction false} CardProvidersOfferOnlyOtp(provider: string)
    requires IsCardProvider(provider)
    ensures provider in Providers && ProviderMethods(provider) == Some(["OTP"])
  {
    assert provider == "Visa" || provider == "Master" || provider == "JCB";
  }

  /** No wallet provider offers OTP. */
  lemma {:induction false} WalletsOfferNoOtp(provider: string)
    requires provider in Providers && !IsCardProvider(provider)
    ensures "OTP" !in ProviderMethods(provider).value
  {
    var ms := ProviderMethods(provider).value;
    assert ms == ["QR", "PIN"] || ms == ["PIN"] || ms == ["QR"] || ms == ["QR", "PWA"];
  }

  /** OTP is the card providers' method, and theirs alone. */
  lemma {:induction false} OtpOnlyForCards(provider: string, methodName: string)
    requires provider in Providers
    requires NormalizeMethod(methodName) == "OTP"
    ensures MethodRule(Some(provider), methodName).None? <==> IsCardProvider(provider)
  {
    if IsCardProvider(provider) {
      CardProvidersOfferOnlyOtp(provider);
    } else {
      WalletsOfferNoOtp(provider);
    }
  }

  /** A card provider accepts nothing but OTP. */
  lemma {:induction false} CardsOnlyAcceptOtp(provider: string, methodName: string)
    requires IsCardProvider(provider)
    ensures MethodRule(Some(provider), methodName).None? <==> NormalizeMethod(methodName) == "OTP"
  {
    CardProvidersOfferOnlyOtp(provider);
  }

  /** "pin" needs no trimming and upper-cases to "PIN". */
  lemma {:induction false} PinNormalizes()
    ensures NormalizeMethod("pin") == "PIN"
  {
    var word := "pin";
    assert !IsTrimChar(word[0]) && !IsTrimChar(word[|word| - 1]);
    assert Trim(word) == word;
    var upper := ToUpper(word);
    assert upper[0] == 'P' && upper[1] == 'I' && upper[2] == 'N';
  }

  /** Case and surrounding blanks do not matter to the method rule. */
  lemma {:induction false} MethodRuleIgnoresCaseAndBlanks(provider: Option<string>, methodName: string,
                                                          front: string, back: string)
    requires forall i :: 0 <= i < |front| ==> IsTrimChar(front[i])
    requires forall i :: 0 <= i < |back| ==> IsTrimChar(back[i])
    ensures MethodRule(provider, front + methodName + back) == MethodRule(provider, methodName)
    ensures MethodRule(provider, ToUpper(methodName)) == MethodRule(provider, methodName)
  {
    NormalizeMethodIgnoresCaseAndBlanks(methodName, front, back);
  }

  /* ---------------- customerPhone ---------------- */

  /** The methods whose raw name switches the phone check on. */
  const PhoneCheckedMethods: seq<string> := ["PIN", "PWA", "OTP"]

  const PhonePrefixMessage: string := "Phone number must start with 09."
  const PhoneLengthMessage: string := "Phone number must be 11 digits."
  const PhoneDigitsMessage: string := "Phone number must contain only numbers."

  /** The rewrite the phone closure repeats from the payment service. */
  function RequestPhoneForm(value: string): (phone: string)
    // for a non-empty value it is the payment service's normal form
    ensures !Falsy(Some(value)) ==> phone == NormalizePhone(value)
  {
    var phone := KeepPhoneChars(value);
    if StartsWith(phone, "+959") then "09" + phone[4..]
    else if StartsWith(phone, "959") then "09" + phone[3..]
    else if |phone| == 9 && !StartsWith(phone, "09") then "09" + phone
    else phone
  }

  /** What the phone closure accepts: eleven digits starting with 09. */
  predicate IsLocalMobile(phone: string) {
    StartsWith(phone, "09") && |phone| == 11 && AllDigits(phone)
  }

  /** The `customerPhone` closure. It runs only for the raw, case-sensitive
      method names PIN, PWA and OTP and a non-empty phone, and reports the
      first failed check. */
  function PhoneRule(methodName: Option<string>, value: Option<string>): (r: Option<string>)
    ensures methodName.None? || methodName.value !in PhoneCheckedMethods || Falsy(value) ==> r.None?
    ensures methodName.Some? && methodName.value in PhoneCheckedMethods && !Falsy(value) ==>
      var phone := NormalizePhone(value.value);
      && (r.None? <==> IsLocalMobile(phone))
      && (r == Some(PhonePrefixMessage) <==> !StartsWith(phone, "09"))
      && (r == Some(PhoneLengthMessage) <==> StartsWith(phone, "09") && |phone| != 11)
      && (r == Some(PhoneDigitsMessage) <==> StartsWith(phone, "09") && |phone| == 11 && !AllDigits(phone))
  {
    if methodName.Some? && methodName.value in PhoneCheckedMethods && !Falsy(value) then
      var phone := RequestPhoneForm(value.value);
      if !StartsWith(phone, "09") then Some(PhonePrefixMessage)
      else if |phone| != 11 then Some(PhoneLengthMessage)
      else if !AllDigits(phone) then Some(PhoneDigitsMessage)
      else None
    else None
  }

  /** A phone the closure accepted reaches the payload, whenever one is built,
      as an eleven-digit 09 number. */
  lemma PhoneAcceptedMeansLocalMobileInPayload(order: Orders.Order, data: PaymentData, customer: Customer,
                                                products: map<int, Products.Product>, config: Config)
    requires data.methodName in PhoneCheckedMethods
    requires !Falsy(data.customerPhone)
    requires PhoneRule(Some(data.methodName), data.customerPhone).None?
    ensures var r := PreparedPayload(order, data, customer, products, config);
      r.Success? ==> IsLocalMobile(r.value.customerPhone)
  {}

  /** The check keys on the raw method name: "pin" passes the method rule for
      AYA Pay, yet switches the phone check off, so a phone with no digits at
      all is accepted and normalises to "". */
  lemma {:induction false} LowerCaseMethodSkipsPhoneCheck()
    ensures MethodRule(Some("AYA Pay"), "pin") == None
    ensures PhoneRule(Some("pin"), Some("abc")) == None
    ensures NormalizePhone("abc") == ""
  {
    PinNormalizes();
    assert ProviderMethods("AYA Pay") == Some(["QR", "PIN"]);
    assert "pin" !in PhoneCheckedMethods;
    var letters := "abc";
    assert forall i :: 0 <= i < |letters| ==> !IsPhoneChar(letters[i]);
  }

  /* ---------------- card-only fields ---------------- */

  /** The three fields a card payment needs. */
  datatype CardField = Email | BillAddress | BillCity {
    function RequiredMessage(): string {
      match this
      case Email => "Email is required for credit card payments."
      case BillAddress => "Billing address is required for credit card payments."
      case BillCity => "Billing city is required for credit card payments."
    }
  }

  /** The `email`, `billAddress` and `billCity` closures. */
  function CardFieldRule(field: CardField, providerName: Option<string>, value: Option<string>): (r: Option<string>)
    ensures r.Some? <==> providerName.Some? && IsCardProvider(providerName.value) && Falsy(value)
    ensures r.Some? ==> r.value == field.RequiredMessage()
  {
    if providerName.Some? && IsCardProvider(providerName.value) && Falsy(value) then Some(field.RequiredMessage())
    else None
  }

  /** A card request that passed the three closures sends, whenever a payload
      is built, one with all three card fields filled. */
  lemma CardRequestCarriesCardFields(order: Orders.Order, data: PaymentData, customer: Customer,
                                     products: map<int, Products.Product>, config: Config)
    requires IsCardProvider(data.providerName)
    requires CardFieldRule(Email, Some(data.providerName), data.email).None?
    requires CardFieldRule(BillAddress, Some(data.providerName), data.billAddress).None?
    requires CardFieldRule(BillCity, Some(data.providerName), data.billCity).None?
    ensures var r := PreparedPayload(order, data, customer, products, config);
      r.Success? ==> !Falsy(r.value.email) && !Falsy(r.value.billAddress) && !Falsy(r.value.billCity)
  {}
}
