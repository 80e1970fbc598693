/**
  The hosted-payment bridge of the EMS payment gateway for WooCommerce:
  language resolution, payment-method validation, the order-meta snapshot
  written by `process_payment`, and the field map handed to the hosted
  payment page.

  Everything the PHP code reads from its surroundings is a parameter here:
  the WordPress locale, the mobile flag, the shop timezone and the
  transaction time-stamp travel in a `Request`, the ISO-to-numeric currency
  table is an uninterpreted `CurrencyTable`, and PHP's numeric string
  comparison is a `NumericEquality`.
 */
module EmspayGateway {
  import opened Php
  import opened WordPress

  /** The hosted page's languages, in the order the gateway lists them. */
  const SupportedLanguages: seq<string> := [
    "zh_CN", "zh_TW", "cs_CZ", "nl_NL", "en_US", "en_GB", "fi_FI", "fr_FR",
    "de_DE", "el_GR", "it_IT", "pl_PL", "pt_BR", "sk_SK", "es_ES"
  ]

  const DefaultLanguage: string := "en_US"

  /** Card brands and redirect methods the hosted page accepts. */
  const SupportedPaymentMethods: seq<string> := [
    "M", "V", "C", "ideal", "klarna", "MA", "maestroUK", "masterpass",
    "paypal", "sofort", "BCMC"
  ]

  const InvalidPaymentMethodMessage: string := "Invalid payment method."

  /** The three order-meta keys of the payment snapshot. */
  const TxnDateTimeKey: string := "_ems_txndatetime"
  const CurrencyCodeKey: string := "_ems_currency_code"
  const PaymentMethodKey: string := "_ems_payment_method"

  const SnapshotKeys: set<string> := {TxnDateTimeKey, CurrencyCodeKey, PaymentMethodKey}

  /** The eight fields of the hosted-payment request. */
  const HostedArgKeys: set<string> := {
    "mobile", "chargetotal", "orderId", "language",
    "paymentMethod", "currency", "timezone", "transactionTime"
  }

  /** ISO 4217 alphabetic code to the numeric code the provider expects. */
  type CurrencyTable = string -> string

  /** One configured gateway: its WooCommerce id and the method it charges with. */
  datatype Gateway = Gateway(id: string, paymentMethod: string)

  /** The WooCommerce order as this core sees it; `meta` is its stored post meta. */
  datatype Order = Order(
    id: int,
    total: string,
    currency: string,
    checkoutPaymentUrl: string,
    meta: PostMeta
  )

  /** Request-scoped ambient values the PHP code fetches from WordPress. */
  datatype Request = Request(
    locale: string,
    isMobile: bool,
    timezone: string
  )

  /** A value in the hosted-payment field map. `Missing` stands for an order
      property whose meta key was never written. */
  datatype ArgValue = Text(text: string) | Flag(flag: bool) | Integer(number: int) | Missing

  type HostedArgs = map<string, ArgValue>

  /** Outcome of `validate_fields`: the boolean it returns and the session
      notice queue after the call. */
  datatype Validation = Validation(valid: bool, notices: seq<Notice>)

  /** The array `process_payment` hands back to WooCommerce. */
  datatype PaymentResponse = PaymentResponse(result: string, redirect: string)

  /** Neither whitelist holds a string PHP could compare numerically. */
  lemma WhitelistsAreNonNumeric()
    ensures NonNumericList(SupportedLanguages)
    ensures NonNumericList(SupportedPaymentMethods)
  {
    forall i | 0 <= i < |SupportedLanguages| ensures !MayBeNumeric(SupportedLanguages[i]) {
      var s := SupportedLanguages[i];
      assert |s| == 5;
      assert forall j :: 0 <= j < 5 ==> !IsDigit(s[j]);
    }
    forall i | 0 <= i < |SupportedPaymentMethods| ensures !MayBeNumeric(SupportedPaymentMethods[i]) {
      var s := SupportedPaymentMethods[i];
      assert forall j :: 0 <= j < |s| ==> !IsDigit(s[j]);
    }
  }

  /** The hosted page offers this language tag (exact, case-sensitive match). */
  predicate IsSupportedLanguage(locale: string) {
    locale in SupportedLanguages
  }

  /** The hosted page accepts this payment-method code (exact, case-sensitive match). */
  predicate IsSupportedPaymentMethod(code: string) {
    code in SupportedPaymentMethods
  }

  /** `get_emspay_language`: the locale itself when the hosted page supports
      it (exact match only), the default language otherwise. */
  function GetEmspayLanguage(locale: string, numericEq: NumericEquality): (language: string)
    ensures IsSupportedLanguage(locale) ==> language == locale
    ensures !IsSupportedLanguage(locale) ==> language == DefaultLanguage
    ensures IsSupportedLanguage(language)
  {
    WhitelistsAreNonNumeric();
    InArrayIsExactMembership(locale, SupportedLanguages, numericEq);
    if !InArray(locale, SupportedLanguages, numericEq) then DefaultLanguage else locale
  }

  /** `validate_fields`: accepts exactly the whitelisted method codes, and on
      rejection queues one error notice. */
  function ValidateFields(gateway: Gateway, notices: seq<Notice>, numericEq: NumericEquality): (v: Validation)
    ensures v.valid <==> IsSupportedPaymentMethod(gateway.paymentMethod)
    ensures v.valid ==> v.notices == notices
    ensures !v.valid ==> v.notices == notices + [Notice(InvalidPaymentMethodMessage, Error)]
  {
    WhitelistsAreNonNumeric();
    InArrayIsExactMembership(gateway.paymentMethod, SupportedPaymentMethods, numericEq);
    if !InArray(gateway.paymentMethod, SupportedPaymentMethods, numericEq) then
      Validation(false, AddNotice(notices, InvalidPaymentMethodMessage, Error))
    else
      Validation(true, notices)
  }

  /** Some entry of the list writes `value` under `key`. */
  predicate Binds(entries: seq<MetaEntry>, key: string, value: string) {
    exists i :: 0 <= i < |entries| && entries[i] == (key, value)
  }

  /** `get_emspay_meta`: the snapshot of transaction time, numeric currency
      and payment method, as the ordered array the PHP code builds. */
  function GetEmspayMeta(gateway: Gateway, order: Order, currencies: CurrencyTable, transactionTime: string): (entries: seq<MetaEntry>)
    ensures |entries| == 3
    ensures KeysOf(entries) == SnapshotKeys
    ensures forall i :: 0 <= i < |entries| ==> WrittenLast(entries, i)
    ensures Binds(entries, TxnDateTimeKey, transactionTime)
    ensures Binds(entries, CurrencyCodeKey, currencies(order.currency))
    ensures Binds(entries, PaymentMethodKey, gateway.paymentMethod)
  {
    var entries := [
      (TxnDateTimeKey, transactionTime),
      (CurrencyCodeKey, currencies(order.currency)),
      (PaymentMethodKey, gateway.paymentMethod)
    ];
    assert entries[0].0 in KeysOf(entries) && entries[1].0 in KeysOf(entries) && entries[2].0 in KeysOf(entries);
    entries
  }

  /** `save_emspay_meta`: writes the snapshot onto the order's meta, one
      `update_post_meta` per key. */
  function SaveEmspayMeta(gateway: Gateway, order: Order, currencies: CurrencyTable, transactionTime: string): (saved: Order)
    ensures saved == order.(meta := saved.meta)
    ensures saved.meta.Keys == order.meta.Keys + SnapshotKeys
    ensures saved.meta[TxnDateTimeKey] == transactionTime
    ensures saved.meta[CurrencyCodeKey] == currencies(order.currency)
    ensures saved.meta[PaymentMethodKey] == gateway.paymentMethod
    ensures forall k :: k in order.meta && k !in SnapshotKeys ==> saved.meta[k] == order.meta[k]
  {
    var entries := GetEmspayMeta(gateway, order, currencies, transactionTime);
    order.(meta := UpdateEach(order.meta, entries))
  }

  /** `process_hosted_payment`: always a success with a redirect to the
      order's pay page, where the hosted form is rendered. */
  function ProcessHostedPayment(order: Order): (response: PaymentResponse)
    ensures response.result == "success"
    ensures response.redirect == order.checkoutPaymentUrl
  {
    PaymentResponse("success", order.checkoutPaymentUrl)
  }

  /** `process_payment`: saves the snapshot, then answers with the redirect.
      Returns the order as stored afterwards and the response. */
  function ProcessPayment(gateway: Gateway, order: Order, currencies: CurrencyTable, transactionTime: string): (out: (Order, PaymentResponse))
    ensures out.0 == order.(meta := out.0.meta)
    ensures out.0.meta.Keys == order.meta.Keys + SnapshotKeys
    ensures out.0.meta[TxnDateTimeKey] == transactionTime
    ensures out.0.meta[CurrencyCodeKey] == currencies(order.currency)
    ensures out.0.meta[PaymentMethodKey] == gateway.paymentMethod
    ensures forall k :: k in order.meta && k !in SnapshotKeys ==> out.0.meta[k] == order.meta[k]
    ensures out.1 == PaymentResponse("success", order.checkoutPaymentUrl)
  {
    var saved := SaveEmspayMeta(gateway, order, currencies, transactionTime);
    (saved, ProcessHostedPayment(saved))
  }

  /** `$order->name` for a name the order does not declare: WooCommerce
      reads the post meta stored under "_" + name. */
  function OrderProperty(order: Order, name: string): (v: ArgValue)
    ensures ("_" + name) in order.meta ==> v == Text(order.meta["_" + name])
    ensures ("_" + name) !in order.meta ==> v == Missing
  {
    StoredArg(order, "_" + name)
  }

  /** The order properties the request reads are the meta keys the snapshot writes. */
  lemma PropertyNamesMatchSnapshotKeys()
    ensures "_" + "ems_payment_method" == PaymentMethodKey
    ensures "_" + "ems_currency_code" == CurrencyCodeKey
    ensures "_" + "ems_txndatetime" == TxnDateTimeKey
  {
  }

  /** The stored value of one meta key, as it appears in the request. */
  function StoredArg(order: Order, key: string): ArgValue {
    match GetPostMeta(order.meta, key)
    case Some(s) => Text(s)
    case None => Missing
  }

  /** The eight-field array literal of `get_hosted_payment_args`. */
  function HostedArgsMap(
    mobile: bool, total: string, orderId: int, language: string,
    paymentMethod: ArgValue, currency: ArgValue, timezone: string, transactionTime: ArgValue
  ): (args: HostedArgs)
    ensures args.Keys == HostedArgKeys
    ensures args["mobile"] == Flag(mobile)
    ensures args["chargetotal"] == Text(total)
    ensures args["orderId"] == Integer(orderId)
    ensures args["language"] == Text(language)
    ensures args["paymentMethod"] == paymentMethod
    ensures args["currency"] == currency
    ensures args["timezone"] == Text(timezone)
    ensures args["transactionTime"] == transactionTime
  {
    map[
      "mobile" := Flag(mobile),
      "chargetotal" := Text(total),
      "orderId" := Integer(orderId),
      "language" := Text(language),
      "paymentMethod" := paymentMethod,
      "currency" := currency,
      "timezone" := Text(timezone),
      "transactionTime" := transactionTime
    ]
  }

  /** The base field map of `get_hosted_payment_args`, before filtering.
      Method, currency and time are read back from the stored snapshot. */
  function BaseHostedArgs(order: Order, request: Request, numericEq: NumericEquality): (args: HostedArgs)
    ensures args.Keys == HostedArgKeys
    ensures args["mobile"] == Flag(request.isMobile)
    ensures args["chargetotal"] == Text(order.total)
    ensures args["orderId"] == Integer(order.id)
    ensures args["language"] == Text(GetEmspayLanguage(request.locale, numericEq))
    ensures args["paymentMethod"] == StoredArg(order, PaymentMethodKey)
    ensures args["currency"] == StoredArg(order, CurrencyCodeKey)
    ensures args["timezone"] == Text(request.timezone)
    ensures args["transactionTime"] == StoredArg(order, TxnDateTimeKey)
  {
    PropertyNamesMatchSnapshotKeys();
    HostedArgsMap(
      request.isMobile, order.total, order.id, GetEmspayLanguage(request.locale, numericEq),
      OrderProperty(order, "ems_payment_method"), OrderProperty(order, "ems_currency_code"),
      request.timezone, OrderProperty(order, "ems_txndatetime"))
  }

  /** `hosted_payment_args`: the gateway's own callback on its hosted-args
      filter, which hands the field map back untouched. */
  function HostedPaymentArgs(args: HostedArgs, order: Order): (filtered: HostedArgs)
    ensures filtered == args
  {
    args
  }

  /** `get_hosted_payment_args`: the base map run through the filter hook,
      where `before` and `after` are the callbacks other code registered to
      run before and after the gateway's own. */
  function GetHostedPaymentArgs(
    order: Order, request: Request, numericEq: NumericEquality,
    before: seq<Filter<HostedArgs, Order>>, after: seq<Filter<HostedArgs, Order>>
  ): (args: HostedArgs)
    ensures args == ApplyFilters(BaseHostedArgs(order, request, numericEq), order, before + after)
  {
    IdentityFilterIsNeutral(BaseHostedArgs(order, request, numericEq), order, HostedPaymentArgs, before, after);
    ApplyFilters(BaseHostedArgs(order, request, numericEq), order, before + [HostedPaymentArgs] + after)
  }
}
