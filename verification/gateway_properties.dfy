/**
  Properties that relate several gateway operations: the read-back of the
  payment snapshot into the hosted request, last-write-wins on a repeated
  payment attempt, the neutral default filter, and the concrete behaviour
  of the two whitelists.
 */
module GatewayProperties {
  import opened Php
  import opened WordPress
  import opened EmspayGateway

  /** Supported tags pass through unchanged. */
  lemma SupportedLanguagePassesThrough(numericEq: NumericEquality)
    ensures GetEmspayLanguage("fr_FR", numericEq) == "fr_FR"
    ensures GetEmspayLanguage("pt_BR", numericEq) == "pt_BR"
  {
    assert SupportedLanguages[7] == "fr_FR";
    assert SupportedLanguages[12] == "pt_BR";
  }

  /** Every supported tag has the five-character form `ll_RR`. */
  lemma SupportedLanguagesHaveLengthFive()
    ensures forall i :: 0 <= i < |SupportedLanguages| ==> |SupportedLanguages[i]| == 5
  {
  }

  /** A locale that differs from every supported tag at position `j` is not supported. */
  lemma UnsupportedByCharacter(locale: string, j: nat)
    requires j < |locale|
    requires forall i :: 0 <= i < |SupportedLanguages| ==> j < |SupportedLanguages[i]| && SupportedLanguages[i][j] != locale[j]
    ensures !IsSupportedLanguage(locale)
  {
  }

  /** No prefix fallback: en_CA and en_AU share their language with en_US and
      en_GB, yet both resolve to the default. */
  lemma NearMissLanguageFallsBack(numericEq: NumericEquality)
    ensures GetEmspayLanguage("en_CA", numericEq) == DefaultLanguage
    ensures GetEmspayLanguage("en_AU", numericEq) == DefaultLanguage
  {
    UnsupportedByCharacter("en_CA", 4);
    UnsupportedByCharacter("en_AU", 4);
  }

  /** Tags the hosted page lacks, wrong case, bare language codes and the
      empty string all resolve to the default. */
  lemma MalformedLanguageFallsBack(numericEq: NumericEquality)
    ensures GetEmspayLanguage("ja_JP", numericEq) == DefaultLanguage
    ensures GetEmspayLanguage("fr_fr", numericEq) == DefaultLanguage
    ensures GetEmspayLanguage("fr", numericEq) == DefaultLanguage
    ensures GetEmspayLanguage("", numericEq) == DefaultLanguage
  {
    UnsupportedByCharacter("ja_JP", 4);
    UnsupportedByCharacter("fr_fr", 3);
    SupportedLanguagesHaveLengthFive();
    assert !IsSupportedLanguage("fr") && !IsSupportedLanguage("");
  }

  /** A code that, at position `j`, differs from every whitelisted code (or
      is longer than it) is not whitelisted. */
  lemma UnlistedByCharacter(code: string, j: nat)
    requires j < |code|
    requires forall i :: 0 <= i < |SupportedPaymentMethods| ==>
      j >= |SupportedPaymentMethods[i]| || SupportedPaymentMethods[i][j] != code[j]
    ensures !IsSupportedPaymentMethod(code)
  {
  }

  /** "ideal" is on the whitelist: validation passes and queues nothing. */
  lemma IdealIsAccepted(id: string, notices: seq<Notice>, numericEq: NumericEquality)
    ensures ValidateFields(Gateway(id, "ideal"), notices, numericEq) == Validation(true, notices)
  {
    assert SupportedPaymentMethods[3] == "ideal";
  }

  /** The whitelist is case-sensitive and closed: "iDeal" and "bitcoin" are
      refused with exactly one error notice each. */
  lemma UnlistedMethodsAreRefused(id: string, notices: seq<Notice>, numericEq: NumericEquality)
    ensures ValidateFields(Gateway(id, "iDeal"), notices, numericEq)
      == Validation(false, notices + [Notice("Invalid payment method.", Error)])
    ensures ValidateFields(Gateway(id, "bitcoin"), notices, numericEq)
      == Validation(false, notices + [Notice("Invalid payment method.", Error)])
  {
    UnlistedByCharacter("iDeal", 1);
    UnlistedByCharacter("bitcoin", 0);
  }

  /** The post meta after a save is fixed by the meta before it and the
      three snapshot values: nothing else about the earlier meta shows. */
  lemma SnapshotDeterminesMeta(
    base: PostMeta, a: PostMeta, b: PostMeta, time: string, currency: string, code: string
  )
    requires a.Keys == base.Keys + SnapshotKeys && b.Keys == base.Keys + SnapshotKeys
    requires a[TxnDateTimeKey] == time && b[TxnDateTimeKey] == time
    requires a[CurrencyCodeKey] == currency && b[CurrencyCodeKey] == currency
    requires a[PaymentMethodKey] == code && b[PaymentMethodKey] == code
    requires forall k :: k in base && k !in SnapshotKeys ==> a[k] == base[k] && b[k] == base[k]
    ensures a == b
  {
  }

  /** Saving a second snapshot leaves no trace of the first in the order's
      meta: it equals what a single save of the second snapshot produces. */
  lemma SaveTwiceMeta(
    gateway: Gateway, order: Order, currencies: CurrencyTable, firstTime: string, secondTime: string
  )
    ensures SaveEmspayMeta(gateway, SaveEmspayMeta(gateway, order, currencies, firstTime), currencies, secondTime).meta
      == SaveEmspayMeta(gateway, order, currencies, secondTime).meta
  {
    var once := SaveEmspayMeta(gateway, order, currencies, firstTime);
    var twice := SaveEmspayMeta(gateway, once, currencies, secondTime);
    var direct := SaveEmspayMeta(gateway, order, currencies, secondTime);
    assert once.currency == order.currency;
    SnapshotDeterminesMeta(order.meta, twice.meta, direct.meta, secondTime, currencies(order.currency), gateway.paymentMethod);
  }

  /** Saving twice is saving once with the second snapshot: the whole order,
      not only its meta, is the same. */
  lemma SaveTwiceKeepsOnlyLastSnapshot(
    gateway: Gateway, order: Order, currencies: CurrencyTable, firstTime: string, secondTime: string
  )
    ensures SaveEmspayMeta(gateway, SaveEmspayMeta(gateway, order, currencies, firstTime), currencies, secondTime)
      == SaveEmspayMeta(gateway, order, currencies, secondTime)
  {
    var once := SaveEmspayMeta(gateway, order, currencies, firstTime);
    var twice := SaveEmspayMeta(gateway, once, currencies, secondTime);
    var direct := SaveEmspayMeta(gateway, order, currencies, secondTime);
    SaveTwiceMeta(gateway, order, currencies, firstTime, secondTime);
    assert twice == once.(meta := twice.meta) == order.(meta := twice.meta);
    assert direct == order.(meta := direct.meta);
  }

  /** Two payment attempts with the same gateway and currency record the same
      currency code and method and give the same redirect; only the
      transaction time may differ. */
  lemma RepeatedPaymentRecordsSameCurrencyAndMethod(
    gateway: Gateway, order: Order, currencies: CurrencyTable, firstTime: string, secondTime: string
  )
    ensures var (first, firstResponse) := ProcessPayment(gateway, order, currencies, firstTime);
            var (second, secondResponse) := ProcessPayment(gateway, first, currencies, secondTime);
            && second.meta[CurrencyCodeKey] == first.meta[CurrencyCodeKey]
            && second.meta[PaymentMethodKey] == first.meta[PaymentMethodKey]
            && second.meta[TxnDateTimeKey] == secondTime
            && secondResponse == firstResponse
            && second == SaveEmspayMeta(gateway, order, currencies, secondTime)
  {
    SaveTwiceKeepsOnlyLastSnapshot(gateway, order, currencies, firstTime, secondTime);
  }

  /** After `process_payment`, the hosted request carries exactly the
      snapshot that was stored: method, numeric currency and time come back
      unchanged, next to the order's total and id and the resolved language. */
  lemma HostedArgsReadBackSnapshot(
    gateway: Gateway, order: Order, currencies: CurrencyTable, transactionTime: string,
    request: Request, numericEq: NumericEquality
  )
    ensures var saved := ProcessPayment(gateway, order, currencies, transactionTime).0;
            var args := GetHostedPaymentArgs(saved, request, numericEq, [], []);
            && args.Keys == HostedArgKeys
            && args["paymentMethod"] == Text(gateway.paymentMethod)
            && args["currency"] == Text(currencies(order.currency))
            && args["transactionTime"] == Text(transactionTime)
            && args["chargetotal"] == Text(order.total)
            && args["orderId"] == Integer(order.id)
            && args["language"] == Text(GetEmspayLanguage(request.locale, numericEq))
            && args["mobile"] == Flag(request.isMobile)
            && args["timezone"] == Text(request.timezone)
  {
    var saved := ProcessPayment(gateway, order, currencies, transactionTime).0;
    var base := BaseHostedArgs(saved, request, numericEq);
    assert GetHostedPaymentArgs(saved, request, numericEq, [], []) == ApplyFilters(base, saved, []);
  }

  /** Without a snapshot on the order, the three read-back fields are absent
      rather than recomputed or defaulted. */
  lemma HostedArgsWithoutSnapshot(order: Order, request: Request, numericEq: NumericEquality)
    requires SnapshotKeys !! order.meta.Keys
    ensures var args := BaseHostedArgs(order, request, numericEq);
            args["paymentMethod"] == Missing && args["currency"] == Missing && args["transactionTime"] == Missing
  {
    assert PaymentMethodKey !in order.meta && CurrencyCodeKey !in order.meta && TxnDateTimeKey !in order.meta;
  }

  /** The gateway's own `hosted_payment_args` callback changes nothing, so
      with no other callbacks the final request is the base field map, and
      when every other callback runs after it, the request is what those
      callbacks alone make of the base map. */
  lemma DefaultFilterIsIdentity(
    order: Order, request: Request, numericEq: NumericEquality, after: seq<Filter<HostedArgs, Order>>
  )
    ensures forall args, o :: HostedPaymentArgs(args, o) == args
    ensures GetHostedPaymentArgs(order, request, numericEq, [], []) == BaseHostedArgs(order, request, numericEq)
    ensures GetHostedPaymentArgs(order, request, numericEq, [], after)
      == ApplyFilters(BaseHostedArgs(order, request, numericEq), order, after)
  {
    var none: seq<Filter<HostedArgs, Order>> := [];
    assert none + none == none;
    assert none + after == after;
  }

  /** A euro order of 49.99 paid by iDEAL from a French storefront, with the
      provider's code 978 for EUR: the request carries 978, fr_FR, ideal and
      49.99, and an unsupported storefront locale falls back to en_US. */
  lemma EuroIdealScenario(
    order: Order, currencies: CurrencyTable, transactionTime: string,
    isMobile: bool, timezone: string, numericEq: NumericEquality
  )
    requires order.total == "49.99" && order.currency == "EUR"
    requires currencies("EUR") == "978"
    ensures var (saved, response) := ProcessPayment(Gateway("emspay_ideal", "ideal"), order, currencies, transactionTime);
            var args := GetHostedPaymentArgs(saved, Request("fr_FR", isMobile, timezone), numericEq, [], []);
            && response.result == "success"
            && saved.meta[CurrencyCodeKey] == "978"
            && saved.meta[PaymentMethodKey] == "ideal"
            && args["currency"] == Text("978")
            && args["language"] == Text("fr_FR")
            && args["paymentMethod"] == Text("ideal")
            && args["chargetotal"] == Text("49.99")
    ensures var saved := ProcessPayment(Gateway("emspay_ideal", "ideal"), order, currencies, transactionTime).0;
            GetHostedPaymentArgs(saved, Request("ja_JP", isMobile, timezone), numericEq, [], [])["language"]
              == Text(DefaultLanguage)
  {
    var gateway := Gateway("emspay_ideal", "ideal");
    SupportedLanguagePassesThrough(numericEq);
    MalformedLanguageFallsBack(numericEq);
    HostedArgsReadBackSnapshot(gateway, order, currencies, transactionTime, Request("fr_FR", isMobile, timezone), numericEq);
    HostedArgsReadBackSnapshot(gateway, order, currencies, transactionTime, Request("ja_JP", isMobile, timezone), numericEq);
  }
}
