# EMS hosted-payment gateway for WooCommerce, modelled in Dafny

This project models the hosted-payment bridge of the EMS payment gateway
for WooCommerce: the abstract `Emspay_Gateway` class that sits between a
WooCommerce order and the EMS hosted payment page. The model covers the
whole path from checkout to the hosted form:

- `validate_fields` checks the gateway's payment-method code against a
  fixed whitelist. On rejection it queues one checkout error notice.
- `process_payment` stores a payment snapshot on the order. The snapshot
  holds three post-meta keys: the transaction time, the numeric ISO 4217
  currency code and the payment method. It then answers WooCommerce with a
  success redirect to the order's pay page.
- `get_hosted_payment_args` builds the eight-field request for the hosted
  page. It reads the snapshot back from the order and adds the order total,
  the order id, the resolved language (`get_emspay_language`), the mobile
  flag and the shop timezone. The result then goes through the gateway's
  filter hook, where the gateway's own `hosted_payment_args` callback
  returns its input unchanged.

Files and modules:

- `php.dfy`, module `Php`. PHP's loose `in_array`. PHP compares two strings
  as numbers when both are numeric strings, and byte for byte otherwise.
  Every numeric string contains a decimal digit, so the model compares two
  strings exactly unless both contain a digit. For two strings that both
  contain a digit, numeric or not, the result of `==` is a parameter
  (`NumericEquality`). This over-approximates PHP: the model never claims an
  exact comparison where PHP would compare numerically.
- `wordpress.dfy`, module `WordPress`. The services the gateway calls, as
  pure functions: `get_post_meta`, `update_post_meta`, a `foreach` of
  updates, `apply_filters` as a left fold over the registered callbacks, and
  `wc_add_notice`.
- `emspay_gateway.dfy`, module `EmspayGateway`. The gateway itself: both
  whitelists, the default language, the snapshot keys and the eight request
  fields, and every operation of the bridge.
- `gateway_properties.dfy`, module `GatewayProperties`. Properties that
  relate several operations: the read-back of the snapshot, last write wins
  on a repeated payment, the neutral default filter, and concrete behaviour
  of both whitelists.

Several values the PHP code fetches from WordPress or from the clock are
parameters here:

- `get_locale()`, `wp_is_mobile()` and `wc_timezone_string()` arrive in a
  `Request`.
- `EmsCore\Order::getDateTime()` is the `transactionTime` argument.
- `Emspay_Currency::get_numeric_currency_code` is an uninterpreted
  `CurrencyTable`. `Emspay_Currency` is not part of this model.

Two error paths are absent from the code, and so from the model:

- `get_emspay_meta` has no unsupported-currency check. It stores whatever
  the currency lookup returns.
- `get_hosted_payment_args` raises no fault on an order without a snapshot.
  The magic property read returns the empty string, which the model keeps
  apart as `Missing`, and the request is built anyway.
  `HostedArgsWithoutSnapshot` states what happens.

## Model

| member | source | states |
|---|---|---|
| Php.LooseEquals | ems-payments-for-woocommerce/includes/abstracts/abstract-emspay-gateway.php:166 | PHP's `==` on two strings is exact, case-sensitive equality whenever one of them contains no digit and so cannot be numeric. |
| Php.InArray | ems-payments-for-woocommerce/includes/abstracts/abstract-emspay-gateway.php:166 | `in_array` without the strict flag is true exactly when some element is loosely equal to the needle. Loose equality is left to a parameter standing for PHP's `==` when both strings contain a digit, and is exact otherwise. |
| Php.InArrayIsExactMembership | ems-payments-for-woocommerce/includes/abstracts/abstract-emspay-gateway.php:295 | On a list with no numeric string, loose `in_array` is exact, case-sensitive membership, whatever PHP's numeric comparison does. |
| EmspayGateway.WhitelistsAreNonNumeric | ems-payments-for-woocommerce/includes/abstracts/abstract-emspay-gateway.php:21-55 | Neither the language list nor the payment-method list holds a string PHP could compare numerically, so both checks are exact. |
| EmspayGateway.GetEmspayLanguage | ems-payments-for-woocommerce/includes/abstracts/abstract-emspay-gateway.php:163-171 | A supported locale is returned unchanged. Any other locale gives the default `en_US`. The result is always a supported language. |
| EmspayGateway.ValidateFields | ems-payments-for-woocommerce/includes/abstracts/abstract-emspay-gateway.php:294-301 | Validation passes if and only if the method code is on the whitelist. On success no notice is added. On failure exactly one error notice "Invalid payment method." is appended. |
| WordPress.AddNotice | ems-payments-for-woocommerce/includes/abstracts/abstract-emspay-gateway.php:296 | `wc_add_notice` appends one notice with the given text and kind and keeps the earlier queue as its prefix. |
| EmspayGateway.GetEmspayMeta | ems-payments-for-woocommerce/includes/abstracts/abstract-emspay-gateway.php:202-212 | The snapshot writes exactly the three keys `_ems_txndatetime`, `_ems_currency_code` and `_ems_payment_method`, once each. It binds them to the transaction time, the numeric code of the order's currency and the gateway's method. |
| WordPress.UpdatePostMeta | ems-payments-for-woocommerce/includes/abstracts/abstract-emspay-gateway.php:197 | `update_post_meta` adds or overwrites one key and leaves every other key as it was. |
| WordPress.UpdateEach | ems-payments-for-woocommerce/includes/abstracts/abstract-emspay-gateway.php:196-198 | The loop of updates adds the written keys. The last write of each key wins. Every key not written keeps its value. |
| EmspayGateway.SaveEmspayMeta | ems-payments-for-woocommerce/includes/abstracts/abstract-emspay-gateway.php:194-199 | Saving changes only the order's meta. The meta gains the three snapshot keys with their values, and every other key keeps its value. |
| EmspayGateway.ProcessHostedPayment | ems-payments-for-woocommerce/includes/abstracts/abstract-emspay-gateway.php:221-226 | The hosted flow always answers "success" with a redirect to the order's pay page. |
| EmspayGateway.ProcessPayment | ems-payments-for-woocommerce/includes/abstracts/abstract-emspay-gateway.php:184-191 | A payment stores the snapshot on the order and leaves the other meta and order fields alone. It answers "success" with the pay-page redirect. |
| WordPress.GetPostMeta | ems-payments-for-woocommerce/includes/abstracts/abstract-emspay-gateway.php:264-267 | `get_post_meta` finds a value exactly when the key is stored, and the value it finds is the stored one. |
| EmspayGateway.OrderProperty | ems-payments-for-woocommerce/includes/abstracts/abstract-emspay-gateway.php:264-267 | `$order->name` for an undeclared name reads the meta key "_" + name, or is missing when that key is absent. |
| EmspayGateway.PropertyNamesMatchSnapshotKeys | ems-payments-for-woocommerce/includes/abstracts/abstract-emspay-gateway.php:264-267 | The three properties the request reads are the three meta keys the snapshot writes. |
| EmspayGateway.HostedArgsMap | ems-payments-for-woocommerce/includes/abstracts/abstract-emspay-gateway.php:259-268 | The request array has exactly the eight fields mobile, chargetotal, orderId, language, paymentMethod, currency, timezone and transactionTime, each holding its given value. |
| EmspayGateway.BaseHostedArgs | ems-payments-for-woocommerce/includes/abstracts/abstract-emspay-gateway.php:258-271 | Before filtering, the request has the eight fields. Method, currency and time are the stored snapshot values, or missing when not stored. The language is the resolved one. Total, id, mobile flag and timezone come from the order and the request. |
| EmspayGateway.GetHostedPaymentArgs | ems-payments-for-woocommerce/includes/abstracts/abstract-emspay-gateway.php:258-271 | The final request is the base request run through the other registered callbacks alone. The gateway's own callback adds nothing. |
| WordPress.ApplyFilters | ems-payments-for-woocommerce/includes/abstracts/abstract-emspay-gateway.php:259-268 | With no callbacks `apply_filters` returns the value it was given. Otherwise the last callback receives what all earlier callbacks made of the value, together with the extra argument (the order). |
| WordPress.ApplyFiltersAppend | ems-payments-for-woocommerce/includes/abstracts/abstract-emspay-gateway.php:259 | Running two lists of filter callbacks in turn is the same as running their concatenation. |
| WordPress.IdentityFilterIsNeutral | ems-payments-for-woocommerce/includes/abstracts/abstract-emspay-gateway.php:102 | A callback that returns its argument can sit anywhere in a filter chain without changing the result. |
| EmspayGateway.HostedPaymentArgs | ems-payments-for-woocommerce/includes/abstracts/abstract-emspay-gateway.php:304-306 | The gateway's own callback returns the request array it receives, whatever the order. |
| GatewayProperties.DefaultFilterIsIdentity | ems-payments-for-woocommerce/includes/abstracts/abstract-emspay-gateway.php:304-306 | `hosted_payment_args` returns its argument. With no other callbacks the request is the base map. When every other callback runs after the gateway's, the request is what those callbacks alone make of the base map. |
| GatewayProperties.HostedArgsReadBackSnapshot | ems-payments-for-woocommerce/includes/abstracts/abstract-emspay-gateway.php:258-271 | After `process_payment`, the hosted request carries the method, numeric currency and time that were stored, next to the order's total and id, the resolved language, the mobile flag and the timezone. |
| GatewayProperties.HostedArgsWithoutSnapshot | ems-payments-for-woocommerce/includes/abstracts/abstract-emspay-gateway.php:264-267 | On an order with no snapshot, the three read-back fields are missing. They are not recomputed or defaulted. |
| GatewayProperties.SnapshotDeterminesMeta | ems-payments-for-woocommerce/includes/abstracts/abstract-emspay-gateway.php:196-197 | Two metas that both extend the same earlier meta with the same snapshot values are equal. |
| GatewayProperties.SaveTwiceMeta | ems-payments-for-woocommerce/includes/abstracts/abstract-emspay-gateway.php:194-199 | Saving a second snapshot over a first leaves the same meta as saving only the second. |
| GatewayProperties.SaveTwiceKeepsOnlyLastSnapshot | ems-payments-for-woocommerce/includes/abstracts/abstract-emspay-gateway.php:194-199 | Saving twice gives the same whole order as saving once with the second snapshot. |
| GatewayProperties.RepeatedPaymentRecordsSameCurrencyAndMethod | ems-payments-for-woocommerce/includes/abstracts/abstract-emspay-gateway.php:184-191 | A second payment attempt on the same order records the same currency code and method and gives the same response. Only the transaction time changes, and the order equals a single payment at the second time. |
| GatewayProperties.SupportedLanguagePassesThrough | ems-payments-for-woocommerce/includes/abstracts/abstract-emspay-gateway.php:163-171 | fr_FR and pt_BR are returned unchanged. |
| GatewayProperties.SupportedLanguagesHaveLengthFive | ems-payments-for-woocommerce/includes/abstracts/abstract-emspay-gateway.php:21-37 | Every supported language tag has five characters. |
| GatewayProperties.UnsupportedByCharacter | ems-payments-for-woocommerce/includes/abstracts/abstract-emspay-gateway.php:21-37 | A locale that differs from every supported tag at one position is not supported. |
| GatewayProperties.NearMissLanguageFallsBack | ems-payments-for-woocommerce/includes/abstracts/abstract-emspay-gateway.php:166-168 | There is no prefix matching: en_CA and en_AU resolve to the default. |
| GatewayProperties.MalformedLanguageFallsBack | ems-payments-for-woocommerce/includes/abstracts/abstract-emspay-gateway.php:166-168 | ja_JP, the lower-case fr_fr, the bare code fr and the empty string all resolve to the default. |
| GatewayProperties.UnlistedByCharacter | ems-payments-for-woocommerce/includes/abstracts/abstract-emspay-gateway.php:43-55 | A code that differs from every whitelisted code at one position is not whitelisted. |
| GatewayProperties.IdealIsAccepted | ems-payments-for-woocommerce/includes/abstracts/abstract-emspay-gateway.php:294-301 | The "ideal" method passes validation and queues nothing. |
| GatewayProperties.UnlistedMethodsAreRefused | ems-payments-for-woocommerce/includes/abstracts/abstract-emspay-gateway.php:294-301 | The check is case-sensitive and closed: "iDeal" and "bitcoin" are each refused with exactly one error notice. |
| GatewayProperties.EuroIdealScenario | ems-payments-for-woocommerce/includes/abstracts/abstract-emspay-gateway.php:184-271 | A 49.99 EUR order paid by iDEAL from a French storefront, with 978 as EUR's code, produces a request with 978, fr_FR, ideal and 49.99. A ja_JP storefront gets en_US. |

## Left out

- The constructor, settings form, option loading, the action hooks and EMS core options wiring (lines 67-161): configuration plumbing with no logic to prove. The one filter registration at line 102 is modelled: `GetHostedPaymentArgs` always places `HostedPaymentArgs` in the filter chain, between the callbacks that run before and after it.
- `receipt_page`: it renders HTML and hands the request to the EMS request signer, which is not part of this model. Only the request it builds (`get_hosted_payment_args`) is modelled.
- `thankyou_page` (empty) and `log` (writes to the WooCommerce logger): no behaviour to model.
- Post meta is a single-valued map from key to string. WordPress can hold several rows under one key, and `update_post_meta` unslashes and sanitizes the value before storing it. WordPress.UpdatePostMeta stores the value verbatim. The stored values here are method codes, digit strings and date-times without backslashes, which unslashing leaves alone.
- `wc_get_order`: the order is passed in already loaded. A failed lookup is not modelled.
- `get_locale`, `wp_is_mobile`, `wc_timezone_string` and `EmsCore\Order::getDateTime`: clock and environment reads, taken as parameters.
- `Emspay_Currency::get_numeric_currency_code`: taken as an uninterpreted table. Its contents and its behaviour on an unknown code are not modelled.
- `__()`: translation is taken as the identity, so the notice text is the English source string.
- `get_checkout_payment_url(true)` is the order field `checkoutPaymentUrl`. How WooCommerce builds that URL is not modelled.
- PHP's `==` on two strings that both contain a digit is a parameter. The model does not decide which of them are numeric.
- Non-string payment-method values (null, booleans, integers under loose comparison) are not modelled. The method code is always a string.
- `get_total()` is kept as the order's total string. PHP's float formatting is not modelled.
- The request is a map, so the order of the PHP array's fields is not kept.
- EmspayGateway.OrderProperty: an absent meta key gives `Missing`, where PHP gives the empty string. The two are kept apart so that the lemmas can say "not stored".
- WooCommerce's checkout flow, which calls `validate_fields` before `process_payment`, lies outside this class. The two operations are modelled independently.
