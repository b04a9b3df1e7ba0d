# Splits Tecnologia payments for WooCommerce — a Dafny model of its decision logic

The plugin lets a WooCommerce store take credit-card and bank-slip ("boleto")
payments through the Splits Tecnologia gateway. Most of it is glue to
WooCommerce and to the vendor's HTTP API. This project models the decisions
the plugin makes, as pure functions over small datatypes:

- the payment-status state machine (`process_order_status`). A vendor status
  string becomes a list of effects on the order: status updates, order notes,
  payment completion and admin e-mails. Applying those effects gives the
  order's new status (`OrderStatus`, `VendorStatus`);
- notification (IPN) handling (`Notification`):
  - authentication by fingerprint, a SHA-1 hash of `id#api_key`;
  - the 200/401 reply;
  - applying the reported status to the order found through the transaction id;
  - the read-modify-write merge of a delivered bank-slip URL;
- installment rules (`Installments`):
  - the smallest installment;
  - the largest installment count a quote table allows;
  - the `smallest_installment` request variable;
  - the ordered checks of `generate_checkout_data`;
- the synchronous payment path (`RegularPayment`): the transaction array, card-brand
  display names, the admin-visible meta fields, and `process_regular_payment`;
- the two gateways (`CreditCardGateway`, `BankingTicketGateway`):
  - availability;
  - the order-received page and customer e-mail guards and template choice;
  - the installment settings;
  - delegation of `process_payment`;
- the checkout script's place-order handler (`CardForm`):
  - digit filtering and the month/year split;
  - the error and submit branches;
  - the single card-hash input.

Shared pieces live in `Common` (option, result, PHP's `empty()`) and `Woo`:
- the order, its statuses and post meta;
- the status effect of WooCommerce's own `payment_complete`. That method belongs to the
  commerce system, not to this repository. The model follows WooCommerce's rule: an order
  that is pending, on hold, failed or cancelled moves to processing (or to completed when it
  needs no processing); any other order keeps its status.

Collaborators the source calls become parameters:
- `sha1` is a function parameter `string -> string` with no interpretation;
- the post meta query behind the notification lookup is the `index` map of `Notification.Store`;
- the vendor's HTTP answers are inputs: the decoded sale response, the quote table and the transaction fields;
- the card library's `fieldErrors` and `generateHash` are function parameters;
- the store's price formatting is a function parameter.

## Model

| member | source | states |
|---|---|---|
| VendorStatus.ParseName | includes/class-wc-splits-api.php:683-743 | every vendor status is recognised from its own spelling |
| VendorStatus.ParseExactly | includes/class-wc-splits-api.php:683-743 | a string selects a status case exactly when it is that status's spelling; anything else reaches the default case |
| OrderStatus.Step | includes/class-wc-splits-api.php:683-745 | an unknown status has no effect. `refused` and `refunded` send exactly one admin e-mail and every other status sends none. `paid` always ends with payment completion and adds the "Transaction paid" note iff the order is neither processing nor completed |
| OrderStatus.TransitionTable | includes/class-wc-splits-api.php:684-743 | `authorized` moves to on-hold unless the order is processing or completed, else keeps the status. `pending_review`, `processing` and `waiting_payment` always move to on-hold. `paid` is payment completion. `refused` moves to failed, `refunded` to refunded. Any other string leaves the order unchanged |
| OrderStatus.Transition | includes/class-wc-splits-api.php:678-745 | the state machine changes only the status: id, total, payment method and meta are untouched |
| OrderStatus.TransitionIdempotent | includes/class-wc-splits-api.php:683-745 | delivering the same status twice leaves the order as one delivery does |
| OrderStatus.RepeatedDeliveryEmailsAgain | includes/class-wc-splits-api.php:715-740 | admin e-mails are at-least-once: a repeated `refused`/`refunded` sends another e-mail |
| OrderStatus.PaidTwiceNotesOnce | includes/class-wc-splits-api.php:702-710 | a second `paid` after a first one settled the order writes no second note and changes nothing |
| OrderStatus.RefundedOrderNotesPaidAgain | includes/class-wc-splits-api.php:702-710 | a `paid` delivery leaves a refunded order refunded and writes the "Transaction paid" note every time, since the note guard only skips processing and completed orders |
| Notification.CheckFingerprint | includes/class-wc-splits-api.php:601-611 | an accepted notification has id, status and fingerprint, and the fingerprint is the hash of `id#api_key` |
| Notification.SignedIsAccepted | includes/class-wc-splits-api.php:601-611 | a notification the vendor signs with the shared key is accepted |
| Notification.AcceptedIffSigned | includes/class-wc-splits-api.php:601-611 | a notification is accepted iff it is the signed notification for its own id and status; a missing field or any other fingerprint is rejected |
| Notification.AlteredFingerprintRejected | includes/class-wc-splits-api.php:605-607 | changing one character of a valid fingerprint gets the notification rejected |
| Notification.MergeBoletoUrl | includes/class-wc-splits-api.php:664-669 | the merge sets `boleto_url` in the transaction data and keeps every other key of it and every other meta entry |
| Notification.ProcessSuccessfulIpn | includes/class-wc-splits-api.php:652-670 | only the order found through the transaction id changes. The index and the set of orders stay. With no order found nothing changes and nothing is sent |
| Notification.AppliedToFoundOrder | includes/class-wc-splits-api.php:656-669 | for the found order, the effects and the new status are the state machine's. Its meta changes only through the bank-slip merge, which happens iff a URL is delivered for a bank-slip order |
| Notification.UpdateOrderIdempotent | includes/class-wc-splits-api.php:660-669 | updating an order twice with the same notification changes it once |
| Notification.ProcessSuccessfulIpnIdempotent | includes/class-wc-splits-api.php:652-670 | applying the same notification twice gives the store one application gives |
| Notification.HandleIpn | includes/class-wc-splits-api.php:628-645 | the reply is 200 iff the POST is non-empty and authentic, and a 200 applies that notification to the store exactly as `process_successful_ipn` does. A 401 changes no order and sends nothing |
| Notification.PaidNotificationDeliveredTwice | includes/class-wc-splits-api.php:633-710 | a signed `paid` notification for any indexed transaction id, delivered twice to an order that can still be paid (pending, on hold, failed or cancelled), settles it on the first delivery and writes the "Transaction paid" note then; the second delivery changes nothing and writes no second note |
| Installments.SmallestInstallment | includes/class-wc-splits-api.php:112-114 | the smallest installment is the larger of 500 and the setting, so never below 500 |
| Installments.QuerySmallestInstallment | includes/class-wc-splits-api.php:176 | the request sends 0 when only one installment is allowed |
| Installments.QueryAgreesWithFloor | includes/class-wc-splits-api.php:176 | with more than one installment allowed, the request value equals the checkout floor iff the setting is at least 5 |
| Installments.AffordableRunIsLongest | includes/class-wc-splits-api.php:209-215 | the scan's run is the longest prefix of quotes whose installment reaches the minimum |
| Installments.MaxInstallment | includes/class-wc-splits-api.php:204-218 | the result is the count of the last quote in that prefix. It is 1 when the table is empty or its first quote is below the minimum |
| Installments.Lookup | includes/class-wc-splits-api.php:367-375 | a found quote is in the table with the requested count; no quote means no row has that count |
| Installments.GenerateCheckoutData | includes/class-wc-splits-api.php:357-404 | the invalid-data error occurs iff the amount is missing; success returns exactly the transaction amount |
| Installments.CheckoutAcceptsExactly | includes/class-wc-splits-api.php:361-401 | success iff the amount is set and the count is within the maximum and quoted. The installment must reach the floor unless it is a single one, and the quoted total must equal the amount |
| Installments.SingleInstallmentExempt | includes/class-wc-splits-api.php:378 | a single installment is never rejected as below the smallest installment |
| Installments.CheckoutErrorOrder | includes/class-wc-splits-api.php:361-393 | each error is reported only when every earlier check passed: count/quote, then minimum, then total |
| RegularPayment.CardBrandName | includes/class-wc-splits-api.php:503-517 | a known brand gets a display name different from its key; any other brand is returned unchanged |
| RegularPayment.CardBrandNameIdempotent | includes/class-wc-splits-api.php:504-516 | naming a brand twice gives the same name, because no display name is a brand key |
| RegularPayment.SaveOrderMetaFields | includes/class-wc-splits-api.php:526-545 | a `boleto` transaction writes only the bank-slip URL label; any other writes only the four card labels. Each label is written iff its field is non-empty, and all other meta is kept |
| RegularPayment.ProcessRegularPayment | includes/class-wc-splits-api.php:557-593 | fails iff the vendor status is not 200; the order is then unchanged and one error notice shows the message. On success the order is payment-completed, the order id is stored as the transaction id, the transaction data holds the order's payment method and the posted installment count, `_transaction_id` is 0, the cart is emptied last, and the checkout redirected |
| RegularPayment.RegularPaymentKeepsSplitsKeys | includes/class-wc-splits-api.php:569-577 | the synchronous path never writes `_wc_splits_transaction_id` nor `_wc_splits_transaction_data` |
| RegularPayment.RegularPaymentWritesCardFields | includes/class-wc-splits-api.php:526-537 | an order whose payment method is not literally `boleto` always gets the card branch's installment label |
| CreditCardGateway.IsAvailable | includes/class-wc-splits-credit-card-gateway.php:100-102 | available only when the parent is, the secret key is not PHP-empty and the currency is BRL |
| CreditCardGateway.ThankYouPage | includes/class-wc-splits-credit-card-gateway.php:333-348 | instructions render iff the transaction data has `installments` and the order is processing or on-hold, showing that count |
| CreditCardGateway.EmailInstructionsFor | includes/class-wc-splits-credit-card-gateway.php:359-379 | nothing for admin e-mails, other statuses or other payment methods. Otherwise the template renders iff `installments` is set, plain iff `plain_text` |
| CreditCardGateway.EmailAgreesWithThankYouPage | includes/class-wc-splits-credit-card-gateway.php:337-366 | the customer e-mail shows instructions only when the order-received page does, with the same content |
| CreditCardGateway.InstallmentSettingsRanges | includes/class-wc-splits-credit-card-gateway.php:165-222 | `max_installment` options are exactly 1..12 with default 12; `free_installments` options are exactly 0..12 with default 1 |
| CreditCardGateway.ProcessPayment | includes/class-wc-splits-credit-card-gateway.php:324-326 | returns exactly what the regular payment returns for the same order |
| BankingTicketGateway.IsAvailable | includes/class-wc-splits-banking-ticket-gateway.php:71-73 | available only when the parent is, both keys are not PHP-empty and the currency is BRL |
| BankingTicketGateway.AvailabilityComparedToCard | includes/class-wc-splits-banking-ticket-gateway.php:71-73 | the bank-slip gateway is available iff the card gateway would be with the same key and the encryption key is set |
| BankingTicketGateway.TemplateFor | includes/class-wc-splits-banking-ticket-gateway.php:181 | the `payment` template iff `async` is exactly `no`, else `async` |
| BankingTicketGateway.ThankYouPage | includes/class-wc-splits-banking-ticket-gateway.php:176-192 | instructions render iff `boleto_url` is set and the order is processing or on-hold, with that URL |
| BankingTicketGateway.EmailInstructionsFor | includes/class-wc-splits-banking-ticket-gateway.php:203-222 | nothing for admin e-mails, other statuses or other payment methods. Otherwise the template renders iff `boleto_url` is set, plain iff `plain_text`, with that URL |
| BankingTicketGateway.DeliveredUrlIsShown | includes/class-wc-splits-api.php:664-669 | a URL delivered for a bank-slip order left processing or on-hold appears on its order-received page and customer e-mail |
| BankingTicketGateway.ProcessPayment | includes/class-wc-splits-banking-ticket-gateway.php:167-169 | returns exactly what the regular payment returns for the same order |
| CardForm.OnlyDigits | assets/js/credit-card.js:31 | the result holds only digits, and each digit as often as the input does |
| CardForm.OnlyDigitsOfDigits | assets/js/credit-card.js:31 | an all-digit input passes through unchanged |
| CardForm.OnlyDigitsAppend | assets/js/credit-card.js:29-31 | filtering a concatenation concatenates the filtered parts |
| CardForm.OnlyDigitsIdempotent | assets/js/credit-card.js:29-31 | filtering twice is filtering once |
| CardForm.SplitExpiry | assets/js/credit-card.js:29-30 | month ++ year is the filtered expiry, and the month is its first two digits (or all, if fewer) |
| CardForm.CardFrom | assets/js/credit-card.js:28-32 | holder and CVV pass through unmodified. The number is the digit-filtered input. Month and year rebuild the filtered expiry |
| CardForm.RemoveNamed | assets/js/credit-card.js:57 | removal drops exactly the inputs with that name and keeps the rest |
| CardForm.RemoveNamedLeavesNone | assets/js/credit-card.js:57 | after removal no input carries the name |
| CardForm.ErrorItems | assets/js/credit-card.js:42-46 | one `<li>` per error, in order |
| CardForm.PlaceOrder | assets/js/credit-card.js:10-68 | another method returns true and leaves the form unchanged. Otherwise it returns false with `processing` cleared. Errors give one list item each, with no new input and no submit. No errors: the hash input is present, other inputs are kept, and the form is submitted |
| CardForm.SingleCardHashInput | assets/js/credit-card.js:56-60 | after a successful click exactly one `splits_card_hash` input remains |

## Notes on the source

These behaviours of the code are recorded here; where the model covers them, it follows the code as written:
- The synchronous path stores the transaction under different keys from the readers:
  - it writes `_wc_pagarme_transaction_id` and `_wc_pagarme_transaction_data` (class-wc-splits-api.php:569, :577);
  - the notification lookup searches `_wc_splits_transaction_id` (:656);
  - both instruction pages read `_wc_splits_transaction_data`.
  `RegularPayment.RegularPaymentKeepsSplitsKeys` states this.
- `_transaction_id` is written from `$transaction['id']` (:578). The transaction array has no such key, so the stored value is `intval(null)`, which is 0.
- `save_order_meta_fields` compares the payment method with `boleto` (:527). The order's method id is `splits-banking-ticket`, so the synchronous path always takes the card branch.
- For `pending_review`, the transaction URL is passed as the third argument of `update_status` (:695). That argument is the "manual" flag, not a format argument, so the note keeps a literal `%s`. The model records the note kind only.
- The request's `smallest_installment` (:176) is the raw setting, without the floor of 500 that `get_smallest_installment` applies (:113).
- `get_max_installment` cannot be reached through the gateways. Its only gateway call (class-wc-splits-credit-card-gateway.php:312) is in the branch of `payment_fields` taken when `'no' !== $this->checkout` (:295), and the constructor fixes `checkout` to `'no'` (:41). The modelled scan therefore runs only when some other caller asks for it.
- The bank-slip merge (:665) sits outside the id guard of :660. When no order is found, reading `payment_method` of `false` yields null, so there is no merge. The model keeps the merge independent of the guard. It also assumes the order store returns the order whose id was asked for, so the guard always holds when an order is found.

## Left out

- The body of the sale request (`create_sale_open` with the order total, card hash and posted count, class-wc-splits-api.php:230-240) is HTTP input to the vendor and is left out; only the vendor's decoded answer enters the model.
- Installments.MaxInstallment: takes the decoded quote table. As written, `get_installments` returns the raw `wp_safe_remote_post` result (class-wc-splits-api.php:148, :190-194), so the loop at :209-217 meets `headers` first; its `installment_amount` reads null, `500 > null` holds, and the function always returns 1. The model states what the loop computes over the quote table it is written for.
- Installments.GenerateCheckoutData: takes the decoded quote table. As written, `$installments[n]` (:367) never finds a quote in the raw HTTP response, so every transaction with an amount is rejected as having more installments than allowed. The model states the checks over the quote table they are written for.
- HTTP transport and response decoding are left out: `do_request`, `get_installments`, `get_transaction_data`, `do_transaction`, `cancel_transaction`. Their results are inputs of the model.
- The post meta SQL query (:656) is the `index` map. `update_post_meta`, `get_post_meta`, `wc_add_notice`, the cart and the mailer become fields of the order, effects or returned values.
- SHA-1 is a parameter with no interpretation; the model proves nothing about collisions.
- Float currency arithmetic (`amount * 100`, `wc_format_decimal`, `number_format`) is left out; amounts are integer minor units.
- Installments.SmallestInstallment: the setting is taken in hundredths of the currency unit; settings with finer decimals (floats) are not modelled.
- RegularPayment.ProcessRegularPayment: the vendor's sale status is taken as an integer. PHP's loose `!=` would also treat the text `"200"` as accepted.
- `sanitize_text_field` and `wp_unslash` are taken as the identity on posted and stored values.
- `__()` and `esc_html__()` are taken as the identity: the card-brand display names (class-wc-splits-api.php:505-513) and the admin meta keys that `save_order_meta_fields` writes (:529-542) are the English source strings, while the plugin translates them by the site's locale.
- RegularPayment.CardBrandNameIdempotent: holds for the untranslated brand table only; a translation that maps a display name onto a brand key would break it.
- Woo.StoredTransactionId: a transaction id stored as text is not parsed by `intval`; only a numeric meta value is read, and anything else reads as 0. `get_post_meta(..., true)` returns scalar meta as strings, so on stored data the model reads 0: its admin e-mails always carry transaction id 0, while the source (class-wc-splits-api.php:718, :731) links `intval` of the stored id.
- Notification.MergeBoletoUrl: a transaction data entry that is missing or not an array is treated as an empty array. For a missing entry that is pre-7.1 PHP behaviour; newer PHP versions treat a string offset write differently.
- BankingTicketGateway.DeliveredUrlIsShown: holds only under the pre-7.1 PHP reading of the merge. Nothing else in the plugin writes `_wc_splits_transaction_data`, so every merge starts from `get_post_meta`'s `""`. From PHP 7.1 on that value stays a string, `isset($data['boleto_url'])` at class-wc-splits-banking-ticket-gateway.php:180 and :210 is false, and no URL is ever shown.
- Debug logging, the deprecated `wc_splits_valid_ipn_request` action and the `wc_splits_*` filters are left out. The filters are taken as the identity.
- `get_customer_data_from_checkout_pay_page` is dead: the transaction data never has a `customer` key.
- Left out as pure rendering: templates, the currency notice, the settings form fields beyond the two installment option ranges, script enqueueing, and the inline `<script>` the credit-card constructor echoes.
- CardForm.PlaceOrder: the card library's asynchronous `generateHash` callback is modelled as having run by the time the handler's result is observed. `console.log` is left out.
- `only_numbers` and `get_interest_rate` are helpers that no modelled operation uses.
