/**
 The synchronous payment path: the transaction array built from an order
 and the vendor's answer, the card-brand display names, the admin-visible meta fields, and
 `process_regular_payment`, which turns the vendor's answer into a failed
 checkout or a paid order.
 */
module RegularPayment {
  import opened Common
  import opened Woo
  import OS = OrderStatus

  /** The display name of each card brand the vendor reports. */
  const BrandNames: map<string, string> := map[
    "visa" := "Visa",
    "mastercard" := "MasterCard",
    "amex" := "American Express",
    "aura" := "Aura",
    "jcb" := "JCB",
    "diners" := "Diners",
    "elo" := "Elo",
    "hipercard" := "Hipercard",
    "discover" := "Discover"
  ]

  /** `get_card_brand_name`: a known brand's display name, any other brand unchanged. */
  function CardBrandName(brand: string): (name: string)
    ensures brand !in BrandNames ==> name == brand
    ensures brand in BrandNames ==> name in BrandNames.Values && name != brand
  {
    if brand in BrandNames then BrandNames[brand] else brand
  }

  /** Naming a brand twice changes nothing: no display name is itself a brand key. */
  lemma CardBrandNameIdempotent(brand: string)
    ensures CardBrandName(CardBrandName(brand)) == CardBrandName(brand)
  {
    if brand in BrandNames {
      assert BrandNames.Values !! BrandNames.Keys;
    }
  }

  /** The fields of the transaction array that `save_order_meta_fields` reads. */
  datatype PaymentFields = PaymentFields(
    paymentMethod: Option<string>,
    boletoUrl: Option<string>,
    cardBrand: Option<string>,
    installments: Option<string>,
    amount: Option<int>,
    antifraudScore: Option<string>)

  /** The admin-visible meta keys. */
  const BankingTicketUrlLabel := "Banking Ticket URL"
  const CreditCardLabel := "Credit Card"
  const InstallmentsLabel := "Installments"
  const TotalPaidLabel := "Total paid"
  const AntiFraudScoreLabel := "Anti Fraud Score"

  /** Writes `key := value` when `write` holds. */
  function PutIf(meta: map<string, MetaValue>, write: bool, key: string, value: MetaValue): map<string, MetaValue> {
    if write then meta[key := value] else meta
  }

  /** The entry for `key` is the same before and after. */
  predicate Kept(before: map<string, MetaValue>, after: map<string, MetaValue>, key: string) {
    (key in after <==> key in before) && (key in before ==> after[key] == before[key])
  }

  /** The entry for `key` holds `value` when `write` holds, and is kept otherwise. */
  predicate WrittenIff(before: map<string, MetaValue>, after: map<string, MetaValue>, key: string, write: bool, value: MetaValue) {
    (write ==> key in after && after[key] == value) && (!write ==> Kept(before, after, key))
  }

  /** Whether the transaction is a bank-slip one, by strict comparison with `boleto`. */
  predicate IsBoleto(data: PaymentFields) {
    data.paymentMethod == Some("boleto")
  }

  /**
   `save_order_meta_fields`: a bank-slip transaction writes its URL; any
   other writes the card brand's display name, the installment count, the
   formatted total and the anti-fraud score. Each field is written only
   when it is not empty; `formatPrice` is the store's price formatting of
   an amount in minor units.
   */
  function SaveOrderMetaFields(meta: map<string, MetaValue>, data: PaymentFields, formatPrice: int -> string)
    : (r: map<string, MetaValue>)
    ensures var labels := {BankingTicketUrlLabel, CreditCardLabel, InstallmentsLabel, TotalPaidLabel, AntiFraudScoreLabel};
            forall k :: k !in labels ==> Kept(meta, r, k)
    ensures IsBoleto(data) ==>
              && WrittenIff(meta, r, BankingTicketUrlLabel, !IsEmpty(data.boletoUrl), Text(data.boletoUrl.GetOr("")))
              && Kept(meta, r, CreditCardLabel) && Kept(meta, r, InstallmentsLabel)
              && Kept(meta, r, TotalPaidLabel) && Kept(meta, r, AntiFraudScoreLabel)
    ensures !IsBoleto(data) ==>
              && Kept(meta, r, BankingTicketUrlLabel)
              && WrittenIff(meta, r, CreditCardLabel, !IsEmpty(data.cardBrand),
                            Text(CardBrandName(data.cardBrand.GetOr(""))))
              && WrittenIff(meta, r, InstallmentsLabel, !IsEmpty(data.installments), Text(data.installments.GetOr("")))
              && WrittenIff(meta, r, TotalPaidLabel, data.amount.Some? && data.amount.value != 0,
                            Text(formatPrice(data.amount.GetOr(0))))
              && WrittenIff(meta, r, AntiFraudScoreLabel, !IsEmpty(data.antifraudScore),
                            Text(data.antifraudScore.GetOr("")))
  {
    if IsBoleto(data) then
      PutIf(meta, !IsEmpty(data.boletoUrl), BankingTicketUrlLabel, Text(data.boletoUrl.GetOr("")))
    else
      var m1 := PutIf(meta, !IsEmpty(data.cardBrand), CreditCardLabel, Text(CardBrandName(data.cardBrand.GetOr(""))));
      var m2 := PutIf(m1, !IsEmpty(data.installments), InstallmentsLabel, Text(data.installments.GetOr("")));
      var m3 := PutIf(m2, data.amount.Some? && data.amount.value != 0, TotalPaidLabel, Text(formatPrice(data.amount.GetOr(0))));
      PutIf(m3, !IsEmpty(data.antifraudScore), AntiFraudScoreLabel, Text(data.antifraudScore.GetOr("")))
  }

  /** The posted checkout fields the sale reads. */
  datatype Posted = Posted(cardHash: Option<string>, installments: Option<string>)

  /** The vendor's `create_sale_open` answer. */
  datatype SaleResponse = SaleResponse(status: int, message: string)

  /** The transaction array `generate_transaction_data` returns. */
  datatype Transaction = Transaction(
    transactionId: nat,
    paymentMethod: string,
    installments: Option<string>,
    response: Option<SaleResponse>)

  /**
   `generate_transaction_data`, given the vendor's decoded answer to the
   sale request (absent when the body holds no sale result).
   */
  function GenerateTransactionData(o: Order, posted: Posted, response: Option<SaleResponse>): Transaction {
    Transaction(o.id, o.paymentMethod, posted.installments, response)
  }

  /** The payment's answer to the checkout. */
  datatype PaymentResult = PaymentFailed | PaymentSucceeded(redirect: string)

  /** What the checkout does besides changing the order. */
  datatype CheckoutEffect = ErrorNotice(message: string) | StatusEffect(effect: OS.Effect) | EmptyCart

  datatype Processed = Processed(result: PaymentResult, order: Order, effects: seq<CheckoutEffect>)

  /** The state machine's effects, as checkout effects. */
  function StatusEffects(es: seq<OS.Effect>): (r: seq<CheckoutEffect>)
    ensures |r| == |es| && forall i :: 0 <= i < |r| ==> r[i] == StatusEffect(es[i])
  {
    if |es| == 0 then [] else [StatusEffect(es[0])] + StatusEffects(es[1..])
  }

  /** Whether the vendor accepted the sale: its status equals 200. */
  predicate Accepted(response: Option<SaleResponse>) {
    response.Some? && response.value.status == 200
  }

  /**
   The post meta the successful path writes before the status changes:
   the transaction id, the payment data array, `_transaction_id` (read from
   a key the transaction array never has, so 0), and the admin fields.
   */
  function PaymentMeta(t: Transaction, meta: map<string, MetaValue>, formatPrice: int -> string)
    : (r: map<string, MetaValue>)
    ensures Kept(meta, r, SplitsTransactionIdKey) && Kept(meta, r, TransactionDataKey)
  {
    var m := meta[PagarmeTransactionIdKey := Number(t.transactionId)]
                 [PagarmeTransactionDataKey := Fields(map["payment_method" := t.paymentMethod,
                                                          "installments" := t.installments.GetOr("")])]
                 [TransactionIdKey := Number(0)];
    SaveOrderMetaFields(m, PaymentFields(Some(t.paymentMethod), None, None, t.installments, None, None), formatPrice)
  }

  /**
   `process_regular_payment`: a sale the vendor did not accept leaves the
   order alone and shows the vendor's message; an accepted one records the
   transaction, runs the `paid` transition, empties the cart and redirects
   to the order-received page.
   */
  function ProcessRegularPayment(
    o: Order, posted: Posted, response: Option<SaleResponse>, returnUrl: string, formatPrice: int -> string)
    : (r: Processed)
    ensures r.result.PaymentFailed? <==> !Accepted(response)
    ensures !Accepted(response) ==>
              r.order == o && r.effects == [ErrorNotice(if response.Some? then response.value.message else "")]
    ensures Accepted(response) ==>
              && r.result == PaymentSucceeded(returnUrl)
              && r.order.status == PaymentComplete(o).status
              && |r.effects| > 0 && r.effects[|r.effects| - 1] == EmptyCart
              && PagarmeTransactionIdKey in r.order.meta && r.order.meta[PagarmeTransactionIdKey] == Number(o.id)
              && PagarmeTransactionDataKey in r.order.meta
              && r.order.meta[PagarmeTransactionDataKey]
                 == Fields(map["payment_method" := o.paymentMethod, "installments" := posted.installments.GetOr("")])
              && TransactionIdKey in r.order.meta && r.order.meta[TransactionIdKey] == Number(0)
  {
    var t := GenerateTransactionData(o, posted, response);
    if !Accepted(t.response) then
      Processed(PaymentFailed, o, [ErrorNotice(if response.Some? then response.value.message else "")])
    else
      var recorded := o.(meta := PaymentMeta(t, o.meta, formatPrice));
      OS.TransitionTable(recorded, "paid");
      Processed(
        PaymentSucceeded(returnUrl),
        OS.Transition(recorded, "paid"),
        StatusEffects(OS.Step(recorded, "paid")) + [EmptyCart])
  }

  /**
   The synchronous path records the transaction under the Pagar.me keys:
   it never writes the key the notification lookup searches, nor the
   transaction data array the instructions pages read.
   */
  lemma RegularPaymentKeepsSplitsKeys(
    o: Order, posted: Posted, response: Option<SaleResponse>, returnUrl: string, formatPrice: int -> string)
    ensures var r := ProcessRegularPayment(o, posted, response, returnUrl, formatPrice);
            && (SplitsTransactionIdKey in r.order.meta <==> SplitsTransactionIdKey in o.meta)
            && (SplitsTransactionIdKey in o.meta ==> r.order.meta[SplitsTransactionIdKey] == o.meta[SplitsTransactionIdKey])
            && TransactionData(r.order) == TransactionData(o)
  {
    if Accepted(response) {
      var t := GenerateTransactionData(o, posted, response);
      var recorded := o.(meta := PaymentMeta(t, o.meta, formatPrice));
      assert ProcessRegularPayment(o, posted, response, returnUrl, formatPrice).order.meta == recorded.meta;
    }
  }

  /**
   The order's own payment method is never `boleto`, so the synchronous
   path always takes the card branch of the admin fields, for bank-slip
   orders too.
   */
  lemma RegularPaymentWritesCardFields(
    o: Order, posted: Posted, response: Option<SaleResponse>, returnUrl: string, formatPrice: int -> string)
    requires o.paymentMethod != "boleto"
    requires Accepted(response) && !IsEmpty(posted.installments)
    ensures var r := ProcessRegularPayment(o, posted, response, returnUrl, formatPrice);
            InstallmentsLabel in r.order.meta && r.order.meta[InstallmentsLabel] == Text(posted.installments.value)
  {
  }
}
