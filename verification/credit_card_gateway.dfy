/**
 The credit-card gateway: when it is offered, what the order-received page
 and the customer e-mails show, its installment settings, and payment
 processing.
 */
module CreditCardGateway {
  import opened Common
  import opened Woo
  import RP = RegularPayment

  /** The gateway's payment method id. */
  const Id := "splits-credit-card"

  /**
   `is_available`: the base gateway is available, the secret key is not
   empty and the store currency is BRL. The encryption key of this gateway
   is the same setting as the secret key.
   */
  function IsAvailable(parentAvailable: bool, apiKey: string, currency: string): (ok: bool)
    ensures ok ==> parentAvailable && currency == "BRL"
    ensures ok ==> |apiKey| > 0 && apiKey != "0"
    ensures !parentAvailable || IsEmptyText(apiKey) || currency != "BRL" ==> !ok
  {
    parentAvailable && !IsEmptyText(apiKey) && currency == "BRL"
  }

  /** The order-received message: card brand (if stored) and installment count. */
  datatype PaymentInstructions = PaymentInstructions(cardBrand: Option<string>, installments: string)

  /** The stored value of `key`, if the transaction data has one. */
  function Get(data: map<string, string>, key: string): Option<string> {
    if key in data then Some(data[key]) else None
  }

  /**
   `thankyou_page`: the instructions render when the transaction data has an
   installment count and the order is processing or on hold.
   */
  function ThankYouPage(o: Order): (r: Option<PaymentInstructions>)
    ensures r.Some? <==> "installments" in TransactionData(o) && ShowsInstructions(o.status)
    ensures r.Some? ==> r.value.installments == TransactionData(o)["installments"]
                        && r.value.cardBrand == Get(TransactionData(o), "card_brand")
  {
    var data := TransactionData(o);
    if "installments" in data && ShowsInstructions(o.status)
    then Some(PaymentInstructions(Get(data, "card_brand"), data["installments"]))
    else None
  }

  /** The two e-mail template flavours. */
  datatype EmailFormat = Plain | Html

  datatype EmailInstructions = EmailInstructions(format: EmailFormat, content: PaymentInstructions)

  /**
   `email_instructions`: nothing for admin e-mails, for orders that are not
   processing or on hold, or for orders paid another way; otherwise the
   plain or HTML template, when the transaction data has an installment count.
   */
  function EmailInstructionsFor(o: Order, sentToAdmin: bool, plainText: bool): (r: Option<EmailInstructions>)
    ensures EmailSkipped(o, Id, sentToAdmin) ==> r.None?
    ensures r.Some? <==> !EmailSkipped(o, Id, sentToAdmin) && "installments" in TransactionData(o)
    ensures r.Some? ==> (r.value.format == Plain <==> plainText)
  {
    if EmailSkipped(o, Id, sentToAdmin) then None
    else
      var data := TransactionData(o);
      if "installments" in data then
        Some(EmailInstructions(if plainText then Plain else Html,
                               PaymentInstructions(Get(data, "card_brand"), data["installments"])))
      else None
  }

  /**
   The customer e-mail and the order-received page agree: the e-mail shows
   instructions only when the page does, and with the same content.
   */
  lemma EmailAgreesWithThankYouPage(o: Order, sentToAdmin: bool, plainText: bool)
    ensures EmailInstructionsFor(o, sentToAdmin, plainText).Some? ==>
              ThankYouPage(o) == Some(EmailInstructionsFor(o, sentToAdmin, plainText).value.content)
    ensures !sentToAdmin && o.paymentMethod == Id ==>
              (EmailInstructionsFor(o, sentToAdmin, plainText).Some? <==> ThankYouPage(o).Some?)
  {
  }

  /** The `max_installment` setting's options, 1 to 12. */
  const MaxInstallmentOptions: seq<int> := [1, 2, 3, 4, 5, 6, 7, 8, 9, 10, 11, 12]
  const MaxInstallmentDefault := 12

  /** The `free_installments` setting's options, 0 (none) to 12. */
  const FreeInstallmentsOptions: seq<int> := [0, 1, 2, 3, 4, 5, 6, 7, 8, 9, 10, 11, 12]
  const FreeInstallmentsDefault := 1

  /**
   The installment settings: the maximum is one of 1..12 and defaults to 12,
   the interest-free count is one of 0..12 and defaults to 1, each listed
   once in increasing order.
   */
  lemma InstallmentSettingsRanges()
    ensures forall n :: n in MaxInstallmentOptions <==> 1 <= n <= 12
    ensures forall n :: n in FreeInstallmentsOptions <==> 0 <= n <= 12
    ensures MaxInstallmentDefault in MaxInstallmentOptions && FreeInstallmentsDefault in FreeInstallmentsOptions
    ensures forall i, j :: 0 <= i < j < |MaxInstallmentOptions| ==> MaxInstallmentOptions[i] < MaxInstallmentOptions[j]
    ensures forall i, j :: 0 <= i < j < |FreeInstallmentsOptions| ==> FreeInstallmentsOptions[i] < FreeInstallmentsOptions[j]
  {
  }

  /** `process_payment`: hands the order to the API's regular payment, unchanged. */
  function ProcessPayment(
    o: Order, posted: RP.Posted, response: Option<RP.SaleResponse>, returnUrl: string, formatPrice: int -> string)
    : (r: RP.Processed)
    ensures r == RP.ProcessRegularPayment(o, posted, response, returnUrl, formatPrice)
  {
    RP.ProcessRegularPayment(o, posted, response, returnUrl, formatPrice)
  }
}
