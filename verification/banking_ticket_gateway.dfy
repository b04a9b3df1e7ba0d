/**
 The bank-slip ("boleto") gateway: when it is offered, which instructions
 the order-received page and customer e-mails show, and payment processing.
 */
module BankingTicketGateway {
  import opened Common
  import opened Woo
  import RP = RegularPayment
  import CC = CreditCardGateway
  import N = Notification

  /** The gateway's payment method id. */
  const Id := "splits-banking-ticket"

  /**
   `is_available`: the base gateway is available, neither the secret key
   nor the encryption key is empty, and the store currency is BRL.
   */
  function IsAvailable(parentAvailable: bool, apiKey: string, encryptionKey: string, currency: string): (ok: bool)
    ensures ok ==> parentAvailable && currency == "BRL"
    ensures ok ==> !IsEmptyText(apiKey) && !IsEmptyText(encryptionKey)
    ensures !parentAvailable || IsEmptyText(apiKey) || IsEmptyText(encryptionKey) || currency != "BRL" ==> !ok
  {
    parentAvailable && !IsEmptyText(apiKey) && !IsEmptyText(encryptionKey) && currency == "BRL"
  }

  /**
   The bank-slip gateway asks for one key more than the card gateway: it is
   available exactly when the card gateway would be with the same secret
   key and its encryption key is set.
   */
  lemma AvailabilityComparedToCard(parentAvailable: bool, apiKey: string, encryptionKey: string, currency: string)
    ensures IsAvailable(parentAvailable, apiKey, encryptionKey, currency) <==>
              CC.IsAvailable(parentAvailable, apiKey, currency) && !IsEmptyText(encryptionKey)
  {
  }

  /** The two order-received templates: the slip itself, or a notice that it is being generated. */
  datatype Template = PaymentTemplate | AsyncTemplate

  datatype Instructions = Instructions(template: Template, url: string)

  /** The template for the `async` setting: the slip unless the setting is exactly `no`. */
  function TemplateFor(async: string): (t: Template)
    ensures t == PaymentTemplate <==> async == "no"
  {
    if async == "no" then PaymentTemplate else AsyncTemplate
  }

  /**
   `thankyou_page`: the instructions render when the transaction data has a
   bank-slip URL and the order is processing or on hold.
   */
  function ThankYouPage(o: Order, async: string): (r: Option<Instructions>)
    ensures r.Some? <==> N.BoletoUrlKey in TransactionData(o) && ShowsInstructions(o.status)
    ensures r.Some? ==> r.value.url == TransactionData(o)[N.BoletoUrlKey]
    ensures r.Some? ==> (r.value.template == PaymentTemplate <==> async == "no")
  {
    var data := TransactionData(o);
    if N.BoletoUrlKey in data && ShowsInstructions(o.status)
    then Some(Instructions(TemplateFor(async), data[N.BoletoUrlKey]))
    else None
  }

  datatype EmailInstructions = EmailInstructions(format: CC.EmailFormat, url: string)

  /**
   `email_instructions`: nothing for admin e-mails, for orders that are not
   processing or on hold, or for orders paid another way; otherwise the
   plain or HTML template, when the transaction data has a bank-slip URL.
   */
  function EmailInstructionsFor(o: Order, sentToAdmin: bool, plainText: bool): (r: Option<EmailInstructions>)
    ensures EmailSkipped(o, Id, sentToAdmin) ==> r.None?
    ensures r.Some? <==> !EmailSkipped(o, Id, sentToAdmin) && N.BoletoUrlKey in TransactionData(o)
    ensures r.Some? ==> r.value.url == TransactionData(o)[N.BoletoUrlKey]
    ensures r.Some? ==> (r.value.format == CC.Plain <==> plainText)
  {
    if EmailSkipped(o, Id, sentToAdmin) then None
    else
      var data := TransactionData(o);
      if N.BoletoUrlKey in data
      then Some(EmailInstructions(if plainText then CC.Plain else CC.Html, data[N.BoletoUrlKey]))
      else None
  }

  /**
   A notification that delivers a bank-slip URL for a bank-slip order that
   ends processing or on hold makes the order-received page and the
   customer e-mail show that URL.
   */
  lemma DeliveredUrlIsShown(st: N.Store, p: N.Ipn, async: string, plainText: bool)
    requires N.WellFormed(st)
    requires N.GetOrder(st, N.LookupOrderId(st, p.id)).Some?
    requires !IsEmpty(p.boletoUrl)
    requires st.orders[N.LookupOrderId(st, p.id)].paymentMethod == Id
    requires ShowsInstructions(N.ProcessSuccessfulIpn(st, p).store.orders[N.LookupOrderId(st, p.id)].status)
    ensures var after := N.ProcessSuccessfulIpn(st, p).store.orders[N.LookupOrderId(st, p.id)];
            && ThankYouPage(after, async) == Some(Instructions(TemplateFor(async), p.boletoUrl.value))
            && EmailInstructionsFor(after, false, plainText)
               == Some(EmailInstructions(if plainText then CC.Plain else CC.Html, p.boletoUrl.value))
  {
    N.AppliedToFoundOrder(st, p);
  }

  /** `process_payment`: hands the order to the API's regular payment, unchanged. */
  function ProcessPayment(
    o: Order, posted: RP.Posted, response: Option<RP.SaleResponse>, returnUrl: string, formatPrice: int -> string)
    : (r: RP.Processed)
    ensures r == RP.ProcessRegularPayment(o, posted, response, returnUrl, formatPrice)
  {
    RP.ProcessRegularPayment(o, posted, response, returnUrl, formatPrice)
  }
}
