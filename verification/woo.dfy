/**
 The parts of the surrounding commerce system that the plugin reads and
 writes: the order, its lifecycle status and its post meta.
 */
module Woo {
  import opened Common

  /** WooCommerce order statuses. */
  datatype Status = Pending | OnHold | Processing | Completed | Failed | Refunded | Cancelled

  /** The two statuses the `authorized` and `paid` notifications refuse to touch. */
  predicate IsSettled(s: Status) {
    s == Processing || s == Completed
  }

  /** The two statuses in which payment instructions are shown to the customer. */
  predicate ShowsInstructions(s: Status) {
    s == Processing || s == OnHold
  }

  /**
   The three cases in which a gateway's `email_instructions` returns before
   reading anything: an admin e-mail, an order that is not processing or on
   hold, or an order paid through another gateway.
   */
  predicate EmailSkipped(o: Order, gatewayId: string, sentToAdmin: bool) {
    sentToAdmin || !ShowsInstructions(o.status) || o.paymentMethod != gatewayId
  }

  /** A post meta value: a number, a plain string, or an associative array of strings. */
  datatype MetaValue = Number(n: int) | Text(t: string) | Fields(fields: map<string, string>)

  /**
   An order as the plugin sees it. `total` is in minor currency units;
   `needsProcessing` is WooCommerce's answer to whether the order holds
   anything that must be shipped (it decides where payment completion leads).
   */
  datatype Order = Order(
    id: nat,
    total: int,
    status: Status,
    paymentMethod: string,
    needsProcessing: bool,
    meta: map<string, MetaValue>)

  /** Post meta key under which the transaction data array is read back. */
  const TransactionDataKey := "_wc_splits_transaction_data"
  /** Post meta key the notification lookup searches for the vendor transaction id. */
  const SplitsTransactionIdKey := "_wc_splits_transaction_id"
  /** Post meta keys the synchronous payment path writes. */
  const PagarmeTransactionIdKey := "_wc_pagarme_transaction_id"
  const PagarmeTransactionDataKey := "_wc_pagarme_transaction_data"
  const TransactionIdKey := "_transaction_id"

  /**
   The transaction data array, as `get_post_meta(..., true)` yields it:
   a missing entry or a non-array value reads as an array with no keys.
   */
  function TransactionData(o: Order): map<string, string> {
    if TransactionDataKey in o.meta && o.meta[TransactionDataKey].Fields?
    then o.meta[TransactionDataKey].fields
    else map[]
  }

  /**
   The vendor transaction id stored on the order, read through `intval`:
   a missing or non-numeric entry reads as 0.
   */
  function StoredTransactionId(o: Order): int {
    if SplitsTransactionIdKey in o.meta && o.meta[SplitsTransactionIdKey].Number?
    then o.meta[SplitsTransactionIdKey].n
    else 0
  }

  /** The statuses from which WooCommerce's payment completion moves an order. */
  predicate CanCompletePayment(s: Status) {
    s == Pending || s == OnHold || s == Failed || s == Cancelled
  }

  /**
   The status effect of WooCommerce's `WC_Order::payment_complete`, which
   belongs to the commerce system: an order awaiting payment moves to
   processing (or straight to completed when nothing needs processing);
   any other order keeps its status.
   */
  function PaymentComplete(o: Order): (r: Order)
    ensures r.id == o.id && r.meta == o.meta && r.paymentMethod == o.paymentMethod
    ensures CanCompletePayment(o.status) ==> IsSettled(r.status)
    ensures !CanCompletePayment(o.status) ==> r == o
  {
    if CanCompletePayment(o.status)
    then o.(status := if o.needsProcessing then Processing else Completed)
    else o
  }
}
