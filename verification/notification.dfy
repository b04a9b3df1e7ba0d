/**
 Inbound payment notifications (IPN): authentication by fingerprint, the
 HTTP reply of the handler, and how an accepted notification is applied to
 the order store.
 */
module Notification {
  import opened Common
  import opened Woo
  import OS = OrderStatus

  /**
   The posted notification fields the plugin reads. `boletoUrl` is the
   nested `transaction.boleto_url`.
   */
  datatype Ipn = Ipn(
    id: Option<string>,
    currentStatus: Option<string>,
    fingerprint: Option<string>,
    boletoUrl: Option<string>)

  /** The fingerprint the vendor signs a notification with: a hash of `id#api_key`. */
  function Fingerprint(sha1: string -> string, id: string, apiKey: string): string {
    sha1(id + "#" + apiKey)
  }

  /**
   `check_fingerprint`: a notification is authentic when it carries an id,
   a status and a fingerprint, and the fingerprint equals the hash of the
   id and the shared key.
   */
  function CheckFingerprint(sha1: string -> string, apiKey: string, p: Ipn): (ok: bool)
    ensures ok ==> p.id.Some? && p.currentStatus.Some? && p.fingerprint.Some?
    ensures ok ==> p.fingerprint.value == Fingerprint(sha1, p.id.value, apiKey)
  {
    && p.id.Some?
    && p.currentStatus.Some?
    && p.fingerprint.Some?
    && p.fingerprint.value == Fingerprint(sha1, p.id.value, apiKey)
  }

  /** The notification the vendor sends for a transaction id and status. */
  function Signed(sha1: string -> string, apiKey: string, id: string, status: string, boletoUrl: Option<string>): Ipn {
    Ipn(Some(id), Some(status), Some(Fingerprint(sha1, id, apiKey)), boletoUrl)
  }

  /** A notification signed with the shared key is accepted. */
  lemma SignedIsAccepted(sha1: string -> string, apiKey: string, id: string, status: string, boletoUrl: Option<string>)
    ensures CheckFingerprint(sha1, apiKey, Signed(sha1, apiKey, id, status, boletoUrl))
  {
  }

  /**
   A notification is accepted exactly when it is the signed notification
   for its own id and status: any other fingerprint, and any missing field,
   is rejected.
   */
  lemma AcceptedIffSigned(sha1: string -> string, apiKey: string, p: Ipn)
    ensures CheckFingerprint(sha1, apiKey, p) <==>
              p.id.Some? && p.currentStatus.Some?
              && p == Signed(sha1, apiKey, p.id.value, p.currentStatus.value, p.boletoUrl)
  {
  }

  /** Changing one character of a valid fingerprint makes the notification rejected. */
  lemma AlteredFingerprintRejected(sha1: string -> string, apiKey: string, p: Ipn, i: nat, c: char)
    requires CheckFingerprint(sha1, apiKey, p)
    requires i < |p.fingerprint.value| && p.fingerprint.value[i] != c
    ensures !CheckFingerprint(sha1, apiKey, p.(fingerprint := Some(p.fingerprint.value[i := c])))
  {
    var f := p.fingerprint.value;
    assert f[i := c][i] != f[i];
  }

  /**
   The orders the notification handler can reach: `index` maps a vendor
   transaction id to the order id stored under it (the post meta query),
   `orders` maps order ids to orders.
   */
  datatype Store = Store(index: map<string, nat>, orders: map<nat, Order>)

  /** Looking up an order by id yields the order with that id. */
  predicate WellFormed(st: Store) {
    forall k :: k in st.orders ==> st.orders[k].id == k
  }

  /** The order id the metadata query finds for a transaction id; no row reads as 0. */
  function LookupOrderId(st: Store, id: Option<string>): nat {
    if id.Some? && id.value in st.index then st.index[id.value] else 0
  }

  /** `wc_get_order`: id 0 and unknown ids find no order. */
  function GetOrder(st: Store, id: nat): Option<Order> {
    if id != 0 && id in st.orders then Some(st.orders[id]) else None
  }

  /** The key the asynchronous bank-slip URL is merged under. */
  const BoletoUrlKey := "boleto_url"

  /** The payment method id of the bank-slip gateway. */
  const BankingTicketId := "splits-banking-ticket"

  /**
   The read-modify-write merge of a bank-slip URL into the transaction data
   array: only the `boleto_url` entry is replaced.
   */
  function MergeBoletoUrl(o: Order, url: string): (r: Order)
    ensures r.(meta := o.meta) == o
    ensures forall k :: k != TransactionDataKey ==> (k in r.meta <==> k in o.meta)
    ensures forall k :: k != TransactionDataKey && k in o.meta ==> r.meta[k] == o.meta[k]
    ensures var before := TransactionData(o);
            var after := TransactionData(r);
            && BoletoUrlKey in after && after[BoletoUrlKey] == url
            && (forall k :: k != BoletoUrlKey ==> (k in after <==> k in before))
            && (forall k :: k != BoletoUrlKey && k in before ==> after[k] == before[k])
  {
    o.(meta := o.meta[TransactionDataKey := Fields(TransactionData(o)[BoletoUrlKey := url])])
  }

  /** Whether an accepted notification merges its bank-slip URL into the found order. */
  predicate MergesBoletoUrl(p: Ipn, found: Option<Order>) {
    !IsEmpty(p.boletoUrl) && found.Some? && found.value.paymentMethod == BankingTicketId
  }

  /** What applying a notification did: the new store and the state machine's effects. */
  datatype Applied = Applied(store: Store, effects: seq<OS.Effect>)

  /**
   The found order after a notification: the reported status goes through
   the state machine when the id guard holds, then a delivered bank-slip
   URL is merged when the order was paid by bank slip.
   */
  function UpdateOrder(o: Order, p: Ipn, guarded: bool): (r: Order)
    ensures r.id == o.id && r.paymentMethod == o.paymentMethod
  {
    var status := p.currentStatus.GetOr("");
    var o1 := if guarded then OS.Transition(o, status) else o;
    if MergesBoletoUrl(p, Some(o)) then MergeBoletoUrl(o1, p.boletoUrl.value) else o1
  }

  /**
   `process_successful_ipn`: find the order through the transaction id,
   apply the reported status when the found order carries the looked-up
   id, then merge a delivered bank-slip URL into its transaction data when
   the order was paid by bank slip. No order found: nothing changes.
   */
  function ProcessSuccessfulIpn(st: Store, p: Ipn): (r: Applied)
    requires WellFormed(st)
    ensures WellFormed(r.store)
    ensures r.store.index == st.index && r.store.orders.Keys == st.orders.Keys
    ensures var id := LookupOrderId(st, p.id);
            forall k :: k in st.orders && k != id ==> r.store.orders[k] == st.orders[k]
    ensures GetOrder(st, LookupOrderId(st, p.id)).None? ==> r == Applied(st, [])
  {
    var id := LookupOrderId(st, p.id);
    var found := GetOrder(st, id);
    if found.None? then Applied(st, [])
    else
      var o := found.value;
      var guarded := o.id == id;
      var effects := if guarded then OS.Step(o, p.currentStatus.GetOr("")) else [];
      Applied(st.(orders := st.orders[o.id := UpdateOrder(o, p, guarded)]), effects)
  }

  /**
   For a found order, the notification's status goes through the state
   machine and only the bank-slip merge touches the metadata.
   */
  lemma AppliedToFoundOrder(st: Store, p: Ipn)
    requires WellFormed(st)
    requires GetOrder(st, LookupOrderId(st, p.id)).Some?
    ensures var id := LookupOrderId(st, p.id);
            var o := st.orders[id];
            var status := p.currentStatus.GetOr("");
            var after := ProcessSuccessfulIpn(st, p).store.orders[id];
            && ProcessSuccessfulIpn(st, p).effects == OS.Step(o, status)
            && after.status == OS.Transition(o, status).status
            && (MergesBoletoUrl(p, Some(o)) ==> after == MergeBoletoUrl(OS.Transition(o, status), p.boletoUrl.value))
            && (!MergesBoletoUrl(p, Some(o)) ==> after.meta == o.meta)
  {
  }

  /** Updating an order twice with the same notification changes it only once. */
  lemma UpdateOrderIdempotent(o: Order, p: Ipn, guarded: bool)
    ensures UpdateOrder(UpdateOrder(o, p, guarded), p, guarded) == UpdateOrder(o, p, guarded)
  {
    var status := p.currentStatus.GetOr("");
    var o2 := UpdateOrder(o, p, guarded);
    if guarded {
      var t := OS.Transition(o, status);
      OS.TransitionIdempotent(o, status);
      // The second delivery sees the order after the first, whose
      // status the state machine keeps and whose merge is already done.
      assert o2 == t.(meta := o2.meta);
      assert OS.Step(o2, status) == OS.Step(t, status) by {
        assert StoredTransactionId(o2) == StoredTransactionId(t);
      }
      OS.ApplyIgnoresMeta(t, OS.Step(t, status), o2.meta);
      assert OS.Transition(o2, status) == o2;
    }
    if MergesBoletoUrl(p, Some(o)) {
      assert TransactionData(o2)[BoletoUrlKey := p.boletoUrl.value] == TransactionData(o2);
    }
  }

  /**
   Applying the same notification twice gives the same store as applying
   it once. The second delivery's effects still repeat: its status updates,
   its admin e-mails, and for a refunded order the "Transaction paid" note
   (see `OrderStatus.RefundedOrderNotesPaidAgain`).
   */
  lemma ProcessSuccessfulIpnIdempotent(st: Store, p: Ipn)
    requires WellFormed(st)
    ensures var once := ProcessSuccessfulIpn(st, p).store;
            ProcessSuccessfulIpn(once, p).store == once
  {
    var id := LookupOrderId(st, p.id);
    var once := ProcessSuccessfulIpn(st, p).store;
    if GetOrder(st, id).Some? {
      var o := st.orders[id];
      assert LookupOrderId(once, p.id) == id;
      UpdateOrderIdempotent(o, p, true);
      assert once.orders[id := UpdateOrder(once.orders[id], p, true)] == once.orders;
    }
  }

  /** The reply of `ipn_handler`. */
  datatype Reply = Ok200 | Unauthorized401

  datatype Handled = Handled(reply: Reply, applied: Applied)

  /**
   `ipn_handler`: an empty POST or a notification that fails the fingerprint
   check is answered 401 and changes nothing; an authentic one is answered
   200 and applied.
   */
  function HandleIpn(sha1: string -> string, apiKey: string, st: Store, post: Option<Ipn>): (r: Handled)
    requires WellFormed(st)
    ensures r.reply == Ok200 <==> post.Some? && CheckFingerprint(sha1, apiKey, post.value)
    ensures r.reply == Unauthorized401 ==> r.applied == Applied(st, [])
    ensures r.reply == Ok200 ==> WellFormed(r.applied.store)
    ensures r.reply == Ok200 ==> r.applied == ProcessSuccessfulIpn(st, post.value)
  {
    if post.Some? && CheckFingerprint(sha1, apiKey, post.value)
    then Handled(Ok200, ProcessSuccessfulIpn(st, post.value))
    else Handled(Unauthorized401, Applied(st, []))
  }

  /**
   A signed `paid` notification delivered twice: an order that can still be
   paid, indexed under the notification's transaction id, ends settled after
   the first delivery; the second changes nothing, and the "Transaction paid"
   note is written only by the first.
   */
  lemma PaidNotificationDeliveredTwice(sha1: string -> string, apiKey: string, st: Store, id: string, orderId: nat)
    requires WellFormed(st)
    requires id in st.index && st.index[id] == orderId && orderId != 0 && orderId in st.orders
    requires CanCompletePayment(st.orders[orderId].status)
    ensures var p := Signed(sha1, apiKey, id, "paid", None);
            var first := HandleIpn(sha1, apiKey, st, Some(p));
            var second := HandleIpn(sha1, apiKey, first.applied.store, Some(p));
            && first.reply == Ok200 && second.reply == Ok200
            && IsSettled(first.applied.store.orders[orderId].status)
            && second.applied.store == first.applied.store
            && OS.AddNote(OS.PaidNote) in first.applied.effects
            && OS.AddNote(OS.PaidNote) !in second.applied.effects
  {
    var p := Signed(sha1, apiKey, id, "paid", None);
    SignedIsAccepted(sha1, apiKey, id, "paid", None);
    var o := st.orders[orderId];
    assert LookupOrderId(st, p.id) == orderId;
    AppliedToFoundOrder(st, p);
    OS.PaidTwiceNotesOnce(o);
    OS.TransitionTable(o, "paid");
    var first := ProcessSuccessfulIpn(st, p);
    assert LookupOrderId(first.store, p.id) == orderId;
    AppliedToFoundOrder(first.store, p);
    ProcessSuccessfulIpnIdempotent(st, p);
  }
}
