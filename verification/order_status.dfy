/**
 The payment-status state machine of `process_order_status`: a vendor
 status string becomes a list of effects on the order (status updates,
 order notes, payment completion, admin e-mails), and applying those
 effects gives the order's new status.
 */
module OrderStatus {
  import opened Common
  import opened Woo
  import VS = VendorStatus

  /** The order notes the plugin writes, one per message of the source. */
  datatype Note =
    | AuthorizedNote
    | ManualReviewNote
    | ProcessingNote
    | PaidNote
    | TicketIssuedNote
    | RejectedNote
    | RefundedNote

  /** The admin e-mails, carrying the order id and the vendor transaction id they link to. */
  datatype Email =
    | RejectedEmail(orderId: nat, transactionId: int)
    | RefundedEmail(orderId: nat, transactionId: int)

  /** One call the state machine makes on the order or the mailer. */
  datatype Effect =
    | UpdateStatus(to: Status, note: Note)
    | AddNote(note: Note)
    | CompletePayment
    | SendAdminEmail(email: Email)

  /** The effects of one known vendor status on an order. */
  function Effects(o: Order, k: VS.Kind): seq<Effect> {
    match k
    case Authorized =>
      if IsSettled(o.status) then [] else [UpdateStatus(OnHold, AuthorizedNote)]
    case PendingReview =>
      [UpdateStatus(OnHold, ManualReviewNote)]
    case Processing =>
      [UpdateStatus(OnHold, ProcessingNote)]
    case Paid =>
      (if IsSettled(o.status) then [] else [AddNote(PaidNote)]) + [CompletePayment]
    case WaitingPayment =>
      [UpdateStatus(OnHold, TicketIssuedNote)]
    case Refused =>
      [UpdateStatus(Failed, RejectedNote), SendAdminEmail(RejectedEmail(o.id, StoredTransactionId(o)))]
    case Refunded =>
      [UpdateStatus(Woo.Refunded, RefundedNote), SendAdminEmail(RefundedEmail(o.id, StoredTransactionId(o)))]
  }

  /**
   The effects `process_order_status` has for a vendor status string; a
   string that names no status falls to the default case and does nothing.
   */
  function Step(o: Order, vendorStatus: string): (es: seq<Effect>)
    ensures VS.Parse(vendorStatus).None? ==> es == []
    ensures |AdminEmails(es)| == (if vendorStatus == "refused" || vendorStatus == "refunded" then 1 else 0)
    ensures vendorStatus == "paid" ==>
              |es| > 0 && es[|es| - 1] == CompletePayment
              && (AddNote(PaidNote) in es <==> !IsSettled(o.status))
  {
    match VS.Parse(vendorStatus)
    case None => []
    case Some(k) => Effects(o, k)
  }

  /** The admin e-mails among a list of effects, in order. */
  function AdminEmails(es: seq<Effect>): (emails: seq<Email>)
    ensures |emails| <= |es|
  {
    if |es| == 0 then []
    else (if es[0].SendAdminEmail? then [es[0].email] else []) + AdminEmails(es[1..])
  }

  /** The order after one effect: only status updates and payment completion touch it. */
  function ApplyEffect(o: Order, e: Effect): Order {
    match e
    case UpdateStatus(to, _) => o.(status := to)
    case AddNote(_) => o
    case CompletePayment => PaymentComplete(o)
    case SendAdminEmail(_) => o
  }

  /** The order after a list of effects, applied in order. */
  function Apply(o: Order, es: seq<Effect>): (r: Order)
    ensures r.id == o.id && r.meta == o.meta && r.paymentMethod == o.paymentMethod
    ensures r.total == o.total && r.needsProcessing == o.needsProcessing
    decreases |es|
  {
    if |es| == 0 then o else Apply(ApplyEffect(o, es[0]), es[1..])
  }

  /** The order after `process_order_status` handles a vendor status string. */
  function Transition(o: Order, vendorStatus: string): (r: Order)
    ensures r.id == o.id && r.meta == o.meta && r.paymentMethod == o.paymentMethod
    ensures r.total == o.total && r.needsProcessing == o.needsProcessing
  {
    Apply(o, Step(o, vendorStatus))
  }

  /** The effects never read the metadata while they are applied. */
  lemma ApplyIgnoresMeta(o: Order, es: seq<Effect>, m: map<string, MetaValue>)
    ensures Apply(o.(meta := m), es) == Apply(o, es).(meta := m)
    decreases |es|
  {
    if |es| > 0 {
      assert ApplyEffect(o.(meta := m), es[0]) == ApplyEffect(o, es[0]).(meta := m);
      ApplyIgnoresMeta(ApplyEffect(o, es[0]), es[1..], m);
    }
  }

  /** Applying a single effect. */
  lemma ApplyOne(o: Order, e: Effect)
    ensures Apply(o, [e]) == ApplyEffect(o, e)
  {
    assert [e][1..] == [];
  }

  /** Applying two effects in order. */
  lemma ApplyTwo(o: Order, e1: Effect, e2: Effect)
    ensures Apply(o, [e1, e2]) == ApplyEffect(ApplyEffect(o, e1), e2)
  {
    assert [e1, e2][1..] == [e2];
    ApplyOne(ApplyEffect(o, e1), e2);
  }

  /**
   The transition table of the payment-status state machine: which status
   each vendor status leads to, with the guards on `authorized` and `paid`.
   */
  lemma TransitionTable(o: Order, vendorStatus: string)
    ensures vendorStatus == "authorized" ==>
              Transition(o, vendorStatus).status == (if IsSettled(o.status) then o.status else OnHold)
    ensures vendorStatus in {"pending_review", "processing", "waiting_payment"} ==>
              Transition(o, vendorStatus).status == OnHold
    ensures vendorStatus == "paid" ==> Transition(o, vendorStatus) == PaymentComplete(o)
    ensures vendorStatus == "refused" ==> Transition(o, vendorStatus).status == Failed
    ensures vendorStatus == "refunded" ==> Transition(o, vendorStatus).status == Woo.Refunded
    ensures VS.Parse(vendorStatus).None? ==> Transition(o, vendorStatus) == o
  {
    var es := Step(o, vendorStatus);
    match VS.Parse(vendorStatus)
    case None =>
    case Some(k) =>
      match k
      case Authorized =>
        if !IsSettled(o.status) { ApplyOne(o, es[0]); }
      case Paid =>
        if IsSettled(o.status) { ApplyOne(o, CompletePayment); }
        else { ApplyTwo(o, AddNote(PaidNote), CompletePayment); }
      case Refused => ApplyTwo(o, es[0], es[1]);
      case Refunded => ApplyTwo(o, es[0], es[1]);
      case _ => ApplyOne(o, es[0]);
  }

  /**
   Delivering the same vendor status twice leaves the order as one delivery
   does: every transition lands in a status the same input keeps.
   */
  lemma TransitionIdempotent(o: Order, vendorStatus: string)
    ensures Transition(Transition(o, vendorStatus), vendorStatus) == Transition(o, vendorStatus)
  {
    var once := Transition(o, vendorStatus);
    TransitionTable(o, vendorStatus);
    TransitionTable(once, vendorStatus);
  }

  /**
   Admin e-mails are sent at least once, not exactly once: every delivery of
   `refused` or `refunded` sends one more, whatever the order's status.
   */
  lemma RepeatedDeliveryEmailsAgain(o: Order, vendorStatus: string)
    requires vendorStatus == "refused" || vendorStatus == "refunded"
    ensures |AdminEmails(Step(o, vendorStatus))| == 1
    ensures |AdminEmails(Step(Transition(o, vendorStatus), vendorStatus))| == 1
  {
  }

  /**
   A `paid` delivery to an order that the first delivery settled adds no
   second "Transaction paid" note and leaves the status alone.
   */
  lemma PaidTwiceNotesOnce(o: Order)
    requires CanCompletePayment(o.status)
    ensures AddNote(PaidNote) in Step(o, "paid")
    ensures var once := Transition(o, "paid");
            AddNote(PaidNote) !in Step(once, "paid") && Transition(once, "paid") == once
  {
    var once := Transition(o, "paid");
    TransitionTable(o, "paid");
    TransitionTable(once, "paid");
  }

  /**
   A `paid` delivery to a refunded order writes the "Transaction paid" note
   on every delivery: the note's guard only skips processing and completed
   orders, and payment completion leaves a refunded order refunded.
   */
  lemma RefundedOrderNotesPaidAgain(o: Order)
    requires o.status == Refunded
    ensures var once := Transition(o, "paid");
            && once == o
            && AddNote(PaidNote) in Step(o, "paid")
            && AddNote(PaidNote) in Step(once, "paid")
  {
    TransitionTable(o, "paid");
  }
}
