/**
 The vendor's payment-status vocabulary, as the strings a notification or
 the synchronous path carries, and the closed set of statuses they name.
 */
module VendorStatus {
  import opened Common

  datatype Kind = Authorized | PendingReview | Processing | Paid | WaitingPayment | Refused | Refunded

  /** The wire spelling of each status. */
  function Name(k: Kind): string {
    match k
    case Authorized => "authorized"
    case PendingReview => "pending_review"
    case Processing => "processing"
    case Paid => "paid"
    case WaitingPayment => "waiting_payment"
    case Refused => "refused"
    case Refunded => "refunded"
  }

  /**
   Reads a status string the way the `switch` of process_order_status does:
   the case labels are not numeric, so PHP's loose comparison is plain
   string equality; any other string names no status.
   */
  function Parse(s: string): (r: Option<Kind>)
    ensures r.Some? ==> Name(r.value) == s
  {
    if s == "authorized" then Some(Authorized)
    else if s == "pending_review" then Some(PendingReview)
    else if s == "processing" then Some(Processing)
    else if s == "paid" then Some(Paid)
    else if s == "waiting_payment" then Some(WaitingPayment)
    else if s == "refused" then Some(Refused)
    else if s == "refunded" then Some(Refunded)
    else None
  }

  /** Every status survives a trip through its wire spelling. */
  lemma ParseName(k: Kind)
    ensures Parse(Name(k)) == Some(k)
  {
  }

  /** A string names a status exactly when it is that status's spelling. */
  lemma ParseExactly(s: string, k: Kind)
    ensures Parse(s) == Some(k) <==> s == Name(k)
  {
    ParseName(k);
  }
}
