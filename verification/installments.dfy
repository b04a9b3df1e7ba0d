/**
 Installment rules: the smallest installment, the largest installment
 count a quote table allows, the `smallest_installment` sent with the
 quote request, and the validation of a vendor transaction at checkout.
 Amounts are integer minor currency units; the `smallest_installment`
 setting is given in hundredths of the currency unit.
 */
module Installments {
  import opened Common

  /** The floor for the smallest installment: 5.00 in the store currency. */
  const MinimumSmallestInstallment := 500

  /**
   `get_smallest_installment`: a setting below 5 falls back to 500, any
   other setting is used as is.
   */
  function SmallestInstallment(settingCents: int): (r: int)
    ensures r >= MinimumSmallestInstallment && r >= settingCents
    ensures r == MinimumSmallestInstallment || r == settingCents
  {
    if settingCents < MinimumSmallestInstallment then MinimumSmallestInstallment else settingCents
  }

  /**
   The `smallest_installment` variable of the quote request: 0 when only
   one installment is allowed, otherwise the raw setting, without the
   floor `SmallestInstallment` applies.
   */
  function QuerySmallestInstallment(maxInstallment: int, settingCents: int): (r: int)
    ensures maxInstallment == 1 ==> r == 0
  {
    if maxInstallment == 1 then 0 else settingCents
  }

  /**
   When more than one installment is allowed, the request agrees with the
   checkout floor exactly when the setting is at least 5.
   */
  lemma QueryAgreesWithFloor(maxInstallment: int, settingCents: int)
    requires maxInstallment != 1
    ensures QuerySmallestInstallment(maxInstallment, settingCents) == SmallestInstallment(settingCents)
            <==> settingCents >= MinimumSmallestInstallment
  {
  }

  /** One row of the quote table: count, amount of each installment, total. */
  datatype Quote = Quote(parcel: int, installmentAmount: int, amount: int)

  /** The length of the leading run of quotes whose installment reaches `smallest`. */
  function AffordableRun(qs: seq<Quote>, smallest: int): (k: nat)
    ensures k <= |qs|
  {
    if |qs| == 0 || qs[0].installmentAmount < smallest then 0
    else 1 + AffordableRun(qs[1..], smallest)
  }

  /**
   The run is the longest prefix of affordable quotes: every quote in it
   reaches `smallest`, and the quote right after it does not.
   */
  lemma {:induction false} AffordableRunIsLongest(qs: seq<Quote>, smallest: int, k: nat)
    ensures AffordableRun(qs, smallest) == k <==>
              && k <= |qs|
              && (forall i :: 0 <= i < k ==> qs[i].installmentAmount >= smallest)
              && (k < |qs| ==> qs[k].installmentAmount < smallest)
  {
    if |qs| > 0 && qs[0].installmentAmount >= smallest {
      if 0 < k <= |qs| {
        AffordableRunIsLongest(qs[1..], smallest, k - 1);
        assert forall i :: 1 <= i < k ==> qs[i] == qs[1..][i - 1];
      }
    }
  }

  /**
   The largest installment count of a quote table: the count of the last
   quote of the affordable run, or 1 when the run is empty.
   */
  function MaxInstallmentOf(qs: seq<Quote>, smallest: int): int {
    var k := AffordableRun(qs, smallest);
    if k == 0 then 1 else qs[k - 1].parcel
  }

  /**
   `get_max_installment`: walk the quotes in order, stop at the first whose
   installment is below `smallest`, and keep the count of the last one
   passed; 1 when none passes.
   */
  method MaxInstallment(qs: seq<Quote>, smallest: int) returns (max: int)
    ensures max == MaxInstallmentOf(qs, smallest)
    ensures (|qs| == 0 || qs[0].installmentAmount < smallest) ==> max == 1
  {
    max := 1;
    var i := 0;
    while i < |qs|
      invariant 0 <= i <= |qs|
      invariant forall j :: 0 <= j < i ==> qs[j].installmentAmount >= smallest
      invariant max == (if i == 0 then 1 else qs[i - 1].parcel)
    {
      if smallest > qs[i].installmentAmount {
        break;
      }
      max := qs[i].parcel;
      i := i + 1;
    }
    AffordableRunIsLongest(qs, smallest, i);
  }

  /** The quote for an installment count: the first row with that count. */
  function Lookup(qs: seq<Quote>, n: int): (r: Option<Quote>)
    ensures r.Some? ==> r.value in qs && r.value.parcel == n
    ensures r.None? ==> forall q :: q in qs ==> q.parcel != n
  {
    if |qs| == 0 then None
    else if qs[0].parcel == n then Some(qs[0])
    else Lookup(qs[1..], n)
  }

  /** The fields of the vendor transaction the checkout reads. */
  datatype VendorTransaction = VendorTransaction(amount: Option<int>, installments: Option<int>)

  /** The checkout errors, in the order they are tested. */
  datatype CheckoutError =
    | InvalidTransactionData
    | TooManyInstallments
    | BelowSmallestInstallment
    | WrongAmountTotal

  /** The checkout data returned on success. */
  datatype CheckoutData = CheckoutData(apiKey: string, amount: int, orderNumber: string)

  /**
   `generate_checkout_data`: reject a transaction without an amount; then
   one whose count exceeds the maximum or has no quote; then one split into
   installments below the smallest one (a single installment is exempt);
   then one whose amount differs from the quoted total. Otherwise return the
   transaction amount.
   */
  function GenerateCheckoutData(
    tx: VendorTransaction, qs: seq<Quote>, maxInstallment: int, settingCents: int,
    apiKey: string, orderNumber: string): (r: Result<CheckoutData, CheckoutError>)
    ensures r == Err(InvalidTransactionData) <==> tx.amount.None?
    ensures r.Ok? ==> r.value == CheckoutData(apiKey, tx.amount.value, orderNumber)
  {
    if tx.amount.None? then Err(InvalidTransactionData)
    else if tx.installments.None? then Err(TooManyInstallments)
    else
      var n := tx.installments.value;
      var quote := Lookup(qs, n);
      if maxInstallment < n || quote.None? then Err(TooManyInstallments)
      else if n != 1 && SmallestInstallment(settingCents) > quote.value.installmentAmount then
        Err(BelowSmallestInstallment)
      else if tx.amount.value != quote.value.amount then Err(WrongAmountTotal)
      else Ok(CheckoutData(apiKey, tx.amount.value, orderNumber))
  }

  /**
   A transaction passes the checkout exactly when it has an amount and a
   count within the maximum whose quote exists, reaches the smallest
   installment unless it is a single one, and totals the transaction amount.
   */
  lemma CheckoutAcceptsExactly(
    tx: VendorTransaction, qs: seq<Quote>, maxInstallment: int, settingCents: int,
    apiKey: string, orderNumber: string)
    ensures GenerateCheckoutData(tx, qs, maxInstallment, settingCents, apiKey, orderNumber).Ok? <==>
              && tx.amount.Some? && tx.installments.Some?
              && tx.installments.value <= maxInstallment
              && (exists q :: q in qs && q.parcel == tx.installments.value)
              && var q := Lookup(qs, tx.installments.value).value;
                 && (tx.installments.value == 1 || q.installmentAmount >= SmallestInstallment(settingCents))
                 && q.amount == tx.amount.value
  {
  }

  /** A single installment is never rejected for being below the smallest installment. */
  lemma SingleInstallmentExempt(
    tx: VendorTransaction, qs: seq<Quote>, maxInstallment: int, settingCents: int,
    apiKey: string, orderNumber: string)
    requires tx.installments == Some(1)
    ensures GenerateCheckoutData(tx, qs, maxInstallment, settingCents, apiKey, orderNumber)
            != Err(BelowSmallestInstallment)
  {
  }

  /**
   The errors come in a fixed order: a later check only fails once every
   earlier one has passed.
   */
  lemma CheckoutErrorOrder(
    tx: VendorTransaction, qs: seq<Quote>, maxInstallment: int, settingCents: int,
    apiKey: string, orderNumber: string)
    ensures var r := GenerateCheckoutData(tx, qs, maxInstallment, settingCents, apiKey, orderNumber);
            (r == Err(TooManyInstallments) ==>
               tx.amount.Some?
               && (tx.installments.None? || maxInstallment < tx.installments.value
                   || Lookup(qs, tx.installments.value).None?))
            && (r == Err(BelowSmallestInstallment) ==>
                  tx.amount.Some? && tx.installments.Some? && tx.installments.value <= maxInstallment
                  && tx.installments.value != 1
                  && Lookup(qs, tx.installments.value).Some?
                  && Lookup(qs, tx.installments.value).value.installmentAmount < SmallestInstallment(settingCents))
            && (r == Err(WrongAmountTotal) ==>
                  tx.amount.Some? && tx.installments.Some? && tx.installments.value <= maxInstallment
                  && Lookup(qs, tx.installments.value).Some?
                  && (tx.installments.value == 1
                      || Lookup(qs, tx.installments.value).value.installmentAmount >= SmallestInstallment(settingCents))
                  && Lookup(qs, tx.installments.value).value.amount != tx.amount.value)
  {
  }
}
