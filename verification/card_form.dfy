/**
 The checkout script's place-order handler for the credit-card method: it
 normalises the card fields, shows the card library's field errors, or
 attaches a single card-hash input and submits the form. The card library's
 validation and hashing are parameters.
 */
module CardForm {
  import opened Common

  predicate IsDigit(c: char) {
    '0' <= c <= '9'
  }

  predicate AllDigits(s: string) {
    forall i :: 0 <= i < |s| ==> IsDigit(s[i])
  }

  /** `replace(/[^\d]/g, '')`: the input with every character other than 0-9 removed. */
  function OnlyDigits(s: string): (d: string)
    ensures AllDigits(d)
    ensures |d| <= |s|
    ensures forall c :: IsDigit(c) ==> multiset(d)[c] == multiset(s)[c]
    ensures forall c :: !IsDigit(c) ==> multiset(d)[c] == 0
  {
    if |s| == 0 then ""
    else
      assert s == [s[0]] + s[1..];
      (if IsDigit(s[0]) then [s[0]] else []) + OnlyDigits(s[1..])
  }

  /** Filtering a string that is already all digits changes nothing. */
  lemma {:induction false} OnlyDigitsOfDigits(s: string)
    requires AllDigits(s)
    ensures OnlyDigits(s) == s
  {
    if |s| > 0 {
      OnlyDigitsOfDigits(s[1..]);
    }
  }

  /** Filtering works piecewise: the digits of a concatenation are the concatenated digits. */
  lemma {:induction false} OnlyDigitsAppend(a: string, b: string)
    ensures OnlyDigits(a + b) == OnlyDigits(a) + OnlyDigits(b)
  {
    if |a| > 0 {
      assert (a + b)[1..] == a[1..] + b;
      OnlyDigitsAppend(a[1..], b);
    } else {
      assert a + b == b;
    }
  }

  /** Filtering twice is filtering once. */
  lemma OnlyDigitsIdempotent(s: string)
    ensures OnlyDigits(OnlyDigits(s)) == OnlyDigits(s)
  {
    OnlyDigitsOfDigits(OnlyDigits(s));
  }

  /**
   The expiry split: `substr(0, 2)` and `substr(2)` of the filtered expiry,
   which on a shorter string give the whole string and the empty string.
   */
  function SplitExpiry(expiry: string): (r: (string, string))
    ensures r.0 + r.1 == OnlyDigits(expiry)
    ensures |r.0| == if |OnlyDigits(expiry)| < 2 then |OnlyDigits(expiry)| else 2
    ensures AllDigits(r.0) && AllDigits(r.1)
  {
    var d := OnlyDigits(expiry);
    var cut := if |d| < 2 then |d| else 2;
    assert d == d[..cut] + d[cut..];
    (d[..cut], d[cut..])
  }

  /** The raw values of the four card inputs. */
  datatype Inputs = Inputs(holderName: string, expiry: string, number: string, cvc: string)

  /** The card object handed to the card library. */
  datatype Card = Card(holderName: string, expirationMonth: string, expirationYear: string, number: string, cvv: string)

  /**
   The card read from the inputs: holder and CVV as typed, card number with
   non-digits removed, month and year taken from the filtered expiry.
   */
  function CardFrom(inputs: Inputs): (c: Card)
    ensures c.holderName == inputs.holderName && c.cvv == inputs.cvc
    ensures c.number == OnlyDigits(inputs.number) && AllDigits(c.number)
    ensures c.expirationMonth + c.expirationYear == OnlyDigits(inputs.expiry)
    ensures |c.expirationMonth| <= 2 && (|c.expirationYear| > 0 ==> |c.expirationMonth| == 2)
  {
    var (month, year) := SplitExpiry(inputs.expiry);
    Card(inputs.holderName, month, year, OnlyDigits(inputs.number), inputs.cvc)
  }

  /** A form input. */
  datatype Input = Input(name: string, value: string)

  /** The name of the hidden input carrying the card hash. */
  const CardHashName := "splits_card_hash"

  /**
   The parts of the checkout form the handler touches: the `processing`
   class, the inputs, the error box of the card fieldset (one list item per
   error) and whether the form was submitted.
   */
  datatype Form = Form(processing: bool, inputs: seq<Input>, errorBox: Option<seq<string>>, submitted: bool)

  /** How many inputs carry a name. */
  function CountNamed(inputs: seq<Input>, name: string): (n: nat)
    ensures n <= |inputs|
  {
    if |inputs| == 0 then 0
    else (if inputs[0].name == name then 1 else 0) + CountNamed(inputs[1..], name)
  }

  /** `$('input[name=…]', form).remove()`: drops every input with that name, keeps the rest in order. */
  function RemoveNamed(inputs: seq<Input>, name: string): (r: seq<Input>)
    ensures forall x :: x in r <==> x in inputs && x.name != name
    ensures |r| + CountNamed(inputs, name) == |inputs|
  {
    if |inputs| == 0 then []
    else (if inputs[0].name == name then [] else [inputs[0]]) + RemoveNamed(inputs[1..], name)
  }

  /** Counting over a concatenation adds the counts. */
  lemma {:induction false} CountNamedAppend(a: seq<Input>, b: seq<Input>, name: string)
    ensures CountNamed(a + b, name) == CountNamed(a, name) + CountNamed(b, name)
  {
    if |a| > 0 {
      assert (a + b)[1..] == a[1..] + b;
      CountNamedAppend(a[1..], b, name);
    } else {
      assert a + b == b;
    }
  }

  /** After removal no input carries the name. */
  lemma {:induction false} RemoveNamedLeavesNone(inputs: seq<Input>, name: string)
    ensures CountNamed(RemoveNamed(inputs, name), name) == 0
  {
    if |inputs| > 0 {
      var head := if inputs[0].name == name then [] else [inputs[0]];
      RemoveNamedLeavesNone(inputs[1..], name);
      CountNamedAppend(head, RemoveNamed(inputs[1..], name), name);
    }
  }

  /** The `<li>` list items of the error box, one per error, in order. */
  function ErrorItems(errors: seq<string>): (items: seq<string>)
    ensures |items| == |errors|
    ensures forall i :: 0 <= i < |errors| ==> items[i] == "<li>" + errors[i] + "</li>"
  {
    if |errors| == 0 then [] else ["<li>" + errors[0] + "</li>"] + ErrorItems(errors[1..])
  }

  /** What the handler returns to jQuery and the form it leaves. */
  datatype Handled = Handled(returned: bool, form: Form)

  /**
   The place-order click handler. With another payment method selected it
   returns true and leaves the form alone. Otherwise it reads the card, and
   either shows one list item per field error, or replaces any card-hash
   input with one holding the library's hash and submits the form; either
   way it clears `processing` and returns false.
   */
  function PlaceOrder(
    creditCardSelected: bool, inputs: Inputs, form: Form,
    fieldErrors: Card -> seq<string>, generateHash: Card -> string): (r: Handled)
    ensures !creditCardSelected ==> r == Handled(true, form)
    ensures creditCardSelected ==> !r.returned && !r.form.processing
    ensures creditCardSelected && |fieldErrors(CardFrom(inputs))| > 0 ==>
              && r.form.errorBox == Some(ErrorItems(fieldErrors(CardFrom(inputs))))
              && r.form.inputs == form.inputs && r.form.submitted == form.submitted
    ensures creditCardSelected && |fieldErrors(CardFrom(inputs))| == 0 ==>
              && r.form.errorBox.None? && r.form.submitted
              && Input(CardHashName, generateHash(CardFrom(inputs))) in r.form.inputs
              && (forall x: Input :: x.name != CardHashName ==> (x in r.form.inputs <==> x in form.inputs))
  {
    if !creditCardSelected then Handled(true, form)
    else
      var card := CardFrom(inputs);
      var errors := fieldErrors(card);
      if |errors| > 0 then
        Handled(false, form.(processing := false, errorBox := Some(ErrorItems(errors))))
      else
        var kept := RemoveNamed(form.inputs, CardHashName);
        Handled(false, form.(processing := false, errorBox := None,
                             inputs := kept + [Input(CardHashName, generateHash(card))],
                             submitted := true))
  }

  /** After a successful click exactly one card-hash input remains, whatever the form held before. */
  lemma SingleCardHashInput(inputs: Inputs, form: Form, fieldErrors: Card -> seq<string>, generateHash: Card -> string)
    ensures |fieldErrors(CardFrom(inputs))| == 0 ==>
              CountNamed(PlaceOrder(true, inputs, form, fieldErrors, generateHash).form.inputs, CardHashName) == 1
  {
    var kept := RemoveNamed(form.inputs, CardHashName);
    var hash := Input(CardHashName, generateHash(CardFrom(inputs)));
    RemoveNamedLeavesNone(form.inputs, CardHashName);
    CountNamedAppend(kept, [hash], CardHashName);
    assert [hash][1..] == [];
  }
}
