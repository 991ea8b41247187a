/** The expense form's submit handler (js/app.js:40-100): five checks, each
    of which marks its field as wrong, and the entry built from an accepted
    form. */
module ExpenseForm {
  import opened Entries
  import opened Text

  /** One payment-method radio button. */
  datatype Radio = Radio(value: string, checked: bool)

  /** The form as the handler reads it. A field is None when its element is
      missing from the page; `amount` is the number parsed from the amount
      field's text. */
  datatype Form = Form(
    date: Option<string>,
    category: Option<string>,
    amount: Option<Amount>,
    payments: seq<Radio>,
    confirm: Option<bool>,
    labelText: Option<string>,
    notes: Option<string>)

  /** The fields whose error message the handler can show. */
  datatype Field = DateField | CategoryField | AmountField | PaymentField | ConfirmField

  predicate DateOk(f: Form) { f.date.Some? && |Trim(f.date.value)| > 0 }
  predicate CategoryOk(f: Form) { f.category.Some? && |f.category.value| > 0 }
  predicate AmountOk(f: Form) { f.amount.Some? && f.amount.value.Num? && f.amount.value.value > 0.0 }
  predicate PaymentOk(f: Form) { AnyChecked(f.payments) }
  predicate ConfirmOk(f: Form) { f.confirm == Some(true) }

  /** The acceptance rule: all five checks pass. */
  predicate Accepted(f: Form)
  {
    DateOk(f) && CategoryOk(f) && AmountOk(f) && PaymentOk(f) && ConfirmOk(f)
  }

  /** Whether some payment radio is checked. */
  function AnyChecked(rs: seq<Radio>): (b: bool)
    ensures b <==> exists i :: 0 <= i < |rs| && rs[i].checked
  {
    if rs == [] then false
    else rs[|rs| - 1].checked || AnyChecked(rs[..|rs| - 1])
  }

  /** The index of the first checked radio, or |rs| when none is checked. */
  function FirstChecked(rs: seq<Radio>): (i: nat)
    ensures i <= |rs|
    ensures i < |rs| ==> rs[i].checked
    ensures forall j :: 0 <= j < i ==> !rs[j].checked
  {
    if rs == [] then 0
    else if rs[0].checked then 0
    else 1 + FirstChecked(rs[1..])
  }

  /** The payment stored with the entry: the value of the first checked
      radio, or "cash" when there is none or its value is empty. */
  function PaymentValue(rs: seq<Radio>): (p: string)
    ensures p != ""
    ensures FirstChecked(rs) < |rs| && rs[FirstChecked(rs)].value != "" ==> p == rs[FirstChecked(rs)].value
    ensures !(FirstChecked(rs) < |rs| && rs[FirstChecked(rs)].value != "") ==> p == "cash"
  {
    var i := FirstChecked(rs);
    if i < |rs| && rs[i].value != "" then rs[i].value else "cash"
  }

  /** The five checks, run one after the other as the handler does: each
      failing check marks its field (shows its message) and clears the
      validity flag. */
  method CheckForm(f: Form) returns (isValid: bool, errors: set<Field>)
    ensures isValid <==> Accepted(f)
    ensures isValid <==> errors == {}
    ensures DateField in errors <==> !DateOk(f)
    ensures CategoryField in errors <==> !CategoryOk(f)
    ensures AmountField in errors <==> !AmountOk(f)
    ensures PaymentField in errors <==> !PaymentOk(f)
    ensures ConfirmField in errors <==> !ConfirmOk(f)
  {
    isValid, errors := true, {};
    if f.date.None? || |Trim(f.date.value)| == 0 {
      errors, isValid := errors + {DateField}, false;
    }
    if f.category.None? || |f.category.value| == 0 {
      errors, isValid := errors + {CategoryField}, false;
    }
    // a missing amount field parses as the number 0
    var amountVal := if f.amount.Some? then f.amount.value else Num(0.0);
    if f.amount.None? || amountVal.Invalid? || amountVal.value <= 0.0 {
      errors, isValid := errors + {AmountField}, false;
    }
    if !AnyChecked(f.payments) {
      errors, isValid := errors + {PaymentField}, false;
    }
    if f.confirm.None? || !f.confirm.value {
      errors, isValid := errors + {ConfirmField}, false;
    }
  }

  function OrEmpty(s: Option<string>): string
  {
    if s.Some? then s.value else ""
  }

  /** The entry an accepted form produces. The id and the creation time come
      from the clock and are passed in. */
  function NewEntry(f: Form, id: string, createdAt: string): (e: Entry)
    requires Accepted(f)
    ensures e.date == f.date.value && |Trim(e.date)| > 0
    ensures KeyOf(e) == e.category == f.category.value
    ensures e.amount == f.amount.value && Coerce(e.amount) > 0.0
    ensures e.payment == PaymentValue(f.payments) && e.payment != ""
    ensures f.labelText.Some? ==> e.labelText == f.labelText.value
    ensures f.labelText.None? ==> e.labelText == ""
    ensures f.notes.Some? ==> e.notes == f.notes.value
    ensures f.notes.None? ==> e.notes == ""
    ensures e.id == id && e.createdAt == createdAt
  {
    Entry(id, f.date.value, f.category.value, f.amount.value,
          OrEmpty(f.labelText), OrEmpty(f.notes), PaymentValue(f.payments), createdAt)
  }

  /** The date check in terms of characters: it passes exactly when the date
      field exists and holds a character that is not whitespace. */
  lemma DateOkMeans(f: Form)
    ensures DateOk(f) <==>
              f.date.Some? && exists i :: 0 <= i < |f.date.value| && !IsJsSpace(f.date.value[i])
  {
    if f.date.Some? {
      TrimEmpty(f.date.value);
    }
  }
}
