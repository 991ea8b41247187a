/** The stored expense entry (js/app.js, the object built by the submit
    handler and read back by the statistics page). */
module Entries {

  datatype Option<+T> = None | Some(value: T)

  /** The result of JavaScript's `Number(x)` on a stored amount: a finite
      number, or something that is not a number (NaN, a missing field). */
  datatype Amount = Num(value: real) | Invalid

  /** One recorded expense (`labelText` is the stored `label` field, a
      reserved word here). Text fields that are missing in the stored
      record are the empty string. */
  datatype Entry = Entry(
    id: string,
    date: string,
    category: string,
    amount: Amount,
    labelText: string,
    notes: string,
    payment: string,
    createdAt: string)

  /** The category key used when an entry has none ("egyéb", other). */
  const Fallback: string := "egyeb"

  /** The amount an entry contributes to a sum: a number as it is, anything
      that is not a number as 0. */
  function Coerce(a: Amount): real
  {
    match a
    case Num(v) => v
    case Invalid => 0.0
  }

  /** The key an entry is grouped under: its category, or the fallback key
      when the category is empty or missing. */
  function KeyOf(e: Entry): (k: string)
    ensures k != ""
    ensures e.category != "" ==> k == e.category
    ensures e.category == "" ==> k == Fallback
  {
    if e.category == "" then Fallback else e.category
  }
}
