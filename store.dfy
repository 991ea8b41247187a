/** The stored list of expenses (js/app.js:32-38): an array kept under one
    storage key, read back whole and written back whole. The serialisation
    is not modelled; the store holds the decoded array. */
module Store {
  import opened Entries

  class ExpenseStore {
    /** The entries in the order they were saved. */
    var entries: seq<Entry>

    /** The store as found on page load: the decoded array, or the empty
        array when nothing was stored yet. */
    constructor(stored: seq<Entry>)
      ensures entries == stored
    {
      entries := stored;
    }

    /** Push one entry at the end of the stored array. */
    method SaveExpense(e: Entry)
      modifies this
      ensures entries == old(entries) + [e]
    {
      entries := entries + [e];
    }
  }
}
