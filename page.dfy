/** The two page handlers of js/app.js: the submit handler of the expense
    form, which saves an accepted entry, and the statistics page, which
    summarises the stored entries and draws their category totals. */
module Pages {
  import opened Entries
  import opened Aggregate
  import opened Categories
  import opened ExpenseForm
  import opened Chart
  import opened Store

  /** Submitting the form: run the five checks and, only when all pass,
      save the entry built from the form. The id and the creation time are
      read from the clock by js/app.js and are passed in here. */
  method Submit(store: ExpenseStore, f: Form, id: string, createdAt: string)
      returns (isValid: bool, errors: set<Field>)
    modifies store
    ensures isValid <==> Accepted(f)
    ensures isValid <==> errors == {}
    ensures DateField in errors <==> !DateOk(f)
    ensures CategoryField in errors <==> !CategoryOk(f)
    ensures AmountField in errors <==> !AmountOk(f)
    ensures PaymentField in errors <==> !PaymentOk(f)
    ensures ConfirmField in errors <==> !ConfirmOk(f)
    ensures isValid ==> store.entries == old(store.entries) + [NewEntry(f, id, createdAt)]
    ensures !isValid ==> store.entries == old(store.entries)
  {
    isValid, errors := CheckForm(f);
    if !isValid {
      return;
    }
    var entry := NewEntry(f, id, createdAt);
    store.SaveExpense(entry);
  }

  /** The statistics page on a w × h canvas: the three figures, the
      category totals and the chart drawn from them. */
  method ShowStatistics(store: ExpenseStore, w: nat, h: nat)
      returns (s: Summary, byCat: seq<Slot>, d: Drawing)
    ensures s == Summarize(store.entries)
    ensures byCat == Group(store.entries)
    ensures d == Layout(w, h, byCat)
  {
    var arr := store.entries;
    s := Summarize(arr);
    byCat := GroupByCategory(arr);
    d := DrawBarChart(w, h, byCat);
  }

  /** What saving an accepted form does to the statistics: one more entry,
      a strictly larger total, and the entry's category has a slot whose
      sum grew by the entry's amount. */
  lemma AcceptedEntryRecorded(es: seq<Entry>, f: Form, id: string, createdAt: string)
    requires Accepted(f)
    ensures var es' := es + [NewEntry(f, id, createdAt)];
            Summarize(es').count == Summarize(es).count + 1 &&
            Summarize(es').total > Summarize(es).total
    ensures var es', k := es + [NewEntry(f, id, createdAt)], f.category.value;
            IndexOf(Group(es'), k) < |Group(es')| &&
            Group(es')[IndexOf(Group(es'), k)].sum == CategorySum(es, k) + f.amount.value.value
  {
    var e := NewEntry(f, id, createdAt);
    var es', k := es + [e], f.category.value;
    RecordOneMore(es, e);
    assert es'[..|es'| - 1] == es;
    GroupLookup(es', k);
    GroupCoversEntries(es');
    assert KeyOf(es'[|es'| - 1]) == k;
  }
}
