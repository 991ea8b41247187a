/** Worked examples: small histories and what the statistics page computes
    for them. */
module Scenarios {
  import opened Entries
  import opened Aggregate
  import opened Categories
  import opened Chart

  /** An entry with only a category and an amount filled in. */
  function Spent(category: string, amount: Amount): Entry
  {
    Entry("", "", category, amount, "", "", "", "")
  }

  /** Nothing recorded: zero total, zero count, the placeholder for the
      maximum, no category and only the placeholder text on the chart. */
  lemma EmptyHistory(w: nat, h: nat)
    ensures Summarize([]) == Summary(0.0, 0, NoData)
    ensures Group([]) == []
    ensures Layout(w, h, Group([])) == Placeholder(NoDataText, 10.0, 20.0)
  {
  }

  /** Two food entries and one transport entry. */
  function Sample(): seq<Entry>
  {
    [Spent("food", Num(1000.0)), Spent("food", Num(500.0)), Spent("transport", Num(300.0))]
  }

  /** The sample's figures: total 1800, three entries, largest 1000. */
  lemma SampleSummary()
    ensures Summarize(Sample()) == Summary(1800.0, 3, Largest(1000.0))
  {
    var es := Sample();
    var e1, e2 := es[0], es[1];
    assert es[..2] == [e1, e2] && [e1, e2][..1] == [e1] && [e1][..0] == [];
    assert Total([e1]) == 1000.0 && MaxReduce([e1]) == 1000.0;
    assert Total([e1, e2]) == 1500.0 && MaxReduce([e1, e2]) == 1000.0;
  }

  /** The sample's totals: the food slot comes first and holds both food
      amounts. */
  lemma SampleGrouping()
    ensures Group(Sample()) == [Slot("food", 1500.0), Slot("transport", 300.0)]
  {
    var es := Sample();
    var e1, e2 := es[0], es[1];
    assert es[..2] == [e1, e2] && [e1, e2][..1] == [e1] && [e1][..0] == [];
    assert Group([e1]) == [Slot("food", 1000.0)];
    assert Group([e1, e2]) == [Slot("food", 1500.0)];
  }

  /** The sample's chart: the food bar fills the chart height and the
      transport bar is a fifth of it. */
  lemma SampleChart(w: nat, h: nat)
    ensures var bars := PlaceBars(w, h, [Slot("food", 1500.0), Slot("transport", 300.0)]);
            bars[0].rect.Some? && bars[1].rect.Some? &&
            bars[0].rect.value.height == h as real - 2.0 * Margin &&
            bars[0].rect.value.height == 5.0 * bars[1].rect.value.height
  {
    var t := [Slot("food", 1500.0), Slot("transport", 300.0)];
    assert MaxIndex(t) == 0;
    BarHeightAt(w, h, t, 0);
    BarHeightAt(w, h, t, 1);
  }

  /** An entry without a category is grouped under the fallback key. */
  lemma MissingCategory()
    ensures Group([Spent("", Num(200.0))]) == [Slot(Fallback, 200.0)]
  {
  }

  /** An amount that is not a number is counted but adds nothing; the
      largest amount stays at the reduce's start value 0, and the chart
      draws the category's label but no rectangle. */
  lemma UnparsableAmount(w: nat, h: nat)
    ensures Summarize([Spent("food", Invalid)]) == Summary(0.0, 1, Largest(0.0))
    ensures Group([Spent("food", Invalid)]) == [Slot("food", 0.0)]
    ensures PlaceBars(w, h, [Slot("food", 0.0)])[0].rect == None
  {
  }
}
