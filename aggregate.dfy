/** Summary statistics of the stored entries: the total, the count and the
    largest single amount (js/app.js:123-134). */
module Aggregate {
  import opened Entries

  /** The maximum shown on the page: the placeholder '—' for no entries,
      otherwise a number. */
  datatype MaxStat = NoData | Largest(amount: real)

  datatype Summary = Summary(total: real, count: nat, max: MaxStat)

  /** The sum of the coerced amounts, folded from the left starting at 0 as
      the page script's reduce does. */
  function Total(es: seq<Entry>): real
  {
    if es == [] then 0.0 else Total(es[..|es| - 1]) + Coerce(es[|es| - 1].amount)
  }

  /** The running maximum of the page script's second reduce: it starts at 0 and
      takes an entry's raw amount when that is greater. A comparison with
      something that is not a number is false, so such an entry leaves the
      running maximum as it is. */
  function MaxReduce(es: seq<Entry>): (m: real)
    ensures m >= 0.0
    ensures forall i :: 0 <= i < |es| ==> Coerce(es[i].amount) <= m
    ensures m == 0.0 || exists i :: 0 <= i < |es| && es[i].amount == Num(m)
  {
    if es == [] then 0.0
    else
      var prev := MaxReduce(es[..|es| - 1]);
      var last := es[|es| - 1];
      assert forall i :: 0 <= i < |es| - 1 ==> es[..|es| - 1][i] == es[i];
      match last.amount
      case Num(v) => if v > prev then v else prev
      case Invalid => prev
  }

  /** The three figures of the statistics page. */
  function Summarize(es: seq<Entry>): (s: Summary)
    ensures s.count == |es|
    ensures s.max == NoData <==> es == []
    ensures s.max.Largest? ==>
              s.max.amount >= 0.0 &&
              (forall i :: 0 <= i < |es| ==> Coerce(es[i].amount) <= s.max.amount) &&
              (s.max.amount == 0.0 || exists i :: 0 <= i < |es| && es[i].amount == Num(s.max.amount))
  {
    Summary(Total(es), |es|, if |es| == 0 then NoData else Largest(MaxReduce(es)))
  }

  /** The total is additive over concatenation, so it does not depend on
      how the history is split into earlier and later entries. */
  lemma {:induction false} TotalAppend(a: seq<Entry>, b: seq<Entry>)
    ensures Total(a + b) == Total(a) + Total(b)
    decreases |b|
  {
    if b == [] {
      assert a + b == a;
    } else {
      var b' := b[..|b| - 1];
      assert (a + b)[..|a + b| - 1] == a + b';
      TotalAppend(a, b');
    }
  }

  /** The entries whose amount is a number, in their original order. */
  function Valids(es: seq<Entry>): (vs: seq<Entry>)
    ensures |vs| <= |es|
    ensures forall i :: 0 <= i < |vs| ==> vs[i].amount.Num?
    ensures forall i :: 0 <= i < |vs| ==> vs[i] in es
  {
    if es == [] then []
    else
      var pre := Valids(es[..|es| - 1]);
      var last := es[|es| - 1];
      if last.amount.Num? then pre + [last] else pre
  }

  /** Invalid amounts count as 0: the total of all entries equals the total
      of the entries with a number alone, while every entry is still
      counted. */
  lemma {:induction false} TotalIgnoresInvalid(es: seq<Entry>)
    ensures Total(Valids(es)) == Total(es)
    ensures Summarize(es).count == |es| >= |Valids(es)|
  {
    if es != [] {
      var pre, last := es[..|es| - 1], es[|es| - 1];
      TotalIgnoresInvalid(pre);
      if last.amount.Num? {
        var vs := Valids(pre) + [last];
        assert vs[..|vs| - 1] == Valids(pre);
      }
    }
  }

  /** Recording one more entry raises the count by one whatever its amount,
      and raises the total by its coerced amount: an entry with an invalid
      amount is counted but adds nothing. */
  lemma RecordOneMore(es: seq<Entry>, e: Entry)
    ensures Summarize(es + [e]).count == Summarize(es).count + 1
    ensures Summarize(es + [e]).total == Summarize(es).total + Coerce(e.amount)
    ensures e.amount == Invalid ==> Summarize(es + [e]).total == Summarize(es).total
  {
    assert (es + [e])[..|es + [e]| - 1] == es;
  }
}
