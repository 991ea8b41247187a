/** The per-category totals of the statistics page (js/app.js:136-141): an
    object filled entry by entry, whose keys come out in the order they were
    first added. It is modelled as a sequence of slots in that order. */
module Categories {
  import opened Entries
  import opened Aggregate

  /** One property of the totals object: a category key and its running sum. */
  datatype Slot = Slot(key: string, sum: real)

  /** Where key k sits in the totals, or |t| when it has no slot yet. */
  function IndexOf(t: seq<Slot>, k: string): (i: nat)
    ensures i <= |t|
    ensures i < |t| ==> t[i].key == k
    ensures forall j :: 0 <= j < i ==> t[j].key != k
  {
    if t == [] then 0
    else if t[0].key == k then 0
    else 1 + IndexOf(t[1..], k)
  }

  /** One step of the grouping loop: add v to the slot of k, or, when k has
      no slot, add one at the end holding 0 + v. */
  function Bump(t: seq<Slot>, k: string, v: real): seq<Slot>
  {
    var i := IndexOf(t, k);
    if i < |t| then t[i := Slot(k, t[i].sum + v)] else t + [Slot(k, 0.0 + v)]
  }

  /** The totals object after the loop has seen every entry of es. */
  function Group(es: seq<Entry>): seq<Slot>
  {
    if es == [] then []
    else
      var e := es[|es| - 1];
      Bump(Group(es[..|es| - 1]), KeyOf(e), Coerce(e.amount))
  }

  /** The grouping loop itself: walk the entries in order and add each
      coerced amount under the entry's key. */
  method GroupByCategory(es: seq<Entry>) returns (byCat: seq<Slot>)
    ensures byCat == Group(es)
  {
    byCat := [];
    var i := 0;
    while i < |es|
      invariant 0 <= i <= |es|
      invariant byCat == Group(es[..i])
    {
      var e := es[i];
      var c := KeyOf(e);
      // the property of c is set to its previous value (0 when it has
      // none) plus the coerced amount; a new property goes last
      byCat := Bump(byCat, c, Coerce(e.amount));
      GroupStep(es, i);
      i := i + 1;
    }
    assert es[..|es|] == es;
  }

  /** The totals after one more entry are one loop step from those before. */
  lemma GroupStep(es: seq<Entry>, i: nat)
    requires i < |es|
    ensures Group(es[..i + 1]) == Bump(Group(es[..i]), KeyOf(es[i]), Coerce(es[i].amount))
  {
    assert es[..i + 1][..i] == es[..i];
  }

  // ----- Reference definitions -----

  /** The sum of the coerced amounts of the entries grouped under k. */
  function CategorySum(es: seq<Entry>, k: string): real
  {
    if es == [] then 0.0
    else
      var e := es[|es| - 1];
      CategorySum(es[..|es| - 1], k) + (if KeyOf(e) == k then Coerce(e.amount) else 0.0)
  }

  /** The index of the first entry grouped under k, or |es| when there is none. */
  function FirstIndex(es: seq<Entry>, k: string): (r: nat)
    ensures r <= |es|
    ensures r < |es| ==> KeyOf(es[r]) == k
    ensures forall p :: 0 <= p < r ==> KeyOf(es[p]) != k
  {
    if es == [] then 0
    else
      var q := FirstIndex(es[..|es| - 1], k);
      assert forall p :: 0 <= p < |es| - 1 ==> es[..|es| - 1][p] == es[p];
      if q < |es| - 1 then q
      else if KeyOf(es[|es| - 1]) == k then |es| - 1
      else |es|
  }

  /** The sum of all slots, in slot order. */
  function SumSlots(t: seq<Slot>): real
  {
    if t == [] then 0.0 else SumSlots(t[..|t| - 1]) + t[|t| - 1].sum
  }

  // ----- Helper lemmas -----

  lemma {:induction false} IndexOfUpdate(t: seq<Slot>, i: nat, s: Slot)
    requires i < |t| && s.key == t[i].key
    ensures forall k :: IndexOf(t[i := s], k) == IndexOf(t, k)
  {
    if i == 0 {
      assert t[i := s][1..] == t[1..];
    } else {
      assert t[i := s][1..] == t[1..][i - 1 := s];
      IndexOfUpdate(t[1..], i - 1, s);
    }
  }

  lemma IndexOfSnoc(t: seq<Slot>, s: Slot, k: string)
    ensures IndexOf(t + [s], k) ==
              if IndexOf(t, k) < |t| then IndexOf(t, k)
              else if s.key == k then |t| else |t| + 1
  {
    var r, q := IndexOf(t + [s], k), IndexOf(t, k);
    if q < |t| {
      assert (t + [s])[q].key == k;
    } else if s.key == k {
      assert (t + [s])[|t|].key == k;
    }
  }

  lemma {:induction false} SumSlotsUpdate(t: seq<Slot>, i: nat, s: Slot)
    requires i < |t|
    ensures SumSlots(t[i := s]) == SumSlots(t) - t[i].sum + s.sum
    decreases |t|
  {
    var n := |t| - 1;
    if i == n {
      assert t[i := s][..n] == t[..n];
    } else {
      assert t[i := s][..n] == t[..n][i := s];
      SumSlotsUpdate(t[..n], i, s);
    }
  }

  /** What one step of the loop does to the slots' keys. */
  lemma BumpKeys(t: seq<Slot>, k: string, v: real)
    ensures |Bump(t, k, v)| == if IndexOf(t, k) < |t| then |t| else |t| + 1
    ensures forall i :: 0 <= i < |t| ==> Bump(t, k, v)[i].key == t[i].key
    ensures IndexOf(t, k) == |t| ==> Bump(t, k, v)[|t|].key == k
  {
  }

  /** What one step of the loop does to a lookup. */
  lemma BumpIndexOf(t: seq<Slot>, k: string, v: real, x: string)
    ensures IndexOf(Bump(t, k, v), x) ==
              if IndexOf(t, x) < |t| then IndexOf(t, x)
              else if x == k then |t| else |Bump(t, k, v)|
  {
    var i := IndexOf(t, k);
    if i < |t| {
      IndexOfUpdate(t, i, Slot(k, t[i].sum + v));
    } else {
      IndexOfSnoc(t, Slot(k, 0.0 + v), x);
    }
  }

  /** One step of the loop adds v to the sum of the slot of x when x is
      its key, and nothing to any other. */
  lemma BumpLookup(t: seq<Slot>, k: string, v: real, x: string)
    ensures IndexOf(Bump(t, k, v), x) < |Bump(t, k, v)| ==>
              Bump(t, k, v)[IndexOf(Bump(t, k, v), x)].sum ==
                (if IndexOf(t, x) < |t| then t[IndexOf(t, x)].sum else 0.0) + (if x == k then v else 0.0)
  {
    BumpIndexOf(t, k, v, x);
    BumpKeys(t, k, v);
    if IndexOf(t, x) < |t| && x != k {
      assert IndexOf(t, k) < |t| ==> IndexOf(t, k) != IndexOf(t, x);
    }
  }

  /** One step of the loop adds v to the sum of all slots. */
  lemma BumpSum(t: seq<Slot>, k: string, v: real)
    ensures SumSlots(Bump(t, k, v)) == SumSlots(t) + v
  {
    var i := IndexOf(t, k);
    if i < |t| {
      SumSlotsUpdate(t, i, Slot(k, t[i].sum + v));
    } else {
      assert (t + [Slot(k, 0.0 + v)])[..|t|] == t;
    }
  }

  // ----- Properties of the grouping -----

  /** Looking a category up in the totals finds a slot exactly when some
      entry is grouped under it; the slot holds the sum of the amounts of
      those entries, and a category without entries sums to 0. */
  lemma {:induction false} GroupLookup(es: seq<Entry>, k: string)
    ensures IndexOf(Group(es), k) < |Group(es)| <==> FirstIndex(es, k) < |es|
    ensures IndexOf(Group(es), k) < |Group(es)| ==>
              Group(es)[IndexOf(Group(es), k)].sum == CategorySum(es, k)
    ensures IndexOf(Group(es), k) == |Group(es)| ==> CategorySum(es, k) == 0.0
  {
    if es != [] {
      var pre, e := es[..|es| - 1], es[|es| - 1];
      var g, ke, v := Group(pre), KeyOf(e), Coerce(e.amount);
      assert Group(es) == Bump(g, ke, v);
      GroupLookup(pre, k);
      BumpIndexOf(g, ke, v, k);
      BumpLookup(g, ke, v, k);
    }
  }

  /** Every entry's key has a slot. */
  lemma GroupCoversEntries(es: seq<Entry>)
    ensures forall p :: 0 <= p < |es| ==> IndexOf(Group(es), KeyOf(es[p])) < |Group(es)|
  {
    forall p | 0 <= p < |es| ensures IndexOf(Group(es), KeyOf(es[p])) < |Group(es)| {
      GroupLookup(es, KeyOf(es[p]));
    }
  }

  /** Every key belongs to some entry: the first entry grouped under it. */
  lemma GroupKeysSeen(es: seq<Entry>)
    ensures forall i :: 0 <= i < |Group(es)| ==> FirstIndex(es, Group(es)[i].key) < |es|
  {
    forall i | 0 <= i < |Group(es)| ensures FirstIndex(es, Group(es)[i].key) < |es| {
      GroupLookup(es, Group(es)[i].key);
    }
  }

  /** No key has two slots. */
  lemma {:induction false} GroupKeysUnique(es: seq<Entry>)
    ensures forall i, j :: 0 <= i < j < |Group(es)| ==> Group(es)[i].key != Group(es)[j].key
  {
    if es != [] {
      var pre, e := es[..|es| - 1], es[|es| - 1];
      var g, ke, v := Group(pre), KeyOf(e), Coerce(e.amount);
      assert Group(es) == Bump(g, ke, v);
      GroupKeysUnique(pre);
      BumpKeys(g, ke, v);
    }
  }

  /** Keys appear in the order in which their first entry appears. */
  lemma {:induction false} GroupFirstSeen(es: seq<Entry>)
    ensures forall i, j :: 0 <= i < j < |Group(es)| ==>
              FirstIndex(es, Group(es)[i].key) < FirstIndex(es, Group(es)[j].key)
  {
    if es != [] {
      var pre, e := es[..|es| - 1], es[|es| - 1];
      var g, ke, v := Group(pre), KeyOf(e), Coerce(e.amount);
      assert Group(es) == Bump(g, ke, v);
      GroupFirstSeen(pre);
      GroupKeysSeen(pre);
      GroupLookup(pre, ke);
      BumpKeys(g, ke, v);
      var g' := Group(es);
      forall i, j | 0 <= i < j < |g'| ensures FirstIndex(es, g'[i].key) < FirstIndex(es, g'[j].key) {
        assert FirstIndex(pre, g[i].key) < |pre|;
        if j == |g| {
          assert FirstIndex(pre, ke) == |pre|;
        } else {
          assert FirstIndex(pre, g[j].key) < |pre|;
        }
      }
    }
  }

  /** Each slot holds exactly the sum of the amounts of its category. */
  lemma GroupSlotSums(es: seq<Entry>)
    ensures forall i :: 0 <= i < |Group(es)| ==> Group(es)[i].sum == CategorySum(es, Group(es)[i].key)
  {
    var g := Group(es);
    GroupKeysUnique(es);
    forall i | 0 <= i < |g| ensures g[i].sum == CategorySum(es, g[i].key) {
      GroupLookup(es, g[i].key);
      assert IndexOf(g, g[i].key) == i;
    }
  }

  /** The category totals add up to the page's total. */
  lemma {:induction false} GroupPreservesTotal(es: seq<Entry>)
    ensures SumSlots(Group(es)) == Total(es)
  {
    if es != [] {
      var pre, e := es[..|es| - 1], es[|es| - 1];
      var g, k, v := Group(pre), KeyOf(e), Coerce(e.amount);
      assert Group(es) == Bump(g, k, v);
      GroupPreservesTotal(pre);
      BumpSum(g, k, v);
    }
  }
}
