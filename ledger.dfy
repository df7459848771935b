/** The statistics aggregation of the expense ledger: the two `reduce` folds
    of the stats route (a running total and a per-category object) and the
    record count, with the facts that tie them together. The client's
    running total on the home screen is the same fold. */
module Ledger {
  import opened Seqs
  import opened Records

  /** `es.reduce((sum, e) => sum + e.amount, 0)`: a left fold. */
  function Total(es: seq<Expense>): real
  {
    if es == [] then 0.0 else Total(es[..|es| - 1]) + es[|es| - 1].amount
  }

  lemma {:induction false} TotalAppend(a: seq<Expense>, b: seq<Expense>)
    ensures Total(a + b) == Total(a) + Total(b)
    decreases |b|
  {
    if b == [] {
      assert a + b == a;
    } else {
      assert (a + b)[..|a + b| - 1] == a + b[..|b| - 1];
      TotalAppend(a, b[..|b| - 1]);
    }
  }

  /** A list of non-negative amounts has a non-negative total. */
  lemma {:induction false} TotalNonNegative(es: seq<Expense>)
    requires forall i :: 0 <= i < |es| ==> es[i].amount >= 0.0
    ensures Total(es) >= 0.0
    decreases |es|
  {
    if es != [] {
      TotalNonNegative(es[..|es| - 1]);
    }
  }

  /** `acc[c] || 0`: the running sum for category `c`, absent meaning 0. */
  function SumFor(acc: map<string, real>, c: string): real
  {
    if c in acc then acc[c] else 0.0
  }

  /** One step of the per-category fold: `acc[e.category] = (acc[e.category] || 0) + e.amount`. */
  function AddExpense(acc: map<string, real>, e: Expense): (r: map<string, real>)
    ensures r.Keys == acc.Keys + {e.category}
    ensures SumFor(r, e.category) == SumFor(acc, e.category) + e.amount
    ensures forall c :: c != e.category ==> SumFor(r, c) == SumFor(acc, c)
  {
    acc[e.category := SumFor(acc, e.category) + e.amount]
  }

  /** The `totalByCategory` reduce, starting from `{}`. */
  function ByCategory(es: seq<Expense>): map<string, real>
  {
    if es == [] then map[] else AddExpense(ByCategory(es[..|es| - 1]), es[|es| - 1])
  }

  /** The expenses of category `c`. */
  function InCategory(c: string): Expense -> bool
  {
    (e: Expense) => e.category == c
  }

  /** Independent definition of a category's sum: total over the records of that category. */
  function CategoryTotal(es: seq<Expense>, c: string): real
  {
    Total(Filter(es, InCategory(c)))
  }

  function Categories(es: seq<Expense>): set<string>
  {
    set i | 0 <= i < |es| :: es[i].category
  }

  lemma {:induction false} ByCategoryKeys(es: seq<Expense>)
    ensures ByCategory(es).Keys == Categories(es)
    decreases |es|
  {
    if es != [] {
      var init := es[..|es| - 1];
      ByCategoryKeys(init);
      assert Categories(es) == Categories(init) + {es[|es| - 1].category} by {
        forall c | c in Categories(es) ensures c in Categories(init) + {es[|es| - 1].category} {
          var i :| 0 <= i < |es| && es[i].category == c;
          if i < |es| - 1 {
            assert init[i] == es[i];
          }
        }
        forall c | c in Categories(init) ensures c in Categories(es) {
          var i :| 0 <= i < |init| && init[i].category == c;
          assert es[i] == init[i];
        }
      }
    }
  }

  /** The category sum of a single record. */
  lemma CategoryTotalOfOne(e: Expense, c: string)
    ensures CategoryTotal([e], c) == if e.category == c then e.amount else 0.0
  {
    assert Total([e]) == e.amount by { assert [e][..0] == []; }
    assert Filter([e], InCategory(c)) == if e.category == c then [e] else [];
  }

  lemma {:induction false} ByCategoryValue(es: seq<Expense>, c: string)
    ensures SumFor(ByCategory(es), c) == CategoryTotal(es, c)
    decreases |es|
  {
    if es != [] {
      var init, e := es[..|es| - 1], es[|es| - 1];
      ByCategoryValue(init, c);
      assert es == init + [e];
      FilterAppend(init, [e], InCategory(c));
      TotalAppend(Filter(init, InCategory(c)), Filter([e], InCategory(c)));
      CategoryTotalOfOne(e, c);
      assert CategoryTotal(es, c) == CategoryTotal(init, c) + CategoryTotal([e], c);
    }
  }

  /** The sum of a map's values, in no particular key order. */
  ghost function SumValues(m: map<string, real>): real
    decreases |m.Keys|
  {
    if m.Keys == {} then 0.0
    else
      var k :| k in m.Keys;
      assert |(m - {k}).Keys| < |m.Keys| by { assert (m - {k}).Keys == m.Keys - {k}; }
      m[k] + SumValues(m - {k})
  }

  lemma {:induction false} SumValuesRemove(m: map<string, real>, k: string)
    requires k in m
    ensures SumValues(m) == m[k] + SumValues(m - {k})
    decreases |m.Keys|
  {
    var j :| j in m.Keys && SumValues(m) == m[j] + SumValues(m - {j});
    if j != k {
      assert (m - {j}).Keys == m.Keys - {j};
      assert (m - {k}).Keys == m.Keys - {k};
      SumValuesRemove(m - {j}, k);
      SumValuesRemove(m - {k}, j);
      assert (m - {j})[k] == m[k] && (m - {k})[j] == m[j];
      assert m - {j} - {k} == m - {k} - {j};
    }
  }

  lemma SumValuesUpdate(m: map<string, real>, k: string, v: real)
    ensures SumValues(m[k := v]) == SumValues(m) - SumFor(m, k) + v
  {
    SumValuesRemove(m[k := v], k);
    if k in m {
      assert m[k := v] - {k} == m - {k};
      SumValuesRemove(m, k);
    } else {
      assert m[k := v] - {k} == m;
    }
  }

  /** The category sums add up to the total. */
  lemma {:induction false} ByCategorySumsToTotal(es: seq<Expense>)
    ensures SumValues(ByCategory(es)) == Total(es)
    decreases |es|
  {
    if es == [] {
      assert ByCategory(es).Keys == {};
    } else {
      var init, e := es[..|es| - 1], es[|es| - 1];
      var acc := ByCategory(init);
      assert ByCategory(es) == acc[e.category := SumFor(acc, e.category) + e.amount];
      assert Total(es) == Total(init) + e.amount;
      ByCategorySumsToTotal(init);
      SumValuesUpdate(acc, e.category, SumFor(acc, e.category) + e.amount);
    }
  }

  /** A single record is either kept or dropped by a filter. */
  lemma PartitionOfOne(e: Expense, p: Expense -> bool, notP: Expense -> bool)
    requires notP(e) == !p(e)
    ensures Total(Filter([e], p)) + Total(Filter([e], notP)) == e.amount
  {
    assert Total([e]) == e.amount by { assert [e][..0] == []; }
    if p(e) {
      assert Filter([e], p) == [e] && Filter([e], notP) == [];
    } else {
      assert Filter([e], p) == [] && Filter([e], notP) == [e];
    }
  }

  /** The kept and the dropped records of any filter together make up the total. */
  lemma {:induction false} TotalPartition(es: seq<Expense>, p: Expense -> bool, notP: Expense -> bool)
    requires forall e :: notP(e) == !p(e)
    ensures Total(Filter(es, p)) + Total(Filter(es, notP)) == Total(es)
    decreases |es|
  {
    if es != [] {
      var init, e := es[..|es| - 1], es[|es| - 1];
      TotalPartition(init, p, notP);
      assert es == init + [e];
      FilterAppend(init, [e], p);
      FilterAppend(init, [e], notP);
      PartitionOfOne(e, p, notP);
      TotalAppend(Filter(init, p), Filter([e], p));
      TotalAppend(Filter(init, notP), Filter([e], notP));
    }
  }

  /** The body of the stats response. */
  datatype Summary = Summary(total: real, byCategory: map<string, real>, count: nat)

  /** The stats computation over the records the route fetched. */
  function Summarize(es: seq<Expense>): (r: Summary)
    ensures r.count == |es|
    ensures r.byCategory.Keys == Categories(es)
    ensures forall c :: c in r.byCategory ==> r.byCategory[c] == CategoryTotal(es, c)
    ensures r.total == Total(es)
    ensures SumValues(r.byCategory) == r.total
  {
    var m := ByCategory(es);
    ByCategoryKeys(es);
    ByCategorySumsToTotal(es);
    assert forall c :: c in m ==> m[c] == CategoryTotal(es, c) by {
      forall c | c in m ensures m[c] == CategoryTotal(es, c) {
        ByCategoryValue(es, c);
      }
    }
    Summary(Total(es), m, |es|)
  }
}
