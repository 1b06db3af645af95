/**
 * Income and expense records, and the folds the aggregation is built from.
 *
 * Both kinds of record are reduced to an Entry (a free-text group name and an
 * amount): an income is labelled by its source, an expense by its category.
 * Amounts are integers (for instance cents).
 */
module Records {

  /** An income record: its source ("salary", "freelance", ...), amount and date. */
  datatype Income = Income(source: string, amount: int, date: int)

  /** An expense record: its category, amount and date. */
  datatype Expense = Expense(category: string, amount: int, date: int)

  /** What the aggregation sees of a record: the group it is summed under and the amount. */
  datatype Entry = Entry(group: string, amount: int)

  function IncomeEntries(incomes: seq<Income>): seq<Entry>
  {
    seq(|incomes|, i requires 0 <= i < |incomes| => Entry(incomes[i].source, incomes[i].amount))
  }

  function ExpenseEntries(expenses: seq<Expense>): seq<Entry>
  {
    seq(|expenses|, i requires 0 <= i < |expenses| => Entry(expenses[i].category, expenses[i].amount))
  }

  /** `reduce((sum, x) => sum + x.amount, 0)`: a left fold over the entries. */
  function Sum(es: seq<Entry>): int
  {
    if es == [] then 0 else Sum(es[..|es| - 1]) + es[|es| - 1].amount
  }

  /** The sum of the amounts of the entries labelled `k`. */
  function SumFor(es: seq<Entry>, k: string): int
  {
    if es == [] then 0
    else SumFor(es[..|es| - 1], k) + (if es[|es| - 1].group == k then es[|es| - 1].amount else 0)
  }

  /** The labels that occur in the entries. */
  function Labels(es: seq<Entry>): set<string>
  {
    set i | 0 <= i < |es| :: es[i].group
  }

  /** The grouping the breakdown maps are meant to hold: group to summed amount. */
  function GroupTotals(es: seq<Entry>): map<string, int>
  {
    map k | k in Labels(es) :: SumFor(es, k)
  }

  /** The sum of the values of a map. */
  ghost function MapSum(m: map<string, int>): int
    decreases |m|
  {
    if m == map[] then 0
    else
      var k :| k in m;
      assert (m - {k}).Keys == m.Keys - {k};
      m[k] + MapSum(m - {k})
  }

  /** MapSum does not depend on which key it takes first. */
  lemma {:induction false} MapSumRemove(m: map<string, int>, k: string)
    requires k in m
    ensures MapSum(m) == m[k] + MapSum(m - {k})
    decreases |m|
  {
    var j :| j in m && MapSum(m) == m[j] + MapSum(m - {j});
    if j != k {
      assert (m - {j}).Keys == m.Keys - {j};
      assert (m - {k}).Keys == m.Keys - {k};
      MapSumRemove(m - {j}, k);
      MapSumRemove(m - {k}, j);
      assert m - {j} - {k} == m - {k} - {j};
    }
  }

  /** Setting key `k` to `v` changes the sum by `v` minus what `k` held (0 if absent). */
  lemma MapSumUpdate(m: map<string, int>, k: string, v: int)
    ensures MapSum(m[k := v]) == MapSum(m) - (if k in m then m[k] else 0) + v
  {
    MapSumRemove(m[k := v], k);
    assert m[k := v] - {k} == m - {k};
    if k in m {
      MapSumRemove(m, k);
    } else {
      assert m - {k} == m;
    }
  }

  /** A group that does not occur contributes nothing. */
  lemma {:induction false} SumForAbsent(es: seq<Entry>, k: string)
    requires k !in Labels(es)
    ensures SumFor(es, k) == 0
  {
    if es != [] {
      var init := es[..|es| - 1];
      assert Labels(init) <= Labels(es) by {
        forall x | x in Labels(init) ensures x in Labels(es) {
          var i :| 0 <= i < |init| && init[i].group == x;
          assert es[i].group == x;
        }
      }
      assert es[|es| - 1].group in Labels(es);
      SumForAbsent(init, k);
    }
  }

  /** Appending one entry adds its amount to its own group and nothing else. */
  lemma GroupTotalsSnoc(es: seq<Entry>, e: Entry)
    ensures GroupTotals(es + [e])
         == GroupTotals(es)[e.group := (if e.group in GroupTotals(es) then GroupTotals(es)[e.group] else 0) + e.amount]
  {
    var es' := es + [e];
    assert es'[..|es'| - 1] == es;
    assert Labels(es') == Labels(es) + {e.group} by {
      forall x | x in Labels(es') ensures x in Labels(es) + {e.group} {
        var i :| 0 <= i < |es'| && es'[i].group == x;
        if i < |es| { assert es[i].group == x; }
      }
      forall x | x in Labels(es) ensures x in Labels(es') {
        var i :| 0 <= i < |es| && es[i].group == x;
        assert es'[i].group == x;
      }
      assert es'[|es|].group == e.group;
    }
    if e.group !in Labels(es) {
      SumForAbsent(es, e.group);
    }
  }

  /**
   * Grouping loses nothing: the group totals add up to the total of all
   * entries.
   */
  lemma {:induction false} GroupTotalsSum(es: seq<Entry>)
    ensures MapSum(GroupTotals(es)) == Sum(es)
  {
    if es == [] {
      assert GroupTotals(es) == map[];
    } else {
      var init, e := es[..|es| - 1], es[|es| - 1];
      assert es == init + [e];
      GroupTotalsSum(init);
      GroupTotalsSnoc(init, e);
      var g := GroupTotals(init);
      MapSumUpdate(g, e.group, (if e.group in g then g[e.group] else 0) + e.amount);
    }
  }
}
