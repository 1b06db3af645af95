/**
 * The aggregation step of the financial-advice handler: it folds a user's
 * income and expense records into a snapshot of totals, per-group
 * breakdowns, savings and the savings ratio.
 */
module Aggregation {
  import opened Records

  /**
   * The savings ratio as the handler produces it. With no income it is the
   * number 0 (NoIncome). Otherwise it is the STRING that
   * `Number.prototype.toFixed(1)` (section 21.1.3.3 of ECMA-262) gives for
   * savings / totalIncome * 100: a sign ("-" exactly when that value is
   * negative, so "-0.0" is possible) and a magnitude counted in tenths.
   */
  datatype Ratio = NoIncome | Fixed(negative: bool, tenths: nat)

  /** The derived metrics snapshot that is serialised into the prompt. */
  datatype Snapshot = Snapshot(
    totalIncome: int,
    totalExpenses: int,
    expenseBreakdown: map<string, int>,
    incomeSources: map<string, int>,
    savings: int,
    savingsRatio: Ratio)

  function Abs(x: int): nat
  {
    if x < 0 then -x else x
  }

  /**
   * The count of tenths n that toFixed(1) picks for the magnitude
   * |savings / totalIncome * 100|, given a = |savings| * 1000 and
   * b = |totalIncome|. Stated without fractions: n * b is within b / 2 of a,
   * and on a tie n is the larger of the two candidates.
   */
  function RoundHalfUp(a: nat, b: nat): (n: nat)
    requires b > 0
    ensures -(b as int) < 2 * (n * b) - 2 * a <= b
  {
    var q := (2 * a + b) / (2 * b);
    var r := (2 * a + b) % (2 * b);
    assert 2 * a + b == q * (2 * b) + r;
    assert q * (2 * b) == 2 * (q * b);
    q
  }

  /**
   * `totalIncome ? ((savings / totalIncome) * 100).toFixed(1) : 0`,
   * on exact rationals instead of binary floating point.
   */
  function SavingsRatio(savings: int, totalIncome: int): (r: Ratio)
    ensures r.NoIncome? <==> totalIncome == 0
    ensures r.Fixed? ==> (r.negative <==> savings * totalIncome < 0)
    ensures r.Fixed? ==>
      -(Abs(totalIncome) as int) < 2 * (r.tenths * Abs(totalIncome)) - 2 * (Abs(savings) * 1000) <= Abs(totalIncome)
  {
    if totalIncome == 0 then NoIncome
    else
      var negative := savings != 0 && ((savings < 0) != (totalIncome < 0));
      assert negative <==> savings * totalIncome < 0 by {
        SignOfProduct(savings, totalIncome);
      }
      Fixed(negative, RoundHalfUp(Abs(savings) * 1000, Abs(totalIncome)))
  }

  lemma SignOfProduct(x: int, y: int)
    requires y != 0
    ensures x * y < 0 <==> (x != 0 && ((x < 0) != (y < 0)))
  {
  }

  /**
   * What RoundHalfUp picks is what toFixed asks for: no other count of
   * tenths n' comes closer to a / b, and one that comes as close is smaller.
   */
  lemma NearestTenth(a: nat, b: nat, n': nat)
    requires b > 0
    ensures Abs(RoundHalfUp(a, b) * b - a) <= Abs(n' * b - a)
    ensures Abs(RoundHalfUp(a, b) * b - a) == Abs(n' * b - a) ==> n' <= RoundHalfUp(a, b)
  {
    var n := RoundHalfUp(a, b);
    if n' > n {
      StepsApart(n', n, b);
    } else if n' < n {
      StepsApart(n, n', b);
    }
  }

  /** Two counts of tenths that differ are at least one whole step b apart. */
  lemma StepsApart(hi: nat, lo: nat, b: nat)
    requires hi > lo && b > 0
    ensures hi * b - lo * b >= b
  {
    var k := hi - lo;
    assert hi * b == lo * b + k * b;
    assert k * b == b + (k - 1) * b;
  }

  /** The snapshot the handler computes from the fetched records. */
  function SnapshotOf(incomes: seq<Income>, expenses: seq<Expense>): Snapshot
  {
    var totalIncome := Sum(IncomeEntries(incomes));
    var totalExpenses := Sum(ExpenseEntries(expenses));
    var savings := totalIncome - totalExpenses;
    Snapshot(totalIncome, totalExpenses,
             GroupTotals(ExpenseEntries(expenses)), GroupTotals(IncomeEntries(incomes)),
             savings, SavingsRatio(savings, totalIncome))
  }

  /**
   * The `forEach` loop that fills a breakdown object: each entry adds its
   * amount to what its group held so far (`(m[k] || 0) + amount`). After
   * every iteration the values add up to the total of the entries seen.
   */
  method GroupSum(es: seq<Entry>) returns (m: map<string, int>)
    ensures m == GroupTotals(es)
    ensures MapSum(m) == Sum(es)
  {
    m := map[];
    var i := 0;
    while i < |es|
      invariant 0 <= i <= |es|
      invariant m == GroupTotals(es[..i])
      invariant MapSum(m) == Sum(es[..i])
    {
      var e := es[i];
      var held := if e.group in m then m[e.group] else 0;
      GroupStep(es, i, m);
      m := m[e.group := held + e.amount];
      i := i + 1;
    }
    assert es[..|es|] == es;
  }

  /** One iteration of GroupSum keeps both of its invariants. */
  lemma GroupStep(es: seq<Entry>, i: nat, m: map<string, int>)
    requires i < |es|
    requires m == GroupTotals(es[..i]) && MapSum(m) == Sum(es[..i])
    ensures var e := es[i];
      var m' := m[e.group := (if e.group in m then m[e.group] else 0) + e.amount];
      m' == GroupTotals(es[..i + 1]) && MapSum(m') == Sum(es[..i + 1])
  {
    var e := es[i];
    assert es[..i + 1] == es[..i] + [e];
    assert es[..i + 1][..i] == es[..i];
    GroupTotalsSnoc(es[..i], e);
    MapSumUpdate(m, e.group, (if e.group in m then m[e.group] else 0) + e.amount);
  }

  /**
   * Lines 14-30 of the handler: both totals, both breakdowns, savings and
   * the ratio.
   */
  method Aggregate(incomes: seq<Income>, expenses: seq<Expense>) returns (s: Snapshot)
    ensures s == SnapshotOf(incomes, expenses)
    ensures MapSum(s.expenseBreakdown) == s.totalExpenses
    ensures MapSum(s.incomeSources) == s.totalIncome
  {
    var totalIncome := Sum(IncomeEntries(incomes));
    var totalExpenses := Sum(ExpenseEntries(expenses));
    var expenseBreakdown := GroupSum(ExpenseEntries(expenses));
    var incomeSources := GroupSum(IncomeEntries(incomes));
    var savings := totalIncome - totalExpenses;
    var savingsRatio := SavingsRatio(savings, totalIncome);
    s := Snapshot(totalIncome, totalExpenses, expenseBreakdown, incomeSources, savings, savingsRatio);
  }

  /** The totals are the sums of every record's amount. */
  lemma {:induction false} TotalsAreSums(incomes: seq<Income>, expenses: seq<Expense>)
    ensures SnapshotOf(incomes, expenses).totalIncome == AmountSum(IncomeEntries(incomes))
    ensures SnapshotOf(incomes, expenses).totalExpenses == AmountSum(ExpenseEntries(expenses))
  {
    FoldIsSum(IncomeEntries(incomes));
    FoldIsSum(ExpenseEntries(expenses));
  }

  /** The right fold over the amounts, as a reference for the left fold of `reduce`. */
  function AmountSum(es: seq<Entry>): int
  {
    if es == [] then 0 else es[0].amount + AmountSum(es[1..])
  }

  lemma {:induction false} FoldIsSum(es: seq<Entry>)
    ensures Sum(es) == AmountSum(es)
    decreases |es|
  {
    if es != [] {
      var init := es[..|es| - 1];
      FoldIsSum(init);
      if init != [] {
        assert init[1..] == es[1..][..|es[1..]| - 1];
        FoldIsSum(es[1..]);
        FoldIsSum(init[1..]);
      }
    }
  }

  /**
   * The breakdowns are keyed by exactly the groups that occur, each value is
   * that group's sum, the values add up to the totals, and savings may be
   * negative.
   */
  lemma SnapshotBreakdowns(incomes: seq<Income>, expenses: seq<Expense>)
    ensures var s := SnapshotOf(incomes, expenses);
      && (forall c :: c in s.expenseBreakdown <==> exists i :: 0 <= i < |expenses| && expenses[i].category == c)
      && (forall c :: c in s.incomeSources <==> exists i :: 0 <= i < |incomes| && incomes[i].source == c)
      && (forall c :: c in s.expenseBreakdown ==> s.expenseBreakdown[c] == SumFor(ExpenseEntries(expenses), c))
      && (forall c :: c in s.incomeSources ==> s.incomeSources[c] == SumFor(IncomeEntries(incomes), c))
      && MapSum(s.expenseBreakdown) == s.totalExpenses
      && MapSum(s.incomeSources) == s.totalIncome
      && s.savings == s.totalIncome - s.totalExpenses
  {
    var s := SnapshotOf(incomes, expenses);
    var ie, ee := IncomeEntries(incomes), ExpenseEntries(expenses);
    forall c ensures c in s.expenseBreakdown <==> exists i :: 0 <= i < |expenses| && expenses[i].category == c {
      if c in s.expenseBreakdown {
        var i :| 0 <= i < |ee| && ee[i].group == c;
        assert expenses[i].category == c;
      }
      if exists i :: 0 <= i < |expenses| && expenses[i].category == c {
        var i :| 0 <= i < |expenses| && expenses[i].category == c;
        assert ee[i].group == c;
      }
    }
    forall c ensures c in s.incomeSources <==> exists i :: 0 <= i < |incomes| && incomes[i].source == c {
      if c in s.incomeSources {
        var i :| 0 <= i < |ie| && ie[i].group == c;
        assert incomes[i].source == c;
      }
      if exists i :: 0 <= i < |incomes| && incomes[i].source == c {
        var i :| 0 <= i < |incomes| && incomes[i].source == c;
        assert ie[i].group == c;
      }
    }
    GroupTotalsSum(ee);
    GroupTotalsSum(ie);
  }

  /** A user without records gets an all-zero snapshot with empty breakdowns. */
  lemma NoRecordsSnapshot()
    ensures SnapshotOf([], []) == Snapshot(0, 0, map[], map[], 0, NoIncome)
  {
    assert GroupTotals([]) == map[];
  }

  /**
   * Income 5000 from "salary", expenses 1500 on "rent" and 500 on "food":
   * totals 5000 and 2000, savings 3000 and a ratio of "60.0".
   */
  lemma SalaryRentFoodSnapshot(d: int)
    ensures SnapshotOf([Income("salary", 5000, d)], [Expense("rent", 1500, d), Expense("food", 500, d)])
         == Snapshot(5000, 2000, map["rent" := 1500, "food" := 500], map["salary" := 5000], 3000, Fixed(false, 600))
  {
    var ee := ExpenseEntries([Expense("rent", 1500, d), Expense("food", 500, d)]);
    var ie := IncomeEntries([Income("salary", 5000, d)]);
    assert ee == [Entry("rent", 1500), Entry("food", 500)];
    assert ie == [Entry("salary", 5000)];
    assert ee[..1] == [Entry("rent", 1500)];
    assert Labels(ee) == {"rent", "food"} by {
      assert ee[0].group == "rent" && ee[1].group == "food";
    }
    assert Labels(ie) == {"salary"} by {
      assert ie[0].group == "salary";
    }
    assert ie[..0] == [] && ee[..1][..0] == [];
    var rent := [Entry("rent", 1500)];
    assert ee[..1] == rent && rent[..0] == [];
    assert SumFor(rent, "rent") == 1500 && SumFor(rent, "food") == 0;
    assert SumFor(ee, "rent") == SumFor(rent, "rent");
    assert SumFor(ee, "food") == SumFor(rent, "food") + 500;
    assert Sum(ee) == Sum(rent) + 500;
    assert SumFor(ie, "salary") == 5000;
    assert GroupTotals(ee) == map["rent" := 1500, "food" := 500];
    assert GroupTotals(ie) == map["salary" := 5000];
  }
}
