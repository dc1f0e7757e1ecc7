/** The spending analytics of the `useAnalytics` hook: totals by category
    (sorted, largest first), totals by month (sorted by `YYYY-MM` key), the five
    largest categories, the grand total, and the average expense per category.
    Each is a fold over the expense list. */
module Analytics {
  import opened Wrappers
  import opened Numbers
  import opened ExpenseRecord
  import opened Tallies
  import Text

  const Uncategorized: string := "Uncategorized"

  /** How many categories `topCategories` keeps. */
  const TopCount: nat := 5

  /** `expense.category || 'Uncategorized'`. */
  function CategoryOf(e: Expense): (c: string)
    ensures c != []
    ensures e.category != [] ==> c == e.category
  {
    if e.category == [] then Uncategorized else e.category
  }

  // ---------------------------------------------------------------------------
  // The dictionary fold and its reference definition

  /** `expenses.reduce((acc, e) => { acc[key] = (acc[key] || 0) + weight; ... }, {})`:
      for each expense in turn, add its weight under its key, or skip it when
      it has none. */
  function Tally(es: seq<Expense>, keyOf: Expense -> Option<string>, weight: Expense -> real): seq<Entry> {
    if es == [] then []
    else
      var acc := Tally(es[..|es| - 1], keyOf, weight);
      var e := es[|es| - 1];
      match keyOf(e)
      case None => acc
      case Some(k) => Bump(acc, k, weight(e))
  }

  /** The keys some expense is counted under. */
  function KeySet(es: seq<Expense>, keyOf: Expense -> Option<string>): set<string> {
    if es == [] then {}
    else (match keyOf(es[0]) case Some(k) => {k} case None => {}) + KeySet(es[1..], keyOf)
  }

  /** The sum of the weights of the expenses counted under `k`. */
  function SumFor(es: seq<Expense>, k: string, keyOf: Expense -> Option<string>, weight: Expense -> real): real {
    if es == [] then 0.0
    else (if keyOf(es[0]) == Some(k) then weight(es[0]) else 0.0) + SumFor(es[1..], k, keyOf, weight)
  }

  lemma {:induction false} SumForSnoc(es: seq<Expense>, e: Expense, keyOf: Expense -> Option<string>, weight: Expense -> real)
    ensures KeySet(es + [e], keyOf) == KeySet(es, keyOf) + (match keyOf(e) case Some(k) => {k} case None => {})
    ensures forall k :: SumFor(es + [e], k, keyOf, weight)
                        == SumFor(es, k, keyOf, weight) + (if keyOf(e) == Some(k) then weight(e) else 0.0)
  {
    if es == [] {
      assert es + [e] == [e];
    } else {
      assert (es + [e])[1..] == es[1..] + [e];
      SumForSnoc(es[1..], e, keyOf, weight);
    }
  }

  /** The fold builds a dictionary with one entry per key some expense is
      counted under, holding the sum of those expenses' weights. */
  lemma {:induction false} TallyMeaning(es: seq<Expense>, keyOf: Expense -> Option<string>, weight: Expense -> real)
    ensures DistinctKeys(Tally(es, keyOf, weight))
    ensures Keys(Tally(es, keyOf, weight)) == KeySet(es, keyOf)
    ensures forall k :: ValueAt(Tally(es, keyOf, weight), k) == SumFor(es, k, keyOf, weight)
  {
    if es != [] {
      var front, e := es[..|es| - 1], es[|es| - 1];
      assert es == front + [e];
      TallyMeaning(front, keyOf, weight);
      SumForSnoc(front, e, keyOf, weight);
    }
  }

  /** Every entry of such a dictionary holds the reference sum for its key. */
  lemma EntriesHoldSums(s: seq<Entry>, es: seq<Expense>, keyOf: Expense -> Option<string>, weight: Expense -> real)
    requires DistinctKeys(s)
    requires forall k :: ValueAt(s, k) == SumFor(es, k, keyOf, weight)
    ensures forall x :: x in s ==> x.total == SumFor(es, x.key, keyOf, weight)
  {
    forall x | x in s ensures x.total == SumFor(es, x.key, keyOf, weight) {
      ValueAtMember(s, x);
    }
  }

  /** The sorted dictionary has the same entries, so the same meaning. */
  lemma SortedTally(es: seq<Expense>, keyOf: Expense -> Option<string>, weight: Expense -> real, o: Order)
    ensures var r := Sort(o, Tally(es, keyOf, weight));
      && DistinctKeys(r) && Keys(r) == KeySet(es, keyOf) && SortedBy(o, r)
      && forall x :: x in r ==> x.total == SumFor(es, x.key, keyOf, weight)
  {
    var totals := Tally(es, keyOf, weight);
    TallyMeaning(es, keyOf, weight);
    EntriesHoldSums(totals, es, keyOf, weight);
    SortSorted(o, totals);
    SortKeepsMembers(o, totals);
  }

  lemma {:induction false} DistinctKeysAt(s: seq<Entry>, i: nat, j: nat)
    requires DistinctKeys(s) && i < j < |s|
    ensures s[i].key != s[j].key
  {
    if i == 0 {
      KeysMember(s[1..], s[j]);
    } else {
      DistinctKeysAt(s[1..], i - 1, j - 1);
    }
  }

  lemma {:induction false} DistinctKeysCount(s: seq<Entry>)
    requires DistinctKeys(s)
    ensures |Keys(s)| == |s|
  {
    if s != [] { DistinctKeysCount(s[1..]); }
  }

  // ---------------------------------------------------------------------------
  // Categories

  function CategoryKey(e: Expense): Option<string> {
    Some(CategoryOf(e))
  }

  function Amount(e: Expense): real {
    e.amount
  }

  function One(e: Expense): real {
    1.0
  }

  /** The category dictionary `categoryData` and `topCategories` build. */
  function CategoryTotals(es: seq<Expense>): seq<Entry> {
    Tally(es, CategoryKey, Amount)
  }

  /** The categories the expenses fall in. */
  function Categories(es: seq<Expense>): set<string> {
    KeySet(es, CategoryKey)
  }

  /** The sum of the amounts of the expenses in category `k`. */
  function CategorySum(es: seq<Expense>, k: string): real {
    SumFor(es, k, CategoryKey, Amount)
  }

  /** The number of expenses in category `k`. */
  function CategoryCount(es: seq<Expense>, k: string): nat {
    if es == [] then 0 else (if CategoryOf(es[0]) == k then 1 else 0) + CategoryCount(es[1..], k)
  }

  /** `categoryData`: one point per category, its total the sum of the
      amounts of the expenses in it, largest total first. */
  function CategoryData(es: seq<Expense>): (r: seq<Entry>)
    ensures |es| == 0 ==> r == []
    ensures DistinctKeys(r) && Keys(r) == Categories(es)
    ensures forall x :: x in r ==> x.total == CategorySum(es, x.key)
    ensures SortedBy(ByTotalDescending, r)
  {
    if |es| == 0 then []
    else
      SortedTally(es, CategoryKey, Amount, ByTotalDescending);
      Sort(ByTotalDescending, CategoryTotals(es))
  }

  /** `totalSpending`: the sum of all amounts. */
  function TotalSpending(es: seq<Expense>): (r: real)
    ensures |es| == 0 ==> r == 0.0
  {
    if es == [] then 0.0 else TotalSpending(es[..|es| - 1]) + es[|es| - 1].amount
  }

  lemma {:induction false} CategoryTotalsConserve(es: seq<Expense>)
    ensures SumOfTotals(CategoryTotals(es)) == TotalSpending(es)
  {
    if es != [] { CategoryTotalsConserve(es[..|es| - 1]); }
  }

  /** No amount is lost or counted twice: the category totals add up to the
      total spending. */
  lemma CategoryDataConservesTotal(es: seq<Expense>)
    ensures SumOfTotals(CategoryData(es)) == TotalSpending(es)
  {
    CategoryTotalsConserve(es);
  }

  function Min(a: nat, b: nat): nat {
    if a < b then a else b
  }

  /** `topCategories`: the (at most) five largest categories, largest first;
      every category left out has a total no larger than any one kept. */
  function TopCategories(es: seq<Expense>): (r: seq<Entry>)
    ensures |r| == Min(TopCount, |Categories(es)|)
    ensures SortedBy(ByTotalDescending, r)
    ensures DistinctKeys(r) && Keys(r) <= Categories(es)
    ensures forall x :: x in r ==> x.total == CategorySum(es, x.key)
    ensures forall k, y :: k in Categories(es) && k !in Keys(r) && y in r ==> CategorySum(es, k) <= y.total
  {
    var data := CategoryData(es);
    var r := data[..Min(TopCount, |data|)];
    TopCategoriesFacts(es, data, r);
    r
  }

  lemma TopCategoriesFacts(es: seq<Expense>, data: seq<Entry>, r: seq<Entry>)
    requires data == CategoryData(es) && r == data[..Min(TopCount, |data|)]
    ensures |r| == Min(TopCount, |Categories(es)|)
    ensures DistinctKeys(r) && Keys(r) <= Categories(es)
    ensures forall k, y :: k in Categories(es) && k !in Keys(r) && y in r ==> CategorySum(es, k) <= y.total
  {
    TopPrefixFacts(data, |r|);
    forall k | k in Categories(es) ensures ValueAt(data, k) == CategorySum(es, k) {
      KeysHaveEntry(data, k);
      var x :| x in data && x.key == k;
      ValueAtMember(data, x);
    }
  }

  /** The first `n` entries of a dictionary sorted largest first: distinct
      keys drawn from the whole, and no key left out holds more than any
      entry kept. */
  lemma TopPrefixFacts(data: seq<Entry>, n: nat)
    requires DistinctKeys(data) && SortedBy(ByTotalDescending, data) && n <= |data|
    ensures |Keys(data)| == |data|
    ensures DistinctKeys(data[..n]) && Keys(data[..n]) <= Keys(data)
    ensures forall k, y :: k in Keys(data) && k !in Keys(data[..n]) && y in data[..n] ==> ValueAt(data, k) <= y.total
  {
    assert data == data[..n] + data[n..];
    AppendFacts(data[..n], data[n..]);
    DistinctKeysCount(data);
    forall k, y | k in Keys(data) && k !in Keys(data[..n]) && y in data[..n]
      ensures ValueAt(data, k) <= y.total
    {
      LeftOutNotLarger(data, n, k, y);
      var x :| x in data && x.key == k && x.total <= y.total;
      ValueAtMember(data, x);
    }
  }

  /** In a list sorted largest first, an entry past the first `n` is no
      larger than any of the first `n`. */
  lemma LeftOutNotLarger(data: seq<Entry>, n: nat, k: string, y: Entry)
    requires SortedBy(ByTotalDescending, data) && n <= |data|
    requires k in Keys(data) && k !in Keys(data[..n]) && y in data[..n]
    ensures exists x :: x in data && x.key == k && x.total <= y.total
  {
    KeysHaveEntry(data, k);
    var x :| x in data && x.key == k;
    var j :| 0 <= j < |data| && data[j] == x;
    var i :| 0 <= i < n && data[..n][i] == y;
    if j < n {
      assert x in data[..n];
      KeysMember(data[..n], x);
    }
    assert data[i] == y;
  }

  /** `find(d => d.x === key)`: the first entry with that key. */
  function Find(s: seq<Entry>, key: string): (r: Option<Entry>)
    ensures r.Some? <==> key in Keys(s)
    ensures r.Some? ==> r.value in s && r.value.key == key
    ensures r.Some? ==> exists i :: 0 <= i < |s| && s[i] == r.value && key !in Keys(s[..i])
  {
    if s == [] then None
    else if s[0].key == key then
      assert s[0] == s[0] && key !in Keys(s[..0]) by { assert s[..0] == []; }
      Some(s[0])
    else
      var r := Find(s[1..], key);
      if r.Some? then
        var i :| 0 <= i < |s[1..]| && s[1..][i] == r.value && key !in Keys(s[1..][..i]);
        assert s[..i + 1][1..] == s[1..][..i];
        r
      else r
  }

  /** One element of `averageSpendingPerCategory`. */
  datatype CategoryAverage = CategoryAverage(category: string, average: real)

  /** The per-category averages, in the order of the count dictionary:
      `dataPoint && count > 0 ? dataPoint.y / count : 0`. */
  function AveragesOf(counts: seq<Entry>, data: seq<Entry>): (r: seq<CategoryAverage>)
    ensures |r| == |counts|
    ensures forall i :: 0 <= i < |r| ==> r[i].category == counts[i].key
    ensures forall i :: 0 <= i < |r| ==>
      (var p := Find(data, counts[i].key);
       r[i].average == if p.Some? && counts[i].total > 0.0 then p.value.total / counts[i].total else 0.0)
  {
    if counts == [] then []
    else
      var c := counts[0];
      var p := Find(data, c.key);
      [CategoryAverage(c.key, if p.Some? && c.total > 0.0 then p.value.total / c.total else 0.0)]
        + AveragesOf(counts[1..], data)
  }

  lemma {:induction false} CountsAreCounts(es: seq<Expense>, k: string)
    ensures SumFor(es, k, CategoryKey, One) == CategoryCount(es, k) as real
  {
    if es != [] { CountsAreCounts(es[1..], k); }
  }

  lemma {:induction false} CountPositive(es: seq<Expense>, k: string)
    requires k in Categories(es)
    ensures CategoryCount(es, k) > 0
  {
    if CategoryOf(es[0]) != k { CountPositive(es[1..], k); }
  }

  /** `averageSpendingPerCategory`: one element per category, its average the
      category's total divided by the number of its expenses. */
  function AverageSpendingPerCategory(es: seq<Expense>): (r: seq<CategoryAverage>)
    ensures |es| == 0 ==> r == []
    ensures |r| == |Categories(es)|
    ensures forall i, j :: 0 <= i < j < |r| ==> r[i].category != r[j].category
    ensures forall a :: a in r ==> a.category in Categories(es) && CategoryCount(es, a.category) > 0
    ensures forall a :: a in r ==> a.average == CategorySum(es, a.category) / CategoryCount(es, a.category) as real
  {
    var data := CategoryData(es);
    if |es| == 0 || |data| == 0 then []
    else
      var counts := Tally(es, CategoryKey, One);
      var r := AveragesOf(counts, data);
      AveragesMeaning(es, data, counts, r);
      r
  }

  lemma AveragesMeaning(es: seq<Expense>, data: seq<Entry>, counts: seq<Entry>, r: seq<CategoryAverage>)
    requires data == CategoryData(es) && counts == Tally(es, CategoryKey, One) && r == AveragesOf(counts, data)
    ensures |r| == |Categories(es)|
    ensures forall i, j :: 0 <= i < j < |r| ==> r[i].category != r[j].category
    ensures forall a :: a in r ==> a.category in Categories(es) && CategoryCount(es, a.category) > 0
    ensures forall a :: a in r ==> a.average == CategorySum(es, a.category) / CategoryCount(es, a.category) as real
  {
    TallyMeaning(es, CategoryKey, One);
    DistinctKeysCount(counts);
    forall i, j | 0 <= i < j < |r| ensures r[i].category != r[j].category {
      DistinctKeysAt(counts, i, j);
    }
    forall a | a in r
      ensures a.category in Categories(es) && CategoryCount(es, a.category) > 0
      ensures a.average == CategorySum(es, a.category) / CategoryCount(es, a.category) as real
    {
      var i :| 0 <= i < |r| && r[i] == a;
      var c := counts[i];
      KeysMember(counts, c);
      CountPositive(es, c.key);
      ValueAtMember(counts, c);
      CountsAreCounts(es, c.key);
    }
  }

  // ---------------------------------------------------------------------------
  // Months

  /** A month as `Date.getMonth()` gives it: 0 for January to 11 for December. */
  type Month0 = m: int | 0 <= m < 12

  /** The local calendar year and month of a date. */
  datatype YearMonth = YearMonth(year: int, month: Month0)

  /** `s.padStart(2, '0')`. */
  function PadTwo(s: string): (r: string)
    ensures |r| >= 2
    ensures |s| >= 2 ==> r == s
    ensures |s| == 1 ==> r == "0" + s
    ensures |s| == 0 ==> r == "00"
    decreases 2 - |s|
  {
    if |s| >= 2 then s else PadTwo("0" + s)
  }

  /** `${year}-${String(month + 1).padStart(2, '0')}`. */
  function MonthKey(d: YearMonth): string {
    IntText(d.year) + "-" + PadTwo(DecimalText(d.month + 1))
  }

  /** The month key of an expense, or `None` when its date is missing or
      does not parse (`dateOf` stands for `new Date(text)` read in local time). */
  function DatedKey(e: Expense, dateOf: string -> Option<YearMonth>): Option<string> {
    if e.date == [] then None
    else match dateOf(e.date)
      case None => None
      case Some(d) => Some(MonthKey(d))
  }

  function MonthKeyer(dateOf: string -> Option<YearMonth>): Expense -> Option<string> {
    e => DatedKey(e, dateOf)
  }

  /** The month keys of the expenses with a usable date. */
  function MonthKeys(es: seq<Expense>, dateOf: string -> Option<YearMonth>): set<string> {
    KeySet(es, MonthKeyer(dateOf))
  }

  /** The sum of the amounts of the expenses dated in the month with key `k`. */
  function MonthSum(es: seq<Expense>, k: string, dateOf: string -> Option<YearMonth>): real {
    SumFor(es, k, MonthKeyer(dateOf), Amount)
  }

  /** `monthlyData`: one point per month that has a dated expense, its total
      the sum of that month's amounts, in strictly increasing key order. */
  function MonthlyData(es: seq<Expense>, dateOf: string -> Option<YearMonth>): (r: seq<Entry>)
    ensures |es| == 0 ==> r == []
    ensures DistinctKeys(r) && Keys(r) == MonthKeys(es, dateOf)
    ensures forall x :: x in r ==> x.total == MonthSum(es, x.key, dateOf)
    ensures forall i, j :: 0 <= i < j < |r| ==> Text.Less(r[i].key, r[j].key)
  {
    if |es| == 0 then []
    else
      var r := Sort(ByKeyAscending, Tally(es, MonthKeyer(dateOf), Amount));
      SortedTally(es, MonthKeyer(dateOf), Amount, ByKeyAscending);
      StrictlyAscending(r);
      r
  }

  lemma StrictlyAscending(s: seq<Entry>)
    requires DistinctKeys(s) && SortedBy(ByKeyAscending, s)
    ensures forall i, j :: 0 <= i < j < |s| ==> Text.Less(s[i].key, s[j].key)
  {
    forall i, j | 0 <= i < j < |s| ensures Text.Less(s[i].key, s[j].key) {
      DistinctKeysAt(s, i, j);
      Text.LessTotal(s[i].key, s[j].key);
    }
  }

  /** Every month key is the year, a dash and the month number 1 to 12 in two digits. */
  lemma MonthKeyShape(d: YearMonth)
    ensures var k := MonthKey(d);
      && |k| >= 4 && k[..|k| - 3] == IntText(d.year) && k[|k| - 3] == '-'
      && AllDigits(k[|k| - 2..]) && DigitsValue(k[|k| - 2..]) == d.month + 1
  {
    var m := DecimalText(d.month + 1);
    DecimalTextValue(d.month + 1);
    var p := PadTwo(m);
    if d.month + 1 < 10 {
      assert |m| == 1 && p == "0" + m;
      assert p[..1] == "0" && p[1..] == m;
    } else {
      assert |m| == 2 && p == m;
    }
    var y := IntText(d.year);
    var k := MonthKey(d);
    assert k == y + "-" + p;
    assert k[..|k| - 3] == y;
    assert k[|k| - 2..] == p;
  }

  /** Different months have different keys. */
  lemma MonthKeyInjective(a: YearMonth, b: YearMonth)
    requires MonthKey(a) == MonthKey(b)
    ensures a == b
  {
    MonthKeyShape(a);
    MonthKeyShape(b);
    IntTextInjective(a.year, b.year);
  }

  /** An expense with no usable date leaves the monthly data as it was. */
  lemma UndatedExpenseSkipped(es: seq<Expense>, e: Expense, dateOf: string -> Option<YearMonth>)
    requires DatedKey(e, dateOf).None?
    ensures MonthlyData(es + [e], dateOf) == MonthlyData(es, dateOf)
  {
    if es == [] {
      assert [e][..0] == [];
      assert Tally([e], MonthKeyer(dateOf), Amount) == [];
    } else {
      assert (es + [e])[..|es|] == es;
    }
  }

  /** An empty expense list gives empty results and a zero total. */
  lemma EmptyExpenses(dateOf: string -> Option<YearMonth>)
    ensures CategoryData([]) == [] && MonthlyData([], dateOf) == [] && TopCategories([]) == []
    ensures AverageSpendingPerCategory([]) == [] && TotalSpending([]) == 0.0
  {
  }
}
