/** The two building blocks of the spending analytics: a dictionary of totals
    built by `reduce` (a JavaScript object, whose entries keep the order in which
    their keys were first added), and the stable `Array.prototype.sort` applied
    to its entries. */
module Tallies {
  import Text

  /** One entry of a totals dictionary: `{x, y}` / `{category, total}`. */
  datatype Entry = Entry(key: string, total: real)

  /** The keys of a list of entries. */
  function Keys(s: seq<Entry>): set<string> {
    if s == [] then {} else {s[0].key} + Keys(s[1..])
  }

  /** No key occurs twice. */
  predicate DistinctKeys(s: seq<Entry>) {
    s == [] || (s[0].key !in Keys(s[1..]) && DistinctKeys(s[1..]))
  }

  /** `acc[key] || 0`: the total stored under `key`, or 0 when there is none. */
  function ValueAt(s: seq<Entry>, key: string): real {
    if s == [] then 0.0 else if s[0].key == key then s[0].total else ValueAt(s[1..], key)
  }

  /** The sum of all totals. */
  function SumOfTotals(s: seq<Entry>): real {
    if s == [] then 0.0 else s[0].total + SumOfTotals(s[1..])
  }

  lemma {:induction false} KeysMember(s: seq<Entry>, x: Entry)
    requires x in s
    ensures x.key in Keys(s)
  {
    if s[0] != x { KeysMember(s[1..], x); }
  }

  lemma {:induction false} KeysHaveEntry(s: seq<Entry>, k: string)
    requires k in Keys(s)
    ensures exists x :: x in s && x.key == k
  {
    if s[0].key != k {
      KeysHaveEntry(s[1..], k);
      var x :| x in s[1..] && x.key == k;
      assert x in s;
    }
  }

  /** In a dictionary without repeated keys, every entry holds the value
      stored under its key. */
  lemma {:induction false} ValueAtMember(s: seq<Entry>, x: Entry)
    requires DistinctKeys(s) && x in s
    ensures ValueAt(s, x.key) == x.total
  {
    if s[0] != x {
      ValueAtMember(s[1..], x);
      KeysMember(s[1..], x);
    }
  }

  /** A key with no entry has value 0. */
  lemma {:induction false} ValueAtAbsent(s: seq<Entry>, k: string)
    requires k !in Keys(s)
    ensures ValueAt(s, k) == 0.0
  {
    if s != [] { ValueAtAbsent(s[1..], k); }
  }

  /** `acc[key] = (acc[key] || 0) + amount`: add `amount` to the total under
      `key`, adding the key at the end when it is new. */
  function Bump(acc: seq<Entry>, key: string, amount: real): (r: seq<Entry>)
    ensures Keys(r) == Keys(acc) + {key}
    ensures |r| == if key in Keys(acc) then |acc| else |acc| + 1
    ensures forall k :: ValueAt(r, k) == ValueAt(acc, k) + (if k == key then amount else 0.0)
    ensures SumOfTotals(r) == SumOfTotals(acc) + amount
    ensures DistinctKeys(acc) ==> DistinctKeys(r)
  {
    if acc == [] then [Entry(key, amount)]
    else if acc[0].key == key then [Entry(key, acc[0].total + amount)] + acc[1..]
    else [acc[0]] + Bump(acc[1..], key, amount)
  }

  /** The order a sort comparator sets up: by total, largest first
      (`(a, b) => b.y - a.y`), or by key in text order
      (`(a, b) => a.x.localeCompare(b.x)`). */
  datatype Order = ByTotalDescending | ByKeyAscending

  /** `a` must come strictly before `b` (the comparator is negative). */
  predicate Precedes(o: Order, a: Entry, b: Entry) {
    match o
    case ByTotalDescending => a.total > b.total
    case ByKeyAscending => Text.Less(a.key, b.key)
  }

  lemma OrderIsStrict(o: Order)
    ensures forall a :: !Precedes(o, a, a)
    ensures forall a, b, c :: Precedes(o, a, b) && Precedes(o, b, c) ==> Precedes(o, a, c)
  {
    if o.ByKeyAscending? {
      forall a: Entry ensures !Precedes(o, a, a) { Text.LessIrreflexive(a.key); }
      forall a: Entry, b: Entry, c: Entry | Precedes(o, a, b) && Precedes(o, b, c)
        ensures Precedes(o, a, c)
      {
        Text.LessTransitive(a.key, b.key, c.key);
      }
    }
  }

  /** No entry comes after one it must precede. */
  predicate SortedBy(o: Order, s: seq<Entry>) {
    forall i, j :: 0 <= i < j < |s| ==> !Precedes(o, s[j], s[i])
  }

  /** Insert `x` into a sorted list, after every entry it need not precede. */
  function Insert(o: Order, x: Entry, s: seq<Entry>): (r: seq<Entry>)
    ensures multiset(r) == multiset(s) + multiset{x}
    ensures Keys(r) == Keys(s) + {x.key}
    ensures SumOfTotals(r) == SumOfTotals(s) + x.total
    ensures DistinctKeys(s) && x.key !in Keys(s) ==> DistinctKeys(r)
  {
    if s == [] then [x]
    else if Precedes(o, x, s[0]) then [x] + s
    else
      assert s == [s[0]] + s[1..];
      [s[0]] + Insert(o, x, s[1..])
  }

  /** A stable insertion sort, which is what `Array.prototype.sort` is
      required to be for the entries it is given. */
  function Sort(o: Order, s: seq<Entry>): (r: seq<Entry>)
    ensures multiset(r) == multiset(s)
    ensures Keys(r) == Keys(s)
    ensures SumOfTotals(r) == SumOfTotals(s)
    ensures DistinctKeys(s) ==> DistinctKeys(r)
  {
    if s == [] then []
    else
      var front := s[..|s| - 1];
      SplitLast(s);
      Insert(o, s[|s| - 1], Sort(o, front))
  }

  /** The facts Sort needs about the last entry of a list. */
  lemma SplitLast(s: seq<Entry>)
    requires s != []
    ensures multiset(s) == multiset(s[..|s| - 1]) + multiset{s[|s| - 1]}
    ensures Keys(s) == Keys(s[..|s| - 1]) + {s[|s| - 1].key}
    ensures SumOfTotals(s) == SumOfTotals(s[..|s| - 1]) + s[|s| - 1].total
    ensures DistinctKeys(s) ==> DistinctKeys(s[..|s| - 1]) && s[|s| - 1].key !in Keys(s[..|s| - 1])
  {
    var front, last := s[..|s| - 1], s[|s| - 1];
    assert s == front + [last];
    AppendFacts(front, [last]);
    assert Keys([last]) == {last.key};
    assert SumOfTotals([last]) == last.total;
  }

  lemma {:induction false} AppendFacts(a: seq<Entry>, b: seq<Entry>)
    ensures Keys(a + b) == Keys(a) + Keys(b)
    ensures SumOfTotals(a + b) == SumOfTotals(a) + SumOfTotals(b)
    ensures DistinctKeys(a + b) <==> DistinctKeys(a) && DistinctKeys(b) && Keys(a) !! Keys(b)
  {
    if a == [] {
      assert a + b == b;
    } else {
      assert (a + b)[1..] == a[1..] + b;
      AppendFacts(a[1..], b);
    }
  }

  /** An entry that none of `s` and not `x` must precede is not required to
      follow anything in `Insert(o, x, s)` either. */
  lemma {:induction false} InsertBelow(o: Order, x: Entry, s: seq<Entry>, b: Entry)
    requires !Precedes(o, x, b)
    requires forall i :: 0 <= i < |s| ==> !Precedes(o, s[i], b)
    ensures forall i :: 0 <= i < |Insert(o, x, s)| ==> !Precedes(o, Insert(o, x, s)[i], b)
  {
    if s != [] && !Precedes(o, x, s[0]) {
      InsertBelow(o, x, s[1..], b);
      assert Insert(o, x, s) == [s[0]] + Insert(o, x, s[1..]);
    }
  }

  lemma {:induction false} InsertSorted(o: Order, x: Entry, s: seq<Entry>)
    requires SortedBy(o, s)
    ensures SortedBy(o, Insert(o, x, s))
  {
    if s == [] {
    } else if Precedes(o, x, s[0]) {
      OrderIsStrict(o);
      assert Insert(o, x, s) == [x] + s;
    } else {
      InsertSorted(o, x, s[1..]);
      InsertBelow(o, x, s[1..], s[0]);
      assert Insert(o, x, s) == [s[0]] + Insert(o, x, s[1..]);
    }
  }

  /** The sort keeps exactly the entries it is given. */
  lemma SortKeepsMembers(o: Order, s: seq<Entry>)
    ensures forall x :: x in Sort(o, s) <==> x in s
  {
    var r := Sort(o, s);
    forall x ensures x in r <==> x in s {
      assert x in r <==> x in multiset(r);
      assert x in s <==> x in multiset(s);
    }
  }

  /** The sort leaves its result in order. */
  lemma {:induction false} SortSorted(o: Order, s: seq<Entry>)
    ensures SortedBy(o, Sort(o, s))
  {
    if s != [] {
      SortSorted(o, s[..|s| - 1]);
      InsertSorted(o, s[|s| - 1], Sort(o, s[..|s| - 1]));
    }
  }
}
