/**
 * Tallies and rankings. A JavaScript `Map` keyed by name iterates in insertion
 * order; a tally is therefore a sequence of entries with distinct names, and
 * `map.set(k, (map.get(k) || 0) + v)` updates an entry in place or appends a new
 * one. `Array.prototype.sort` is stable, so `sort((a, b) => b[1] - a[1])` is the
 * stable sort by value, descending, modelled here as insertion sort.
 */
module Ranking {
  import Folds

  /** One `[name, value]` pair of a tally. */
  datatype Entry = Entry(name: string, value: real)

  function EntryValue(e: Entry): real { e.value }

  /** The keys of a tally, in insertion order. */
  function Names(t: seq<Entry>): (r: seq<string>)
    ensures |r| == |t|
    ensures forall k :: 0 <= k < |t| ==> r[k] == t[k].name
  {
    seq(|t|, k requires 0 <= k < |t| => t[k].name)
  }

  /** `map.has(name)` */
  predicate HasName(t: seq<Entry>, name: string) {
    name in Names(t)
  }

  predicate UniqueNames(t: seq<Entry>) {
    forall i, j :: 0 <= i < j < |t| ==> t[i].name != t[j].name
  }

  /** The sum of all values of a tally. */
  function Total(t: seq<Entry>): real {
    if t == [] then 0.0 else Total(t[..|t| - 1]) + t[|t| - 1].value
  }

  /** The value recorded for `name`, 0 when absent (`map.get(name) || 0`). */
  function ValueOf(t: seq<Entry>, name: string): real {
    if t == [] then 0.0
    else if t[|t| - 1].name == name then t[|t| - 1].value
    else ValueOf(t[..|t| - 1], name)
  }

  /** `map.set(name, (map.get(name) || 0) + v)` */
  function Bump(t: seq<Entry>, name: string, v: real): (r: seq<Entry>)
    requires UniqueNames(t)
    ensures UniqueNames(r)
    ensures Names(r) == if HasName(t, name) then Names(t) else Names(t) + [name]
  {
    if HasName(t, name) then
      var k :| 0 <= k < |t| && t[k].name == name;
      t[k := Entry(name, t[k].value + v)]
    else
      t + [Entry(name, v)]
  }

  lemma {:induction false} TotalUpdate(t: seq<Entry>, k: nat, e: Entry)
    requires k < |t|
    ensures Total(t[k := e]) == Total(t) - t[k].value + e.value
    decreases |t|
  {
    if k < |t| - 1 {
      assert t[k := e][..|t| - 1] == t[..|t| - 1][k := e];
      TotalUpdate(t[..|t| - 1], k, e);
    } else {
      assert t[k := e][..|t| - 1] == t[..|t| - 1];
    }
  }

  lemma {:induction false} ValueOfUpdate(t: seq<Entry>, k: nat, v: real, n: string)
    requires UniqueNames(t) && k < |t|
    ensures ValueOf(t[k := Entry(t[k].name, v)], n) == if n == t[k].name then v else ValueOf(t, n)
    decreases |t|
  {
    var r := t[k := Entry(t[k].name, v)];
    assert r[..|t| - 1] == if k < |t| - 1 then t[..|t| - 1][k := Entry(t[k].name, v)] else t[..|t| - 1];
    if k < |t| - 1 {
      ValueOfUpdate(t[..|t| - 1], k, v, n);
    } else if n == t[k].name {
    } else {
    }
  }

  lemma {:induction false} ValueOfAbsent(t: seq<Entry>, n: string)
    requires !HasName(t, n)
    ensures ValueOf(t, n) == 0.0
    decreases |t|
  {
    if t != [] {
      assert Names(t[..|t| - 1]) == Names(t)[..|t| - 1];
      ValueOfAbsent(t[..|t| - 1], n);
    }
  }

  /** A bump adds `v` to the total and to the bumped name's value, and nothing else. */
  lemma BumpAdds(t: seq<Entry>, name: string, v: real, n: string)
    requires UniqueNames(t)
    ensures Total(Bump(t, name, v)) == Total(t) + v
    ensures ValueOf(Bump(t, name, v), n) == ValueOf(t, n) + (if n == name then v else 0.0)
  {
    if HasName(t, name) {
      BumpExisting(t, name, v, n);
    } else {
      var r := t + [Entry(name, v)];
      assert r[..|r| - 1] == t;
      if n == name { ValueOfAbsent(t, n); }
    }
  }

  /** A bump of a name already present updates that one entry. */
  lemma BumpExisting(t: seq<Entry>, name: string, v: real, n: string)
    requires UniqueNames(t) && HasName(t, name)
    ensures Total(Bump(t, name, v)) == Total(t) + v
    ensures ValueOf(Bump(t, name, v), n) == ValueOf(t, n) + (if n == name then v else 0.0)
  {
    var k :| 0 <= k < |t| && t[k].name == name;
    var e := Entry(name, t[k].value + v);
    assert Bump(t, name, v) == t[k := e] by {
      forall j | 0 <= j < |t| && t[j].name == name ensures j == k { }
    }
    assert Total(t[k := e]) == Total(t) - t[k].value + e.value by {
      TotalUpdate(t, k, e);
    }
    assert ValueOf(t[k := e], n) == if n == name then t[k].value + v else ValueOf(t, n) by {
      ValueOfUpdate(t, k, t[k].value + v, n);
    }
    assert ValueOf(t, name) == t[k].value by {
      ValueOfAt(t, k);
    }
  }

  lemma {:induction false} ValueOfAt(t: seq<Entry>, k: nat)
    requires UniqueNames(t) && k < |t|
    ensures ValueOf(t, t[k].name) == t[k].value
    decreases |t|
  {
    if k < |t| - 1 { ValueOfAt(t[..|t| - 1], k); }
  }

  // ---------------------------------------------------------------------------
  // Pie charts: a fixed list of slices, empty ones dropped
  // ---------------------------------------------------------------------------

  /** A chart shows a slice only when its value is positive. */
  predicate Positive(e: Entry) { e.value > 0.0 }

  /** What one entry contributes to a chart: itself when positive, nothing otherwise. */
  function Slice(e: Entry): seq<Entry> { if Positive(e) then [e] else [] }

  /** `[...].filter(d => d.value > 0)`: the chart drawn from a fixed list of slices. */
  function Chart(s: seq<Entry>): (r: seq<Entry>)
    ensures |r| <= |s|
    ensures forall k :: 0 <= k < |r| ==> r[k].value > 0.0
  {
    Folds.Filter(s, Positive)
  }

  /** An entry is drawn exactly when it is in the list and its value is positive. */
  lemma ChartMembership(s: seq<Entry>, e: Entry)
    ensures e in Chart(s) <==> e in s && e.value > 0.0
  {
    Folds.FilterMembership(s, Positive, e);
  }

  /** The chart keeps the list's order: the chart of a concatenation is the concatenation of the charts. */
  lemma ChartAppend(s: seq<Entry>, t: seq<Entry>)
    ensures Chart(s + t) == Chart(s) + Chart(t)
  {
    Folds.FilterAppend(s, t, Positive);
  }

  /** A chart of one entry is that entry's slice. */
  lemma ChartOne(e: Entry)
    ensures Chart([e]) == Slice(e)
  {
    assert [e][..0] == [];
  }

  /** Adding one entry at the end adds its slice at the end of the chart. */
  lemma ChartSnoc(s: seq<Entry>, e: Entry)
    ensures Chart(s + [e]) == Chart(s) + Slice(e)
  {
    ChartAppend(s, [e]);
    ChartOne(e);
  }

  /** A chart over a fixed list is the list's slices, one entry at a time, in order. */
  lemma ChartOfFour(a: Entry, b: Entry, c: Entry, d: Entry)
    ensures Chart([a, b, c, d]) == Slice(a) + Slice(b) + Slice(c) + Slice(d)
  {
    ChartOne(a);
    ChartSnoc([a], b);
    assert [a] + [b] == [a, b];
    ChartSnoc([a, b], c);
    assert [a, b] + [c] == [a, b, c];
    ChartSnoc([a, b, c], d);
    assert [a, b, c] + [d] == [a, b, c, d];
  }

  lemma ChartOfFive(a: Entry, b: Entry, c: Entry, d: Entry, e: Entry)
    ensures Chart([a, b, c, d, e]) == Slice(a) + Slice(b) + Slice(c) + Slice(d) + Slice(e)
  {
    ChartOfFour(a, b, c, d);
    ChartSnoc([a, b, c, d], e);
    assert [a, b, c, d] + [e] == [a, b, c, d, e];
  }

  lemma TotalOfFour(a: Entry, b: Entry, c: Entry, d: Entry)
    ensures Total([a, b, c, d]) == a.value + b.value + c.value + d.value
  {
    assert [a, b, c, d][..3] == [a, b, c];
    assert [a, b, c][..2] == [a, b];
    assert [a, b][..1] == [a];
    assert Total([a]) == a.value by { assert [a][..0] == []; }
    assert Total([a, b]) == a.value + b.value;
    assert Total([a, b, c]) == a.value + b.value + c.value;
  }

  lemma TotalOfFive(a: Entry, b: Entry, c: Entry, d: Entry, e: Entry)
    ensures Total([a, b, c, d, e]) == a.value + b.value + c.value + d.value + e.value
  {
    assert [a, b, c, d, e][..4] == [a, b, c, d];
    TotalOfFour(a, b, c, d);
  }

  /** With no negative value in the list, dropping the empty slices keeps the whole total. */
  lemma {:induction false} ChartTotal(s: seq<Entry>)
    requires forall k :: 0 <= k < |s| ==> s[k].value >= 0.0
    ensures Total(Chart(s)) == Total(s)
    decreases |s|
  {
    if s != [] {
      ChartTotal(s[..|s| - 1]);
      if Positive(s[|s| - 1]) {
        var f := Chart(s[..|s| - 1]);
        assert (f + [s[|s| - 1]])[..|f|] == f;
      }
    }
  }

  // ---------------------------------------------------------------------------
  // Stable sort by a key, descending
  // ---------------------------------------------------------------------------

  predicate SortedDesc<T>(s: seq<T>, key: T -> real) {
    forall i, j :: 0 <= i < j < |s| ==> key(s[i]) >= key(s[j])
  }

  /** Places `x`, which came after every element of `s`, behind every element
      whose key is at least its own. */
  function Insert<T>(x: T, s: seq<T>, key: T -> real): (r: seq<T>)
    ensures |r| == |s| + 1
    decreases |s|
  {
    if s == [] || key(s[|s| - 1]) >= key(x) then s + [x]
    else Insert(x, s[..|s| - 1], key) + [s[|s| - 1]]
  }

  /** The result of a stable sort by `key`, largest first. */
  function SortDesc<T>(s: seq<T>, key: T -> real): (r: seq<T>)
    ensures |r| == |s|
    decreases |s|
  {
    if s == [] then [] else Insert(s[|s| - 1], SortDesc(s[..|s| - 1], key), key)
  }

  /** Where insertion puts `x`: after the prefix `s[..j]`, before the keys below its own. */
  lemma {:induction false} InsertAt<T>(x: T, s: seq<T>, key: T -> real, j: nat)
    requires j <= |s|
    requires j == 0 || key(s[j - 1]) >= key(x)
    requires forall k :: j <= k < |s| ==> key(s[k]) < key(x)
    ensures Insert(x, s, key) == s[..j] + [x] + s[j..]
    decreases |s|
  {
    if j < |s| {
      var init := s[..|s| - 1];
      InsertAt(x, init, key, j);
      assert init[..j] == s[..j];
      assert init[j..] + [s[|s| - 1]] == s[j..];
    } else {
      assert s[..j] == s;
    }
  }

  /** Insertion adds `x` and keeps every element. */
  lemma {:induction false} InsertPermutation<T>(x: T, s: seq<T>, key: T -> real)
    ensures multiset(Insert(x, s, key)) == multiset(s) + multiset{x}
    decreases |s|
  {
    if !(s == [] || key(s[|s| - 1]) >= key(x)) {
      var init := s[..|s| - 1];
      InsertPermutation(x, init, key);
      assert s == init + [s[|s| - 1]];
    }
  }

  /** Insertion into a non-increasing sequence keeps it non-increasing. */
  lemma {:induction false} InsertSorted<T>(x: T, s: seq<T>, key: T -> real)
    requires SortedDesc(s, key)
    ensures SortedDesc(Insert(x, s, key), key)
    ensures multiset(Insert(x, s, key)) == multiset(s) + multiset{x}
    decreases |s|
  {
    InsertPermutation(x, s, key);
    if s == [] || key(s[|s| - 1]) >= key(x) {
      assert Insert(x, s, key) == s + [x];
    } else {
      var init, last := s[..|s| - 1], s[|s| - 1];
      assert SortedDesc(init, key);
      InsertSorted(x, init, key);
      var r := Insert(x, init, key);
      assert Insert(x, s, key) == r + [last];
      forall i | 0 <= i < |r| ensures key(r[i]) >= key(last) {
        assert r[i] in multiset(init) + multiset{x};
        if r[i] in multiset(init) {
          var k :| 0 <= k < |init| && init[k] == r[i];
        }
      }
    }
  }

  /** The stable sort gives a non-increasing sequence with the same elements. */
  lemma {:induction false} SortDescSortedPermutation<T>(s: seq<T>, key: T -> real)
    ensures SortedDesc(SortDesc(s, key), key)
    ensures multiset(SortDesc(s, key)) == multiset(s)
    decreases |s|
  {
    if s != [] {
      SortDescSortedPermutation(s[..|s| - 1], key);
      InsertSorted(s[|s| - 1], SortDesc(s[..|s| - 1], key), key);
      assert s == s[..|s| - 1] + [s[|s| - 1]];
    }
  }

  /** `a.sort((x, y) => key(y) - key(x))` on an array, in place. */
  method SortInPlace<T>(a: array<T>, key: T -> real)
    modifies a
    ensures a[..] == SortDesc(old(a[..]), key)
  {
    ghost var orig := a[..];
    var i := 0;
    while i < a.Length
      invariant 0 <= i <= a.Length
      invariant a[..i] == SortDesc(orig[..i], key)
      invariant a[i..] == orig[i..]
    {
      ghost var pre := orig[..i + 1];
      assert pre[..i] == orig[..i] && pre[i] == orig[i];
      assert SortDesc(pre, key) == Insert(orig[i], SortDesc(orig[..i], key), key);
      assert a[i] == orig[i] && a[i + 1..] == orig[i + 1..];
      InsertLast(a, i, key);
      i := i + 1;
    }
    assert orig[..a.Length] == orig;
    assert a[..a.Length] == a[..];
  }

  /** One step of the insertion sort: `a[i]` moves left past the smaller keys. */
  method InsertLast<T>(a: array<T>, i: nat, key: T -> real)
    requires i < a.Length
    modifies a
    ensures a[..i + 1] == Insert(old(a[i]), old(a[..i]), key)
    ensures a[i + 1..] == old(a[i + 1..])
  {
    var x := a[i];
    ghost var done := a[..i];
    var j := i;
    while j > 0 && key(a[j - 1]) < key(x)
      invariant 0 <= j <= i
      invariant forall k :: 0 <= k < j ==> a[k] == done[k]
      invariant forall k :: j < k <= i ==> a[k] == done[k - 1]
      invariant forall k :: i < k < a.Length ==> a[k] == old(a[k])
      invariant forall k :: j <= k < i ==> key(done[k]) < key(x)
    {
      a[j] := a[j - 1];
      j := j - 1;
    }
    a[j] := x;
    InsertAt(x, done, key, j);
    assert a[..i + 1] == done[..j] + [x] + done[j..];
  }

  /** `s.slice(0, n)` */
  function Take<T>(s: seq<T>, n: nat): (r: seq<T>)
    ensures |r| == if |s| < n then |s| else n
    ensures r == s[..|r|]
  {
    if |s| <= n then s else s[..n]
  }

  /** `Array.from(tally).sort(byValueDesc).slice(0, n)`: at most `n` entries, largest
      first, drawn from the tally, and no entry left out outranks one kept. */
  method TopN(t: seq<Entry>, n: nat) returns (top: seq<Entry>)
    ensures top == Take(SortDesc(t, EntryValue), n)
    ensures |top| <= n && |top| <= |t|
    ensures SortedDesc(top, EntryValue)
    ensures multiset(top) <= multiset(t)
  {
    var a := new Entry[|t|](i requires 0 <= i < |t| => t[i]);
    assert a[..] == t;
    SortInPlace(a, EntryValue);
    var k := if a.Length <= n then a.Length else n;
    top := a[..k];
    SortDescSortedPermutation(t, EntryValue);
    TakeSortedSub(SortDesc(t, EntryValue), n);
  }

  lemma TakeSortedSub(s: seq<Entry>, n: nat)
    requires SortedDesc(s, EntryValue)
    ensures SortedDesc(Take(s, n), EntryValue)
    ensures multiset(Take(s, n)) <= multiset(s)
  {
    var r := Take(s, n);
    assert s == r + s[|r|..];
  }
}
