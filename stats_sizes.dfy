/**
 * The size histogram of the production panel: every item's size, trimmed and
 * upper-cased, is tallied by quantity when it is short (under five characters)
 * or one of 3XL, 2XL, 4XL; the eight largest tallies are shown.
 */
module StatsSizes {
  import opened Text
  import opened Types
  import opened Ranking

  /** `i.size.trim().toUpperCase()` */
  function SizeToken(size: string): string {
    Upper(Trim(size))
  }

  /** Which tokens the histogram keeps. */
  predicate Kept(token: string) {
    |token| < 5 || token in ["3XL", "2XL", "4XL"]
  }

  /** A kept token as it appears in the histogram: trimmed and upper-case. */
  predicate IsSizeToken(name: string) {
    Kept(name) && IsTrimmed(name) && Upper(name) == name
  }

  /** The items' sizes tallied onto `t`, item by item. */
  function TallyItems(t: seq<Entry>, items: seq<OrderItem>): (r: seq<Entry>)
    requires UniqueNames(t)
    ensures UniqueNames(r)
  {
    if items == [] then t
    else
      var r := TallyItems(t, items[..|items| - 1]);
      var last := items[|items| - 1];
      var token := SizeToken(last.size);
      if Kept(token) then Bump(r, token, last.quantity as real) else r
  }

  /** `sizeMap` after the loop over the set. */
  function SizeTally(ds: seq<Order>): (r: seq<Entry>)
    ensures UniqueNames(r)
  {
    if ds == [] then [] else TallyItems(SizeTally(ds[..|ds| - 1]), ds[|ds| - 1].items)
  }

  /** The loop over the orders and their items, then the eight largest. */
  method SizeHistogram(ds: seq<Order>) returns (sizes: seq<Entry>)
    ensures sizes == Take(SortDesc(SizeTally(ds), EntryValue), 8)
    ensures |sizes| <= 8 && SortedDesc(sizes, EntryValue)
    ensures multiset(sizes) <= multiset(SizeTally(ds))
  {
    var sizeMap: seq<Entry> := [];
    var i := 0;
    while i < |ds|
      invariant 0 <= i <= |ds|
      invariant sizeMap == SizeTally(ds[..i])
    {
      assert ds[..i + 1][..i] == ds[..i];
      sizeMap := TallyOrder(sizeMap, ds[i].items);
      i := i + 1;
    }
    assert ds[..i] == ds;
    sizes := TopN(sizeMap, 8);
  }

  /** The inner loop: `sizeMap.set(s, (sizeMap.get(s) || 0) + i.quantity)` for kept sizes. */
  method TallyOrder(t: seq<Entry>, items: seq<OrderItem>) returns (r: seq<Entry>)
    requires UniqueNames(t)
    ensures r == TallyItems(t, items)
  {
    r := t;
    var j := 0;
    while j < |items|
      invariant 0 <= j <= |items|
      invariant r == TallyItems(t, items[..j])
    {
      assert items[..j + 1][..j] == items[..j];
      var s := Upper(Trim(items[j].size));
      if |s| < 5 || s in ["3XL", "2XL", "4XL"] {
        r := Bump(r, s, items[j].quantity as real);
      }
      j := j + 1;
    }
    assert items[..j] == items;
  }

  // ---------------------------------------------------------------------------
  // What the histogram holds
  // ---------------------------------------------------------------------------

  /** A kept token is trimmed and already upper-case. */
  lemma SizeTokenShape(size: string)
    requires Kept(SizeToken(size))
    ensures IsSizeToken(SizeToken(size))
  {
    var u := SizeToken(size);
    assert IsTrimmed(u) && Upper(u) == u by {
      UpperOfTrimmed(Trim(size));
    }
  }

  /** Upper-casing a trimmed string leaves it trimmed, and a second time changes nothing. */
  lemma UpperOfTrimmed(t: string)
    requires IsTrimmed(t)
    ensures IsTrimmed(Upper(t)) && Upper(Upper(t)) == Upper(t)
  {
    var u := Upper(t);
    if |u| > 0 {
      UpperCharKeepsSpaces(t[0]);
      UpperCharKeepsSpaces(t[|t| - 1]);
    }
    forall k | 0 <= k < |u| ensures Upper(u)[k] == u[k] {
      UpperCharKeepsSpaces(t[k]);
    }
  }

  predicate AllTokens(t: seq<Entry>) {
    forall n :: n in Names(t) ==> IsSizeToken(n)
  }

  lemma {:induction false} TallyItemsTokens(t: seq<Entry>, items: seq<OrderItem>)
    requires UniqueNames(t) && AllTokens(t)
    ensures AllTokens(TallyItems(t, items))
    decreases |items|
  {
    if items != [] {
      var r := TallyItems(t, items[..|items| - 1]);
      TallyItemsTokens(t, items[..|items| - 1]);
      var token := SizeToken(items[|items| - 1].size);
      if Kept(token) {
        SizeTokenShape(items[|items| - 1].size);
      }
    }
  }

  /** Every size in the histogram is a kept token, trimmed and upper-cased. */
  lemma {:induction false} SizeTallyTokens(ds: seq<Order>)
    ensures AllTokens(SizeTally(ds))
    decreases |ds|
  {
    if ds != [] {
      SizeTallyTokens(ds[..|ds| - 1]);
      TallyItemsTokens(SizeTally(ds[..|ds| - 1]), ds[|ds| - 1].items);
    }
  }

  /** The quantity of the items whose size is kept. */
  function KeptQuantity(items: seq<OrderItem>): real {
    if items == [] then 0.0
    else
      var last := items[|items| - 1];
      KeptQuantity(items[..|items| - 1]) + (if Kept(SizeToken(last.size)) then last.quantity as real else 0.0)
  }

  function OrdersKeptQuantity(ds: seq<Order>): real {
    if ds == [] then 0.0 else OrdersKeptQuantity(ds[..|ds| - 1]) + KeptQuantity(ds[|ds| - 1].items)
  }

  lemma {:induction false} TallyItemsTotal(t: seq<Entry>, items: seq<OrderItem>)
    requires UniqueNames(t)
    ensures Total(TallyItems(t, items)) == Total(t) + KeptQuantity(items)
    decreases |items|
  {
    if items != [] {
      var last := items[|items| - 1];
      TallyItemsTotal(t, items[..|items| - 1]);
      if Kept(SizeToken(last.size)) {
        BumpAdds(TallyItems(t, items[..|items| - 1]), SizeToken(last.size), last.quantity as real, "");
      }
    }
  }

  /** The tally loses no garment of a kept size and counts no other. */
  lemma {:induction false} SizeTallyTotal(ds: seq<Order>)
    ensures Total(SizeTally(ds)) == OrdersKeptQuantity(ds)
    decreases |ds|
  {
    if ds != [] {
      SizeTallyTotal(ds[..|ds| - 1]);
      TallyItemsTotal(SizeTally(ds[..|ds| - 1]), ds[|ds| - 1].items);
    }
  }
}
