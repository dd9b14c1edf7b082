/**
 * The market statistics of the statistics view: every item's quantity is
 * tallied under its product name (`i.type || o.garmentModel`) overall and in
 * one of ten market buckets chosen by the keywords the lower-cased name
 * mentions; each tally shows its five largest entries.
 */
module StatsMarket {
  import opened Text
  import opened Types
  import StatsCategory
  import opened Ranking

  datatype Bucket =
    | Jackets | Chemises | Shirts | Pants | Aprons
    | Embroidery | SublimationService | SublimationProduct | SewingWork | Others

  /** The ten buckets, in the order of `marketBreakdown`. */
  function AllBuckets(): seq<Bucket> {
    [Jackets, Chemises, Shirts, Pants, Aprons, Embroidery, SublimationService, SublimationProduct, SewingWork, Others]
  }

  lemma AllBucketsListed()
    ensures forall b :: b in AllBuckets()
  {
    forall b ensures b in AllBuckets() {
      match b
      case Jackets => assert AllBuckets()[0] == b;
      case Chemises => assert AllBuckets()[1] == b;
      case Shirts => assert AllBuckets()[2] == b;
      case Pants => assert AllBuckets()[3] == b;
      case Aprons => assert AllBuckets()[4] == b;
      case Embroidery => assert AllBuckets()[5] == b;
      case SublimationService => assert AllBuckets()[6] == b;
      case SublimationProduct => assert AllBuckets()[7] == b;
      case SewingWork => assert AllBuckets()[8] == b;
      case Others => assert AllBuckets()[9] == b;
    }
  }

  lemma AllBucketsDistinct()
    ensures forall i, j :: 0 <= i < j < |AllBuckets()| ==> AllBuckets()[i] != AllBuckets()[j]
  {
  }

  function EmbroideryWords(): seq<string> { ["bordado", "ponchado", "aplique"] }
  function SubProductWords(): seq<string> { ["taza", "termo", "chapa", "mousepad", "lanyard"] }
  function SewingWords(): seq<string> { ["ruedo", "ajuste", "costura", "cierre", "zurcido"] }
  function JacketWords(): seq<string> { ["chaqueta", "cortaviento", "sueter", "hoodie"] }
  function ChemiseWords(): seq<string> { ["chemise", "polo"] }
  function ShirtWords(): seq<string> { ["camisa", "columbia"] }
  function PantsWords(): seq<string> { ["pantal\U{00F3}n", "pantalon", "jean", "cargo"] }

  /** The bucket of a product name: embroidery, then sublimation (product or
      service), then sewing, then the garment families, then the rest. */
  function Classify(name: string): Bucket {
    if StatsCategory.MentionsAny(name, EmbroideryWords()) then Embroidery
    else if Mentions(name, "sublima") then
      (if StatsCategory.MentionsAny(name, SubProductWords()) then SublimationProduct else SublimationService)
    else if StatsCategory.MentionsAny(name, SewingWords()) then SewingWork
    else if StatsCategory.MentionsAny(name, JacketWords()) then Jackets
    else if StatsCategory.MentionsAny(name, ChemiseWords()) then Chemises
    else if StatsCategory.MentionsAny(name, ShirtWords()) then Shirts
    else if StatsCategory.MentionsAny(name, PantsWords()) then Pants
    else if Mentions(name, "delantal") then Aprons
    else Others
  }

  /** `i.type || o.garmentModel` */
  function ProductName(i: OrderItem, garmentModel: string): string {
    OrElse(i.itemType, garmentModel)
  }

  type Breakdown = map<Bucket, seq<Entry>>

  /** Every bucket has a tally, and no tally names a product twice. */
  predicate WellFormed(m: Breakdown) {
    (forall b :: b in m) && (forall b :: b in m ==> UniqueNames(m[b]))
  }

  function EmptyBreakdown(): (m: Breakdown)
    ensures WellFormed(m)
  {
    AllBucketsListed();
    map b: Bucket | b in AllBuckets() :: []
  }

  /** `addToMap(marketBreakdown.<bucket of name>)` */
  function AddItem(m: Breakdown, name: string, qty: int): (r: Breakdown)
    requires WellFormed(m)
    ensures WellFormed(r)
  {
    var b := Classify(name);
    m[b := Bump(m[b], name, qty as real)]
  }

  /** `productMap` and `marketBreakdown` after the items of one order. */
  function TallyItems(overall: seq<Entry>, m: Breakdown, items: seq<OrderItem>, garmentModel: string): (r: (seq<Entry>, Breakdown))
    requires UniqueNames(overall) && WellFormed(m)
    ensures UniqueNames(r.0) && WellFormed(r.1)
  {
    if items == [] then (overall, m)
    else
      var prev := TallyItems(overall, m, items[..|items| - 1], garmentModel);
      var last := items[|items| - 1];
      var name := ProductName(last, garmentModel);
      (Bump(prev.0, name, last.quantity as real), AddItem(prev.1, name, last.quantity))
  }

  /** `productMap` and `marketBreakdown` after the loop over the set. */
  function Tally(ds: seq<Order>): (r: (seq<Entry>, Breakdown))
    ensures UniqueNames(r.0) && WellFormed(r.1)
  {
    if ds == [] then ([], EmptyBreakdown())
    else
      var prev := Tally(ds[..|ds| - 1]);
      TallyItems(prev.0, prev.1, ds[|ds| - 1].items, ds[|ds| - 1].garmentModel)
  }

  datatype MarketStats = MarketStats(buckets: Breakdown, topOverall: seq<Entry>)

  /** `toSortedArray`: the five largest entries of a tally. */
  function Top5(t: seq<Entry>): seq<Entry> {
    Take(SortDesc(t, EntryValue), 5)
  }

  /** The loop over the set, then the five largest entries of every tally. */
  method ComputeMarketStats(ds: seq<Order>) returns (stats: MarketStats)
    ensures stats.topOverall == Top5(Tally(ds).0)
    ensures forall b :: b in stats.buckets <==> b in AllBuckets()
    ensures forall b :: b in stats.buckets ==> stats.buckets[b] == Top5(Tally(ds).1[b])
    ensures forall b :: b in stats.buckets ==> |stats.buckets[b]| <= 5 && SortedDesc(stats.buckets[b], EntryValue)
  {
    var productMap: seq<Entry> := [];
    var breakdown := EmptyBreakdown();
    var i := 0;
    while i < |ds|
      invariant 0 <= i <= |ds|
      invariant (productMap, breakdown) == Tally(ds[..i])
    {
      assert ds[..i + 1][..i] == ds[..i];
      productMap, breakdown := TallyOrder(productMap, breakdown, ds[i].items, ds[i].garmentModel);
      i := i + 1;
    }
    assert ds[..i] == ds;
    var tops: Breakdown := map[];
    var all := AllBuckets();
    var k := 0;
    while k < |all|
      invariant 0 <= k <= |all|
      invariant forall b :: b in tops <==> b in all[..k]
      invariant forall b :: b in tops ==> tops[b] == Top5(breakdown[b])
      invariant forall b :: b in tops ==> |tops[b]| <= 5 && SortedDesc(tops[b], EntryValue)
    {
      var top := TopN(breakdown[all[k]], 5);
      tops := tops[all[k] := top];
      k := k + 1;
    }
    var topOverall := TopN(productMap, 5);
    stats := MarketStats(tops, topOverall);
  }

  /** The inner loop over one order's items. */
  method TallyOrder(overall: seq<Entry>, m: Breakdown, items: seq<OrderItem>, garmentModel: string)
    returns (productMap: seq<Entry>, breakdown: Breakdown)
    requires UniqueNames(overall) && WellFormed(m)
    ensures (productMap, breakdown) == TallyItems(overall, m, items, garmentModel)
  {
    productMap, breakdown := overall, m;
    var j := 0;
    while j < |items|
      invariant 0 <= j <= |items|
      invariant (productMap, breakdown) == TallyItems(overall, m, items[..j], garmentModel)
    {
      assert items[..j + 1][..j] == items[..j];
      var name := OrElse(items[j].itemType, garmentModel);
      var qty := items[j].quantity;
      productMap := Bump(productMap, name, qty as real);
      var b := Classify(name);
      breakdown := breakdown[b := Bump(breakdown[b], name, qty as real)];
      j := j + 1;
    }
    assert items[..j] == items;
  }

  // ---------------------------------------------------------------------------
  // The buckets split the overall tally
  // ---------------------------------------------------------------------------

  /** Every product a bucket names belongs to that bucket. */
  ghost predicate Consistent(m: Breakdown) {
    forall b, n :: b in m && n in Names(m[b]) ==> Classify(n) == b
  }

  /** Each product's count in its bucket is its overall count. */
  ghost predicate Agrees(overall: seq<Entry>, m: Breakdown) {
    forall n :: Classify(n) in m ==> ValueOf(m[Classify(n)], n) == ValueOf(overall, n)
  }

  lemma AddItemKeeps(overall: seq<Entry>, m: Breakdown, name: string, qty: int)
    requires UniqueNames(overall) && WellFormed(m)
    requires Consistent(m) && Agrees(overall, m)
    ensures Consistent(AddItem(m, name, qty))
    ensures Agrees(Bump(overall, name, qty as real), AddItem(m, name, qty))
  {
    var r := AddItem(m, name, qty);
    var o := Bump(overall, name, qty as real);
    forall n | Classify(n) in r
      ensures ValueOf(r[Classify(n)], n) == ValueOf(o, n)
    {
      BumpAdds(overall, name, qty as real, n);
      if Classify(n) == Classify(name) {
        BumpAdds(m[Classify(name)], name, qty as real, n);
      }
    }
  }

  lemma {:induction false} TallyItemsKeeps(overall: seq<Entry>, m: Breakdown, items: seq<OrderItem>, garmentModel: string)
    requires UniqueNames(overall) && WellFormed(m)
    requires Consistent(m) && Agrees(overall, m)
    ensures Consistent(TallyItems(overall, m, items, garmentModel).1)
    ensures Agrees(TallyItems(overall, m, items, garmentModel).0, TallyItems(overall, m, items, garmentModel).1)
    decreases |items|
  {
    if items != [] {
      var prev := TallyItems(overall, m, items[..|items| - 1], garmentModel);
      TallyItemsKeeps(overall, m, items[..|items| - 1], garmentModel);
      var last := items[|items| - 1];
      AddItemKeeps(prev.0, prev.1, ProductName(last, garmentModel), last.quantity);
    }
  }

  /** Every product a bucket lists is one the bucket's keywords select, and its
      count there is its count in the overall product tally. */
  lemma {:induction false} MarketSplitsProducts(ds: seq<Order>)
    ensures Consistent(Tally(ds).1)
    ensures forall n :: ValueOf(Tally(ds).1[Classify(n)], n) == ValueOf(Tally(ds).0, n)
    decreases |ds|
  {
    if ds == [] {
      AllBucketsListed();
    } else {
      var prev := Tally(ds[..|ds| - 1]);
      MarketSplitsProducts(ds[..|ds| - 1]);
      TallyItemsKeeps(prev.0, prev.1, ds[|ds| - 1].items, ds[|ds| - 1].garmentModel);
    }
  }

  /** The sum of the ten bucket totals. */
  function BucketsTotal(m: Breakdown, bs: seq<Bucket>): real
    requires forall b :: b in bs ==> b in m
  {
    if bs == [] then 0.0 else BucketsTotal(m, bs[..|bs| - 1]) + Total(m[bs[|bs| - 1]])
  }

  lemma {:induction false} BucketsTotalUpdate(m: Breakdown, bs: seq<Bucket>, b: Bucket, t: seq<Entry>)
    requires forall c :: c in bs ==> c in m
    requires b in m
    requires forall i, j :: 0 <= i < j < |bs| ==> bs[i] != bs[j]
    ensures BucketsTotal(m[b := t], bs) == BucketsTotal(m, bs) + (if b in bs then Total(t) - Total(m[b]) else 0.0)
    decreases |bs|
  {
    if bs != [] {
      BucketsTotalUpdate(m, bs[..|bs| - 1], b, t);
      assert b in bs <==> b in bs[..|bs| - 1] || b == bs[|bs| - 1];
    }
  }

  /** The sum of all item quantities. */
  function Quantity(items: seq<OrderItem>): real {
    if items == [] then 0.0 else Quantity(items[..|items| - 1]) + items[|items| - 1].quantity as real
  }

  function OrdersQuantity(ds: seq<Order>): real {
    if ds == [] then 0.0 else OrdersQuantity(ds[..|ds| - 1]) + Quantity(ds[|ds| - 1].items)
  }

  lemma {:induction false} BucketsTotalEmpty(m: Breakdown, bs: seq<Bucket>)
    requires forall b :: b in bs ==> b in m && m[b] == []
    ensures BucketsTotal(m, bs) == 0.0
    decreases |bs|
  {
    if bs != [] { BucketsTotalEmpty(m, bs[..|bs| - 1]); }
  }

  /** The overall tally grows by the items' quantity. */
  lemma {:induction false} TallyItemsOverall(overall: seq<Entry>, m: Breakdown, items: seq<OrderItem>, garmentModel: string)
    requires UniqueNames(overall) && WellFormed(m)
    ensures Total(TallyItems(overall, m, items, garmentModel).0) == Total(overall) + Quantity(items)
    decreases |items|
  {
    if items != [] {
      var prev := TallyItems(overall, m, items[..|items| - 1], garmentModel);
      TallyItemsOverall(overall, m, items[..|items| - 1], garmentModel);
      var last := items[|items| - 1];
      BumpAdds(prev.0, ProductName(last, garmentModel), last.quantity as real, "");
    }
  }

  /** So do the buckets together, each item going to one of them. */
  lemma {:induction false} TallyItemsBuckets(overall: seq<Entry>, m: Breakdown, items: seq<OrderItem>, garmentModel: string)
    requires UniqueNames(overall) && WellFormed(m)
    ensures BucketsTotal(TallyItems(overall, m, items, garmentModel).1, AllBuckets())
      == BucketsTotal(m, AllBuckets()) + Quantity(items)
    decreases |items|
  {
    if items != [] {
      var prev := TallyItems(overall, m, items[..|items| - 1], garmentModel);
      TallyItemsBuckets(overall, m, items[..|items| - 1], garmentModel);
      var last := items[|items| - 1];
      var name := ProductName(last, garmentModel);
      var b := Classify(name);
      var t := Bump(prev.1[b], name, last.quantity as real);
      BumpAdds(prev.1[b], name, last.quantity as real, "");
      AllBucketsListed();
      AllBucketsDistinct();
      BucketsTotalUpdate(prev.1, AllBuckets(), b, t);
      assert TallyItems(overall, m, items, garmentModel).1 == prev.1[b := t];
    }
  }

  /** Every garment is counted once overall and once in exactly one bucket. */
  lemma {:induction false} MarketTotals(ds: seq<Order>)
    ensures Total(Tally(ds).0) == OrdersQuantity(ds)
    ensures BucketsTotal(Tally(ds).1, AllBuckets()) == OrdersQuantity(ds)
    decreases |ds|
  {
    if ds == [] {
      BucketsTotalEmpty(EmptyBreakdown(), AllBuckets());
    } else {
      var prev := Tally(ds[..|ds| - 1]);
      MarketTotals(ds[..|ds| - 1]);
      TallyItemsOverall(prev.0, prev.1, ds[|ds| - 1].items, ds[|ds| - 1].garmentModel);
      TallyItemsBuckets(prev.0, prev.1, ds[|ds| - 1].items, ds[|ds| - 1].garmentModel);
    }
  }
}
