/**
 * The financial deep dive of the statistics view: the revenue of every order
 * that is not cancelled, tallied by client, by category (each order in the first
 * of garments, embroidery, sublimation, sewing whose test it passes) and by
 * product (the order's amount shared over its items by quantity).
 */
module StatsFinancial {
  import opened Wrappers
  import opened Folds
  import opened Types
  import opened StatsCategory
  import opened StatsMetrics
  import opened Ranking

  /** The deep dive counts every order except the cancelled ones. */
  predicate Billable(o: Order) { o.status != Cancelled }

  datatype CategoryRevenue = CategoryRevenue(garments: real, embroidery: real, sublimation: real, sewing: real)

  /** The bucket a service names in `revByCategory`. */
  function Bucket(c: CategoryRevenue, s: ServiceFilter): real {
    match s
    case Confeccion => c.garments
    case Bordado => c.embroidery
    case Sublimacion => c.sublimation
    case Costura => c.sewing
    case AllServices => 0.0
  }

  function AddToBucket(c: CategoryRevenue, s: Option<ServiceFilter>, amount: real): (r: CategoryRevenue)
    ensures s.Some? && s.value != AllServices ==> Bucket(r, s.value) == Bucket(c, s.value) + amount
    ensures forall t :: s != Some(t) ==> Bucket(r, t) == Bucket(c, t)
  {
    match s
    case Some(Confeccion) => c.(garments := c.garments + amount)
    case Some(Bordado) => c.(embroidery := c.embroidery + amount)
    case Some(Sublimacion) => c.(sublimation := c.sublimation + amount)
    case Some(Costura) => c.(sewing := c.sewing + amount)
    case _ => c
  }

  /** `revByCategory` after the loop over the set. */
  function CategoryRevenueOf(ds: seq<Order>): CategoryRevenue {
    if ds == [] then CategoryRevenue(0.0, 0.0, 0.0, 0.0)
    else
      var r := CategoryRevenueOf(ds[..|ds| - 1]);
      var o := ds[|ds| - 1];
      if Billable(o) then AddToBucket(r, RevenueCategory(o), o.totalAmount) else r
  }

  /** `revByClient` after the loop over the set. */
  function ClientRevenue(ds: seq<Order>): (r: seq<Entry>)
    ensures UniqueNames(r)
  {
    if ds == [] then []
    else
      var r := ClientRevenue(ds[..|ds| - 1]);
      var o := ds[|ds| - 1];
      if Billable(o) then Bump(r, o.clientName, o.totalAmount) else r
  }

  /** `avgPrice`: the order's amount per garment, 0 when it has none. */
  function AvgPrice(o: Order): (p: real)
    ensures TotalQuantity(o.items) > 0 ==> p * TotalQuantity(o.items) as real == o.totalAmount
    ensures TotalQuantity(o.items) <= 0 ==> p == 0.0
  {
    var q := TotalQuantity(o.items);
    if q > 0 then o.totalAmount / q as real else 0.0
  }

  /** `i.type || o.garmentModel` */
  function ProductName(i: OrderItem, garmentModel: string): string {
    OrElse(i.itemType, garmentModel)
  }

  /** Each item's share, `avgPrice * i.quantity`, added under its product name. */
  function ShareItems(t: seq<Entry>, items: seq<OrderItem>, garmentModel: string, price: real): (r: seq<Entry>)
    requires UniqueNames(t)
    ensures UniqueNames(r)
  {
    if items == [] then t
    else
      var last := items[|items| - 1];
      Bump(ShareItems(t, items[..|items| - 1], garmentModel, price), ProductName(last, garmentModel), Share(price, last.quantity))
  }

  /** `avgPrice * i.quantity` */
  function Share(price: real, quantity: int): real {
    price * quantity as real
  }

  /** `revByProduct` after the loop over the set. */
  function ProductRevenue(ds: seq<Order>): (r: seq<Entry>)
    ensures UniqueNames(r)
  {
    if ds == [] then []
    else
      var r := ProductRevenue(ds[..|ds| - 1]);
      var o := ds[|ds| - 1];
      if Billable(o) then ShareItems(r, o.items, o.garmentModel, AvgPrice(o)) else r
  }

  /** `revenueBreakdown`: the four categories as named slices, empty ones dropped. */
  function Breakdown(c: CategoryRevenue): (slices: seq<Entry>)
    ensures |slices| <= 4
    ensures forall k :: 0 <= k < |slices| ==> slices[k].value > 0.0
    ensures slices == Slice(Entry("Confecci\U{00F3}n", c.garments)) + Slice(Entry("Bordado", c.embroidery)) +
                      Slice(Entry("Sublimaci\U{00F3}n", c.sublimation)) + Slice(Entry("Costura", c.sewing))
  {
    var a, b, s, w := Entry("Confecci\U{00F3}n", c.garments), Entry("Bordado", c.embroidery),
                      Entry("Sublimaci\U{00F3}n", c.sublimation), Entry("Costura", c.sewing);
    ChartOfFour(a, b, s, w);
    Chart([a, b, s, w])
  }

  datatype Financial = Financial(topClients: seq<Entry>, topRevenueProducts: seq<Entry>, revenueBreakdown: seq<Entry>)

  /** The loop of the financial deep dive, then the five best clients and products. */
  method FinancialDeepDive(ds: seq<Order>) returns (f: Financial)
    ensures f.topClients == Take(SortDesc(ClientRevenue(ds), EntryValue), 5)
    ensures f.topRevenueProducts == Take(SortDesc(ProductRevenue(ds), EntryValue), 5)
    ensures f.revenueBreakdown == Breakdown(CategoryRevenueOf(ds))
    ensures |f.topClients| <= 5 && SortedDesc(f.topClients, EntryValue)
    ensures |f.topRevenueProducts| <= 5 && SortedDesc(f.topRevenueProducts, EntryValue)
  {
    var revByCategory := CategoryRevenue(0.0, 0.0, 0.0, 0.0);
    var revByClient: seq<Entry> := [];
    var revByProduct: seq<Entry> := [];
    var i := 0;
    while i < |ds|
      invariant 0 <= i <= |ds|
      invariant revByCategory == CategoryRevenueOf(ds[..i])
      invariant revByClient == ClientRevenue(ds[..i])
      invariant revByProduct == ProductRevenue(ds[..i])
    {
      assert ds[..i + 1][..i] == ds[..i];
      var o := ds[i];
      if o.status != Cancelled {
        var amount := o.totalAmount;
        revByClient := Bump(revByClient, o.clientName, amount);
        revByCategory := AddCategory(revByCategory, o);
        var totalQty := TotalQuantity(o.items);
        var avgPrice := if totalQty > 0 then amount / totalQty as real else 0.0;
        revByProduct := ShareOrder(revByProduct, o.items, o.garmentModel, avgPrice);
      }
      i := i + 1;
    }
    assert ds[..i] == ds;
    var topClients := TopN(revByClient, 5);
    var topRevenueProducts := TopN(revByProduct, 5);
    f := Financial(topClients, topRevenueProducts, Breakdown(revByCategory));
  }

  /** The category step: the amount goes to the first category whose test the order passes. */
  method AddCategory(c: CategoryRevenue, o: Order) returns (r: CategoryRevenue)
    ensures r == AddToBucket(c, RevenueCategory(o), o.totalAmount)
  {
    var amount := o.totalAmount;
    r := c;
    if CheckCategory(o, Confeccion) {
      r := r.(garments := r.garments + amount);
    } else if CheckCategory(o, Bordado) {
      r := r.(embroidery := r.embroidery + amount);
    } else if CheckCategory(o, Sublimacion) {
      r := r.(sublimation := r.sublimation + amount);
    } else if CheckCategory(o, Costura) {
      r := r.(sewing := r.sewing + amount);
    }
  }

  /** The inner loop over one order's items. */
  method ShareOrder(t: seq<Entry>, items: seq<OrderItem>, garmentModel: string, avgPrice: real) returns (r: seq<Entry>)
    requires UniqueNames(t)
    ensures r == ShareItems(t, items, garmentModel, avgPrice)
  {
    r := t;
    var j := 0;
    while j < |items|
      invariant 0 <= j <= |items|
      invariant r == ShareItems(t, items[..j], garmentModel, avgPrice)
    {
      assert items[..j + 1][..j] == items[..j];
      assert items[..j + 1][j] == items[j];
      var name := OrElse(items[j].itemType, garmentModel);
      r := Bump(r, name, Share(avgPrice, items[j].quantity));
      j := j + 1;
    }
    assert items[..j] == items;
  }

  // ---------------------------------------------------------------------------
  // What the three tallies add up to
  // ---------------------------------------------------------------------------

  /** Billable orders whose category is `s`. */
  function InBucket(s: ServiceFilter): Order -> bool {
    o => Billable(o) && RevenueCategory(o) == Some(s)
  }

  /** Each category bucket holds exactly the revenue of the billable orders it is the first match for. */
  lemma {:induction false} CategoryBucket(ds: seq<Order>, s: ServiceFilter)
    requires s != AllServices
    ensures Bucket(CategoryRevenueOf(ds), s) == Sum(Filter(ds, InBucket(s)), Amount)
    decreases |ds|
  {
    if ds != [] {
      var init, o := ds[..|ds| - 1], ds[|ds| - 1];
      CategoryBucket(init, s);
      SumAppendOne(Filter(init, InBucket(s)), o);
    }
  }

  /** The four buckets together hold every billable order's amount once. */
  lemma {:induction false} CategoryRevenueSum(ds: seq<Order>)
    ensures var c := CategoryRevenueOf(ds);
      c.garments + c.embroidery + c.sublimation + c.sewing == Sum(Filter(ds, Billable), Amount)
    decreases |ds|
  {
    if ds != [] {
      var init, o := ds[..|ds| - 1], ds[|ds| - 1];
      CategoryRevenueSum(init);
      RevenueCategoryTotal(o);
      SumAppendOne(Filter(init, Billable), o);
    }
  }

  /** Billable revenue is the potential revenue of the metrics plus that of returned orders. */
  lemma BillableRevenue(ds: seq<Order>)
    ensures Sum(Filter(ds, Billable), Amount) ==
      CalculateMetrics(ds).revenuePotential + Sum(Filter(ds, IsReturned), Amount)
  {
    MetricsReconcile(ds);
    SumComplement(ds, Amount, IsCancelled, Billable);
  }

  /** Each client's tally is the revenue of that client's billable orders. */
  lemma {:induction false} ClientRevenueOf(ds: seq<Order>, name: string)
    ensures ValueOf(ClientRevenue(ds), name) == Sum(Filter(ds, o => Billable(o) && o.clientName == name), Amount)
    decreases |ds|
  {
    if ds != [] {
      var init, o := ds[..|ds| - 1], ds[|ds| - 1];
      ClientRevenueOf(init, name);
      SumAppendOne(Filter(init, o => Billable(o) && o.clientName == name), o);
      if Billable(o) { BumpAdds(ClientRevenue(init), o.clientName, o.totalAmount, name); }
    }
  }

  /** The client tally holds all billable revenue. */
  lemma {:induction false} ClientRevenueTotal(ds: seq<Order>)
    ensures Total(ClientRevenue(ds)) == Sum(Filter(ds, Billable), Amount)
    decreases |ds|
  {
    if ds != [] {
      var init, o := ds[..|ds| - 1], ds[|ds| - 1];
      ClientRevenueTotal(init);
      SumAppendOne(Filter(init, Billable), o);
      if Billable(o) { BumpAdds(ClientRevenue(init), o.clientName, o.totalAmount, ""); }
    }
  }

  /** The items' shares summed. */
  function ItemShares(items: seq<OrderItem>, price: real): real {
    if items == [] then 0.0 else ItemShares(items[..|items| - 1], price) + Share(price, items[|items| - 1].quantity)
  }

  lemma {:induction false} ShareItemsTotal(t: seq<Entry>, items: seq<OrderItem>, garmentModel: string, price: real)
    requires UniqueNames(t)
    ensures Total(ShareItems(t, items, garmentModel, price)) == Total(t) + ItemShares(items, price)
    decreases |items|
  {
    if items != [] {
      var init, last := items[..|items| - 1], items[|items| - 1];
      ShareItemsTotal(t, init, garmentModel, price);
      BumpAdds(ShareItems(t, init, garmentModel, price), ProductName(last, garmentModel), Share(price, last.quantity), "");
    }
  }

  /** Summed item by item, the shares are the price times the order's garment count. */
  lemma {:induction false} ItemSharesTotal(items: seq<OrderItem>, price: real)
    ensures ItemShares(items, price) == Share(price, TotalQuantity(items))
    decreases |items|
  {
    if items != [] {
      var init, last := items[..|items| - 1], items[|items| - 1];
      ItemSharesTotal(init, price);
      Distribute(price, TotalQuantity(init), last.quantity);
    }
  }

  lemma Distribute(p: real, a: int, b: int)
    ensures Share(p, a + b) == Share(p, a) + Share(p, b)
  {
    assert (a + b) as real == a as real + b as real;
  }

  /** The shares of an order at its average price add up to its amount, or to 0 without garments. */
  lemma AvgPriceShares(o: Order)
    ensures Share(AvgPrice(o), TotalQuantity(o.items)) == if TotalQuantity(o.items) > 0 then o.totalAmount else 0.0
  {
  }

  /** Orders with garments to share over. */
  predicate Shared(o: Order) { Billable(o) && TotalQuantity(o.items) > 0 }

  /** The shares of an order add up to its amount, so the product tally holds the
      revenue of every billable order except those without garments, which is lost. */
  lemma {:induction false} ProductRevenueTotal(ds: seq<Order>)
    ensures Total(ProductRevenue(ds)) == Sum(Filter(ds, Shared), Amount)
    decreases |ds|
  {
    if ds != [] {
      var init, o := ds[..|ds| - 1], ds[|ds| - 1];
      ProductRevenueTotal(init);
      SumAppendOne(Filter(init, Shared), o);
      if Billable(o) {
        ShareItemsTotal(ProductRevenue(init), o.items, o.garmentModel, AvgPrice(o));
        ItemSharesTotal(o.items, AvgPrice(o));
        AvgPriceShares(o);
      }
    }
  }

  /** With no negative bucket, the breakdown drops only empty categories and keeps the whole sum. */
  lemma BreakdownTotal(c: CategoryRevenue)
    requires c.garments >= 0.0 && c.embroidery >= 0.0 && c.sublimation >= 0.0 && c.sewing >= 0.0
    ensures Total(Breakdown(c)) == c.garments + c.embroidery + c.sublimation + c.sewing
  {
    var a, b, s, w := Entry("Confecci\U{00F3}n", c.garments), Entry("Bordado", c.embroidery),
                      Entry("Sublimaci\U{00F3}n", c.sublimation), Entry("Costura", c.sewing);
    TotalOfFour(a, b, s, w);
    ChartTotal([a, b, s, w]);
  }
}
