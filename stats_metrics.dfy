/**
 * The headline figures of the statistics view: the order set of a window
 * (`filterSet`), the standard metrics of a set (`calculateMetrics`), revenue
 * per service, the number of distinct clients, the completion rate and the
 * trend percentage shown on each metric card.
 */
module StatsMetrics {
  import opened Text
  import opened Folds
  import opened Calendar
  import opened Types
  import opened StatsCategory
  import Ranking

  /** `filterSet(s, e)`: orders created in `[s, e]`, of the selected service, not in the bin. */
  predicate Selected(o: Order, w: Window, cat: ServiceFilter) {
    InWindow(o.createdAt, w) && CheckCategory(o, cat) && o.status != Trash
  }

  function FilterSet(orders: seq<Order>, w: Window, cat: ServiceFilter): (r: seq<Order>)
    ensures |r| <= |orders|
    ensures forall k :: 0 <= k < |r| ==> Selected(r[k], w, cat)
  {
    Filter(orders, o => Selected(o, w, cat))
  }

  /** An order is in the window's set exactly when it is one of the orders and is selected. */
  lemma FilterSetMembers(orders: seq<Order>, w: Window, cat: ServiceFilter, o: Order)
    ensures o in FilterSet(orders, w, cat) <==>
      (o in orders && InWindow(o.createdAt, w) && CheckCategory(o, cat) && o.status != Trash)
  {
    FilterMembership(orders, o => Selected(o, w, cat), o);
  }

  // The five status classes of `calculateMetrics`.
  predicate IsDelivered(o: Order) { o.status == Delivered }
  /** "Active": not delivered, cancelled, returned or ready. */
  predicate IsActive(o: Order) { o.status !in {Delivered, Cancelled, Returned, Ready} }
  predicate IsReady(o: Order) { o.status == Ready }
  predicate IsCancelled(o: Order) { o.status == Cancelled }
  predicate IsReturned(o: Order) { o.status == Returned }
  predicate IsRush(o: Order) { o.priority != Normal }

  function OrderItems(o: Order): int { TotalQuantity(o.items) }

  datatype Metrics = Metrics(
    totalCount: nat,
    revenueRealized: real,
    revenuePending: real,
    revenueLost: real,
    revenueTotalDemand: real,
    revenuePotential: real,
    avgTicket: real,
    rushRevenue: real,
    deliveredCount: nat,
    activeCount: nat,
    readyCount: nat,
    cancelledCount: nat,
    totalItems: int,
    rushCount: nat)

  /** `avgTicket`: potential revenue per order, 0 for an empty set. */
  function AvgTicket(potential: real, count: nat): (avg: real)
    ensures count == 0 ==> avg == 0.0
    ensures count > 0 ==> avg * count as real == potential
  {
    if count > 0 then potential / count as real else 0.0
  }

  /** `calculateMetrics(dataset)` */
  function CalculateMetrics(ds: seq<Order>): (m: Metrics)
    ensures m.totalCount == |ds|
    ensures m.revenueTotalDemand == m.revenuePotential + m.revenueLost
    ensures m.avgTicket == AvgTicket(m.revenuePotential, m.totalCount)
  {
    var revenueRealized := Sum(Filter(ds, IsDelivered), Amount);
    var revenuePending := Sum(Filter(ds, IsActive), Amount);
    var revenueLost := Sum(Filter(ds, IsCancelled), Amount);
    var readyRevenue := Sum(Filter(ds, IsReady), Amount);
    var revenuePotential := revenueRealized + revenuePending + readyRevenue;
    var avgTicket := AvgTicket(revenuePotential, |ds|);
    Metrics(
      |ds|,
      revenueRealized,
      revenuePending,
      revenueLost,
      revenueRealized + revenuePending + revenueLost + readyRevenue,
      revenuePotential,
      avgTicket,
      Sum(Filter(ds, IsRush), Amount),
      Count(ds, IsDelivered), Count(ds, IsActive), Count(ds, IsReady), Count(ds, IsCancelled),
      SumInt(ds, OrderItems),
      Count(ds, IsRush))
  }

  /** The status counts of the metrics cover the set once the returned orders are
      added, and total demand is all revenue except that of returned orders. */
  lemma MetricsReconcile(ds: seq<Order>)
    ensures var m := CalculateMetrics(ds);
      && m.deliveredCount + m.activeCount + m.readyCount + m.cancelledCount
         + Count(ds, IsReturned) == m.totalCount
      && m.revenueTotalDemand + Sum(Filter(ds, IsReturned), Amount) == Sum(ds, Amount)
  {
    StatusPartition(ds);
  }

  /** Every order is in exactly one of delivered, active, ready, cancelled, returned. */
  lemma StatusClassesExclusive(o: Order)
    ensures (if IsDelivered(o) then 1 else 0) + (if IsActive(o) then 1 else 0)
          + (if IsReady(o) then 1 else 0) + (if IsCancelled(o) then 1 else 0)
          + (if IsReturned(o) then 1 else 0) == 1
  {
  }

  /** Counted and summed over a set, the five classes add up to the whole set. */
  lemma {:induction false} StatusPartition(ds: seq<Order>)
    ensures Count(ds, IsDelivered) + Count(ds, IsActive) + Count(ds, IsReady)
          + Count(ds, IsCancelled) + Count(ds, IsReturned) == |ds|
    ensures Sum(Filter(ds, IsDelivered), Amount) + Sum(Filter(ds, IsActive), Amount)
          + Sum(Filter(ds, IsReady), Amount) + Sum(Filter(ds, IsCancelled), Amount)
          + Sum(Filter(ds, IsReturned), Amount) == Sum(ds, Amount)
    decreases |ds|
  {
    if ds != [] {
      var init, o := ds[..|ds| - 1], ds[|ds| - 1];
      StatusPartition(init);
      StatusClassesExclusive(o);
      SumAppendOne(Filter(init, IsDelivered), o);
      SumAppendOne(Filter(init, IsActive), o);
      SumAppendOne(Filter(init, IsReady), o);
      SumAppendOne(Filter(init, IsCancelled), o);
      SumAppendOne(Filter(init, IsReturned), o);
    }
  }

  lemma SumAppendOne(s: seq<Order>, o: Order)
    ensures Sum(s + [o], Amount) == Sum(s, Amount) + o.totalAmount
  {
    assert (s + [o])[..|s|] == s;
  }

  /** `serviceRev`: revenue of the orders each service test accepts. */
  datatype ServiceRevenue = ServiceRevenue(embroidery: real, sublimation: real, sewing: real, general: real)

  function ServiceRevenueOf(ds: seq<Order>): (r: ServiceRevenue)
    ensures (forall k :: 0 <= k < |ds| ==> ds[k].totalAmount >= 0.0) ==>
      r.embroidery + r.sublimation + r.sewing + r.general >= Sum(ds, Amount)
  {
    var r := ServiceRevenue(
      Sum(Filter(ds, o => CheckCategory(o, Bordado)), Amount),
      Sum(Filter(ds, o => CheckCategory(o, Sublimacion)), Amount),
      Sum(Filter(ds, o => CheckCategory(o, Costura)), Amount),
      Sum(Filter(ds, o => CheckCategory(o, Confeccion)), Amount));
    ServicesCoverRevenue(ds);
    r
  }

  /** Each order is in at least one service, so with non-negative amounts the four
      service revenues together cover (and, where services overlap, exceed) the total. */
  lemma {:induction false} ServicesCoverRevenue(ds: seq<Order>)
    ensures (forall k :: 0 <= k < |ds| ==> ds[k].totalAmount >= 0.0) ==>
      Sum(Filter(ds, o => CheckCategory(o, Bordado)), Amount)
      + Sum(Filter(ds, o => CheckCategory(o, Sublimacion)), Amount)
      + Sum(Filter(ds, o => CheckCategory(o, Costura)), Amount)
      + Sum(Filter(ds, o => CheckCategory(o, Confeccion)), Amount) >= Sum(ds, Amount)
    decreases |ds|
  {
    if ds != [] && forall k :: 0 <= k < |ds| ==> ds[k].totalAmount >= 0.0 {
      var init, o := ds[..|ds| - 1], ds[|ds| - 1];
      assert forall k :: 0 <= k < |init| ==> init[k].totalAmount >= 0.0 by {
        forall k | 0 <= k < |init| ensures init[k].totalAmount >= 0.0 { assert init[k] == ds[k]; }
      }
      ServicesCoverRevenue(init);
      SomeServiceHolds(o);
      SumAppendOne(Filter(init, o => CheckCategory(o, Bordado)), o);
      SumAppendOne(Filter(init, o => CheckCategory(o, Sublimacion)), o);
      SumAppendOne(Filter(init, o => CheckCategory(o, Costura)), o);
      SumAppendOne(Filter(init, o => CheckCategory(o, Confeccion)), o);
    }
  }

  /** `serviceDistribution`: the four service revenues as named slices, empty ones dropped. */
  function ServiceDistribution(r: ServiceRevenue): (slices: seq<Ranking.Entry>)
    ensures |slices| <= 4
    ensures forall k :: 0 <= k < |slices| ==> slices[k].value > 0.0
    ensures Ranking.Entry("Bordado", r.embroidery) in slices <==> r.embroidery > 0.0
    ensures Ranking.Entry("Sublimaci\U{00F3}n", r.sublimation) in slices <==> r.sublimation > 0.0
    ensures Ranking.Entry("Costura", r.sewing) in slices <==> r.sewing > 0.0
    ensures Ranking.Entry("Confecci\U{00F3}n", r.general) in slices <==> r.general > 0.0
  {
    var s := [Ranking.Entry("Bordado", r.embroidery),
              Ranking.Entry("Sublimaci\U{00F3}n", r.sublimation),
              Ranking.Entry("Costura", r.sewing),
              Ranking.Entry("Confecci\U{00F3}n", r.general)];
    Ranking.ChartMembership(s, s[0]);
    Ranking.ChartMembership(s, s[1]);
    Ranking.ChartMembership(s, s[2]);
    Ranking.ChartMembership(s, s[3]);
    Ranking.Chart(s)
  }

  /**
   * The slices come in the order Bordado, Sublimación, Costura, Confección, each
   * present only when positive; with no negative revenue they add up to the
   * revenue of the four services.
   */
  lemma ServiceDistributionSlices(r: ServiceRevenue)
    ensures ServiceDistribution(r) ==
      Ranking.Slice(Ranking.Entry("Bordado", r.embroidery)) +
      Ranking.Slice(Ranking.Entry("Sublimaci\U{00F3}n", r.sublimation)) +
      Ranking.Slice(Ranking.Entry("Costura", r.sewing)) +
      Ranking.Slice(Ranking.Entry("Confecci\U{00F3}n", r.general))
    ensures r.embroidery >= 0.0 && r.sublimation >= 0.0 && r.sewing >= 0.0 && r.general >= 0.0 ==>
      Ranking.Total(ServiceDistribution(r)) == r.embroidery + r.sublimation + r.sewing + r.general
  {
    var a, b, c, d := Ranking.Entry("Bordado", r.embroidery), Ranking.Entry("Sublimaci\U{00F3}n", r.sublimation),
                      Ranking.Entry("Costura", r.sewing), Ranking.Entry("Confecci\U{00F3}n", r.general);
    Ranking.ChartOfFour(a, b, c, d);
    Ranking.TotalOfFour(a, b, c, d);
    if r.embroidery >= 0.0 && r.sublimation >= 0.0 && r.sewing >= 0.0 && r.general >= 0.0 {
      Ranking.ChartTotal([a, b, c, d]);
    }
  }

  /** `new Set(dataset.map(o => o.clientId)).size` */
  function UniqueClients(ds: seq<Order>): (n: nat)
    ensures n <= |ds|
    ensures n == 0 <==> ds == []
  {
    ClientIdsBound(ds);
    |ClientIds(ds)|
  }

  function ClientIds(ds: seq<Order>): set<string> {
    set k | 0 <= k < |ds| :: ds[k].clientId
  }

  lemma {:induction false} ClientIdsBound(ds: seq<Order>)
    ensures |ClientIds(ds)| <= |ds|
    ensures ds != [] ==> ds[0].clientId in ClientIds(ds)
    decreases |ds|
  {
    if ds != [] {
      var init := ds[..|ds| - 1];
      ClientIdsBound(init);
      assert ClientIds(ds) == ClientIds(init) + {ds[|ds| - 1].clientId} by {
        forall id | id in ClientIds(ds) ensures id in ClientIds(init) + {ds[|ds| - 1].clientId} {
          var k :| 0 <= k < |ds| && ds[k].clientId == id;
          if k < |ds| - 1 { assert init[k] == ds[k]; }
        }
        forall id | id in ClientIds(init) ensures id in ClientIds(ds) {
          var k :| 0 <= k < |init| && init[k].clientId == id;
          assert ds[k] == init[k];
        }
      }
    }
  }

  /** "Tasa Completado": delivered and ready orders as a rounded share of the set. */
  function CompletionRate(m: Metrics): (rate: int)
    requires m.deliveredCount + m.readyCount <= m.totalCount
    ensures 0 <= rate <= 100
    ensures m.totalCount == 0 ==> rate == 0
  {
    if m.totalCount > 0 then
      RoundedPercentBounds(m.deliveredCount + m.readyCount, m.totalCount);
      Round((m.deliveredCount + m.readyCount) as real / m.totalCount as real * 100.0)
    else 0
  }

  /** The completion rate of any set is a percentage. */
  lemma CompletionRateOfSet(ds: seq<Order>)
    ensures CalculateMetrics(ds).deliveredCount + CalculateMetrics(ds).readyCount
            <= CalculateMetrics(ds).totalCount
    ensures 0 <= CompletionRate(CalculateMetrics(ds)) <= 100
  {
    MetricsReconcile(ds);
  }

  datatype TrendDirection = Up | Down | Flat

  /** The comparison badge of a metric card: `trendPerc` and `trendDir`. */
  datatype Trend = Trend(percent: real, direction: TrendDirection)

  /** `MetricCard`: with no comparison shown the trend is flat 0; otherwise the change
      relative to the comparison value, 100 when growing from 0. */
  function TrendOf(showComparison: bool, value: real, comparison: Wrappers.Option<real>): (t: Trend)
    ensures !showComparison || comparison.None? ==> t == Trend(0.0, Flat)
    ensures t.direction == Up <==> t.percent > 0.0
    ensures t.direction == Down <==> t.percent < 0.0
    ensures showComparison && comparison.Some? && comparison.value != 0.0 ==>
      t.percent * comparison.value == (value - comparison.value) * 100.0
    ensures showComparison && comparison.Some? && comparison.value == 0.0 ==>
      t.percent == (if value > 0.0 then 100.0 else 0.0)
  {
    var p :=
      if !showComparison || comparison.None? then 0.0
      else if comparison.value != 0.0 then (value - comparison.value) / comparison.value * 100.0
      else if value > 0.0 then 100.0
      else 0.0;
    Trend(p, if p > 0.0 then Up else if p < 0.0 then Down else Flat)
  }

  /** Against a positive comparison value the badge points up exactly when the value grew. */
  lemma TrendFollowsGrowth(value: real, comparison: real)
    requires comparison > 0.0
    ensures TrendOf(true, value, Wrappers.Some(comparison)).direction == Up <==> value > comparison
    ensures TrendOf(true, value, Wrappers.Some(comparison)).direction == Down <==> value < comparison
  {
    var t := TrendOf(true, value, Wrappers.Some(comparison));
    assert t.percent * comparison == (value - comparison) * 100.0;
    if value > comparison {
      assert t.percent > 0.0;
    } else if value < comparison {
      assert t.percent < 0.0;
    } else {
      assert t.percent == 0.0;
    }
  }
}
