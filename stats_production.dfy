/**
 * The production panel of the statistics view (`calcProductionDeepDive` and the
 * garment-gender counts): the stage funnel, the material estimates, the lead
 * time of delivered orders, overdue work and the quality rate.
 */
module StatsProduction {
  import opened Wrappers
  import opened Text
  import opened Folds
  import opened Calendar
  import opened Types
  import opened StatsCategory
  import Annotation
  import StatsMetrics

  // ---------------------------------------------------------------------------
  // Funnel
  // ---------------------------------------------------------------------------

  predicate AtReception(o: Order) { o.status == Received }
  predicate InPrep(o: Order) { o.status in {PendingCut, PendingSew} }
  predicate InWork(o: Order) { o.status in {Cutting, CutReady, Sewing, Sewn} }
  predicate InFinishing(o: Order) { o.status in {Finishing, QualityControl} }
  predicate IsCompleted(o: Order) { o.status in {Ready, Delivered} }
  /** Paused, returned, cancelled and binned orders are in no stage. */
  predicate OffFunnel(o: Order) { o.status in {Paused, Cancelled, Returned, Trash} }

  datatype Funnel = Funnel(reception: nat, prep: nat, active: nat, finishing: nat, completed: nat) {
    function Staged(): nat { reception + prep + active + finishing + completed }
  }

  function FunnelOf(ds: seq<Order>): (f: Funnel)
    ensures f.Staged() <= |ds|
  {
    FunnelPartition(ds);
    Funnel(Count(ds, AtReception), Count(ds, InPrep), Count(ds, InWork),
           Count(ds, InFinishing), Count(ds, IsCompleted))
  }

  /** The stages are disjoint and, with the orders off the funnel, cover the set. */
  lemma {:induction false} FunnelPartition(ds: seq<Order>)
    ensures Count(ds, AtReception) + Count(ds, InPrep) + Count(ds, InWork)
          + Count(ds, InFinishing) + Count(ds, IsCompleted) + Count(ds, OffFunnel) == |ds|
    decreases |ds|
  {
    if ds != [] {
      FunnelPartition(ds[..|ds| - 1]);
    }
  }

  // ---------------------------------------------------------------------------
  // Material estimates
  // ---------------------------------------------------------------------------

  /** `parseFloat(match[1]) || 0` for the first consumption note with a non-empty
      amount; 0 without one. */
  function NotedMetersValue(description: string): (m: real)
    ensures Annotation.NotedMeters(description).None? ==> m == 0.0
    ensures (Annotation.NotedMeters(description).Some? &&
             ParseFloat(Annotation.NotedMeters(description).value).None?) ==> m == 0.0
  {
    match Annotation.NotedMeters(description)
    case None => 0.0
    case Some(g) => ParseFloat(g).GetOr(0.0)
  }

  /** Cloth for one item: only confección orders use the fabric coefficient. */
  function ItemFabric(o: Order, i: OrderItem): real {
    if CheckCategory(o, Confeccion) then EstimateFabric(i.itemType) * i.quantity as real else 0.0
  }

  /** Keywords of sublimated products, looked for in the item type, or in the model
      when the item has no type. */
  function SublimationKeywords(): seq<string> { ["sublima", "taza", "termo", "chapa"] }

  predicate IsSubJob(o: Order, i: OrderItem) {
    MentionsAny(OrElse(i.itemType, o.garmentModel), SublimationKeywords())
  }

  function ItemsFabric(o: Order, items: seq<OrderItem>): real {
    if items == [] then 0.0 else ItemsFabric(o, items[..|items| - 1]) + ItemFabric(o, items[|items| - 1])
  }

  function ItemsThread(items: seq<OrderItem>): int {
    if items == [] then 0 else ItemsThread(items[..|items| - 1]) + EstimateThread(items[|items| - 1].quantity)
  }

  function ItemsSubJobs(o: Order, items: seq<OrderItem>): int {
    if items == [] then 0
    else
      var last := items[|items| - 1];
      ItemsSubJobs(o, items[..|items| - 1]) + (if IsSubJob(o, last) then last.quantity else 0)
  }

  function OrderFabric(o: Order): real { ItemsFabric(o, o.items) }
  function OrderThread(o: Order): int { ItemsThread(o.items) }
  function OrderSubJobs(o: Order): int { ItemsSubJobs(o, o.items) }
  function OrderNotedMeters(o: Order): real { NotedMetersValue(o.description) }

  datatype Materials = Materials(fabricMeters: real, subMeters: real, threadMeters: int, subJobs: int)

  /** The four accumulators of the estimate loop, as folds over the set. */
  function MaterialsOf(ds: seq<Order>): Materials {
    Materials(Sum(ds, OrderFabric), Sum(ds, OrderNotedMeters), SumInt(ds, OrderThread), SumInt(ds, OrderSubJobs))
  }

  /** The estimate loop: per order, the noted metres; per item, cloth, thread
      and sublimation jobs. */
  method EstimateMaterials(ds: seq<Order>) returns (est: Materials)
    ensures est == MaterialsOf(ds)
  {
    var fabricMeters, subMeters, threadMeters, subJobs := 0.0, 0.0, 0, 0;
    var i := 0;
    while i < |ds|
      invariant 0 <= i <= |ds|
      invariant fabricMeters == Sum(ds[..i], OrderFabric)
      invariant subMeters == Sum(ds[..i], OrderNotedMeters)
      invariant threadMeters == SumInt(ds[..i], OrderThread)
      invariant subJobs == SumInt(ds[..i], OrderSubJobs)
    {
      var o := ds[i];
      assert ds[..i + 1][..i] == ds[..i];
      subMeters := subMeters + NotedMetersValue(o.description);
      var orderFabric, orderThread, orderJobs := EstimateItems(o);
      fabricMeters := fabricMeters + orderFabric;
      threadMeters := threadMeters + orderThread;
      subJobs := subJobs + orderJobs;
      i := i + 1;
    }
    assert ds[..i] == ds;
    est := Materials(fabricMeters, subMeters, threadMeters, subJobs);
  }

  /** The inner loop over the items of one order. */
  method EstimateItems(o: Order) returns (fabric: real, thread: int, jobs: int)
    ensures fabric == OrderFabric(o) && thread == OrderThread(o) && jobs == OrderSubJobs(o)
  {
    fabric, thread, jobs := 0.0, 0, 0;
    var j := 0;
    while j < |o.items|
      invariant 0 <= j <= |o.items|
      invariant fabric == ItemsFabric(o, o.items[..j])
      invariant thread == ItemsThread(o.items[..j])
      invariant jobs == ItemsSubJobs(o, o.items[..j])
    {
      var item := o.items[j];
      var cloth, subJob := ItemFabric(o, item), IsSubJob(o, item);
      assert ItemsFabric(o, o.items[..j + 1]) == fabric + cloth
          && ItemsThread(o.items[..j + 1]) == thread + EstimateThread(item.quantity)
          && ItemsSubJobs(o, o.items[..j + 1]) == jobs + (if subJob then item.quantity else 0) by {
        ItemsStep(o, o.items, j);
      }
      fabric := fabric + cloth;
      thread := thread + EstimateThread(item.quantity);
      if subJob {
        jobs := jobs + item.quantity;
      }
      j := j + 1;
    }
    assert o.items[..j] == o.items;
  }

  /** One more item adds its cloth, thread and jobs to the three folds. */
  lemma ItemsStep(o: Order, items: seq<OrderItem>, j: nat)
    requires j < |items|
    ensures ItemsFabric(o, items[..j + 1]) == ItemsFabric(o, items[..j]) + ItemFabric(o, items[j])
    ensures ItemsThread(items[..j + 1]) == ItemsThread(items[..j]) + EstimateThread(items[j].quantity)
    ensures ItemsSubJobs(o, items[..j + 1]) == ItemsSubJobs(o, items[..j]) + (if IsSubJob(o, items[j]) then items[j].quantity else 0)
  {
    assert items[..j + 1][..j] == items[..j];
  }

  lemma {:induction false} ItemsThreadPerGarment(items: seq<OrderItem>)
    ensures ItemsThread(items) == 250 * TotalQuantity(items)
    decreases |items|
  {
    if items != [] {
      ItemsThreadPerGarment(items[..|items| - 1]);
    }
  }

  /** Thread is 250 m for every garment of the set. */
  lemma {:induction false} ThreadPerGarment(ds: seq<Order>)
    ensures MaterialsOf(ds).threadMeters == 250 * SumInt(ds, StatsMetrics.OrderItems)
    decreases |ds|
  {
    if ds != [] {
      ThreadPerGarment(ds[..|ds| - 1]);
      ItemsThreadPerGarment(ds[|ds| - 1].items);
    }
  }

  lemma {:induction false} ItemsFabricNone(o: Order, items: seq<OrderItem>)
    requires !CheckCategory(o, Confeccion)
    ensures ItemsFabric(o, items) == 0.0
    decreases |items|
  {
    if items != [] {
      ItemsFabricNone(o, items[..|items| - 1]);
    }
  }

  /** Only confección orders contribute cloth. */
  lemma {:induction false} FabricOnlyConfeccion(ds: seq<Order>)
    ensures MaterialsOf(ds).fabricMeters == MaterialsOf(Filter(ds, IsConfeccion)).fabricMeters
    decreases |ds|
  {
    if ds != [] {
      var init, o := ds[..|ds| - 1], ds[|ds| - 1];
      FabricOnlyConfeccion(init);
      if IsConfeccion(o) {
        SumAppend(Filter(init, IsConfeccion), [o], OrderFabric);
      } else {
        ItemsFabricNone(o, o.items);
      }
    }
  }

  predicate IsConfeccion(o: Order) { CheckCategory(o, Confeccion) }

  // ---------------------------------------------------------------------------
  // Lead time, overdue work, quality
  // ---------------------------------------------------------------------------

  /** `o.receptionDate || o.createdAt`: a zero reception date counts as missing. */
  function StartedAt(o: Order): int {
    if o.receptionDate != 0 then o.receptionDate else o.createdAt
  }

  /** Days from start to deadline. */
  function LeadDays(o: Order): real {
    (o.deadline - StartedAt(o)) as real / DayMs as real
  }

  /** The positive lead times of the given orders, in order. */
  function LeadTimes(ds: seq<Order>): (r: seq<real>)
    ensures |r| <= |ds|
    ensures forall k :: 0 <= k < |r| ==> r[k] > 0.0
  {
    if ds == [] then []
    else
      var init := LeadTimes(ds[..|ds| - 1]);
      var d := LeadDays(ds[|ds| - 1]);
      if d > 0.0 then init + [d] else init
  }

  function Days(d: real): real { d }

  /** `totalLeadTime / leadTimeCount`, 0 when no delivered order has a positive lead time. */
  function Average(ls: seq<real>): real {
    if |ls| > 0 then Sum(ls, Days) / |ls| as real else 0.0
  }

  /** One more order adds its lead time when it is positive. */
  lemma LeadTimesStep(s: seq<Order>, i: nat)
    requires i < |s|
    ensures var d := LeadDays(s[i]);
      LeadTimes(s[..i + 1]) == if d > 0.0 then LeadTimes(s[..i]) + [d] else LeadTimes(s[..i])
  {
    assert s[..i + 1][..i] == s[..i];
  }

  /** The lead-time loop over the delivered orders. */
  method AverageLeadTime(ds: seq<Order>) returns (avg: real)
    ensures avg == Average(LeadTimes(Filter(ds, StatsMetrics.IsDelivered)))
  {
    var delivered := Filter(ds, StatsMetrics.IsDelivered);
    var totalLeadTime, leadTimeCount := 0.0, 0;
    var i := 0;
    while i < |delivered|
      invariant 0 <= i <= |delivered|
      invariant totalLeadTime == Sum(LeadTimes(delivered[..i]), Days)
      invariant leadTimeCount == |LeadTimes(delivered[..i])|
    {
      var o := delivered[i];
      var duration := LeadDays(o);
      if duration > 0.0 {
        assert LeadTimes(delivered[..i + 1]) == LeadTimes(delivered[..i]) + [duration] by {
          LeadTimesStep(delivered, i);
        }
        assert Sum(LeadTimes(delivered[..i]) + [duration], Days) == totalLeadTime + duration by {
          SumAppend(LeadTimes(delivered[..i]), [duration], Days);
          assert Sum([duration], Days) == duration;
        }
        totalLeadTime := totalLeadTime + duration;
        leadTimeCount := leadTimeCount + 1;
      } else {
        assert LeadTimes(delivered[..i + 1]) == LeadTimes(delivered[..i]) by {
          LeadTimesStep(delivered, i);
        }
      }
      i := i + 1;
    }
    assert LeadTimes(delivered[..i]) == LeadTimes(delivered) by {
      assert delivered[..i] == delivered;
    }
    avg := if leadTimeCount > 0 then totalLeadTime / leadTimeCount as real else 0.0;
  }

  /** The average is of positive durations only: positive when there is one, 0 otherwise. */
  lemma AverageLeadTimeSign(ds: seq<Order>)
    ensures var ls := LeadTimes(ds);
      && (ls == [] ==> Average(ls) == 0.0)
      && (ls != [] ==> Average(ls) > 0.0)
  {
    var ls := LeadTimes(ds);
    if ls != [] {
      SumPositive(ls);
    }
  }

  lemma {:induction false} SumPositive(ls: seq<real>)
    requires ls != []
    requires forall k :: 0 <= k < |ls| ==> ls[k] > 0.0
    ensures Sum(ls, Days) > 0.0
    decreases |ls|
  {
    if |ls| > 1 {
      SumPositive(ls[..|ls| - 1]);
    }
  }

  /** Open work: not delivered, cancelled or binned. */
  predicate IsOpen(o: Order) { o.status !in {Delivered, Cancelled, Trash} }

  /** An order is overdue at `now` when it is still open and its deadline lies before `now`. */
  predicate Overdue(o: Order, now: int) { IsOpen(o) && o.deadline < now }

  function OverdueAt(now: int): Order -> bool {
    (o: Order) => Overdue(o, now)
  }

  function DeadlineBefore(now: int): Order -> bool {
    (o: Order) => o.deadline < now
  }

  /** `overdueCount`: open orders whose deadline has passed. */
  function OverdueCount(ds: seq<Order>, now: int): (n: nat)
    ensures n == Count(ds, OverdueAt(now))
    ensures n == |Filter(Filter(ds, IsOpen), DeadlineBefore(now))|
    ensures n <= Count(ds, IsOpen)
    ensures n == 0 <==> forall k :: 0 <= k < |ds| ==> !(IsOpen(ds[k]) && ds[k].deadline < now)
  {
    CountMono(ds, OverdueAt(now), IsOpen);
    CountZero(ds, OverdueAt(now));
    FilterFilter(ds, IsOpen, DeadlineBefore(now), OverdueAt(now));
    Count(ds, OverdueAt(now))
  }

  /** One more order adds exactly one when it is open and its deadline lies before `now`, and nothing otherwise. */
  lemma OverdueCountStep(ds: seq<Order>, o: Order, now: int)
    ensures OverdueCount(ds + [o], now) == OverdueCount(ds, now) + (if IsOpen(o) && o.deadline < now then 1 else 0)
  {
    assert (ds + [o])[..|ds|] == ds;
  }

  /** A later clock never makes fewer orders overdue. */
  lemma OverdueCountGrows(ds: seq<Order>, now: int, later: int)
    requires now <= later
    ensures OverdueCount(ds, now) <= OverdueCount(ds, later)
  {
    CountMono(ds, OverdueAt(now), OverdueAt(later));
  }

  /** `qualityRate`: the share of the set not returned for adjustments, in percent. */
  function QualityRate(ds: seq<Order>): (q: real)
    ensures |ds| == 0 ==> q == 100.0
    ensures 0.0 <= q <= 100.0
    ensures q == 100.0 <==> Count(ds, StatsMetrics.IsReturned) == 0
  {
    if |ds| > 0 then
      var share := Count(ds, StatsMetrics.IsReturned) as real / |ds| as real;
      ComplementPercent(Count(ds, StatsMetrics.IsReturned), |ds|);
      100.0 - share * 100.0
    else
      assert Filter(ds, StatsMetrics.IsReturned) == [];
      100.0
  }

  // ---------------------------------------------------------------------------
  // Garments by gender
  // ---------------------------------------------------------------------------

  function ItemsOfGender(items: seq<OrderItem>, gs: set<Gender>): int {
    if items == [] then 0
    else
      var last := items[|items| - 1];
      ItemsOfGender(items[..|items| - 1], gs) + (if last.gender in gs then last.quantity else 0)
  }

  /** The quantity of garments of the given genders over the confección orders. */
  function GenderQuantity(ds: seq<Order>, gs: set<Gender>): int {
    if ds == [] then 0
    else
      var last := ds[|ds| - 1];
      GenderQuantity(ds[..|ds| - 1], gs) + (if IsConfeccion(last) then ItemsOfGender(last.items, gs) else 0)
  }

  datatype GenderCounts = GenderCounts(male: int, female: int, kids: int)

  /** The gender loop over the items of confección orders. */
  method CountGenders(ds: seq<Order>) returns (g: GenderCounts)
    ensures g == GenderCounts(GenderQuantity(ds, {Caballero}), GenderQuantity(ds, {Dama}),
                              GenderQuantity(ds, {Nino, Nina}))
  {
    var male, female, kids := 0, 0, 0;
    var i := 0;
    while i < |ds|
      invariant 0 <= i <= |ds|
      invariant male == GenderQuantity(ds[..i], {Caballero})
      invariant female == GenderQuantity(ds[..i], {Dama})
      invariant kids == GenderQuantity(ds[..i], {Nino, Nina})
    {
      var o := ds[i];
      GenderStep(ds, i, {Caballero});
      GenderStep(ds, i, {Dama});
      GenderStep(ds, i, {Nino, Nina});
      if IsConfeccion(o) {
        var j := 0;
        var m0, f0, k0 := male, female, kids;
        while j < |o.items|
          invariant 0 <= j <= |o.items|
          invariant male == m0 + ItemsOfGender(o.items[..j], {Caballero})
          invariant female == f0 + ItemsOfGender(o.items[..j], {Dama})
          invariant kids == k0 + ItemsOfGender(o.items[..j], {Nino, Nina})
        {
          var item := o.items[j];
          ItemsGenderStep(o.items, j, {Caballero});
          ItemsGenderStep(o.items, j, {Dama});
          ItemsGenderStep(o.items, j, {Nino, Nina});
          if item.gender == Caballero { male := male + item.quantity; }
          if item.gender == Dama { female := female + item.quantity; }
          if item.gender == Nino || item.gender == Nina { kids := kids + item.quantity; }
          j := j + 1;
        }
        assert o.items[..j] == o.items;
      }
      i := i + 1;
    }
    assert ds[..i] == ds;
    g := GenderCounts(male, female, kids);
  }

  /** One more order adds its garments of the genders when it is confección. */
  lemma GenderStep(ds: seq<Order>, i: nat, gs: set<Gender>)
    requires i < |ds|
    ensures GenderQuantity(ds[..i + 1], gs) ==
      GenderQuantity(ds[..i], gs) + (if IsConfeccion(ds[i]) then ItemsOfGender(ds[i].items, gs) else 0)
  {
    assert ds[..i + 1][..i] == ds[..i];
  }

  /** One more item adds its quantity when its gender is one of them. */
  lemma ItemsGenderStep(items: seq<OrderItem>, j: nat, gs: set<Gender>)
    requires j < |items|
    ensures ItemsOfGender(items[..j + 1], gs) ==
      ItemsOfGender(items[..j], gs) + (if items[j].gender in gs then items[j].quantity else 0)
  {
    assert items[..j + 1][..j] == items[..j];
  }

  lemma {:induction false} ItemsOfAllGenders(items: seq<OrderItem>)
    ensures ItemsOfGender(items, {Caballero}) + ItemsOfGender(items, {Dama})
          + ItemsOfGender(items, {Nino, Nina}) == TotalQuantity(items)
    decreases |items|
  {
    if items != [] {
      var init, last := items[..|items| - 1], items[|items| - 1];
      ItemsOfAllGenders(init);
      assert TotalQuantity(items) == TotalQuantity(init) + last.quantity;
      assert ItemsOfGender(items, {Caballero}) == ItemsOfGender(init, {Caballero})
        + (if last.gender == Caballero then last.quantity else 0);
      assert ItemsOfGender(items, {Dama}) == ItemsOfGender(init, {Dama})
        + (if last.gender == Dama then last.quantity else 0);
      assert ItemsOfGender(items, {Nino, Nina}) == ItemsOfGender(init, {Nino, Nina})
        + (if last.gender == Nino || last.gender == Nina then last.quantity else 0);
    }
  }

  /** Every garment of a confección order is counted under exactly one gender. */
  lemma {:induction false} GendersCoverConfeccion(ds: seq<Order>)
    ensures GenderQuantity(ds, {Caballero}) + GenderQuantity(ds, {Dama})
          + GenderQuantity(ds, {Nino, Nina})
         == SumInt(Filter(ds, IsConfeccion), StatsMetrics.OrderItems)
    decreases |ds|
  {
    if ds != [] {
      var init, o := ds[..|ds| - 1], ds[|ds| - 1];
      GendersCoverConfeccion(init);
      ItemsOfAllGenders(o.items);
      if IsConfeccion(o) {
        SumIntAppend(Filter(init, IsConfeccion), [o], StatsMetrics.OrderItems);
      }
    }
  }
}
