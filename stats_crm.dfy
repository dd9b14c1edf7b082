/**
 * The client analytics of the statistics view: per client, the spend, the
 * number of orders and the days since the last one (cancelled orders ignored),
 * a segment derived from them, the segment counts, the clients with orders,
 * the five biggest spenders, the retention rate and the new clients of the
 * last six months by month.
 */
module StatsCrm {
  import opened Wrappers
  import opened Folds
  import opened Calendar
  import opened Types
  import opened Ranking

  /** The orders `getClientStats` looks at: the client's, not cancelled. */
  function ClientOrders(orders: seq<Order>, clientId: string): (r: seq<Order>)
    ensures forall k :: 0 <= k < |r| ==> r[k].clientId == clientId && r[k].status != Cancelled
  {
    Filter(orders, (o: Order) => o.clientId == clientId && o.status != Cancelled)
  }

  function CreatedAt(o: Order): int { o.createdAt }

  /** `Math.max(...orders.map(o => o.createdAt))`, absent for no orders. */
  function LastOrderDate(os: seq<Order>): (r: Option<int>)
    ensures r.None? <==> os == []
  {
    if os == [] then None
    else
      var prev := LastOrderDate(os[..|os| - 1]);
      var t := os[|os| - 1].createdAt;
      if prev.Some? && prev.value >= t then prev else Some(t)
  }

  /** The last order date is the latest creation time among the orders. */
  lemma {:induction false} LastOrderDateIsMax(os: seq<Order>)
    requires os != []
    ensures forall k :: 0 <= k < |os| ==> os[k].createdAt <= LastOrderDate(os).value
    ensures exists k :: 0 <= k < |os| && os[k].createdAt == LastOrderDate(os).value
    decreases |os|
  {
    var init := os[..|os| - 1];
    if init != [] {
      LastOrderDateIsMax(init);
      var k :| 0 <= k < |init| && init[k].createdAt == LastOrderDate(init).value;
      assert os[k] == init[k];
      forall j | 0 <= j < |os| ensures os[j].createdAt <= LastOrderDate(os).value {
        if j < |init| { assert os[j] == init[j]; }
      }
    }
  }

  datatype ClientStats = ClientStats(totalSpent: real, orderCount: nat, lastOrderDate: Option<int>, daysSinceLastOrder: real)

  /** `daysSinceLastOrder`: fractional days since the last order, 999 when there
      is none or it is the (falsy) instant 0. */
  function DaysSince(last: Option<int>, now: int): real {
    if last.Some? && last.value != 0 then (now - last.value) as real / DayMs as real else 999.0
  }

  function GetClientStats(orders: seq<Order>, clientId: string, now: int): (s: ClientStats)
    ensures s.orderCount == 0 ==> s.totalSpent == 0.0 && s.daysSinceLastOrder == 999.0
  {
    var os := ClientOrders(orders, clientId);
    var last := LastOrderDate(os);
    ClientStats(Sum(os, Amount), |os|, last, DaysSince(last, now))
  }

  datatype Segment = Champion | Leal | Prometedor | EnRiesgo | Inactivo

  /** The segment rules, applied in order. The "more than 90 days" test comes
      before the "more than 180 days" one and catches every client the latter
      would, so `Inactivo` is never assigned. */
  function SegmentOf(s: ClientStats): (seg: Segment)
    ensures seg == Champion <==> s.totalSpent > 1000.0 || s.orderCount >= 10
    ensures seg == Leal <==> seg != Champion && s.orderCount >= 3 && s.daysSinceLastOrder < 90.0
    ensures seg == EnRiesgo <==> (seg != Champion && seg != Leal && s.daysSinceLastOrder > 90.0 && s.orderCount > 0)
  {
    if s.totalSpent > 1000.0 || s.orderCount >= 10 then Champion
    else if s.orderCount >= 3 && s.daysSinceLastOrder < 90.0 then Leal
    else if s.daysSinceLastOrder > 90.0 && s.orderCount > 0 then EnRiesgo
    else if s.daysSinceLastOrder > 180.0 && s.orderCount > 0 then Inactivo
    else Prometedor
  }

  /** No client is ever inactive: a client whose last order is 200 days old is "at risk". */
  lemma InactivoUnreachable(s: ClientStats)
    ensures SegmentOf(s) != Inactivo
    ensures s.totalSpent <= 1000.0 && 0 < s.orderCount < 3 && s.daysSinceLastOrder > 180.0 ==> SegmentOf(s) == EnRiesgo
  {
  }

  /** A client without orders is always a lead. */
  lemma NoOrdersIsLead(orders: seq<Order>, clientId: string, now: int)
    requires ClientOrders(orders, clientId) == []
    ensures SegmentOf(GetClientStats(orders, clientId, now)) == Prometedor
  {
  }

  datatype Segments = Segments(champion: nat, leal: nat, prometedor: nat, enRiesgo: nat, inactivo: nat)

  function AddSegment(g: Segments, seg: Segment): Segments {
    match seg
    case Champion => g.(champion := g.champion + 1)
    case Leal => g.(leal := g.leal + 1)
    case Prometedor => g.(prometedor := g.prometedor + 1)
    case EnRiesgo => g.(enRiesgo := g.enRiesgo + 1)
    case Inactivo => g.(inactivo := g.inactivo + 1)
  }

  /** `scatterData`: a point per client with orders. */
  datatype Point = Point(name: string, x: nat, y: real, segment: Segment)

  /** `topSpenders`: a row per client with a positive spend. */
  datatype Spender = Spender(id: string, name: string, spent: real, orders: nat)

  function Spent(s: Spender): real { s.spent }

  /** `Math.ceil(x)` */
  function Ceil(x: real): (n: int)
    ensures x <= n as real < x + 1.0
  {
    -((-x).Floor)
  }

  function Abs(x: int): nat { if x < 0 then -x else x }

  /** The client was created at most 180 days (rounded up) before or after now. */
  predicate RecentlyCreated(c: Client, now: int) {
    Ceil(Abs(now - c.createdAt) as real / DayMs as real) <= 180
  }

  /** What the loop over the clients gathers. */
  datatype Gathered = Gathered(segments: Segments, scatter: seq<Point>, spenders: seq<Spender>, months: seq<Entry>)

  /** The loop body for one client. `monthKey` is the short month name of an instant. */
  function Visit(g: Gathered, c: Client, orders: seq<Order>, now: int, monthKey: int -> string): (r: Gathered)
    requires UniqueNames(g.months)
    ensures UniqueNames(r.months)
  {
    var s := GetClientStats(orders, c.id, now);
    var seg := SegmentOf(s);
    var name := DisplayName(c);
    var key := monthKey(c.createdAt);
    Gathered(
      AddSegment(g.segments, seg),
      if s.orderCount > 0 then g.scatter + [Point(name, s.orderCount, s.totalSpent, seg)] else g.scatter,
      if s.totalSpent > 0.0 then g.spenders + [Spender(c.id, name, s.totalSpent, s.orderCount)] else g.spenders,
      if RecentlyCreated(c, now) && HasName(g.months, key) then Bump(g.months, key, 1.0) else g.months)
  }

  /** The six month slots start at 0, under distinct keys. */
  predicate MonthSlots(months: seq<Entry>) {
    UniqueNames(months)
  }

  function Gather(clients: seq<Client>, orders: seq<Order>, now: int, months: seq<Entry>, monthKey: int -> string): (g: Gathered)
    requires MonthSlots(months)
    ensures MonthSlots(g.months)
  {
    if |clients| == 0 then Gathered(Segments(0, 0, 0, 0, 0), [], [], months)
    else Visit(Gather(clients[..|clients| - 1], orders, now, months, monthKey), clients[|clients| - 1], orders, now, monthKey)
  }

  /** Clients with more than `n` billable orders. */
  function ClientsWithMore(clients: seq<Client>, orders: seq<Order>, n: nat): nat {
    Count(clients, (c: Client) => |ClientOrders(orders, c.id)| > n)
  }

  /** `retentionRate`: the share of clients with orders who came back, in percent. */
  function RetentionRate(withOrders: nat, returning: nat): real {
    if withOrders > 0 then (returning as real / withOrders as real) * 100.0 else 0.0
  }

  /** The retention rate is a percentage, 0 when no client has orders. */
  lemma RetentionBounds(clients: seq<Client>, orders: seq<Order>)
    ensures var r := RetentionRate(ClientsWithMore(clients, orders, 0), ClientsWithMore(clients, orders, 1));
      && 0.0 <= r <= 100.0
      && (ClientsWithMore(clients, orders, 0) == 0 ==> r == 0.0)
  {
    CountMono(clients, (c: Client) => |ClientOrders(orders, c.id)| > 1, (c: Client) => |ClientOrders(orders, c.id)| > 0);
    var w, t := ClientsWithMore(clients, orders, 0), ClientsWithMore(clients, orders, 1);
    if w > 0 {
      assert t as real / w as real <= 1.0;
    }
  }

  datatype Crm = Crm(
    segmentationChart: seq<Entry>,
    acquisitionChart: seq<Entry>,
    scatterData: seq<Point>,
    topSpenders: seq<Spender>,
    retentionRate: real,
    totalClients: nat,
    activeClients: nat)

  /** `segmentationChart`: the five counts as named slices, empty ones dropped. */
  function SegmentationChart(g: Segments): (r: seq<Entry>)
    ensures |r| <= 5
    ensures forall k :: 0 <= k < |r| ==> r[k].value > 0.0
    ensures Entry("Champions", g.champion as real) in r <==> g.champion > 0
    ensures Entry("Leales", g.leal as real) in r <==> g.leal > 0
    ensures Entry("Nuevos/Leads", g.prometedor as real) in r <==> g.prometedor > 0
    ensures Entry("En Riesgo", g.enRiesgo as real) in r <==> g.enRiesgo > 0
    ensures Entry("Inactivos", g.inactivo as real) in r <==> g.inactivo > 0
  {
    var s := [Entry("Champions", g.champion as real), Entry("Leales", g.leal as real),
              Entry("Nuevos/Leads", g.prometedor as real), Entry("En Riesgo", g.enRiesgo as real),
              Entry("Inactivos", g.inactivo as real)];
    ChartMembership(s, s[0]);
    ChartMembership(s, s[1]);
    ChartMembership(s, s[2]);
    ChartMembership(s, s[3]);
    ChartMembership(s, s[4]);
    Chart(s)
  }

  /**
   * The segments come in the order Champions, Leales, Nuevos/Leads, En Riesgo,
   * Inactivos, each present only when some client is in it, and the slices add
   * up to the number of classified clients.
   */
  lemma SegmentationSlices(g: Segments)
    ensures SegmentationChart(g) ==
      Slice(Entry("Champions", g.champion as real)) + Slice(Entry("Leales", g.leal as real)) +
      Slice(Entry("Nuevos/Leads", g.prometedor as real)) + Slice(Entry("En Riesgo", g.enRiesgo as real)) +
      Slice(Entry("Inactivos", g.inactivo as real))
    ensures Total(SegmentationChart(g)) == SegmentsTotal(g) as real
  {
    var a, b, c := Entry("Champions", g.champion as real), Entry("Leales", g.leal as real), Entry("Nuevos/Leads", g.prometedor as real);
    var d, e := Entry("En Riesgo", g.enRiesgo as real), Entry("Inactivos", g.inactivo as real);
    ChartOfFive(a, b, c, d, e);
    TotalOfFive(a, b, c, d, e);
    ChartTotal([a, b, c, d, e]);
  }

  /** The segmentation chart accounts for every client exactly once. */
  lemma SegmentationCoversClients(clients: seq<Client>, orders: seq<Order>, now: int, months: seq<Entry>, monthKey: int -> string)
    requires MonthSlots(months)
    ensures Total(SegmentationChart(Gather(clients, orders, now, months, monthKey).segments)) == |clients| as real
  {
    GatherSegments(clients, orders, now, months, monthKey);
    SegmentationSlices(Gather(clients, orders, now, months, monthKey).segments);
  }

  /** The whole analysis: `months` holds the six month keys with count 0. */
  method CrmAnalytics(clients: seq<Client>, orders: seq<Order>, now: int, months: seq<Entry>, monthKey: int -> string)
    returns (crm: Crm)
    requires MonthSlots(months)
    ensures var g := Gather(clients, orders, now, months, monthKey);
      && crm.segmentationChart == SegmentationChart(g.segments)
      && crm.acquisitionChart == g.months
      && crm.scatterData == g.scatter
      && crm.topSpenders == Take(SortDesc(g.spenders, Spent), 5)
      && crm.retentionRate == RetentionRate(ClientsWithMore(clients, orders, 0), ClientsWithMore(clients, orders, 1))
      && 0.0 <= crm.retentionRate <= 100.0
      && crm.totalClients == |clients|
      && crm.activeClients == g.segments.champion + g.segments.leal + g.segments.prometedor
    ensures SortedDesc(crm.topSpenders, Spent) && |crm.topSpenders| <= 5
  {
    var segments, scatterData, topSpenders, slots := GatherClients(clients, orders, now, months, monthKey);
    var withOrders := ClientsWithMore(clients, orders, 0);
    var returning := ClientsWithMore(clients, orders, 1);
    RetentionBounds(clients, orders);
    var sorted := new Spender[|topSpenders|](k requires 0 <= k < |topSpenders| => topSpenders[k]);
    assert sorted[..] == topSpenders;
    SortInPlace(sorted, Spent);
    SortDescSortedPermutation(topSpenders, Spent);
    TakeSorted(sorted[..], 5);
    crm := Crm(
      SegmentationChart(segments),
      slots,
      scatterData,
      Take(sorted[..], 5),
      RetentionRate(withOrders, returning),
      |clients|,
      segments.champion + segments.leal + segments.prometedor);
  }

  /** The loop over the clients: segments, scatter points, spenders and month
      counts, one client at a time. */
  method GatherClients(clients: seq<Client>, orders: seq<Order>, now: int, months: seq<Entry>, monthKey: int -> string)
    returns (segments: Segments, scatterData: seq<Point>, topSpenders: seq<Spender>, slots: seq<Entry>)
    requires MonthSlots(months)
    ensures Gathered(segments, scatterData, topSpenders, slots) == Gather(clients, orders, now, months, monthKey)
  {
    segments, scatterData, topSpenders, slots := Segments(0, 0, 0, 0, 0), [], [], months;
    var i := 0;
    while i < |clients|
      invariant 0 <= i <= |clients|
      invariant Gathered(segments, scatterData, topSpenders, slots) == Gather(clients[..i], orders, now, months, monthKey)
    {
      var client := clients[i];
      assert Gather(clients[..i + 1], orders, now, months, monthKey)
          == Visit(Gather(clients[..i], orders, now, months, monthKey), client, orders, now, monthKey) by {
        assert clients[..i + 1][..i] == clients[..i];
      }
      var stats := GetClientStats(orders, client.id, now);
      var segment := SegmentOf(stats);
      segments := AddSegment(segments, segment);
      if stats.orderCount > 0 {
        scatterData := scatterData + [Point(DisplayName(client), stats.orderCount, stats.totalSpent, segment)];
      }
      if stats.totalSpent > 0.0 {
        topSpenders := topSpenders + [Spender(client.id, DisplayName(client), stats.totalSpent, stats.orderCount)];
      }
      var key := monthKey(client.createdAt);
      if RecentlyCreated(client, now) && HasName(slots, key) {
        slots := Bump(slots, key, 1.0);
      }
      i := i + 1;
    }
    assert clients[..i] == clients;
  }

  lemma TakeSorted(s: seq<Spender>, n: nat)
    requires SortedDesc(s, Spent)
    ensures SortedDesc(Take(s, n), Spent)
  {
  }

  // ---------------------------------------------------------------------------
  // What the gathered figures add up to
  // ---------------------------------------------------------------------------

  function SegmentsTotal(g: Segments): nat {
    g.champion + g.leal + g.prometedor + g.enRiesgo + g.inactivo
  }

  lemma AddSegmentCounts(g: Segments, seg: Segment)
    ensures SegmentsTotal(AddSegment(g, seg)) == SegmentsTotal(g) + 1
  {
  }

  /** Every client is in exactly one segment. */
  lemma {:induction false} GatherSegments(clients: seq<Client>, orders: seq<Order>, now: int, months: seq<Entry>, monthKey: int -> string)
    requires MonthSlots(months)
    ensures SegmentsTotal(Gather(clients, orders, now, months, monthKey).segments) == |clients|
    decreases |clients|
  {
    if clients != [] {
      var init, c := clients[..|clients| - 1], clients[|clients| - 1];
      GatherSegments(init, orders, now, months, monthKey);
      var g := Gather(init, orders, now, months, monthKey);
      var seg := SegmentOf(GetClientStats(orders, c.id, now));
      assert Gather(clients, orders, now, months, monthKey).segments == AddSegment(g.segments, seg);
      AddSegmentCounts(g.segments, seg);
    }
  }

  /** The scatter has a point per client with orders. */
  lemma {:induction false} GatherScatter(clients: seq<Client>, orders: seq<Order>, now: int, months: seq<Entry>, monthKey: int -> string)
    requires MonthSlots(months)
    ensures |Gather(clients, orders, now, months, monthKey).scatter| == ClientsWithMore(clients, orders, 0)
    decreases |clients|
  {
    if clients != [] {
      GatherScatter(clients[..|clients| - 1], orders, now, months, monthKey);
    }
  }

  /** The month slots keep their keys and count each client at most once. */
  lemma {:induction false} GatherMonths(clients: seq<Client>, orders: seq<Order>, now: int, months: seq<Entry>, monthKey: int -> string)
    requires MonthSlots(months)
    ensures Names(Gather(clients, orders, now, months, monthKey).months) == Names(months)
    ensures Total(Gather(clients, orders, now, months, monthKey).months) <= Total(months) + |clients| as real
    decreases |clients|
  {
    if clients != [] {
      var init, c := clients[..|clients| - 1], clients[|clients| - 1];
      GatherMonths(init, orders, now, months, monthKey);
      var g := Gather(init, orders, now, months, monthKey);
      var key := monthKey(c.createdAt);
      if RecentlyCreated(c, now) && HasName(g.months, key) {
        BumpAdds(g.months, key, 1.0, "");
      }
    }
  }

  /** Every spender row has a positive spend that is the client's billable revenue. */
  lemma {:induction false} SpendersAreBillable(clients: seq<Client>, orders: seq<Order>, now: int, months: seq<Entry>, monthKey: int -> string)
    requires MonthSlots(months)
    ensures forall e :: e in Gather(clients, orders, now, months, monthKey).spenders ==>
      e.spent > 0.0 && e.spent == Sum(ClientOrders(orders, e.id), Amount)
    decreases |clients|
  {
    if clients != [] {
      var init, c := clients[..|clients| - 1], clients[|clients| - 1];
      SpendersAreBillable(init, orders, now, months, monthKey);
      var g := Gather(init, orders, now, months, monthKey);
      var st := GetClientStats(orders, c.id, now);
      var sp := Gather(clients, orders, now, months, monthKey).spenders;
      assert sp == if st.totalSpent > 0.0 then g.spenders + [Spender(c.id, DisplayName(c), st.totalSpent, st.orderCount)] else g.spenders;
      assert st.totalSpent == Sum(ClientOrders(orders, c.id), Amount);
    }
  }

  /** The active clients are those neither at risk nor inactive. */
  lemma ActiveClients(clients: seq<Client>, orders: seq<Order>, now: int, months: seq<Entry>, monthKey: int -> string)
    requires MonthSlots(months)
    ensures var g := Gather(clients, orders, now, months, monthKey).segments;
      g.champion + g.leal + g.prometedor == |clients| - g.enRiesgo - g.inactivo
  {
    GatherSegments(clients, orders, now, months, monthKey);
  }

  /** A client created within the last 180 days, counting any part of a day as a whole one. */
  lemma RecentlyCreatedWithin(c: Client, now: int)
    ensures RecentlyCreated(c, now) <==> Abs(now - c.createdAt) <= 180 * DayMs
  {
    var x := Abs(now - c.createdAt) as real / DayMs as real;
    if Abs(now - c.createdAt) <= 180 * DayMs {
      assert x <= 180.0;
    } else {
      assert x > 180.0;
    }
  }
}
