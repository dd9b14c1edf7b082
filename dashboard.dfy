/**
 * The home dashboard (components/DashboardView.tsx): the operational panel of
 * open orders by deadline, the date range of the period filter, the clients
 * and orders created in it, and the key figures with the efficiency bar.
 */
module Dashboard {
  import opened Wrappers
  import opened Text
  import opened Folds
  import opened Calendar
  import opened Types

  // ---------------------------------------------------------------------------
  // The operational panel
  // ---------------------------------------------------------------------------

  /** Still to be handed over: not delivered, cancelled or returned. Orders in
      the bin stay. */
  predicate Open(o: Order) {
    o.status != Delivered && o.status != Cancelled && o.status != Returned
  }

  /** `priority.includes('Urgente')` */
  predicate Urgent(o: Order) {
    Contains(PriorityLabel(o.priority), "Urgente")
  }

  predicate Overdue(o: Order, startOfToday: int) { o.deadline < startOfToday }

  predicate DueToday(o: Order, startOfToday: int) {
    o.deadline >= startOfToday && o.deadline < startOfToday + DayMs
  }

  /** Due from the end of today up to two days after it, both ends included. */
  predicate Upcoming(o: Order, startOfToday: int) {
    o.deadline >= startOfToday + DayMs && o.deadline <= startOfToday + DayMs + DayMs * 2
  }

  datatype Operational = Operational(overdue: seq<Order>, dueToday: seq<Order>, upcoming: seq<Order>,
                                     activeCount: nat, urgentCount: nat)

  /** `operationalMetrics` */
  function OperationalMetrics(orders: seq<Order>, startOfToday: int): (r: Operational)
    ensures r.urgentCount <= r.activeCount <= |orders|
    ensures |r.overdue| + |r.dueToday| + |r.upcoming| <= r.activeCount
  {
    var active := Filter(orders, Open);
    var r := Operational(
      Filter(active, (o: Order) => Overdue(o, startOfToday)),
      Filter(active, (o: Order) => DueToday(o, startOfToday)),
      Filter(active, (o: Order) => Upcoming(o, startOfToday)),
      |active|,
      Count(active, Urgent));
    DeadlineBucketsFit(active, startOfToday);
    r
  }

  /** The three buckets of one list never hold more orders than the list. */
  lemma {:induction false} DeadlineBucketsFit(s: seq<Order>, startOfToday: int)
    ensures |Filter(s, (o: Order) => Overdue(o, startOfToday))| + |Filter(s, (o: Order) => DueToday(o, startOfToday))|
      + |Filter(s, (o: Order) => Upcoming(o, startOfToday))| <= |s|
    decreases |s|
  {
    if s != [] {
      DeadlineBucketsFit(s[..|s| - 1], startOfToday);
    }
  }

  /** Each bucket holds only open orders, and no order is in two buckets. */
  lemma DeadlineBucketsDisjoint(orders: seq<Order>, startOfToday: int, o: Order)
    ensures var m := OperationalMetrics(orders, startOfToday);
      (o in m.overdue ==> o in orders && Open(o) && o !in m.dueToday && o !in m.upcoming) &&
      (o in m.dueToday ==> o in orders && Open(o) && o !in m.upcoming) &&
      (o in m.upcoming ==> o in orders && Open(o))
  {
    var active := Filter(orders, Open);
    FilterMembership(orders, Open, o);
    FilterMembership(active, (o: Order) => Overdue(o, startOfToday), o);
    FilterMembership(active, (o: Order) => DueToday(o, startOfToday), o);
    FilterMembership(active, (o: Order) => Upcoming(o, startOfToday), o);
  }

  /** The urgent counter counts both "Urgente" and "Muy Urgente", that is every
      open order whose priority is not normal. */
  lemma UrgentCountsBothLevels(orders: seq<Order>, startOfToday: int)
    ensures OperationalMetrics(orders, startOfToday).urgentCount ==
      Count(Filter(orders, Open), (o: Order) => o.priority != Normal)
  {
    var active := Filter(orders, Open);
    forall o: Order ensures Urgent(o) == (o.priority != Normal) {
      UrgentIffNotNormal(o.priority);
    }
    CountMono(active, Urgent, (o: Order) => o.priority != Normal);
    CountMono(active, (o: Order) => o.priority != Normal, Urgent);
  }

  // ---------------------------------------------------------------------------
  // The period filter
  // ---------------------------------------------------------------------------

  datatype TimeFilter = Today | Week | Month | Year | AllTime | Custom

  /** 23:59:59 of today, a second before tomorrow. */
  function EndOfToday(c: Clock): int { c.startOfToday + DayMs - 1000 }

  /** `getDateRange(filter)`. The custom dates arrive as the instants the two date
      fields parse to, or None when a field does not parse (NaN); a NaN bound
      admits nothing, so the range is then None. */
  function DateRange(filter: TimeFilter, c: Clock, customStart: Option<int>, customEnd: Option<int>): (r: Option<Window>)
    requires 0 <= c.weekday < 7
    ensures filter != Custom ==> r.Some?
    ensures filter == Today ==> r == Some(Window(c.startOfToday, c.startOfToday + 86399000))
    ensures filter == AllTime ==> r == Some(Window(0, c.now))
    ensures filter == Custom && customStart.Some? && customEnd.Some? ==>
      r == Some(Window(customStart.value, customEnd.value + 86399999))
    ensures filter == Custom && (customStart.None? || customEnd.None?) ==> r.None?
    ensures filter in {Week, Month, Year} ==> r.value.end == c.now
  {
    match filter
    case Today => Some(Window(c.startOfToday, EndOfToday(c)))
    case Week => Some(Window(StartOfWeek(c), c.now))
    case Month => Some(Window(c.startOfMonth, c.now))
    case Year => Some(Window(c.startOfYear, c.now))
    case AllTime => Some(Window(0, c.now))
    case Custom =>
      if customStart.Some? && customEnd.Some? then Some(Window(customStart.value, customEnd.value + 86399999))
      else None
  }

  /** A custom range of one day admits the whole of that day and nothing of the next. */
  lemma CustomDayIsWholeDay(c: Clock, day: int, t: int)
    requires 0 <= c.weekday < 7
    ensures var w := DateRange(Custom, c, Some(day), Some(day)).value;
      InWindow(t, w) <==> day <= t < day + DayMs
  {
  }

  /** `createdAt >= start && createdAt <= end`, false for a NaN range. */
  predicate CreatedIn(createdAt: int, range: Option<Window>) {
    range.Some? && InWindow(createdAt, range.value)
  }

  function FilteredClients(clients: seq<Client>, range: Option<Window>): seq<Client> {
    Filter(clients, (c: Client) => CreatedIn(c.createdAt, range))
  }

  function FilteredOrders(orders: seq<Order>, range: Option<Window>): seq<Order> {
    Filter(orders, (o: Order) => CreatedIn(o.createdAt, range))
  }

  /** A custom date that does not parse empties both lists. */
  lemma NaNRangeAdmitsNothing(clients: seq<Client>, orders: seq<Order>)
    ensures FilteredClients(clients, None) == [] && FilteredOrders(orders, None) == []
  {
    NothingPasses(clients, (c: Client) => CreatedIn(c.createdAt, None));
    NothingPasses(orders, (o: Order) => CreatedIn(o.createdAt, None));
  }

  lemma {:induction false} NothingPasses<T>(s: seq<T>, p: T -> bool)
    requires forall x :: !p(x)
    ensures Filter(s, p) == []
    decreases |s|
  {
    if s != [] { NothingPasses(s[..|s| - 1], p); }
  }

  /** Both bounds are inclusive: the lists hold exactly what was created from
      the start to the end of the range. */
  lemma FilteredMembers(clients: seq<Client>, orders: seq<Order>, w: Window, c: Client, o: Order)
    ensures c in FilteredClients(clients, Some(w)) <==> c in clients && w.start <= c.createdAt <= w.end
    ensures o in FilteredOrders(orders, Some(w)) <==> o in orders && w.start <= o.createdAt <= w.end
  {
    FilterMembership(clients, (c: Client) => CreatedIn(c.createdAt, Some(w)), c);
    FilterMembership(orders, (o: Order) => CreatedIn(o.createdAt, Some(w)), o);
  }

  // ---------------------------------------------------------------------------
  // Key figures
  // ---------------------------------------------------------------------------

  /** Not delivered and not cancelled. */
  predicate Pending(o: Order) { o.status != Delivered && o.status != Cancelled }

  /** Ready or delivered. */
  predicate Completed(o: Order) { o.status == Ready || o.status == Delivered }

  datatype Metrics = Metrics(totalClients: nat, totalOrders: nat, pendingCount: nat, pendingValue: real, completedCount: nat)

  /** `metrics` over the filtered lists. */
  function MetricsOf(filteredClients: seq<Client>, filteredOrders: seq<Order>): (m: Metrics)
    ensures m.totalClients == |filteredClients| && m.totalOrders == |filteredOrders|
    ensures m.pendingCount <= m.totalOrders && m.completedCount <= m.totalOrders
  {
    var pending := Filter(filteredOrders, Pending);
    Metrics(|filteredClients|, |filteredOrders|, |pending|, Sum(pending, Amount), Count(filteredOrders, Completed))
  }

  /** A ready order counts as pending and as completed at once; so pending and
      completed overlap by exactly the ready orders and together cover every
      order that is not cancelled. */
  lemma ReadyCountsTwice(filteredClients: seq<Client>, filteredOrders: seq<Order>)
    ensures var m := MetricsOf(filteredClients, filteredOrders);
      m.pendingCount + m.completedCount ==
        Count(filteredOrders, (o: Order) => o.status != Cancelled) + Count(filteredOrders, (o: Order) => o.status == Ready)
  {
    PendingCompletedSplit(filteredOrders);
  }

  lemma {:induction false} PendingCompletedSplit(s: seq<Order>)
    ensures Count(s, Pending) + Count(s, Completed) ==
      Count(s, (o: Order) => o.status != Cancelled) + Count(s, (o: Order) => o.status == Ready)
    decreases |s|
  {
    if s != [] { PendingCompletedSplit(s[..|s| - 1]); }
  }

  /** The "Eficacia" figure: the rounded share of completed orders, 0 without orders. */
  function Efficiency(m: Metrics): (e: int)
    ensures m.totalOrders == 0 ==> e == 0
  {
    if m.totalOrders > 0 then Round(m.completedCount as real / m.totalOrders as real * 100.0) else 0
  }

  /** On the dashboard's own figures the efficiency is a percentage. */
  lemma EfficiencyIsPercentage(filteredClients: seq<Client>, filteredOrders: seq<Order>)
    ensures 0 <= Efficiency(MetricsOf(filteredClients, filteredOrders)) <= 100
    ensures Count(filteredOrders, Completed) == |filteredOrders| > 0 ==> Efficiency(MetricsOf(filteredClients, filteredOrders)) == 100
  {
    var m := MetricsOf(filteredClients, filteredOrders);
    if m.totalOrders > 0 {
      RoundedPercentBounds(m.completedCount, m.totalOrders);
      if m.completedCount == m.totalOrders {
        RoundedWholePercent(m.totalOrders);
      }
    }
  }
}
