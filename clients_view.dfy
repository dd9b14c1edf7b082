/**
 * The client directory (components/ClientsView.tsx): each client's history
 * card with the VIP mark, the creation-date range of the time filter, the
 * searched and sorted client list, the avatar colour picked by a string hash,
 * and the "new this month" and VIP counters.
 */
module ClientsView {
  import opened Wrappers
  import opened Text
  import opened Folds
  import opened Calendar
  import opened Types
  import opened Ranking
  import StatsCrm

  // ---------------------------------------------------------------------------
  // The history card
  // ---------------------------------------------------------------------------

  datatype ClientSummary = ClientSummary(totalSpent: real, orderCount: nat, lastOrderDate: Option<int>, isVip: bool)

  /** `isVip`: more than 500 spent or at least five orders. */
  predicate Vip(totalSpent: real, orderCount: nat) {
    totalSpent > 500.0 || orderCount >= 5
  }

  /** `getClientStats(clientId)` over the client's orders that are not cancelled. */
  function GetClientStats(orders: seq<Order>, clientId: string): (r: ClientSummary)
    ensures r.isVip <==> r.totalSpent > 500.0 || r.orderCount >= 5
    ensures r.orderCount <= |orders|
    ensures r.lastOrderDate.None? <==> r.orderCount == 0
  {
    var mine := StatsCrm.ClientOrders(orders, clientId);
    var spent := Sum(mine, Amount);
    ClientSummary(spent, |mine|, StatsCrm.LastOrderDate(mine), Vip(spent, |mine|))
  }

  /** The card counts and sums exactly the client's orders that are not cancelled. */
  lemma ClientStatsCounts(orders: seq<Order>, clientId: string)
    ensures var mine := (o: Order) => o.clientId == clientId && o.status != Cancelled;
      GetClientStats(orders, clientId).orderCount == Count(orders, mine) &&
      GetClientStats(orders, clientId).totalSpent == Sum(Filter(orders, mine), Amount)
  {
  }

  /** The card's last date is the latest creation date of those orders. */
  lemma ClientStatsLastDate(orders: seq<Order>, clientId: string, o: Order)
    ensures o in orders && o.clientId == clientId && o.status != Cancelled ==>
      GetClientStats(orders, clientId).lastOrderDate.Some? &&
      o.createdAt <= GetClientStats(orders, clientId).lastOrderDate.value
    ensures GetClientStats(orders, clientId).lastOrderDate.Some? ==>
      exists p :: p in orders && p.clientId == clientId && p.status != Cancelled &&
        p.createdAt == GetClientStats(orders, clientId).lastOrderDate.value
  {
    var mine := StatsCrm.ClientOrders(orders, clientId);
    var keep := (o: Order) => o.clientId == clientId && o.status != Cancelled;
    forall x ensures x in mine <==> x in orders && keep(x) {
      FilterMembership(orders, keep, x);
    }
    if mine != [] {
      StatsCrm.LastOrderDateIsMax(mine);
      if o in orders && keep(o) {
        var k :| 0 <= k < |mine| && mine[k] == o;
      }
      var k :| 0 <= k < |mine| && mine[k].createdAt == StatsCrm.LastOrderDate(mine).value;
      assert mine[k] in mine;
    }
  }

  // ---------------------------------------------------------------------------
  // The time filter
  // ---------------------------------------------------------------------------

  datatype TimeFilter = AllTime | Today | ThisWeek | ThisMonth | ThisYear

  /** `getDateRange(filter)`: every range ends now; `all` starts at 0, the others
      at local midnight today, on Monday, on the first of the month and on the
      first of January. */
  function DateRange(filter: TimeFilter, c: Clock): (w: Window)
    requires 0 <= c.weekday < 7
    ensures w.end == c.now
    ensures filter == AllTime ==> w.start == 0
    ensures filter == Today ==> w.start == c.startOfToday
    ensures filter == ThisWeek ==> w.start == c.startOfToday - DaysSinceMonday(c.weekday) * DayMs
    ensures filter == ThisMonth ==> w.start == c.startOfMonth
    ensures filter == ThisYear ==> w.start == c.startOfYear
  {
    match filter
    case AllTime => Window(0, c.now)
    case Today => Window(c.startOfToday, c.now)
    case ThisWeek => Window(StartOfWeek(c), c.now)
    case ThisMonth => Window(c.startOfMonth, c.now)
    case ThisYear => Window(c.startOfYear, c.now)
  }

  /** On a real calendar each range but `all` is non-empty, today lies within
      this week and this month, and this month within this year. */
  lemma DateRangesNest(c: Clock)
    requires Valid(c)
    ensures forall f :: f != AllTime ==> DateRange(f, c).start <= DateRange(f, c).end
    ensures DateRange(ThisWeek, c).start <= DateRange(Today, c).start
    ensures DateRange(ThisYear, c).start <= DateRange(ThisMonth, c).start <= DateRange(Today, c).start
    ensures c.startOfPrevYear >= 0 ==> DateRange(AllTime, c).start <= DateRange(ThisYear, c).start
  {
  }

  // ---------------------------------------------------------------------------
  // The client list
  // ---------------------------------------------------------------------------

  /** Name, business name or e-mail contain the search text ignoring case, or
      the phone contains it as typed. */
  predicate MatchesSearch(c: Client, searchTerm: string) {
    var searchLower := Lower(searchTerm);
    || Mentions(c.name, searchLower)
    || (c.businessName.Some? && c.businessName.value != [] && Mentions(c.businessName.value, searchLower))
    || Contains(c.phone, searchTerm)
    || (c.email != [] && Mentions(c.email, searchLower))
  }

  predicate MatchesClient(c: Client, searchTerm: string, w: Window) {
    MatchesSearch(c, searchTerm) && InWindow(c.createdAt, w)
  }

  datatype SortOrder = Newest | Az | BySpent

  /** The key each ordering sorts by, largest first. Alphabetical order follows
      the locale's collation, given as `collation` (lower ranks first). */
  function SortKey(order: SortOrder, orders: seq<Order>, collation: string -> real): Client -> real {
    match order
    case Newest => (c: Client) => c.createdAt as real
    case Az => (c: Client) => -collation(DisplayName(c))
    case BySpent => (c: Client) => GetClientStats(orders, c.id).totalSpent
  }

  /** The clients that match, in the chosen order. */
  function ClientList(clients: seq<Client>, orders: seq<Order>, searchTerm: string, w: Window,
                      order: SortOrder, collation: string -> real): seq<Client>
  {
    SortDesc(Filter(clients, (c: Client) => MatchesClient(c, searchTerm, w)), SortKey(order, orders, collation))
  }

  /** `filteredClients`: the clients that match, sorted in place by the chosen order. */
  method FilteredClients(clients: seq<Client>, orders: seq<Order>, searchTerm: string, w: Window,
                         order: SortOrder, collation: string -> real)
    returns (result: seq<Client>)
    ensures result == ClientList(clients, orders, searchTerm, w, order, collation)
  {
    var matching := Filter(clients, (c: Client) => MatchesClient(c, searchTerm, w));
    var a := new Client[|matching|](k requires 0 <= k < |matching| => matching[k]);
    assert a[..] == matching;
    SortInPlace(a, SortKey(order, orders, collation));
    result := a[..];
  }

  /** The list holds exactly the clients that match the search and were created
      within the range, each as often as in the directory. */
  lemma ClientListMembers(clients: seq<Client>, orders: seq<Order>, searchTerm: string, w: Window,
                          order: SortOrder, collation: string -> real)
    ensures multiset(ClientList(clients, orders, searchTerm, w, order, collation)) ==
      multiset(Filter(clients, (c: Client) => MatchesClient(c, searchTerm, w)))
    ensures forall c :: c in ClientList(clients, orders, searchTerm, w, order, collation) <==>
      c in clients && MatchesSearch(c, searchTerm) && w.start <= c.createdAt <= w.end
  {
    var p := (c: Client) => MatchesClient(c, searchTerm, w);
    var m := Filter(clients, p);
    SortDescSortedPermutation(m, SortKey(order, orders, collation));
    var r := ClientList(clients, orders, searchTerm, w, order, collation);
    forall c ensures c in r <==> c in clients && MatchesSearch(c, searchTerm) && w.start <= c.createdAt <= w.end {
      FilterMembership(clients, p, c);
      assert c in r <==> c in multiset(r);
      assert c in m <==> c in multiset(m);
    }
  }

  /** The list is sorted by non-increasing spending, by non-increasing creation
      date, or in collation order. */
  lemma ClientListSorted(clients: seq<Client>, orders: seq<Order>, searchTerm: string, w: Window,
                         order: SortOrder, collation: string -> real)
    ensures order == BySpent ==> forall i, j :: 0 <= i < j < |ClientList(clients, orders, searchTerm, w, order, collation)| ==>
      GetClientStats(orders, ClientList(clients, orders, searchTerm, w, order, collation)[i].id).totalSpent >=
      GetClientStats(orders, ClientList(clients, orders, searchTerm, w, order, collation)[j].id).totalSpent
    ensures order == Newest ==> forall i, j :: 0 <= i < j < |ClientList(clients, orders, searchTerm, w, order, collation)| ==>
      ClientList(clients, orders, searchTerm, w, order, collation)[i].createdAt >=
      ClientList(clients, orders, searchTerm, w, order, collation)[j].createdAt
    ensures order == Az ==> forall i, j :: 0 <= i < j < |ClientList(clients, orders, searchTerm, w, order, collation)| ==>
      collation(DisplayName(ClientList(clients, orders, searchTerm, w, order, collation)[i])) <=
      collation(DisplayName(ClientList(clients, orders, searchTerm, w, order, collation)[j]))
  {
    var key := SortKey(order, orders, collation);
    SortDescSortedPermutation(Filter(clients, (c: Client) => MatchesClient(c, searchTerm, w)), key);
  }

  // ---------------------------------------------------------------------------
  // Avatar colours
  // ---------------------------------------------------------------------------

  function Palette(): seq<string> {
    ["from-blue-600 to-cyan-500", "from-purple-600 to-pink-500", "from-orange-500 to-red-500",
     "from-emerald-500 to-teal-500", "from-indigo-600 to-violet-500", "from-rose-500 to-orange-400"]
  }

  const TwoTo31: int := 0x8000_0000
  const TwoTo32: int := 0x1_0000_0000

  /** ECMAScript ToInt32 on an integer: wrap to 32 bits, signed. */
  function ToInt32(x: int): (r: int)
    ensures -TwoTo31 <= r < TwoTo31
    ensures (r - x) % TwoTo32 == 0
  {
    var m := x % TwoTo32;
    if m >= TwoTo31 then m - TwoTo32 else m
  }

  /** `hash << 5` */
  function ShiftLeft5(x: int): (r: int)
    ensures -TwoTo31 <= r < TwoTo31
  {
    ToInt32(ToInt32(x) * 32)
  }

  /** The hash after reading `name` from the left: each code adds to the
      shifted hash minus the hash. Only the shift wraps; the sum is a double,
      exact while it stays below 2^53 in magnitude. */
  function HashOf(name: string): int {
    if name == [] then 0
    else
      var h := HashOf(name[..|name| - 1]);
      name[|name| - 1] as int + (ShiftLeft5(h) - h)
  }

  /** The loop of `getAvatarColor`. */
  method AvatarHash(name: string) returns (hash: int)
    ensures hash == HashOf(name)
  {
    hash := 0;
    var i := 0;
    while i < |name|
      invariant 0 <= i <= |name|
      invariant hash == HashOf(name[..i])
    {
      assert name[..i + 1][..i] == name[..i];
      hash := name[i] as int + (ShiftLeft5(hash) - hash);
      i := i + 1;
    }
    assert name[..i] == name;
  }

  /** `getAvatarColor(name)` */
  method AvatarColor(name: string) returns (color: string)
    ensures color in Palette()
    ensures color == Palette()[Abs(HashOf(name)) % |Palette()|]
  {
    var hash := AvatarHash(name);
    color := Palette()[Abs(hash) % |Palette()|];
  }

  function Abs(x: int): nat { if x < 0 then -x else x }

  /** Each character moves the hash by less than 2^32, so for any name shorter
      than 2^21 characters the hash stays below 2^53 and the double arithmetic
      of the source computes it exactly. */
  lemma {:induction false} HashBound(name: string)
    ensures Abs(HashOf(name)) <= |name| * TwoTo32
    decreases |name|
  {
    if name != [] {
      HashBound(name[..|name| - 1]);
      assert name[|name| - 1] as int <= 0x10FFFF;
    }
  }

  lemma HashExact(name: string)
    requires |name| < 0x20_0000
    ensures Abs(HashOf(name)) < 0x20_0000_0000_0000
  {
    HashBound(name);
    assert |name| * TwoTo32 < 0x20_0000 * TwoTo32;
  }

  // ---------------------------------------------------------------------------
  // The counters
  // ---------------------------------------------------------------------------

  /** 2592000000 ms: thirty days. */
  const NewClientAge: int := 2592000000

  /** "Nuevos (Mes)": clients created less than thirty days before `now`. */
  function NewClients(clients: seq<Client>, now: int): (n: nat)
    ensures n <= |clients|
  {
    Count(clients, (c: Client) => now - c.createdAt < NewClientAge)
  }

  /** "Clientes VIP" */
  function VipClients(clients: seq<Client>, orders: seq<Order>): (n: nat)
    ensures n <= |clients|
  {
    Count(clients, (c: Client) => GetClientStats(orders, c.id).isVip)
  }

  /** The "new" window is thirty whole days, so every client of the last 30 days
      counts, and a client counts again for any later `now` up to 30 days after
      creation. */
  lemma NewClientsThirtyDays(clients: seq<Client>, now: int, later: int)
    requires now <= later
    ensures NewClientAge == 30 * DayMs
    ensures NewClients(clients, later) <= NewClients(clients, now)
  {
    CountMono(clients, (c: Client) => later - c.createdAt < NewClientAge, (c: Client) => now - c.createdAt < NewClientAge);
  }

  /** Every client with five orders that are not cancelled is a VIP, whatever
      they spent. */
  lemma FiveOrdersMakeVip(orders: seq<Order>, clientId: string)
    requires Count(orders, (o: Order) => o.clientId == clientId && o.status != Cancelled) >= 5
    ensures GetClientStats(orders, clientId).isVip
  {
    ClientStatsCounts(orders, clientId);
  }
}
