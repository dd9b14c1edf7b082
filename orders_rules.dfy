/**
 * The rules of the order list (components/OrdersView.tsx): the weight that
 * orders sizes, the five status groups and the status filter, the category
 * filter (which tests the model against the option lists of each service),
 * the form mode detected when an order is opened for editing, the filter chip
 * counts and the filtered list.
 */
module OrdersRules {
  import opened Wrappers
  import opened Text
  import opened Folds
  import opened Calendar
  import opened Types
  import opened Ranking
  import StatsCategory

  // ---------------------------------------------------------------------------
  // Size weights
  // ---------------------------------------------------------------------------

  /** The size table of `getSizeWeight`. */
  const SizeWeights: map<string, real> := map[
    "XXXS" := 5.0, "XXS" := 10.0, "XS" := 20.0, "SS" := 25.0, "S" := 30.0, "M" := 40.0, "L" := 50.0,
    "XL" := 60.0, "XXL" := 70.0, "2XL" := 70.0, "XXXL" := 80.0, "3XL" := 80.0, "4XL" := 90.0, "5XL" := 100.0]

  /** `getSizeWeight(size)`: a numeric size weighs its value, a listed one its
      table weight, anything else 999 (no listed weight is 0, so `|| 999`
      only replaces a missing one). */
  function SizeWeight(size: string): real {
    Weigh(Trim(Upper(size)))
  }

  /** The weight of an upper-cased, trimmed size. */
  function Weigh(s: string): real {
    match ToNumber(s)
    case Some(v) => v
    case None => if s in SizeWeights then SizeWeights[s] else 999.0
  }

  /** A size that is no number and is not listed weighs 999. */
  lemma SizeWeightUnlisted(size: string)
    requires ToNumber(Trim(Upper(size))).None?
    requires Trim(Upper(size)) !in SizeWeights
    ensures SizeWeight(size) == 999.0
  {
  }

  /** A blank size reads as the number 0 (`Number('')` is 0), so it weighs 0. */
  lemma SizeWeightBlank(size: string)
    requires forall k :: 0 <= k < |size| ==> IsSpace(size[k])
    ensures SizeWeight(size) == 0.0
  {
    var u := Upper(size);
    forall k | 0 <= k < |u| ensures IsSpace(u[k]) {
      UpperCharKeepsSpaces(size[k]);
    }
    TrimStartAllSpace(u);
    assert |Trim(u)| == 0;
  }

  /** Upper-case letters and digits are neither changed by `toUpperCase` nor trimmed. */
  lemma PlainSize(s: string)
    requires forall k :: 0 <= k < |s| ==> 'A' <= s[k] <= 'Z' || '0' <= s[k] <= '9'
    ensures Trim(Upper(s)) == s
  {
    assert Upper(s) == s;
    if s != [] { TrimOfTrimmed(s); }
  }

  /** `Number` reads a string of decimal digits as its value. */
  lemma DigitsNumber(d: string)
    requires |d| > 0
    requires forall k :: 0 <= k < |d| ==> IsDecimalDigit(d[k])
    ensures forall k :: 0 <= k < |d| ==> IsDigitIn(d[k], 10)
    ensures ToNumber(d) == Some(DigitsValue(d, 10) as real)
  {
    assert IsTrimmed(d);
    ScanDigits(d);
    var v := DigitsValue(d, 10) as real;
    assert ToNumber(d) == Some(v) by {
      ToNumberWhole(d, v);
    }
  }

  /** A size of decimal digits weighs its value. */
  lemma SizeWeightNumeric(d: string)
    requires |d| >= 1
    requires forall k :: 0 <= k < |d| ==> IsDecimalDigit(d[k])
    ensures forall k :: 0 <= k < |d| ==> IsDigitIn(d[k], 10)
    ensures SizeWeight(d) == DigitsValue(d, 10) as real
  {
    assert Trim(Upper(d)) == d by {
      PlainSize(d);
    }
    DigitsNumber(d);
  }

  /** A trimmed size whose first letter comes at position 0 or 1 after digits is no number. */
  lemma NotANumber(t: string, p: nat)
    requires p < |t| && p <= 1 && IsTrimmed(t)
    requires forall k :: 0 <= k < p ==> IsDecimalDigit(t[k])
    requires 'A' <= t[p] <= 'Z'
    ensures ToNumber(t).None?
  {
    assert Trim(t) == t by {
      TrimOfTrimmed(t);
    }
    LetterStopsScan(t, p);
  }

  /** The scan of such a size stops at the letter, short of the end. */
  lemma LetterStopsScan(t: string, p: nat)
    requires p < |t| && p <= 1
    requires forall k :: 0 <= k < p ==> IsDecimalDigit(t[k])
    requires 'A' <= t[p] <= 'Z'
    ensures ScanDecimal(t).None? || ScanDecimal(t).value.length == p
  {
    if p == 1 {
      assert DigitRunEnd(t, 1, 10) == 1;
    }
    assert DigitRunEnd(t, 0, 10) == p;
    assert t[p] != '.';
  }

  /** The listed sizes are not numbers, so each weighs what the table says,
      written in any case and with white space around. */
  lemma SizeWeightListed(size: string)
    requires Trim(Upper(size)) in SizeWeights
    ensures SizeWeight(size) == SizeWeights[Trim(Upper(size))]
  {
    ListedNotNumber(Trim(Upper(size)));
  }

  lemma ListedNotNumber(s: string)
    requires s in SizeWeights
    ensures ToNumber(s).None?
  {
    if s in {"2XL", "3XL", "4XL", "5XL"} {
      NotANumber(s, 1);
    } else {
      assert s in {"XXXS", "XXS", "XS", "SS", "S", "M", "L", "XL", "XXL", "XXXL"};
      NotANumber(s, 0);
    }
  }

  /** Sizes ordered by weight as the print sheet lists them: ascending, with
      equal weights in their original order. */
  function BySize(items: seq<OrderItem>): seq<OrderItem> {
    SortDesc(items, (i: OrderItem) => -SizeWeight(i.size))
  }

  /** The sheet lists the same items, lightest size first. */
  lemma BySizeAscending(items: seq<OrderItem>)
    ensures multiset(BySize(items)) == multiset(items)
    ensures forall i, j :: 0 <= i < j < |BySize(items)| ==> SizeWeight(BySize(items)[i].size) <= SizeWeight(BySize(items)[j].size)
  {
    SortDescSortedPermutation(items, (i: OrderItem) => -SizeWeight(i.size));
  }

  // ---------------------------------------------------------------------------
  // Status groups
  // ---------------------------------------------------------------------------

  datatype StatusGroup = AllGroups | Start | Production | Finish | Attention | TrashGroup

  /** `STATUS_GROUPS` */
  function GroupMembers(g: StatusGroup): set<OrderStatus> {
    match g
    case AllGroups => {}
    case Start => {Received, PendingCut, PendingSew}
    case Production => {Cutting, CutReady, Sewing, Sewn, Finishing, QualityControl}
    case Finish => {Ready, Delivered}
    case Attention => {Paused, Returned, Cancelled}
    case TrashGroup => {Trash}
  }

  /** `checkStatus(o, group)`: `all` is everything but the bin. */
  predicate CheckStatus(o: Order, g: StatusGroup) {
    if g == AllGroups then o.status != Trash else o.status in GroupMembers(g)
  }

  /** The group an order's status is in. */
  function GroupOf(s: OrderStatus): (g: StatusGroup)
    ensures g != AllGroups && s in GroupMembers(g)
  {
    match s
    case Received => Start
    case PendingCut => Start
    case PendingSew => Start
    case Cutting => Production
    case CutReady => Production
    case Sewing => Production
    case Sewn => Production
    case Finishing => Production
    case QualityControl => Production
    case Ready => Finish
    case Delivered => Finish
    case Paused => Attention
    case Returned => Attention
    case Cancelled => Attention
    case Trash => TrashGroup
  }

  /** The five groups partition the fifteen statuses: each status is in exactly one. */
  lemma StatusGroupsPartition(s: OrderStatus, g: StatusGroup)
    requires g != AllGroups
    ensures s in GroupMembers(g) <==> g == GroupOf(s)
  {
  }

  /** `all` is the union of every group but the bin. */
  lemma AllIsEveryGroupButTrash(o: Order)
    ensures CheckStatus(o, AllGroups) <==> GroupOf(o.status) != TrashGroup
  {
  }

  // ---------------------------------------------------------------------------
  // Categories
  // ---------------------------------------------------------------------------

  datatype Category = AnyCategory | GeneralCat | EmbroideryCat | SublimationCat | SewingCat

  function StandardModels(): seq<string> {
    ["Chaqueta Impermeable", "Chemise / Polo", "Camisa Columbia", "Franela Manga Corta",
     "Franela Manga Larga", "Uniforme T\U{00E1}ctico", "Sueter / Hoodie", "Pantal\U{00F3}n Cargo",
     "Pantal\U{00F3}n Jeans", "Vestido", "Braga / Overol", "Gorra", "Otro (Confecci\U{00F3}n)"]
  }

  function EmbroideryOptions(): seq<string> {
    ["Bordado Pecho (Logotipo)", "Bordado Espalda (Grande)", "Bordado Espalda (Texto/Nombre)",
     "Bordado en Gorra (Plano)", "Bordado en Gorra (3D / Alto Relieve)", "Bordado de Nombres (Pu\U{00F1}o/Pecho)",
     "Bordado de Parches / Escudos", "Bordado en Manga", "Digitalizaci\U{00F3}n (Solo Ponchado)",
     "Aplique de Tela", "Otro (Bordado)"]
  }

  function SublimationOptions(): seq<string> {
    ["Sublimaci\U{00F3}n por Metro Lineal (Rollo)", "Sublimaci\U{00F3}n Full Print (Patrones/Corte)",
     "Sublimaci\U{00F3}n de Tela (Rollo Completo)", "Frente de Prenda (A4 / Carta)",
     "Frente de Prenda (A3 / Tabloide)", "Frente de Prenda (Gran Formato)",
     "Sublimaci\U{00F3}n de Logotipo (Pecho/Bolsillo)", "Sublimaci\U{00F3}n de Logotipo (Espalda)",
     "Bandera / Gigantograf\U{00ED}a (Tela)", "Cinta Lanyard (Por metro)", "Taza 11oz (Est\U{00E1}ndar)",
     "Taza C\U{00F3}nica 12oz", "Termo / Botella Deportiva", "Mousepad (Rectangular/Redondo)",
     "Chapa / Bot\U{00F3}n Publicitario", "Otro (Sublimaci\U{00F3}n)"]
  }

  function SewingOptions(): seq<string> {
    ["Ruedo / Dobladillo Sencillo", "Ruedo Original (Jeans)", "Ruedo Invisible (Pantal\U{00F3}n de Vestir)",
     "Ajuste de Talla (Entallar Completo)", "Ajuste de Cintura (Meter/Sacar)", "Ajuste de Botapie / Pierna",
     "Ajuste de Hombros / Mangas", "Cambio de Cierre (Pantal\U{00F3}n/Falda)", "Cambio de Cierre (Chaqueta/Su\U{00E9}ter)",
     "Cambio de Cuello o Pu\U{00F1}os", "Voltear Cuello (Camisa)", "Servicio de Ojales", "Pegado de Botones",
     "Cambio de El\U{00E1}stica", "Zurcido / Parche / Remiendo", "Cortar Mangas (Larga a Corta)",
     "Confecci\U{00F3}n de Prenda Completa", "Planchado y Vaporizado", "Otro (Costura)"]
  }

  function FabricOptions(): seq<string> {
    ["Gabardina", "Popelina", "Drill", "Jean / Denim", "Lycra", "Algod\U{00F3}n Pima", "Poli\U{00E9}ster Deportivo",
     "Taslan (Impermeable)", "Microdurazno", "Lino", "Chif\U{00F3}n", "Polar / Fleece", "Ripstop",
     "Proporcionada por Cliente", "Otro"]
  }

  /** The category a sentinel model name stands for, if it is one. */
  function SentinelCategory(model: string): (r: Option<Category>)
    ensures r.Some? ==> r.value !in {AnyCategory}
  {
    if model == StatsCategory.OtroBordado then Some(EmbroideryCat)
    else if model == StatsCategory.OtroSublimacion then Some(SublimationCat)
    else if model == StatsCategory.OtroCostura then Some(SewingCat)
    else if model == StatsCategory.OtroConfeccion then Some(GeneralCat)
    else None
  }

  predicate IsEmbroidery(o: Order) {
    o.garmentModel in EmbroideryOptions() || StatsCategory.SomeItemMentions(o.items, ["bordado"])
  }

  predicate IsSublimation(o: Order) {
    o.garmentModel in SublimationOptions() || StatsCategory.SomeItemMentions(o.items, ["sublima"])
  }

  predicate IsSewing(o: Order) {
    o.garmentModel in SewingOptions() || StatsCategory.SomeItemMentions(o.items, ["ruedo", "costura", "ajuste"])
  }

  /** `checkCategory(o, cat)` of the order list. */
  predicate CheckCategory(o: Order, cat: Category) {
    if cat == AnyCategory then true
    else match SentinelCategory(o.garmentModel)
      case Some(c) => cat == c
      case None =>
        match cat
        case GeneralCat => !IsEmbroidery(o) && !IsSublimation(o) && !IsSewing(o)
        case EmbroideryCat => IsEmbroidery(o)
        case SublimationCat => IsSublimation(o)
        case SewingCat => IsSewing(o)
  }

  /** A sentinel model decides the category on its own. */
  lemma SentinelDecides(o: Order, cat: Category)
    requires cat != AnyCategory
    requires SentinelCategory(o.garmentModel).Some?
    ensures CheckCategory(o, cat) <==> cat == SentinelCategory(o.garmentModel).value
  {
  }

  /** Away from the sentinels, general is "none of the three services". */
  lemma GeneralIsNoneOfThree(o: Order)
    requires SentinelCategory(o.garmentModel).None?
    ensures CheckCategory(o, GeneralCat) <==>
      !CheckCategory(o, EmbroideryCat) && !CheckCategory(o, SublimationCat) && !CheckCategory(o, SewingCat)
  {
    var e, s, w := IsEmbroidery(o), IsSublimation(o), IsSewing(o);
    assert CheckCategory(o, EmbroideryCat) == e && CheckCategory(o, SublimationCat) == s;
    assert CheckCategory(o, SewingCat) == w && CheckCategory(o, GeneralCat) == (!e && !s && !w);
  }

  /** A model from a service's option list puts the order in that service. */
  lemma OptionListDecides(o: Order)
    requires SentinelCategory(o.garmentModel).None?
    ensures o.garmentModel in EmbroideryOptions() ==> CheckCategory(o, EmbroideryCat) && !CheckCategory(o, GeneralCat)
    ensures o.garmentModel in SublimationOptions() ==> CheckCategory(o, SublimationCat) && !CheckCategory(o, GeneralCat)
    ensures o.garmentModel in SewingOptions() ==> CheckCategory(o, SewingCat) && !CheckCategory(o, GeneralCat)
  {
  }

  // ---------------------------------------------------------------------------
  // Mode detection on edit
  // ---------------------------------------------------------------------------

  datatype Mode = GeneralMode | BordadoMode | SublimacionMode | CosturaMode

  /** The form mode `handleEditClick` picks: the sentinels, then embroidery,
      sublimation and sewing in that order; the sewing item keywords here are
      only ruedo and costura. */
  function DetectMode(o: Order): Mode {
    if o.garmentModel == StatsCategory.OtroBordado then BordadoMode
    else if o.garmentModel == StatsCategory.OtroSublimacion then SublimacionMode
    else if o.garmentModel == StatsCategory.OtroCostura then CosturaMode
    else if IsEmbroidery(o) then BordadoMode
    else if IsSublimation(o) then SublimacionMode
    else if o.garmentModel in SewingOptions() || StatsCategory.SomeItemMentions(o.items, ["ruedo", "costura"]) then CosturaMode
    else GeneralMode
  }

  lemma SomeItemMentionsWider(items: seq<OrderItem>)
    requires StatsCategory.SomeItemMentions(items, ["ruedo", "costura"])
    ensures StatsCategory.SomeItemMentions(items, ["ruedo", "costura", "ajuste"])
  {
    var k :| 0 <= k < |items| && items[k].itemType != [] && StatsCategory.MentionsAny(items[k].itemType, ["ruedo", "costura"]);
    var j :| 0 <= j < 2 && Mentions(items[k].itemType, ["ruedo", "costura"][j]);
    StatsCategory.MentionsAnyAt(items[k].itemType, ["ruedo", "costura", "ajuste"], j);
    StatsCategory.SomeItemMentionsAt(items, ["ruedo", "costura", "ajuste"], k);
  }

  lemma SomeItemMentionsNarrower(items: seq<OrderItem>)
    requires StatsCategory.SomeItemMentions(items, ["ruedo", "costura", "ajuste"])
    requires !StatsCategory.SomeItemMentions(items, ["ruedo", "costura"])
    ensures StatsCategory.SomeItemMentions(items, ["ajuste"])
  {
    var k :| 0 <= k < |items| && items[k].itemType != [] && StatsCategory.MentionsAny(items[k].itemType, ["ruedo", "costura", "ajuste"]);
    var j :| 0 <= j < 3 && Mentions(items[k].itemType, ["ruedo", "costura", "ajuste"][j]);
    if j < 2 {
      assert false;
    }
    StatsCategory.MentionsAnyAt(items[k].itemType, ["ajuste"], 0);
    StatsCategory.SomeItemMentionsAt(items, ["ajuste"], k);
  }

  /** Away from the general sentinel, the detected service mode is a category the
      filter also gives the order; a general mode differs from the filter only
      when an item mentions "ajuste". */
  lemma DetectModeAgreesWithFilter(o: Order)
    requires o.garmentModel != StatsCategory.OtroConfeccion
    ensures DetectMode(o) == BordadoMode ==> CheckCategory(o, EmbroideryCat)
    ensures DetectMode(o) == SublimacionMode ==> CheckCategory(o, SublimationCat)
    ensures DetectMode(o) == CosturaMode ==> CheckCategory(o, SewingCat)
    ensures DetectMode(o) == GeneralMode ==>
      CheckCategory(o, GeneralCat) || StatsCategory.SomeItemMentions(o.items, ["ajuste"])
  {
    var m := o.garmentModel;
    if m == StatsCategory.OtroBordado {
      assert SentinelCategory(m) == Some(EmbroideryCat);
    } else if m == StatsCategory.OtroSublimacion {
      assert SentinelCategory(m) == Some(SublimationCat);
    } else if m == StatsCategory.OtroCostura {
      assert SentinelCategory(m) == Some(SewingCat);
    } else {
      assert SentinelCategory(m).None?;
      if !IsEmbroidery(o) && !IsSublimation(o) {
        if m in SewingOptions() {
          assert IsSewing(o);
        } else if StatsCategory.SomeItemMentions(o.items, ["ruedo", "costura"]) {
          SomeItemMentionsWider(o.items);
        } else if IsSewing(o) {
          SomeItemMentionsNarrower(o.items);
        }
      }
    }
  }

  // ---------------------------------------------------------------------------
  // Chip counts and the filtered list
  // ---------------------------------------------------------------------------

  datatype Counts = Counts(embroidery: nat, sublimation: nat, sewing: nat,
                           start: nat, production: nat, finish: nat, attention: nat, trash: nat)

  /** The test behind a status chip. */
  function InGroup(g: StatusGroup): Order -> bool {
    o => CheckStatus(o, g)
  }

  /** The chip counts of `counts`: the service chips leave out the bin. */
  function CountsOf(orders: seq<Order>): Counts {
    Counts(
      Count(orders, o => CheckCategory(o, EmbroideryCat) && o.status != Trash),
      Count(orders, o => CheckCategory(o, SublimationCat) && o.status != Trash),
      Count(orders, o => CheckCategory(o, SewingCat) && o.status != Trash),
      Count(orders, InGroup(Start)),
      Count(orders, InGroup(Production)),
      Count(orders, InGroup(Finish)),
      Count(orders, InGroup(Attention)),
      Count(orders, InGroup(TrashGroup)))
  }

  /** The five status chips count every order once. */
  lemma {:induction false} StatusChipsCoverOrders(orders: seq<Order>)
    ensures Count(orders, InGroup(Start)) + Count(orders, InGroup(Production)) + Count(orders, InGroup(Finish))
      + Count(orders, InGroup(Attention)) + Count(orders, InGroup(TrashGroup)) == |orders|
    decreases |orders|
  {
    if orders != [] {
      StatusChipsCoverOrders(orders[..|orders| - 1]);
      var s := orders[|orders| - 1].status;
      StatusGroupsPartition(s, GroupOf(s));
    }
  }

  /** Through the chip counts: start, production, finish, attention and bin add up to all orders. */
  lemma ChipCountsCoverOrders(orders: seq<Order>)
    ensures var c := CountsOf(orders); c.start + c.production + c.finish + c.attention + c.trash == |orders|
  {
    StatusChipsCoverOrders(orders);
  }

  datatype TimeFilter = AnyTime | Week | Month

  /** Created at most 7 or 30 days before `now`. */
  predicate MatchesTime(o: Order, t: TimeFilter, now: int) {
    match t
    case AnyTime => true
    case Week => now - o.createdAt <= DayMs * 7
    case Month => now - o.createdAt <= DayMs * 30
  }

  /** Order number or client name contains the search text, ignoring case. */
  predicate MatchesSearch(o: Order, searchTerm: string) {
    Mentions(o.orderNumber, Lower(searchTerm)) || Mentions(o.clientName, Lower(searchTerm))
  }

  predicate Matches(o: Order, searchTerm: string, g: StatusGroup, cat: Category, t: TimeFilter, now: int) {
    MatchesSearch(o, searchTerm) && CheckStatus(o, g) && CheckCategory(o, cat) && MatchesTime(o, t, now)
  }

  /** `filteredOrders` */
  function FilteredOrders(orders: seq<Order>, searchTerm: string, g: StatusGroup, cat: Category, t: TimeFilter, now: int): (r: seq<Order>)
    ensures |r| <= |orders|
  {
    Filter(orders, o => Matches(o, searchTerm, g, cat, t, now))
  }

  /** The list holds exactly the orders that pass all four filters. */
  lemma FilteredOrdersMembers(orders: seq<Order>, searchTerm: string, g: StatusGroup, cat: Category, t: TimeFilter, now: int, o: Order)
    ensures o in FilteredOrders(orders, searchTerm, g, cat, t, now) <==>
      o in orders && MatchesSearch(o, searchTerm) && CheckStatus(o, g) && CheckCategory(o, cat) && MatchesTime(o, t, now)
  {
    FilterMembership(orders, o => Matches(o, searchTerm, g, cat, t, now), o);
  }

  /** Narrowing from a month to a week never adds an order. */
  lemma WeekWithinMonth(orders: seq<Order>, searchTerm: string, g: StatusGroup, cat: Category, now: int)
    ensures |FilteredOrders(orders, searchTerm, g, cat, Week, now)| <= |FilteredOrders(orders, searchTerm, g, cat, Month, now)|
  {
    CountMono(orders, o => Matches(o, searchTerm, g, cat, Week, now), o => Matches(o, searchTerm, g, cat, Month, now));
  }
}
