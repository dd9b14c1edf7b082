/**
 * The service classifier of the statistics view (src/components/StatsView.tsx):
 * an order is embroidery, sublimation or sewing when its model name or one of
 * its item types mentions that service, and "confección" (plain garment making)
 * when it is none of them. The three services may overlap; four sentinel model
 * names decide the category outright.
 */
module StatsCategory {
  import opened Wrappers
  import opened Text
  import opened Types

  datatype ServiceFilter = AllServices | Bordado | Sublimacion | Costura | Confeccion

  const OtroBordado: string := "Otro (Bordado)"
  const OtroSublimacion: string := "Otro (Sublimaci\U{00F3}n)"
  const OtroCostura: string := "Otro (Costura)"
  const OtroConfeccion: string := "Otro (Confecci\U{00F3}n)"

  /** The category a sentinel model name stands for, if it is one. */
  function Sentinel(model: string): (r: Option<ServiceFilter>)
    ensures r.Some? ==> r.value != AllServices
    ensures r.None? <==> model !in {OtroBordado, OtroSublimacion, OtroCostura, OtroConfeccion}
  {
    if model == OtroBordado then Some(Bordado)
    else if model == OtroSublimacion then Some(Sublimacion)
    else if model == OtroCostura then Some(Costura)
    else if model == OtroConfeccion then Some(Confeccion)
    else None
  }

  /** The lower-cased text mentions one of the keywords. */
  predicate MentionsAny(s: string, keywords: seq<string>) {
    exists k :: 0 <= k < |keywords| && Mentions(s, keywords[k])
  }

  lemma MentionsAnyAt(s: string, keywords: seq<string>, k: nat)
    requires k < |keywords| && Mentions(s, keywords[k])
    ensures MentionsAny(s, keywords)
  {
  }

  /** `items.some(i => i.type && i.type.toLowerCase().includes(kw))` for any of the keywords. */
  predicate SomeItemMentions(items: seq<OrderItem>, keywords: seq<string>) {
    exists k :: 0 <= k < |items| && items[k].itemType != [] && MentionsAny(items[k].itemType, keywords)
  }

  lemma SomeItemMentionsAt(items: seq<OrderItem>, keywords: seq<string>, k: nat)
    requires k < |items| && items[k].itemType != [] && MentionsAny(items[k].itemType, keywords)
    ensures SomeItemMentions(items, keywords)
  {
  }

  predicate HasEmbroidery(o: Order) {
    SomeItemMentions(o.items, ["bordado"]) || Mentions(o.garmentModel, "bordado")
  }

  predicate HasSublimation(o: Order) {
    SomeItemMentions(o.items, ["sublima"]) || Mentions(o.garmentModel, "sublima")
  }

  /** Items are sewing when they mention ruedo, costura or ajuste; the model name
      only when it mentions costura. */
  predicate HasSewing(o: Order) {
    SomeItemMentions(o.items, ["ruedo", "costura", "ajuste"]) || Mentions(o.garmentModel, "costura")
  }

  /** `checkCategory(o, cat)` */
  predicate CheckCategory(o: Order, cat: ServiceFilter) {
    if cat == AllServices then true
    else match Sentinel(o.garmentModel)
      case Some(s) => cat == s
      case None =>
        match cat
        case Confeccion => !HasEmbroidery(o) && !HasSublimation(o) && !HasSewing(o)
        case Bordado => HasEmbroidery(o)
        case Sublimacion => HasSublimation(o)
        case Costura => HasSewing(o)
  }

  /** `all` accepts every order. */
  lemma AllAcceptsEverything(o: Order)
    ensures CheckCategory(o, AllServices)
  {
  }

  /** A sentinel model belongs to its own category and to no other service. */
  lemma SentinelDecides(o: Order, cat: ServiceFilter)
    requires Sentinel(o.garmentModel).Some?
    requires cat != AllServices
    ensures CheckCategory(o, cat) <==> cat == Sentinel(o.garmentModel).value
  {
  }

  /** Without a sentinel, confección is exactly "none of the three services". */
  lemma ConfeccionIsTheRest(o: Order)
    requires Sentinel(o.garmentModel).None?
    ensures CheckCategory(o, Confeccion) <==>
      !CheckCategory(o, Bordado) && !CheckCategory(o, Sublimacion) && !CheckCategory(o, Costura)
  {
  }

  /** Without a sentinel, each service is its keyword test. */
  lemma ServicesWithoutSentinel(o: Order)
    requires Sentinel(o.garmentModel).None?
    ensures CheckCategory(o, Bordado) == HasEmbroidery(o)
    ensures CheckCategory(o, Sublimacion) == HasSublimation(o)
    ensures CheckCategory(o, Costura) == HasSewing(o)
  {
  }

  /** Every order falls into at least one of the four services. */
  lemma SomeServiceHolds(o: Order)
    ensures CheckCategory(o, Confeccion) || CheckCategory(o, Bordado)
         || CheckCategory(o, Sublimacion) || CheckCategory(o, Costura)
  {
  }

  /** An order with one embroidered item and one sublimated item. */
  function MixedServiceOrder(): Order {
    Order("1", "PED-026", "c", "Cliente", "", "", "Camisa", "", [],
      [OrderItem("a", Caballero, "bordado", "M", 1, None, None),
       OrderItem("b", Caballero, "sublima", "M", 1, None, None)],
      None, 0.0, Received, Normal, 0, 0, 0)
  }

  /** The services are not exclusive: one order can be embroidery and sublimation. */
  lemma ServicesOverlap()
    ensures CheckCategory(MixedServiceOrder(), Bordado)
    ensures CheckCategory(MixedServiceOrder(), Sublimacion)
  {
    var o := MixedServiceOrder();
    assert Sentinel(o.garmentModel).None? by {
      assert o.garmentModel[0] == 'C';
    }
    MentionsItself("bordado");
    MentionsItself("sublima");
    MentionsAnyAt("bordado", ["bordado"], 0);
    MentionsAnyAt("sublima", ["sublima"], 0);
    SomeItemMentionsAt(o.items, ["bordado"], 0);
    SomeItemMentionsAt(o.items, ["sublima"], 1);
    ServicesWithoutSentinel(o);
  }

  /** Which revenue bucket the financial breakdown adds an order to: the first
      of confección, bordado, sublimación, costura that holds, in that order. */
  function RevenueCategory(o: Order): (r: Option<ServiceFilter>)
    ensures r.Some? ==> CheckCategory(o, r.value) && r.value != AllServices
    ensures r == Some(Bordado) ==> !CheckCategory(o, Confeccion)
    ensures r == Some(Sublimacion) ==> !CheckCategory(o, Confeccion) && !CheckCategory(o, Bordado)
    ensures r == Some(Costura) ==> !CheckCategory(o, Confeccion) && !CheckCategory(o, Bordado) && !CheckCategory(o, Sublimacion)
  {
    if CheckCategory(o, Confeccion) then Some(Confeccion)
    else if CheckCategory(o, Bordado) then Some(Bordado)
    else if CheckCategory(o, Sublimacion) then Some(Sublimacion)
    else if CheckCategory(o, Costura) then Some(Costura)
    else None
  }

  /** The chain always picks a bucket, so no non-cancelled revenue is dropped. */
  lemma RevenueCategoryTotal(o: Order)
    ensures RevenueCategory(o).Some?
  {
    SomeServiceHolds(o);
  }

  /** `estimateFabric`: metres of cloth per garment, by the first keyword the
      lower-cased item type mentions, 0.5 when none does. */
  function EstimateFabric(itemType: string): (m: real)
    ensures m in {1.5, 1.2, 1.4, 1.0, 2.0, 0.3, 0.6, 0.8, 0.5}
    ensures m == 0.5 <==> !MentionsAny(itemType, FabricKeywords())
  {
    var kw := FabricKeywords();
    if Mentions(itemType, "chaqueta") then MentionsAnyAt(itemType, kw, 0); 1.5
    else if Mentions(itemType, "pantalon") then MentionsAnyAt(itemType, kw, 1); 1.2
    else if Mentions(itemType, "pantal\U{00F3}n") then MentionsAnyAt(itemType, kw, 2); 1.2
    else if Mentions(itemType, "camisa") then MentionsAnyAt(itemType, kw, 3); 1.4
    else if Mentions(itemType, "franela") then MentionsAnyAt(itemType, kw, 4); 1.0
    else if Mentions(itemType, "polo") then MentionsAnyAt(itemType, kw, 5); 1.0
    else if Mentions(itemType, "vestido") then MentionsAnyAt(itemType, kw, 6); 2.0
    else if Mentions(itemType, "gorra") then MentionsAnyAt(itemType, kw, 7); 0.3
    else if Mentions(itemType, "short") then MentionsAnyAt(itemType, kw, 8); 0.6
    else if Mentions(itemType, "delantal") then MentionsAnyAt(itemType, kw, 9); 0.8
    else
      assert forall k :: 0 <= k < |kw| ==> !Mentions(itemType, kw[k]);
      0.5
  }

  function FabricKeywords(): seq<string> {
    ["chaqueta", "pantalon", "pantal\U{00F3}n", "camisa", "franela", "polo",
     "vestido", "gorra", "short", "delantal"]
  }

  /** The metres per garment of each keyword of `FabricKeywords`, position by position. */
  function FabricCoefficients(): seq<real> {
    [1.5, 1.2, 1.2, 1.4, 1.0, 1.0, 2.0, 0.3, 0.6, 0.8]
  }

  /** The coefficient is the one of the first keyword, in the chain's order, that the item type mentions. */
  lemma EstimateFabricFirstKeyword(itemType: string, k: nat)
    requires k < |FabricKeywords()| && Mentions(itemType, FabricKeywords()[k])
    requires forall j :: 0 <= j < k ==> !Mentions(itemType, FabricKeywords()[j])
    ensures EstimateFabric(itemType) == FabricCoefficients()[k]
  {
    var kw := FabricKeywords();
    if k >= 1 { assert !Mentions(itemType, kw[0]); }
    if k >= 2 { assert !Mentions(itemType, kw[1]); }
    if k >= 3 { assert !Mentions(itemType, kw[2]); }
    if k >= 4 { assert !Mentions(itemType, kw[3]); }
    if k >= 5 { assert !Mentions(itemType, kw[4]); }
    if k >= 6 { assert !Mentions(itemType, kw[5]); }
    if k >= 7 { assert !Mentions(itemType, kw[6]); }
    if k >= 8 { assert !Mentions(itemType, kw[7]); }
    if k >= 9 { assert !Mentions(itemType, kw[8]); }
  }

  /** `estimateThread`: 250 m of thread per garment. */
  function EstimateThread(quantity: int): int {
    quantity * 250
  }
}
