/**
 * The records of the workshop: clients, orders, their line items, uniform
 * templates, and the closed vocabularies for gender, status and priority.
 * Money is `real`; quantities and timestamps (milliseconds since the epoch)
 * are `int`.
 */
module Types {
  import opened Wrappers
  import opened Text

  datatype Gender = Caballero | Dama | Nino | Nina

  /** The fifteen stages an order goes through, plus the recycle bin. */
  datatype OrderStatus =
    | Received | PendingCut | Cutting | CutReady | PendingSew | Sewing | Sewn
    | Finishing | QualityControl | Ready | Delivered | Paused | Cancelled
    | Returned | Trash

  /** The string value each status is stored and displayed as. */
  function StatusLabel(s: OrderStatus): string {
    match s
    case Received => "Recibido"
    case PendingCut => "Pendiente por cortar"
    case Cutting => "En corte"
    case CutReady => "Cortado"
    case PendingSew => "Pendiente por coser"
    case Sewing => "En costura"
    case Sewn => "Cosido"
    case Finishing => "En acabados"
    case QualityControl => "Revisi\U{00F3}n de calidad"
    case Ready => "Listo para entrega"
    case Delivered => "Entregado"
    case Paused => "En pausa"
    case Cancelled => "Cancelado"
    case Returned => "Devuelto para ajustes"
    case Trash => "Papelera"
  }

  /** Every status, in declaration order. */
  function AllStatuses(): (r: seq<OrderStatus>)
    ensures |r| == 15
    ensures forall i, j :: 0 <= i < j < |r| ==> r[i] != r[j]
  {
    [Received, PendingCut, Cutting, CutReady, PendingSew, Sewing, Sewn,
     Finishing, QualityControl, Ready, Delivered, Paused, Cancelled,
     Returned, Trash]
  }

  /** Every status is listed. */
  lemma AllStatusesComplete(s: OrderStatus)
    ensures s in AllStatuses()
  {
    var all := AllStatuses();
    match s
    case Received => assert all[0] == s;
    case PendingCut => assert all[1] == s;
    case Cutting => assert all[2] == s;
    case CutReady => assert all[3] == s;
    case PendingSew => assert all[4] == s;
    case Sewing => assert all[5] == s;
    case Sewn => assert all[6] == s;
    case Finishing => assert all[7] == s;
    case QualityControl => assert all[8] == s;
    case Ready => assert all[9] == s;
    case Delivered => assert all[10] == s;
    case Paused => assert all[11] == s;
    case Cancelled => assert all[12] == s;
    case Returned => assert all[13] == s;
    case Trash => assert all[14] == s;
  }

  /** Reading a stored status value back: the status with that label, if any. */
  function StatusFromLabel(stored: string): (r: Option<OrderStatus>)
    ensures r.Some? ==> StatusLabel(r.value) == stored
  {
    FindLabel(AllStatuses(), stored)
  }

  function FindLabel(candidates: seq<OrderStatus>, stored: string): (r: Option<OrderStatus>)
    ensures r.Some? ==> StatusLabel(r.value) == stored && r.value in candidates
    ensures r.None? ==> forall k :: 0 <= k < |candidates| ==> StatusLabel(candidates[k]) != stored
  {
    if candidates == [] then None
    else if StatusLabel(candidates[0]) == stored then Some(candidates[0])
    else FindLabel(candidates[1..], stored)
  }

  /** The fifteen labels are pairwise distinct, so a stored label names one status:
      reading back a written status gives that status. */
  lemma StatusLabelRoundTrip(s: OrderStatus)
    ensures StatusFromLabel(StatusLabel(s)) == Some(s)
  {
    var all := AllStatuses();
    forall i, j | 0 <= i < j < |all| ensures StatusLabel(all[i]) != StatusLabel(all[j]) {
      LabelsDiffer(all[i], all[j]);
    }
    AllStatusesComplete(s);
    FindLabelFirst(all, s);
  }

  lemma LabelsDiffer(a: OrderStatus, b: OrderStatus)
    requires a != b
    ensures StatusLabel(a) != StatusLabel(b)
  {
    var la, lb := StatusLabel(a), StatusLabel(b);
    if |la| == |lb| {
      // Labels of equal length differ in their first characters or in a later one.
      assert la[0] != lb[0] || la[3] != lb[3] || la[4] != lb[4] || la[|la| - 1] != lb[|lb| - 1];
    }
  }

  lemma {:induction false} FindLabelFirst(candidates: seq<OrderStatus>, s: OrderStatus)
    requires s in candidates
    requires forall i, j :: 0 <= i < j < |candidates| ==> StatusLabel(candidates[i]) != StatusLabel(candidates[j])
    ensures FindLabel(candidates, StatusLabel(s)) == Some(s)
  {
    if candidates[0] != s {
      var j :| 0 <= j < |candidates| && candidates[j] == s;
      assert candidates[1..][j - 1] == s;
      FindLabelFirst(candidates[1..], s);
    }
  }

  datatype Priority = Normal | Urgente | MuyUrgente

  function PriorityLabel(p: Priority): string {
    match p
    case Normal => "Normal"
    case Urgente => "Urgente"
    case MuyUrgente => "Muy Urgente"
  }

  /** The two tests for a rush order used across the application agree: a priority
      is not `Normal` exactly when its label contains "Urgente". */
  lemma UrgentIffNotNormal(p: Priority)
    ensures Contains(PriorityLabel(p), "Urgente") <==> p != Normal
  {
    match p
    case Normal =>
    case Urgente => ContainsAt(PriorityLabel(p), "Urgente", 0);
    case MuyUrgente => ContainsAt(PriorityLabel(p), "Urgente", 4);
  }

  /** One line of an order: a garment or service of a size, colour and quantity.
      `color` and `notes` are optional properties of the stored object. */
  datatype OrderItem = OrderItem(
    id: string,
    gender: Gender,
    itemType: string,
    size: string,
    quantity: int,
    color: Option<string>,
    notes: Option<string>)

  /** A template line is an order item without its id. */
  datatype TemplateItem = TemplateItem(
    gender: Gender,
    itemType: string,
    size: string,
    quantity: int,
    color: Option<string>,
    notes: Option<string>)

  datatype UniformTemplate = UniformTemplate(id: string, name: string, items: seq<TemplateItem>)

  datatype Order = Order(
    id: string,
    orderNumber: string,
    clientId: string,
    clientName: string,
    fabricColor: string,
    fabricType: string,
    garmentModel: string,
    description: string,
    referenceImages: seq<string>,
    items: seq<OrderItem>,
    unitPrice: Option<real>,
    totalAmount: real,
    status: OrderStatus,
    priority: Priority,
    receptionDate: int,
    deadline: int,
    createdAt: int)

  datatype Client = Client(
    id: string,
    businessName: Option<string>,
    name: string,
    phone: string,
    email: string,
    address: string,
    measurements: Option<string>,
    createdAt: int)

  function ItemQuantity(i: OrderItem): int { i.quantity }

  function Amount(o: Order): real { o.totalAmount }

  /** `items.reduce((s, i) => s + i.quantity, 0)` */
  function TotalQuantity(items: seq<OrderItem>): int {
    if items == [] then 0 else TotalQuantity(items[..|items| - 1]) + items[|items| - 1].quantity
  }

  lemma {:induction false} TotalQuantityAppend(a: seq<OrderItem>, b: seq<OrderItem>)
    ensures TotalQuantity(a + b) == TotalQuantity(a) + TotalQuantity(b)
    decreases |b|
  {
    if b == [] {
      assert a + b == a;
    } else {
      assert (a + b)[..|a + b| - 1] == a + b[..|b| - 1];
      TotalQuantityAppend(a, b[..|b| - 1]);
    }
  }

  /** JavaScript truthiness of a string: `s || fallback`. */
  function OrElse(s: string, fallback: string): (r: string)
    ensures r == s || r == fallback
    ensures |s| > 0 ==> r == s
  {
    if |s| > 0 then s else fallback
  }

  /** The name shown for a client: `client.businessName || client.name`. */
  function DisplayName(c: Client): (r: string)
    ensures c.businessName.Some? && c.businessName.value != [] ==> r == c.businessName.value
    ensures c.businessName.None? || c.businessName.value == [] ==> r == c.name
  {
    match c.businessName
    case Some(b) => OrElse(b, c.name)
    case None => c.name
  }
}
