/**
 * The order form of the order list (components/OrdersView.tsx): the lines the
 * user adds one at a time (`handleAddItem`), removes by id (`handleRemoveItem`),
 * and the reference images they attach and remove by position
 * (`handleRemoveImage`). The form's state is a class whose fields are the
 * component's state variables; each handler is a method that replaces them as
 * the source's setters do.
 */
module OrdersForm {
  import opened Wrappers
  import opened Text
  import opened Folds
  import opened Types
  import opened OrdersRules

  // ---------------------------------------------------------------------------
  // Specification of `handleAddItem`
  // ---------------------------------------------------------------------------

  /** What a new line would hold: its size, gender and note. */
  datatype Draft = Draft(size: string, gender: Gender, note: string)

  /** The size, gender and note `handleAddItem` settles on, or None when it stops:
      a service needs dimensions or a location, and the size may not be empty. */
  function PlanItem(mode: Mode, tempGender: Gender, tempSize: string, useCustomSize: bool, customSize: string,
                    serviceDimensions: string, serviceLocation: string): (r: Option<Draft>)
    ensures r.Some? ==> |r.value.size| > 0
    ensures mode != GeneralMode ==> (r.None? <==> |serviceDimensions| == 0 && |serviceLocation| == 0)
    ensures mode != GeneralMode && r.Some? ==>
      r.value.note == serviceLocation && r.value.gender == Caballero &&
      r.value.size == (if |serviceDimensions| > 0 then serviceDimensions else "Est\U{00E1}ndar")
    ensures mode == GeneralMode && r.Some? ==>
      |r.value.note| == 0 && r.value.gender == tempGender &&
      r.value.size == (if useCustomSize then Upper(customSize) else tempSize)
    ensures mode == GeneralMode ==> (r.None? <==> (if useCustomSize then |customSize| == 0 else |tempSize| == 0))
  {
    if mode == GeneralMode then
      var size := if useCustomSize then Upper(customSize) else tempSize;
      if |size| == 0 then None else Some(Draft(size, tempGender, []))
    else if |serviceDimensions| == 0 && |serviceLocation| == 0 then None
    else Some(Draft(if |serviceDimensions| > 0 then serviceDimensions else "Est\U{00E1}ndar", Caballero, serviceLocation))
  }

  /** The colour of the line: the specific colour when one is chosen and not
      blank, else the order's fabric colour, else "Base". */
  function EffectiveColor(useSpecificColor: bool, tempColor: string, fabricColor: string): (c: string)
    ensures |c| > 0
    ensures useSpecificColor && |Trim(tempColor)| > 0 ==> c == tempColor
    ensures !(useSpecificColor && |Trim(tempColor)| > 0) ==> c == fabricColor || (|fabricColor| == 0 && c == "Base")
  {
    if useSpecificColor && |Trim(tempColor)| > 0 then tempColor else OrElse(fabricColor, "Base")
  }

  /** The lines that a new draft joins: same size and colour, and the same gender
      for a garment or the same note for a service. */
  predicate SameLine(i: OrderItem, d: Draft, color: string, mode: Mode) {
    i.size == d.size && i.color == Some(color) &&
    (if mode == GeneralMode then i.gender == d.gender else i.notes == Some(d.note))
  }

  /** The line a draft appends when it joins none. */
  function NewLine(id: string, d: Draft, model: string, qty: int, color: string): OrderItem {
    OrderItem(id, d.gender, OrElse(model, "Servicio"), d.size, qty, Some(color), Some(d.note))
  }

  /** The lines after adding `qty` of a draft. */
  function Merge(items: seq<OrderItem>, d: Draft, color: string, mode: Mode, qty: int, id: string, model: string): seq<OrderItem>
  {
    var k := FindIndex(items, (i: OrderItem) => SameLine(i, d, color, mode));
    if k >= 0 then items[k := items[k].(quantity := items[k].quantity + qty)]
    else items + [NewLine(id, d, model, qty, color)]
  }

  lemma TotalQuantityUpdate(items: seq<OrderItem>, k: nat, x: OrderItem)
    requires k < |items|
    ensures TotalQuantity(items[k := x]) == TotalQuantity(items) - items[k].quantity + x.quantity
  {
    var u := items[k := x];
    assert items == items[..k] + [items[k]] + items[k + 1..];
    assert u == items[..k] + [x] + items[k + 1..];
    TotalQuantityAppend(items[..k] + [items[k]], items[k + 1..]);
    TotalQuantityAppend(items[..k], [items[k]]);
    TotalQuantityAppend(items[..k] + [x], items[k + 1..]);
    TotalQuantityAppend(items[..k], [x]);
    assert TotalQuantity([x]) == x.quantity by { assert [x][..0] == []; }
    assert TotalQuantity([items[k]]) == items[k].quantity by { assert [items[k]][..0] == []; }
  }

  /** Either way, the lines hold exactly `qty` more garments. */
  lemma MergeTotal(items: seq<OrderItem>, d: Draft, color: string, mode: Mode, qty: int, id: string, model: string)
    ensures TotalQuantity(Merge(items, d, color, mode, qty, id, model)) == TotalQuantity(items) + qty
  {
    var k := FindIndex(items, (i: OrderItem) => SameLine(i, d, color, mode));
    var r := Merge(items, d, color, mode, qty, id, model);
    if k >= 0 {
      assert r == items[k := items[k].(quantity := items[k].quantity + qty)];
      TotalQuantityUpdate(items, k, items[k].(quantity := items[k].quantity + qty));
    } else {
      var n := NewLine(id, d, model, qty, color);
      assert r == items + [n];
      TotalQuantityAppend(items, [n]);
      assert TotalQuantity([n]) == qty by { assert [n][..0] == []; }
    }
  }

  /** The draft joins the first line it matches, that line grows by `qty` and
      nothing else changes; when it matches none, one new line comes last. */
  lemma MergeJoinsFirstLine(items: seq<OrderItem>, d: Draft, color: string, mode: Mode, qty: int, id: string, model: string)
    ensures (forall j :: 0 <= j < |items| ==> !SameLine(items[j], d, color, mode)) ==>
      Merge(items, d, color, mode, qty, id, model) == items + [NewLine(id, d, model, qty, color)]
    ensures forall k :: (0 <= k < |items| && SameLine(items[k], d, color, mode) &&
                         forall j :: 0 <= j < k ==> !SameLine(items[j], d, color, mode)) ==>
      Merge(items, d, color, mode, qty, id, model) == items[k := items[k].(quantity := items[k].quantity + qty)]
  {
  }

  // ---------------------------------------------------------------------------
  // Specification of `handleRemoveImage`
  // ---------------------------------------------------------------------------

  /** Where `splice(index, 1)` starts: a negative index counts from the end. */
  function SpliceStart(len: nat, index: int): (s: nat)
    ensures s <= len
  {
    if index < 0 then (if len + index < 0 then 0 else len + index)
    else if index > len then len
    else index
  }

  /** The list after `splice(index, 1)`. */
  function Spliced<T>(s: seq<T>, index: int): seq<T> {
    var start := SpliceStart(|s|, index);
    if start < |s| then s[..start] + s[start + 1..] else s
  }

  /** A position inside the list removes exactly that element; counting from the
      end does the same; a position past the end removes nothing. */
  lemma SplicedRemovesOne<T>(s: seq<T>, index: int)
    ensures 0 <= index < |s| ==>
      |Spliced(s, index)| == |s| - 1 &&
      (forall j :: 0 <= j < index ==> Spliced(s, index)[j] == s[j]) &&
      (forall j :: index <= j < |s| - 1 ==> Spliced(s, index)[j] == s[j + 1])
    ensures -|s| <= index < 0 ==> Spliced(s, index) == Spliced(s, |s| + index)
    ensures index >= |s| ==> Spliced(s, index) == s
    ensures multiset(Spliced(s, index)) <= multiset(s)
  {
    var start := SpliceStart(|s|, index);
    if start < |s| {
      assert s == s[..start] + [s[start]] + s[start + 1..];
    }
  }

  // ---------------------------------------------------------------------------
  // The form
  // ---------------------------------------------------------------------------

  class OrderForm {
    var clientId: string
    var garmentModel: string
    var fabricType: string
    var fabricColor: string
    var referenceImages: seq<string>
    var orderItems: seq<OrderItem>
    var orderMode: Mode
    var tempGender: Gender
    var tempSize: string
    var tempColor: string
    var useSpecificColor: bool
    var customSize: string
    var useCustomSize: bool
    var tempQty: int
    var serviceLocation: string
    var serviceDimensions: string

    /** The form as it opens: no client, model or fabric, no lines, general mode,
        one garment of size M for a gentleman. */
    constructor ()
      ensures clientId == [] && garmentModel == [] && fabricType == [] && fabricColor == []
      ensures referenceImages == [] && orderItems == [] && orderMode == GeneralMode
      ensures tempGender == Caballero && tempSize == "M" && tempColor == [] && !useSpecificColor
      ensures customSize == [] && !useCustomSize && tempQty == 1
      ensures serviceLocation == [] && serviceDimensions == []
    {
      clientId, garmentModel, fabricType, fabricColor := [], [], [], [];
      referenceImages, orderItems, orderMode := [], [], GeneralMode;
      tempGender, tempSize, tempColor, useSpecificColor := Caballero, "M", [], false;
      customSize, useCustomSize, tempQty := [], false, 1;
      serviceLocation, serviceDimensions := [], [];
    }

    /** `isReadyForItems`: a client, a model and a fabric are chosen. */
    predicate Ready()
      reads this
    {
      |clientId| > 0 && |garmentModel| > 0 && |fabricType| > 0
    }

    function Plan(): Option<Draft>
      reads this
    {
      PlanItem(orderMode, tempGender, tempSize, useCustomSize, customSize, serviceDimensions, serviceLocation)
    }

    /** `handleAddItem`, with `crypto.randomUUID()` passed in as `newId`. When the
        form is not ready, the quantity is not positive or there is no size,
        nothing changes. Otherwise the lines are merged, the quantity goes back
        to 1 and the custom size and service fields are cleared. */
    method AddItem(newId: string)
      modifies this
      ensures !old(Ready()) || old(tempQty) <= 0 || old(Plan()).None? ==>
        orderItems == old(orderItems) && tempQty == old(tempQty) && customSize == old(customSize) &&
        serviceLocation == old(serviceLocation) && serviceDimensions == old(serviceDimensions)
      ensures old(Ready()) && old(tempQty) > 0 && old(Plan()).Some? ==>
        orderItems == Merge(old(orderItems), old(Plan()).value,
                            EffectiveColor(old(useSpecificColor), old(tempColor), old(fabricColor)),
                            old(orderMode), old(tempQty), newId, old(garmentModel)) &&
        tempQty == 1 && customSize == (if old(useCustomSize) then [] else old(customSize)) &&
        serviceLocation == [] && serviceDimensions == []
      ensures old(Ready()) && old(tempQty) > 0 && old(Plan()).Some? ==>
        TotalQuantity(orderItems) == TotalQuantity(old(orderItems)) + old(tempQty)
      ensures clientId == old(clientId) && garmentModel == old(garmentModel) && fabricType == old(fabricType)
      ensures fabricColor == old(fabricColor) && referenceImages == old(referenceImages) && orderMode == old(orderMode)
      ensures tempGender == old(tempGender) && tempSize == old(tempSize) && tempColor == old(tempColor)
      ensures useSpecificColor == old(useSpecificColor) && useCustomSize == old(useCustomSize)
    {
      var plan := Plan();
      if Ready() && tempQty > 0 && plan.Some? {
        var color := EffectiveColor(useSpecificColor, tempColor, fabricColor);
        var merged := Merge(orderItems, plan.value, color, orderMode, tempQty, newId, garmentModel);
        assert TotalQuantity(merged) == TotalQuantity(orderItems) + tempQty by {
          MergeTotal(orderItems, plan.value, color, orderMode, tempQty, newId, garmentModel);
        }
        CommitLines(merged);
      }
    }

    /** The accepted half of `handleAddItem`: the merged lines are set, the
        quantity goes back to 1 and the custom size and service fields clear. */
    method CommitLines(merged: seq<OrderItem>)
      modifies this
      ensures orderItems == merged && tempQty == 1
      ensures customSize == (if old(useCustomSize) then [] else old(customSize))
      ensures serviceLocation == [] && serviceDimensions == []
      ensures clientId == old(clientId) && garmentModel == old(garmentModel) && fabricType == old(fabricType)
      ensures fabricColor == old(fabricColor) && referenceImages == old(referenceImages) && orderMode == old(orderMode)
      ensures tempGender == old(tempGender) && tempSize == old(tempSize) && tempColor == old(tempColor)
      ensures useSpecificColor == old(useSpecificColor) && useCustomSize == old(useCustomSize)
    {
      orderItems, tempQty, serviceLocation, serviceDimensions := merged, 1, [], [];
      customSize := if useCustomSize then [] else customSize;
    }

    /** `handleRemoveItem`: every line with that id goes, the others keep their order. */
    method RemoveItem(id: string)
      modifies this
      ensures orderItems == Filter(old(orderItems), (i: OrderItem) => i.id != id)
      ensures forall i :: i in orderItems <==> i in old(orderItems) && i.id != id
      ensures referenceImages == old(referenceImages) && tempQty == old(tempQty)
      ensures clientId == old(clientId) && garmentModel == old(garmentModel) && fabricType == old(fabricType)
      ensures fabricColor == old(fabricColor) && orderMode == old(orderMode)
      ensures tempGender == old(tempGender) && tempSize == old(tempSize) && tempColor == old(tempColor)
      ensures useSpecificColor == old(useSpecificColor) && customSize == old(customSize) && useCustomSize == old(useCustomSize)
      ensures serviceLocation == old(serviceLocation) && serviceDimensions == old(serviceDimensions)
    {
      forall i ensures i in Filter(orderItems, (i: OrderItem) => i.id != id) <==> i in orderItems && i.id != id {
        FilterMembership(orderItems, (i: OrderItem) => i.id != id, i);
      }
      orderItems := Filter(orderItems, (i: OrderItem) => i.id != id);
    }

    /** The upload handler: the data URL is appended when the reader produced one. */
    method AddImage(dataUrl: string)
      modifies this
      ensures referenceImages == if dataUrl != [] then old(referenceImages) + [dataUrl] else old(referenceImages)
      ensures orderItems == old(orderItems) && tempQty == old(tempQty)
      ensures clientId == old(clientId) && garmentModel == old(garmentModel) && fabricType == old(fabricType)
      ensures fabricColor == old(fabricColor) && orderMode == old(orderMode)
      ensures tempGender == old(tempGender) && tempSize == old(tempSize) && tempColor == old(tempColor)
      ensures useSpecificColor == old(useSpecificColor) && customSize == old(customSize) && useCustomSize == old(useCustomSize)
      ensures serviceLocation == old(serviceLocation) && serviceDimensions == old(serviceDimensions)
    {
      if dataUrl != [] {
        referenceImages := referenceImages + [dataUrl];
      }
    }

    /** `handleRemoveImage`: `splice(index, 1)` on the image list. */
    method RemoveImage(index: int)
      modifies this
      ensures referenceImages == Spliced(old(referenceImages), index)
      ensures 0 <= index < |old(referenceImages)| ==>
        referenceImages == old(referenceImages)[..index] + old(referenceImages)[index + 1..]
      ensures orderItems == old(orderItems) && tempQty == old(tempQty)
      ensures clientId == old(clientId) && garmentModel == old(garmentModel) && fabricType == old(fabricType)
      ensures fabricColor == old(fabricColor) && orderMode == old(orderMode)
      ensures tempGender == old(tempGender) && tempSize == old(tempSize) && tempColor == old(tempColor)
      ensures useSpecificColor == old(useSpecificColor) && customSize == old(customSize) && useCustomSize == old(useCustomSize)
      ensures serviceLocation == old(serviceLocation) && serviceDimensions == old(serviceDimensions)
    {
      referenceImages := Spliced(referenceImages, index);
    }
  }
}
