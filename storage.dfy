/**
 * The storage service (services/storage.ts): the client list, the order list
 * and the saved uniform templates, and the next order number. The browser's
 * local storage and its JSON encoding are not modelled: each stored list is a
 * field of the store, read and written whole.
 */
module Storage {
  import opened Wrappers
  import opened Text
  import opened Folds
  import opened Types
  import Annotation

  // ---------------------------------------------------------------------------
  // Order numbers
  // ---------------------------------------------------------------------------

  /** `parseInt(orderNumber.replace('PED-', ''))`: the first "PED-" is dropped. */
  function NumberOf(orderNumber: string): Option<int> {
    ParseInt(Annotation.RemoveFirst(orderNumber, "PED-"))
  }

  /** The order numbers as read, None where `parseInt` gives NaN. */
  function Numbers(orders: seq<Order>): (r: seq<Option<int>>)
    ensures |r| == |orders|
    ensures forall k :: 0 <= k < |orders| ==> r[k] == NumberOf(orders[k].orderNumber)
  {
    seq(|orders|, k requires 0 <= k < |orders| => NumberOf(orders[k].orderNumber))
  }

  /** The `reduce` of `getNextOrderNumber`, starting from 25: NaN keeps the
      maximum, a larger number replaces it. */
  function MaxNumber(nums: seq<Option<int>>): (m: int)
    ensures m >= 25
  {
    if nums == [] then 25
    else
      var m := MaxNumber(nums[..|nums| - 1]);
      match nums[|nums| - 1]
      case None => m
      case Some(n) => if n > m then n else m
  }

  /** One more than the maximum: the number the next order gets. */
  function NextNumber(nums: seq<Option<int>>): (n: nat)
    ensures n >= 26
  {
    MaxNumber(nums) + 1
  }

  /** "PED-" and the number zero-padded to three digits. */
  function FormatNumber(n: nat): string {
    "PED-" + PadStart(DecimalString(n), 3, '0')
  }

  /** `getNextOrderNumber()`: "PED-026" for no orders, otherwise one more than
      the largest number found (and at least 26). */
  function NextOrderNumber(orders: seq<Order>): string {
    if |orders| == 0 then "PED-026" else FormatNumber(NextNumber(Numbers(orders)))
  }

  /** The maximum bounds every number read and is one of them unless it is the
      starting 25. */
  lemma {:induction false} MaxNumberIsMax(nums: seq<Option<int>>)
    ensures forall k :: 0 <= k < |nums| && nums[k].Some? ==> nums[k].value <= MaxNumber(nums)
    ensures MaxNumber(nums) == 25 || exists k :: 0 <= k < |nums| && nums[k] == Some(MaxNumber(nums))
    decreases |nums|
  {
    if nums != [] {
      var init := nums[..|nums| - 1];
      MaxNumberIsMax(init);
      assert forall k :: 0 <= k < |init| ==> nums[k] == init[k];
    }
  }

  /** The special case for no orders is what the general rule gives too. */
  lemma EmptyCaseAgrees()
    ensures FormatNumber(26) == "PED-026"
  {
    assert DecimalString(26) == "26" by {
      assert DecimalString(2) == "2";
    }
    assert PadStart("26", 3, '0') == "026";
  }

  /** Every parseable order number is at most the maximum the next number
      is built from. */
  lemma NumbersBelowMax(orders: seq<Order>)
    ensures forall k :: 0 <= k < |orders| && NumberOf(orders[k].orderNumber).Some? ==>
      NumberOf(orders[k].orderNumber).value <= MaxNumber(Numbers(orders))
  {
    var nums := Numbers(orders);
    MaxNumberIsMax(nums);
    forall k | 0 <= k < |orders| && NumberOf(orders[k].orderNumber).Some?
      ensures NumberOf(orders[k].orderNumber).value <= MaxNumber(nums)
    {
      assert nums[k] == NumberOf(orders[k].orderNumber);
    }
  }

  /** The next number is always the formatted successor of the maximum. */
  lemma NextIsSuccessor(orders: seq<Order>)
    ensures NextOrderNumber(orders) == FormatNumber(NextNumber(Numbers(orders)))
  {
    if |orders| == 0 {
      assert Numbers(orders) == [];
      EmptyCaseAgrees();
    }
  }

  /** The formatted successor reads back as one more than every parseable order
      number: the next number never repeats an existing one. */
  lemma SuccessorIsFresh(orders: seq<Order>)
    ensures NumberOf(FormatNumber(NextNumber(Numbers(orders)))) == Some(NextNumber(Numbers(orders)))
    ensures forall k :: 0 <= k < |orders| && NumberOf(orders[k].orderNumber).Some? ==>
      NumberOf(orders[k].orderNumber).value < NextNumber(Numbers(orders))
  {
    FormatReadsBack(NextNumber(Numbers(orders)));
    NumbersBelowMax(orders);
  }

  /** Dropping the first "PED-" of a formatted number leaves its digits. */
  lemma StripPrefix(n: nat)
    ensures Annotation.RemoveFirst(FormatNumber(n), "PED-") == PadStart(DecimalString(n), 3, '0')
  {
    var s := FormatNumber(n);
    assert OccursAt(s, "PED-", 0) by { assert s[0..4] == "PED-"; }
    assert Annotation.IndexOf(s, "PED-", 0) == Some(0);
    assert s[4..] == PadStart(DecimalString(n), 3, '0');
  }

  /** A formatted number parses back, and its digits are never cut to three. */
  lemma FormatReadsBack(n: nat)
    ensures NumberOf(FormatNumber(n)) == Some(n)
    ensures |FormatNumber(n)| == 4 + if |DecimalString(n)| > 3 then |DecimalString(n)| else 3
  {
    StripPrefix(n);
    ParseIntPadded(n, 3);
  }

  // ---------------------------------------------------------------------------
  // The store
  // ---------------------------------------------------------------------------

  class Store {
    var clients: seq<Client>
    var orders: seq<Order>
    var templates: seq<UniformTemplate>

    /** Storage as found: each list as last saved. */
    constructor (clients: seq<Client>, orders: seq<Order>, templates: seq<UniformTemplate>)
      ensures this.clients == clients && this.orders == orders && this.templates == templates
    {
      this.clients, this.orders, this.templates := clients, orders, templates;
    }

    /** `addClient`: the client is appended at the end. */
    method AddClient(client: Client)
      modifies this
      ensures clients == old(clients) + [client]
      ensures orders == old(orders) && templates == old(templates)
    {
      clients := clients + [client];
    }

    /** `updateClient`: the first client with the same id is replaced; without
        one nothing changes. */
    method UpdateClient(updated: Client)
      modifies this
      ensures var i := FindIndex(old(clients), (c: Client) => c.id == updated.id);
        clients == if i == -1 then old(clients) else old(clients)[i := updated]
      ensures orders == old(orders) && templates == old(templates)
    {
      var index := FindIndex(clients, (c: Client) => c.id == updated.id);
      if index != -1 {
        clients := clients[index := updated];
      }
    }

    /** `deleteClient`: every client with the id goes, the rest keep their order. */
    method DeleteClient(id: string)
      modifies this
      ensures clients == Filter(old(clients), (c: Client) => c.id != id)
      ensures orders == old(orders) && templates == old(templates)
    {
      clients := Filter(clients, (c: Client) => c.id != id);
    }

    /** `saveOrders` */
    method SaveOrders(newOrders: seq<Order>)
      modifies this
      ensures orders == newOrders
      ensures clients == old(clients) && templates == old(templates)
    {
      orders := newOrders;
    }

    /** `saveTemplate`: the template is appended. */
    method SaveTemplate(template: UniformTemplate)
      modifies this
      ensures templates == old(templates) + [template]
      ensures clients == old(clients) && orders == old(orders)
    {
      templates := templates + [template];
    }

    /** `getNextOrderNumber()` on the stored orders: the formatted successor of
        the largest order number (see SuccessorIsFresh). */
    method GetNextOrderNumber() returns (number: string)
      ensures number == NextOrderNumber(orders)
      ensures number == FormatNumber(NextNumber(Numbers(orders)))
    {
      NextIsSuccessor(orders);
      number := NextOrderNumber(orders);
    }
  }

  /** An update replaces exactly the first client with the id: the list keeps
      its length, that client becomes the new one and every other stays. */
  lemma UpdateReplacesFirst(clients: seq<Client>, updated: Client, k: nat)
    requires k < |clients| && clients[k].id == updated.id
    requires forall j :: 0 <= j < k ==> clients[j].id != updated.id
    ensures FindIndex(clients, (c: Client) => c.id == updated.id) == k
  {
    var i := FindIndex(clients, (c: Client) => c.id == updated.id);
    assert i != -1;
  }

  /** Deleting keeps exactly the clients with another id. */
  lemma DeleteKeepsOthers(clients: seq<Client>, id: string, c: Client)
    ensures c in Filter(clients, (c: Client) => c.id != id) <==> c in clients && c.id != id
  {
    FilterMembership(clients, (c: Client) => c.id != id, c);
  }
}
