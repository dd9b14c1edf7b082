/**
 * The application shell (App.tsx): the client and order lists held as screen
 * state, and the handlers that change them. Every handler writes the new list
 * to storage and sets the same list as state, so the two never differ.
 */
module App {
  import opened Types
  import Storage
  import Folds

  /** `orders.map(o => o.id === updated.id ? updated : o)` */
  function ReplaceOrder(orders: seq<Order>, updated: Order): seq<Order> {
    seq(|orders|, k requires 0 <= k < |orders| => if orders[k].id == updated.id then updated else orders[k])
  }

  /** `orders.map(o => o.id === id ? { ...o, status } : o)` */
  function SetStatus(orders: seq<Order>, id: string, status: OrderStatus): seq<Order> {
    seq(|orders|, k requires 0 <= k < |orders| => if orders[k].id == id then orders[k].(status := status) else orders[k])
  }

  /** Replacing keeps the length and the position of every order: each order with
      the id becomes the new one, the others stay; the ids at every position are
      unchanged, and a second replacement with the same order changes nothing. */
  lemma ReplaceOrderSpec(orders: seq<Order>, updated: Order)
    ensures var r := ReplaceOrder(orders, updated);
      |r| == |orders| &&
      (forall k :: 0 <= k < |orders| ==> r[k].id == orders[k].id) &&
      (forall k :: 0 <= k < |orders| && orders[k].id == updated.id ==> r[k] == updated) &&
      (forall k :: 0 <= k < |orders| && orders[k].id != updated.id ==> r[k] == orders[k])
    ensures ReplaceOrder(ReplaceOrder(orders, updated), updated) == ReplaceOrder(orders, updated)
  {
  }

  /** An order whose id is in no order leaves the list as it was. */
  lemma ReplaceUnknownIsNoOp(orders: seq<Order>, updated: Order)
    requires forall k :: 0 <= k < |orders| ==> orders[k].id != updated.id
    ensures ReplaceOrder(orders, updated) == orders
  {
  }

  /** A status change touches only the status of the orders with the id: every
      other field of those orders and every other order stay as they were. */
  lemma SetStatusSpec(orders: seq<Order>, id: string, status: OrderStatus)
    ensures var r := SetStatus(orders, id, status);
      |r| == |orders| &&
      (forall k :: 0 <= k < |orders| ==> r[k].(status := orders[k].status) == orders[k]) &&
      (forall k :: 0 <= k < |orders| ==> r[k].status == if orders[k].id == id then status else orders[k].status)
  {
  }

  /** The last status change wins: setting a status twice is setting the second. */
  lemma SetStatusTwice(orders: seq<Order>, id: string, first: OrderStatus, second: OrderStatus)
    ensures SetStatus(SetStatus(orders, id, first), id, second) == SetStatus(orders, id, second)
  {
    var a := SetStatus(SetStatus(orders, id, first), id, second);
    var b := SetStatus(orders, id, second);
    assert |a| == |b|;
    forall k | 0 <= k < |a| ensures a[k] == b[k] {
      if orders[k].id == id {
        assert a[k] == orders[k].(status := first).(status := second);
      }
    }
  }

  class Screen {
    var clients: seq<Client>
    var orders: seq<Order>
    const store: Storage.Store

    /** The effect on mount: both lists are read from storage (seeding is not
        part of this model). */
    constructor (store: Storage.Store)
      ensures this.store == store
      ensures clients == store.clients && orders == store.orders
    {
      this.store := store;
      clients := store.clients;
      orders := store.orders;
    }

    /** The state mirrors what storage holds. */
    predicate InSync()
      reads this, store
    {
      clients == store.clients && orders == store.orders
    }

    /** `handleAddClient`: storage appends, and the state is read back. */
    method AddClient(client: Client)
      modifies this, store
      ensures clients == old(store.clients) + [client] && orders == old(orders)
      ensures store.clients == clients && store.orders == old(store.orders) && store.templates == old(store.templates)
      ensures old(InSync()) ==> InSync()
    {
      store.AddClient(client);
      clients := store.clients;
    }

    /** `handleUpdateClient` */
    method UpdateClient(client: Client)
      modifies this, store
      ensures var i := Folds.FindIndex(old(store.clients), (c: Client) => c.id == client.id);
        clients == if i == -1 then old(store.clients) else old(store.clients)[i := client]
      ensures orders == old(orders)
      ensures store.clients == clients && store.orders == old(store.orders) && store.templates == old(store.templates)
      ensures old(InSync()) ==> InSync()
    {
      store.UpdateClient(client);
      clients := store.clients;
    }

    /** `handleDeleteClient` */
    method DeleteClient(id: string)
      modifies this, store
      ensures clients == Folds.Filter(old(store.clients), (c: Client) => c.id != id) && orders == old(orders)
      ensures store.clients == clients && store.orders == old(store.orders) && store.templates == old(store.templates)
      ensures old(InSync()) ==> InSync()
    {
      store.DeleteClient(id);
      clients := store.clients;
    }

    /** `handleAddOrder`: the order is appended to the list on screen, and that
        list is both saved and kept. */
    method AddOrder(order: Order)
      modifies this, store
      ensures orders == old(orders) + [order] && clients == old(clients)
      ensures store.orders == orders && store.clients == old(store.clients) && store.templates == old(store.templates)
      ensures old(InSync()) ==> InSync()
    {
      var allOrders := orders + [order];
      store.SaveOrders(allOrders);
      orders := allOrders;
    }

    /** `handleUpdateOrder` */
    method UpdateOrder(updated: Order)
      modifies this, store
      ensures orders == ReplaceOrder(old(orders), updated) && clients == old(clients)
      ensures store.orders == orders && store.clients == old(store.clients) && store.templates == old(store.templates)
      ensures old(InSync()) ==> InSync()
    {
      var updatedList := ReplaceOrder(orders, updated);
      store.SaveOrders(updatedList);
      orders := updatedList;
    }

    /** `handleUpdateOrderStatus` */
    method UpdateOrderStatus(id: string, status: OrderStatus)
      modifies this, store
      ensures orders == SetStatus(old(orders), id, status) && clients == old(clients)
      ensures store.orders == orders && store.clients == old(store.clients) && store.templates == old(store.templates)
      ensures old(InSync()) ==> InSync()
    {
      var updatedOrders := SetStatus(orders, id, status);
      store.SaveOrders(updatedOrders);
      orders := updatedOrders;
    }
  }
}
