/** The state changes the page's event handlers make: placing an order from
    the form, cancelling one, showing a filtered list, repeating the last
    order and clearing all orders. Rendering is not modelled; each handler
    takes the browser's answers (the clock, the confirmation dialog) as
    parameters. */
module Handlers {
  import opened Wrappers
  import opened Catalog
  import opened Bookings
  import opened OrderList
  import opened Store

  /** Every booking in the store was numbered in this run: its id is one the
      counter issued, ids increase along the list, and all lie below the
      counter, so the next id is new. */
  ghost predicate IdsFresh(m: OrderManager, counter: IdCounter)
    reads m, counter
  {
    && (forall i :: 0 <= i < |m.orders| ==> m.orders[i].id in counter.issued)
    && IdsIncreasing(m.orders)
    && IdsBelow(m.orders, counter.next)
  }

  /** The form's submit handler: builds a booking from the three form values
      and adds it to the store. */
  method SubmitOrder(m: OrderManager, counter: IdCounter, name: string, item: string,
                     payment: string, time: string)
    requires counter.Valid()
    modifies m, m.storage, counter
    ensures counter.Valid() && counter.next == old(counter.next) + 1
    ensures m.orders == old(m.orders)
              + [Booking(old(counter.next), Some(name), Resolve(Some(item)), Some(payment), time, false)]
    ensures m.storage.items == old(m.storage.items)[OrdersKey := m.orders]
    ensures m.InSync()
    ensures old(IdsFresh(m, counter)) ==> IdsFresh(m, counter)
  {
    var builder := new OrderBookingBuilder();
    var chained := builder.SetName(name);
    chained := chained.SetItem(item);
    chained := chained.SetPayment(payment);
    var booking := chained.Build(counter, time);
    m.AddOrder(booking);
  }

  /** The global `cancelOrder(id)` handler. The counter is read only by the
      invariant it keeps. */
  method CancelOrder(m: OrderManager, ghost counter: IdCounter, id: int)
    modifies m, m.storage
    ensures m.orders == WithoutId(old(m.orders), id)
    ensures m.storage.items == old(m.storage.items)[OrdersKey := m.orders]
    ensures m.InSync()
    ensures old(IdsFresh(m, counter)) ==> IdsFresh(m, counter)
  {
    ghost var before := m.orders;
    m.CancelOrder(id);
    if IdsIncreasing(before) && IdsBelow(before, counter.next) {
      WithoutIdKeepsIdOrder(before, id, counter.next);
    }
  }

  /** The filter step of `renderOrders`: reads the store and changes nothing. */
  method ShowOrders(m: OrderManager, filter: string) returns (r: Result<seq<Booking>, FilterError>)
    ensures r == ListFiltered(m.orders, filter)
  {
    var orders := m.GetOrders();
    if filter != "all" {
      r := OfCategory(orders, filter);
    } else {
      r := Ok(orders);
    }
  }

  /** The repeat-last-order handler. With an empty store it does nothing.
      Otherwise it builds a prototype of the last booking and clones that
      prototype, so two ids are taken from the counter and the one added is
      the second; the clock is read once for the prototype and once for the
      clone. */
  method RepeatLastOrder(m: OrderManager, counter: IdCounter, prototypeTime: string, cloneTime: string)
    requires counter.Valid()
    modifies m, m.storage, counter
    ensures counter.Valid()
    ensures old(m.orders) == [] ==>
              m.orders == [] && counter.next == old(counter.next) && m.storage.items == old(m.storage.items)
    ensures old(m.orders) != [] ==>
              var last := old(m.orders)[|old(m.orders)| - 1];
              && counter.next == old(counter.next) + 2
              && m.orders == old(m.orders)
                   + [Booking(old(counter.next) + 1, last.name, last.order, last.payment, cloneTime, true)]
              && m.storage.items == old(m.storage.items)[OrdersKey := m.orders]
              && m.InSync()
    ensures old(IdsFresh(m, counter)) && old(m.orders) != [] ==>
              m.orders[|m.orders| - 1].id != old(m.orders)[|old(m.orders)| - 1].id
    ensures old(IdsFresh(m, counter)) ==> IdsFresh(m, counter)
  {
    var orders := m.GetOrders();
    if |orders| > 0 {
      var last := orders[|orders| - 1];
      var prototype := NewOrderPrototype(counter, last, prototypeTime);
      var clone := ClonePrototype(counter, prototype, cloneTime);
      m.AddOrder(clone);
    }
  }

  /** The clear-all handler: once the user confirms, the list becomes empty
      and the empty list is written through; otherwise nothing changes. The
      counter is read only by the invariant it keeps. */
  method ClearOrders(m: OrderManager, ghost counter: IdCounter, confirmed: bool)
    modifies m, m.storage
    ensures confirmed ==> m.orders == [] && m.storage.items == old(m.storage.items)[OrdersKey := []]
    ensures !confirmed ==> m.orders == old(m.orders) && m.storage.items == old(m.storage.items)
    ensures confirmed || old(m.InSync()) ==> m.InSync()
    ensures old(IdsFresh(m, counter)) ==> IdsFresh(m, counter)
  {
    if confirmed {
      m.orders := [];
      m.SaveOrders();
    }
  }
}
