/** The order store: the singleton `OrderManager`, which owns the list of
    bookings and writes it through to the browser's key-value storage after
    every change. */
module Store {
  import opened Bookings
  import opened OrderList

  /** The one storage key the store uses. */
  const OrdersKey: string := "orders"

  /** The browser's local storage, holding for each key the list of bookings
      last written under it (JSON encoding is not modelled). */
  class LocalStorage {
    var items: map<string, seq<Booking>>

    constructor (items: map<string, seq<Booking>>)
      ensures this.items == items
    {
      this.items := items;
    }
  }

  /** What loading finds in `items`: the stored list, or none when nothing
      is stored under the key. */
  function Persisted(items: map<string, seq<Booking>>): (r: seq<Booking>)
    ensures OrdersKey in items ==> r == items[OrdersKey]
    ensures OrdersKey !in items ==> r == []
  {
    if OrdersKey in items then items[OrdersKey] else []
  }

  /** Whatever was saved is what a later load reads back. */
  lemma LoadAfterSave(items: map<string, seq<Booking>>, s: seq<Booking>)
    ensures Persisted(items[OrdersKey := s]) == s
  {
  }

  /** Loading with nothing stored yields the empty list. */
  lemma LoadWithNothingStored(items: map<string, seq<Booking>>)
    requires OrdersKey !in items
    ensures Persisted(items) == []
  {
  }

  class OrderManager {
    var orders: seq<Booking>
    const storage: LocalStorage

    /** The stored list equals the list in memory. */
    ghost predicate InSync()
      reads this, storage
    {
      Persisted(storage.items) == orders
    }

    /** A fresh manager starts with what the storage holds. */
    constructor (storage: LocalStorage)
      ensures this.storage == storage
      ensures orders == Persisted(storage.items)
      ensures InSync()
    {
      this.storage := storage;
      orders := [];
      new;
      orders := LoadOrders();
    }

    /** Appends a booking at the end and writes the list through. */
    method AddOrder(b: Booking)
      modifies this, storage
      ensures orders == old(orders) + [b]
      ensures storage.items == old(storage.items)[OrdersKey := orders]
      ensures InSync()
    {
      orders := orders + [b];
      SaveOrders();
    }

    /** The current list of bookings. */
    method GetOrders() returns (r: seq<Booking>)
      ensures r == orders
    {
      r := orders;
    }

    /** Drops every booking with the given id (none, if the id is absent) and
        writes the list through. */
    method CancelOrder(id: int)
      modifies this, storage
      ensures orders == WithoutId(old(orders), id)
      ensures storage.items == old(storage.items)[OrdersKey := orders]
      ensures InSync()
    {
      orders := WithoutId(orders, id);
      SaveOrders();
    }

    /** Writes the whole list under the store's key, replacing what was there. */
    method SaveOrders()
      modifies storage
      ensures storage.items == old(storage.items)[OrdersKey := orders]
      ensures InSync()
    {
      storage.items := storage.items[OrdersKey := orders];
    }

    /** Reads the stored list; with nothing stored, the empty list. */
    method LoadOrders() returns (r: seq<Booking>)
      ensures OrdersKey in storage.items ==> r == storage.items[OrdersKey]
      ensures OrdersKey !in storage.items ==> r == []
    {
      if OrdersKey in storage.items {
        r := storage.items[OrdersKey];
      } else {
        r := [];
      }
    }
  }

  /** The static `OrderManager.instance` slot. */
  class ManagerSlot {
    var instance: OrderManager?

    constructor ()
      ensures instance == null
    {
      instance := null;
    }
  }

  /** `new OrderManager()`: the first construction loads from storage and
      fills the slot; every later one returns the instance already there,
      whatever storage it is offered, and changes nothing. */
  method ConstructOrderManager(slot: ManagerSlot, storage: LocalStorage) returns (m: OrderManager)
    modifies slot
    ensures old(slot.instance) != null ==> m == old(slot.instance) && slot.instance == old(slot.instance)
    ensures old(slot.instance) == null ==>
              fresh(m) && slot.instance == m && m.storage == storage
              && m.orders == Persisted(storage.items) && m.InSync()
  {
    if slot.instance != null {
      m := slot.instance;
    } else {
      m := new OrderManager(storage);
      slot.instance := m;
    }
  }
}
