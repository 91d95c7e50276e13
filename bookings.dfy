/** Bookings: the record of a placed order, the process-wide id counter that
    stamps each new record, the prototype-based copy, and the builder that
    turns a customer name, an item name and a payment method into a booking. */
module Bookings {
  import opened Wrappers
  import opened Catalog

  /** A placed order. `name`, `order` and `payment` are `None` where the
      JavaScript object holds `undefined`: a builder setter that was never
      called, or an item no factory knows. */
  datatype Booking = Booking(
    id: int,
    name: Option<string>,
    order: Option<Order>,
    payment: Option<string>,
    time: string,
    isClone: bool)

  /** The global `orderIdCounter`. `issued` records, in order, every id handed
      out during this run. */
  class IdCounter {
    var next: int
    ghost var issued: seq<int>

    /** Ids handed out so far are strictly increasing and all below `next`. */
    ghost predicate Valid()
      reads this
    {
      && (forall i, j :: 0 <= i < j < |issued| ==> issued[i] < issued[j])
      && (forall i :: 0 <= i < |issued| ==> issued[i] < next)
    }

    /** The counter starts at 1 when the script loads. */
    constructor ()
      ensures Valid() && next == 1 && issued == []
    {
      next := 1;
      issued := [];
    }

    /** `orderIdCounter++`: yields the current value and advances by one. */
    method Take() returns (id: int)
      requires Valid()
      modifies this
      ensures Valid()
      ensures id == old(next) && next == old(next) + 1
      ensures issued == old(issued) + [id]
    {
      id := next;
      next := next + 1;
      issued := issued + [id];
    }
  }

  /** `new OrderBooking(name, order, payment, isClone)`: takes a fresh id from
      the counter and stamps the record with the given time. */
  method NewOrderBooking(counter: IdCounter, name: Option<string>, order: Option<Order>,
                         payment: Option<string>, time: string, isClone: bool)
    returns (b: Booking)
    requires counter.Valid()
    modifies counter
    ensures counter.Valid()
    ensures counter.next == old(counter.next) + 1 && counter.issued == old(counter.issued) + [b.id]
    ensures b == Booking(old(counter.next), name, order, payment, time, isClone)
  {
    var id := counter.Take();
    b := Booking(id, name, order, payment, time, isClone);
  }

  /** `new OrderPrototype(source)`: copies every field of `source`, then
      overrides the id with a fresh one, the time, and the clone flag. */
  method NewOrderPrototype(counter: IdCounter, source: Booking, time: string) returns (p: Booking)
    requires counter.Valid()
    modifies counter
    ensures counter.Valid()
    ensures counter.next == old(counter.next) + 1 && counter.issued == old(counter.issued) + [p.id]
    ensures p.name == source.name && p.order == source.order && p.payment == source.payment
    ensures p.id == old(counter.next) && p.time == time && p.isClone
  {
    var id := counter.Take();
    p := source.(id := id, time := time, isClone := true);
  }

  /** `prototype.clone()`: a further prototype built from this one, so it
      takes one more id from the counter. */
  method ClonePrototype(counter: IdCounter, prototype: Booking, time: string) returns (c: Booking)
    requires counter.Valid()
    modifies counter
    ensures counter.Valid()
    ensures counter.next == old(counter.next) + 1 && counter.issued == old(counter.issued) + [c.id]
    ensures c.name == prototype.name && c.order == prototype.order && c.payment == prototype.payment
    ensures c.id == old(counter.next) && c.time == time && c.isClone
  {
    c := NewOrderPrototype(counter, prototype, time);
  }

  /** The booking builder: three setters that each return the builder
      itself, and `Build`. */
  class OrderBookingBuilder {
    var name: Option<string>
    var item: Option<string>
    var payment: Option<string>

    /** A fresh builder has no field set. */
    constructor ()
      ensures name == None && item == None && payment == None
    {
      name, item, payment := None, None, None;
    }

    method SetName(name: string) returns (self: OrderBookingBuilder)
      modifies this
      ensures self == this
      ensures this.name == Some(name) && item == old(item) && payment == old(payment)
    {
      this.name := Some(name);
      self := this;
    }

    method SetItem(item: string) returns (self: OrderBookingBuilder)
      modifies this
      ensures self == this
      ensures this.item == Some(item) && name == old(name) && payment == old(payment)
    {
      this.item := Some(item);
      self := this;
    }

    method SetPayment(payment: string) returns (self: OrderBookingBuilder)
      modifies this
      ensures self == this
      ensures this.payment == Some(payment) && name == old(name) && item == old(item)
    {
      this.payment := Some(payment);
      self := this;
    }

    /** Picks a factory for the item, asks it for the order, and books it
        under a fresh id. An unknown item still yields a booking, whose order
        is absent; nothing is thrown. The builder itself is unchanged. */
    method Build(counter: IdCounter, time: string) returns (b: Booking)
      requires counter.Valid()
      modifies counter
      ensures counter.Valid()
      ensures counter.next == old(counter.next) + 1 && counter.issued == old(counter.issued) + [b.id]
      ensures b == Booking(old(counter.next), name, Resolve(item), payment, time, false)
    {
      var factory := ChooseFactory(item);
      var order := CreateOrder(factory, item);
      b := NewOrderBooking(counter, name, order, payment, time, false);
    }
  }
}
