/** Option and Result, the two failure-carrying wrappers the model uses. */
module Wrappers {

  /** A value that may be absent; `None` stands for JavaScript's `undefined`. */
  datatype Option<T> = None | Some(value: T)

  /** The outcome of an operation that may throw. */
  datatype Result<T, E> = Ok(value: T) | Err(error: E)
}

/** The item catalog: the `Order` record, the fast-food and Italian factories
    that create it, and the builder's choice between the two factories. */
module Catalog {
  import opened Wrappers

  /** An ordered item: its name, its price in rupees and its category. */
  datatype Order = Order(item: string, price: nat, category: string)

  const FastFood: string := "Fast Food"
  const Italian: string := "Italian"

  /** The two factories the builder can pick from. */
  datatype Factory = FastFoodFactory | ItalianFactory

  /** The allowlist that sends an item to the fast-food factory. */
  const FastFoodNames: seq<string> := ["Burger", "Fries"]

  /** The fast-food factory: knows Burger and Fries; any other name, and an
      unset name, yields no order. */
  function FastFoodCreateOrder(item: Option<string>): (r: Option<Order>)
    ensures r.Some? <==> item == Some("Burger") || item == Some("Fries")
    ensures r.Some? ==> Some(r.value.item) == item && r.value.category == FastFood && r.value.price > 0
  {
    if item == Some("Burger") then Some(Order("Burger", 150, FastFood))
    else if item == Some("Fries") then Some(Order("Fries", 100, FastFood))
    else None
  }

  /** The Italian factory: knows Pizza and Pasta; any other name, and an
      unset name, yields no order. */
  function ItalianCreateOrder(item: Option<string>): (r: Option<Order>)
    ensures r.Some? <==> item == Some("Pizza") || item == Some("Pasta")
    ensures r.Some? ==> Some(r.value.item) == item && r.value.category == Italian && r.value.price > 0
  {
    if item == Some("Pizza") then Some(Order("Pizza", 250, Italian))
    else if item == Some("Pasta") then Some(Order("Pasta", 200, Italian))
    else None
  }

  /** The builder's factory choice: fast food exactly for the allowlisted
      names, Italian for everything else, an unset item included. */
  function ChooseFactory(item: Option<string>): (f: Factory)
    ensures f == FastFoodFactory <==> item == Some("Burger") || item == Some("Fries")
  {
    if item.Some? && item.value in FastFoodNames then FastFoodFactory else ItalianFactory
  }

  /** `factory.createOrder(item)`: each factory yields only orders of its own
      category, under the requested name. */
  function CreateOrder(f: Factory, item: Option<string>): (r: Option<Order>)
    ensures r.Some? ==> Some(r.value.item) == item && r.value.price > 0
    ensures r.Some? ==> r.value.category == (if f == FastFoodFactory then FastFood else Italian)
  {
    match f
    case FastFoodFactory => FastFoodCreateOrder(item)
    case ItalianFactory => ItalianCreateOrder(item)
  }

  /** What `build` obtains for an item: the chosen factory's order, if any. */
  function Resolve(item: Option<string>): (r: Option<Order>)
    ensures r.Some? ==> Some(r.value.item) == item && r.value.price > 0
    ensures r.Some? ==> r.value.category == FastFood || r.value.category == Italian
  {
    CreateOrder(ChooseFactory(item), item)
  }

  /** The catalog written out as a table, independently of the factories. */
  const Menu: map<string, Order> := map[
    "Burger" := Order("Burger", 150, FastFood),
    "Fries" := Order("Fries", 100, FastFood),
    "Pizza" := Order("Pizza", 250, Italian),
    "Pasta" := Order("Pasta", 200, Italian)
  ]

  /** Dispatch followed by the chosen factory is exactly a lookup in the
      table: a known name gets its row, every other name (and an unset one)
      gets no order. */
  lemma ResolveIsMenuLookup(item: Option<string>)
    ensures Resolve(item) == if item.Some? && item.value in Menu then Some(Menu[item.value]) else None
  {
    if item.Some? && item.value in Menu {
      var n := item.value;
      assert n == "Burger" || n == "Fries" || n == "Pizza" || n == "Pasta";
    }
  }

  /** The allowlist partitions the catalog correctly: whenever either factory
      knows an item, the factory the builder picks knows it. */
  lemma DispatchLosesNoItem(item: Option<string>)
    ensures (CreateOrder(FastFoodFactory, item).Some? || CreateOrder(ItalianFactory, item).Some?)
            ==> Resolve(item).Some?
  {
  }
}
