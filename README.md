# Food-Delivery order core in Dafny

This project models the order-management core of the Food-Delivery page
(`script.js`). The core has five parts:

- an item catalog served by two factories, fast food and Italian;
- a builder that turns a customer name, an item name and a payment method into a booking;
- a global id counter that numbers bookings;
- a prototype-based copy used by "repeat last order";
- the singleton `OrderManager`, which owns the list of bookings and writes it
  through to local storage after every change.

The DOM rendering and event wiring around the core are not modelled. Only the
state changes the handlers make are kept.

Files and modules:

- `catalog.dfy`: `Wrappers` (`Option`, `Result`) and `Catalog` (the `Order` record, both factories, the factory choice, and the catalog written out as a table).
- `bookings.dfy`: `Bookings`. This holds the `Booking` record and the `IdCounter` class (the global `orderIdCounter`). It also holds the `OrderBooking` and `OrderPrototype` constructors, written as methods that take an id from the counter, and the `OrderBookingBuilder` class.
- `order_list.dfy`: `OrderList`. These are the pure list operations: removing the bookings with one id (`cancelOrder`'s filter) and selecting a category (the filter step of `renderOrders`). It also holds lemmas on subsequences and id order.
- `store.dfy`: `Store`. This holds local storage as a class with a key→list map, the `OrderManager` class, and the static `OrderManager.instance` slot with the singleton construction.
- `handlers.dfy`: `Handlers`. These are the submit, cancel, show-filtered, repeat-last and clear-all handlers, each reduced to its state change.

Modelling choices:

- Values that JavaScript leaves `undefined` are `None`. This covers a builder field whose setter was never called, and the order of a booking whose item no factory knows.
- The time from `new Date().toLocaleTimeString()` is an opaque string parameter. Each read of the clock is its own parameter.
- The answer of `confirm(...)` in the clear handler is a boolean parameter.
- `localStorage` is a `LocalStorage` object holding a `map<string, seq<Booking>>`. `JSON.stringify` followed by `JSON.parse` is taken to give back the same list. Fields that are `undefined` are dropped on save and read back as `undefined`, which is `None` on both sides.
- The id counter is an unbounded integer. A JavaScript number stays exact well beyond any reachable count of orders.
- Id uniqueness is claimed only within one run. The counter restarts at 1 on every page load, while `loadOrders` restores bookings with old ids. `Handlers.IdsFresh` is the invariant that every stored id was issued by the counter in this run, that ids increase along the list, and that all lie below the counter. Every handler preserves it, and under it the repeated order's id differs from its source's.

Four behaviours of the code that the model keeps as they are:

- `build` throws no error: an unknown item gives a booking whose order is absent, and empty fields are accepted.
- Dispatch uses the two-name allowlist `["Burger", "Fries"]`, not a table. The table `Catalog.Menu` exists only as the reference that dispatch is proved against.
- "Repeat last order" takes two ids from the counter, not one. `new OrderPrototype(last)` takes one and `.clone()` takes another.
- The category filter does not tolerate a booking without an order. Reading `o.order.category` throws there, and the model returns `Err(MissingOrder(i))` for the first such booking.

## Model

| member | source | states |
|---|---|---|
| `Catalog.FastFoodCreateOrder` | script.js:13-18 | yields an order exactly for Burger and Fries; the order carries the requested name, category "Fast Food" and a positive price; any other or unset name yields none |
| `Catalog.ItalianCreateOrder` | script.js:19-24 | yields an order exactly for Pizza and Pasta; the order carries the requested name, category "Italian" and a positive price; any other or unset name yields none |
| `Catalog.ChooseFactory` | script.js:76-81 | the fast-food factory is chosen if and only if the item is "Burger" or "Fries"; everything else, an unset item included, goes to the Italian factory |
| `Catalog.CreateOrder` | script.js:82 | asking a factory for an item yields, if anything, an order under the requested name with a positive price and that factory's own category |
| `Catalog.Resolve` | script.js:76-82 | an order obtained through dispatch has the requested name, a positive price, and one of the two categories |
| `Catalog.ResolveIsMenuLookup` | script.js:12-24 | dispatch followed by the chosen factory equals a lookup in the table Burger→150/Fast Food, Fries→100/Fast Food, Pizza→250/Italian, Pasta→200/Italian; any other name gives no order |
| `Catalog.DispatchLosesNoItem` | script.js:77-82 | whenever either factory knows an item, the dispatched lookup finds it |
| `Bookings.IdCounter.constructor` | script.js:1 | the counter starts at 1 with no id issued |
| `Bookings.IdCounter.Take` | script.js:61 | returns the current counter value and advances the counter by exactly 1; the ids issued so far stay strictly increasing and below the counter |
| `Bookings.NewOrderBooking` | script.js:59-68 | the booking takes the current counter value as its id and carries the given name, order, payment, time and clone flag; the counter advances by 1 |
| `Bookings.NewOrderPrototype` | script.js:88-94 | the copy keeps the source's name, order and payment, takes a fresh id from the counter, the given time, and `isClone = true`; the counter advances by 1 |
| `Bookings.ClonePrototype` | script.js:95 | cloning a prototype is one more prototype construction: same name, order and payment, a fresh id, the counter advances by 1 |
| `Bookings.OrderBookingBuilder.constructor` | script.js:71 | a new builder has name, item and payment unset |
| `Bookings.OrderBookingBuilder.SetName` | script.js:72 | sets the name, leaves the other fields alone, and returns the builder itself |
| `Bookings.OrderBookingBuilder.SetItem` | script.js:73 | sets the item, leaves the other fields alone, and returns the builder itself |
| `Bookings.OrderBookingBuilder.SetPayment` | script.js:74 | sets the payment, leaves the other fields alone, and returns the builder itself |
| `Bookings.OrderBookingBuilder.Build` | script.js:75-84 | returns a booking with a fresh id, the builder's name and payment, the dispatched order (absent for an unknown item, without any error) and `isClone = false`; only the counter changes |
| `OrderList.WithoutId` | script.js:44 | a booking survives a cancel if and only if it was in the list and its id differs; when no booking has the id, the list is returned unchanged |
| `OrderList.WithoutIdAppend` | script.js:44 | cancelling from a concatenation is cancelling from each part, so survivors keep their relative order |
| `OrderList.WithoutIdIsSubsequence` | script.js:44 | the result of a cancel is a subsequence of the old list |
| `OrderList.WithoutIdMultiplicity` | script.js:44 | every booking with the id is removed; every other booking occurs exactly as often as before |
| `OrderList.WithoutIdIdempotent` | script.js:43-46 | cancelling twice with the same id equals cancelling once |
| `OrderList.WithoutIdKeepsIdOrder` | script.js:43-46 | a cancel keeps ids strictly increasing and below any bound they were below |
| `OrderList.AppendKeepsIdsIncreasing` | script.js:34-37 | appending a booking whose id exceeds every stored id keeps ids strictly increasing |
| `OrderList.OfCategory` | script.js:110-112 | when every booking has an order, the result holds exactly the bookings whose category equals the filter; otherwise reading the category throws, and the first booking without an order is reported |
| `OrderList.OfCategoryAppend` | script.js:111 | selecting a category from a concatenation is selecting from each part, so the kept bookings keep their relative order |
| `OrderList.OfCategoryIsSubsequence` | script.js:111 | a successful category selection is a subsequence of the list |
| `OrderList.ListFiltered` | script.js:109-112 | "all" gives the whole list; any other filter keeps only bookings of the list whose order has that category, and fails exactly when some booking has no order |
| `OrderList.ListAllIsEverything` | script.js:110 | the filter "all" returns the whole list, whatever it holds |
| `Store.Persisted` | script.js:53-54 | loading yields the list stored under the key, or the empty list when nothing is stored; with `Store.LoadAfterSave`, whatever is saved under the key is what a later load returns |
| `Store.LoadAfterSave` | script.js:48-55 | what is saved under the key is what a later load reads back |
| `Store.LoadWithNothingStored` | script.js:52-55 | loading with nothing stored yields the empty list |
| `Store.OrderManager.constructor` | script.js:30 | a fresh manager's list is what storage holds under the key, or empty; storage and memory agree |
| `Store.OrderManager.AddOrder` | script.js:34-37 | the new list is the old list with the booking appended at the end; storage then holds the new list under the key and nothing else in storage changes |
| `Store.OrderManager.GetOrders` | script.js:39-41 | returns the current list and changes nothing |
| `Store.OrderManager.CancelOrder` | script.js:43-46 | the new list is the old list without the bookings with that id; storage then holds it |
| `Store.OrderManager.SaveOrders` | script.js:48-50 | storage holds the current list under the key and nothing else in storage changes |
| `Store.OrderManager.LoadOrders` | script.js:52-55 | returns the stored list, or the empty list when nothing is stored |
| `Store.ManagerSlot.constructor` | script.js:29-31 | the static instance slot starts empty, so the first construction is the one that loads |
| `Store.ConstructOrderManager` | script.js:28-32 | the first construction creates a manager loaded from storage and records it in the slot; any later construction returns the recorded instance and changes nothing |
| `Handlers.SubmitOrder` | script.js:140-153 | the list gains, at its end, a booking with the next id, the form's name and payment, the dispatched order and `isClone = false`; storage becomes the old map with the new list under "orders", every other key unchanged; the ids-fresh invariant is kept |
| `Handlers.CancelOrder` | script.js:133-136 | the list loses exactly the bookings with that id; storage becomes the old map with the new list under "orders" (`[]` if none remain), every other key unchanged; the ids-fresh invariant is kept |
| `Handlers.ShowOrders` | script.js:106-112 | the shown list is the filtered list, and the store is not modified |
| `Handlers.RepeatLastOrder` | script.js:166-174 | with an empty list nothing changes; otherwise the list gains a copy of the last booking's name, order and payment with `isClone = true`, the counter advances by 2, storage becomes the old map with the new list under "orders" and every other key unchanged, and under the ids-fresh invariant the copy's id differs from its source's |
| `Handlers.ClearOrders` | script.js:180-186 | after confirmation the list is empty and storage holds the empty list; without it nothing changes; the ids-fresh invariant is kept |

## Left out

- DOM rendering, templates, event listeners, `form.reset` and the status texts (script.js:100-190 apart from the state changes above): presentation only.
- The CSS class name built from the category (script.js:116): presentation only.
- The "all" view itself throws while rendering a booking without an order (script.js:116); only the filter step is modelled, and it returns the list unchanged.
- `JSON.stringify` and `JSON.parse`: foreign calls. Storage holds lists of bookings directly. A corrupt stored value, on which `JSON.parse` throws, is not modelled. Neither is an empty-string stored value, which `loadOrders` treats like an absent one.
- `new Date().toLocaleTimeString()`: the clock is a parameter.
- Storage writes are assumed to succeed. `localStorage.setItem` (script.js:49) can throw, for example when the quota is exceeded; `addOrder` has then already changed the list in memory, so memory and storage disagree. The model does not capture that failure, which is why `InSync` is promised after every write.
- `Store.OrderManager.GetOrders` returns a value. The JavaScript method returns the live array, so a caller could mutate the store through it; the handlers never do, and that aliasing is not modelled.
- `Handlers.RepeatLastOrder`: its claim that the copy's id is new is stated only under `IdsFresh`. After a page reload, restored bookings can carry ids at or above the restarted counter, and then the copy's id can collide with an existing one.
- Extra properties copied by `Object.assign` (script.js:90) beyond the six booking fields are not modelled: every booking the core creates has exactly those six.
