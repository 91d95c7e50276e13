/** Pure operations on the list of bookings: removing the bookings with one
    id (the `filter` inside `cancelOrder`) and selecting one category (the
    `filter` step of `renderOrders`), with the facts the store relies on. */
module OrderList {
  import opened Wrappers
  import opened Catalog
  import opened Bookings

  /** `r` is obtained from `s` by deleting elements, keeping the order of the rest. */
  predicate IsSubsequence(r: seq<Booking>, s: seq<Booking>)
    decreases |s|
  {
    if r == [] then true
    else if s == [] then false
    else (r[0] == s[0] && IsSubsequence(r[1..], s[1..])) || IsSubsequence(r, s[1..])
  }

  /** Ids strictly increase from the front of the list to its back. */
  ghost predicate IdsIncreasing(s: seq<Booking>)
  {
    forall i, j :: 0 <= i < j < |s| ==> s[i].id < s[j].id
  }

  /** Every id in the list is below `bound`. */
  ghost predicate IdsBelow(s: seq<Booking>, bound: int)
  {
    forall i :: 0 <= i < |s| ==> s[i].id < bound
  }

  // ---------------------------------------------------------------------
  // Cancelling: `orders.filter(o => o.id !== id)`

  /** The bookings of `s` whose id is not `id`, in their original order. */
  function WithoutId(s: seq<Booking>, id: int): (r: seq<Booking>)
    ensures forall b :: b in r <==> b in s && b.id != id
    ensures |r| <= |s|
    ensures (forall i :: 0 <= i < |s| ==> s[i].id != id) ==> r == s
  {
    if s == [] then []
    else (if s[0].id != id then [s[0]] else []) + WithoutId(s[1..], id)
  }

  /** Removal works element by element: cancelling from a concatenation is
      cancelling from each part, so the survivors keep their relative order. */
  lemma {:induction false} WithoutIdAppend(a: seq<Booking>, b: seq<Booking>, id: int)
    ensures WithoutId(a + b, id) == WithoutId(a, id) + WithoutId(b, id)
  {
    if a == [] {
      assert a + b == b;
    } else {
      assert (a + b)[1..] == a[1..] + b;
      WithoutIdAppend(a[1..], b, id);
    }
  }

  /** The result of a cancel is a subsequence of the list it was taken from. */
  lemma {:induction false} WithoutIdIsSubsequence(s: seq<Booking>, id: int)
    ensures IsSubsequence(WithoutId(s, id), s)
  {
    if s != [] {
      WithoutIdIsSubsequence(s[1..], id);
      if s[0].id != id {
        var r := WithoutId(s, id);
        assert r[0] == s[0] && r[1..] == WithoutId(s[1..], id);
      } else {
        assert WithoutId(s, id) == WithoutId(s[1..], id);
      }
    }
  }

  /** Cancelling the same id twice is cancelling it once. */
  lemma WithoutIdIdempotent(s: seq<Booking>, id: int)
    ensures WithoutId(WithoutId(s, id), id) == WithoutId(s, id)
  {
    var r := WithoutId(s, id);
    assert forall i :: 0 <= i < |r| ==> r[i] in r;
  }

  /** A cancel removes every booking with that id and keeps every other
      booking as often as it occurred. */
  lemma {:induction false} WithoutIdMultiplicity(s: seq<Booking>, id: int, b: Booking)
    ensures multiset(WithoutId(s, id))[b] == if b.id == id then 0 else multiset(s)[b]
  {
    if s != [] {
      WithoutIdMultiplicity(s[1..], id, b);
      assert s == [s[0]] + s[1..];
    }
  }

  // ---------------------------------------------------------------------
  // Filtering by category: `orders.filter(o => o.order.category === filter)`

  /** What `o.order.category` throws on: the booking at `index` has no order. */
  datatype FilterError = MissingOrder(index: nat)

  /** The bookings of `s` whose order has `category`, in their original
      order. Reading the category of a booking without an order throws, and the
      first such booking in `s` is the one reported. */
  function OfCategory(s: seq<Booking>, category: string): (r: Result<seq<Booking>, FilterError>)
    ensures r.Err? <==> exists i :: 0 <= i < |s| && s[i].order.None?
    ensures r.Err? ==> r.error.index < |s| && s[r.error.index].order.None?
                       && forall j :: 0 <= j < r.error.index ==> s[j].order.Some?
    ensures r.Ok? ==> forall b :: b in r.value <==> b in s && b.order.value.category == category
  {
    if s == [] then Ok([])
    else match s[0].order
      case None => Err(MissingOrder(0))
      case Some(o) =>
        var rest := OfCategory(s[1..], category);
        match rest
        case Err(MissingOrder(i)) =>
          assert s[1..][i] == s[i + 1];
          Err(MissingOrder(i + 1))
        case Ok(kept) =>
          assert forall i :: 0 < i < |s| ==> s[i] == s[1..][i - 1];
          Ok((if o.category == category then [s[0]] else []) + kept)
  }

  /** The filter `renderOrders` applies: "all" shows every booking, any other
      value the bookings of that category. */
  function ListFiltered(s: seq<Booking>, filter: string): (r: Result<seq<Booking>, FilterError>)
    ensures filter == "all" ==> r == Ok(s)
    ensures r.Ok? ==> forall b :: b in r.value ==> b in s
    ensures filter != "all" && r.Ok? ==>
              forall b :: b in r.value ==> b.order.Some? && b.order.value.category == filter
    ensures filter != "all" ==> (r.Err? <==> exists i :: 0 <= i < |s| && s[i].order.None?)
  {
    if filter == "all" then Ok(s) else OfCategory(s, filter)
  }

  /** "all" returns the whole list, whatever it holds. */
  lemma ListAllIsEverything(s: seq<Booking>)
    ensures ListFiltered(s, "all") == Ok(s)
  {
  }

  /** Selecting a category works element by element, over any split of the list. */
  lemma {:induction false} OfCategoryAppend(a: seq<Booking>, b: seq<Booking>, category: string)
    requires forall i :: 0 <= i < |a| ==> a[i].order.Some?
    ensures OfCategory(a + b, category).Ok? == OfCategory(b, category).Ok?
    ensures OfCategory(a + b, category).Ok? ==>
              OfCategory(a + b, category).value == OfCategory(a, category).value + OfCategory(b, category).value
  {
    if a == [] {
      assert a + b == b;
    } else {
      assert (a + b)[1..] == a[1..] + b;
      OfCategoryAppend(a[1..], b, category);
    }
  }

  /** A successful category selection is a subsequence of the list. */
  lemma {:induction false} OfCategoryIsSubsequence(s: seq<Booking>, category: string)
    requires OfCategory(s, category).Ok?
    ensures IsSubsequence(OfCategory(s, category).value, s)
  {
    if s != [] {
      OfCategoryIsSubsequence(s[1..], category);
      var r := OfCategory(s, category).value;
      if s[0].order.value.category == category {
        assert r[0] == s[0] && r[1..] == OfCategory(s[1..], category).value;
      } else {
        assert r == OfCategory(s[1..], category).value;
      }
    }
  }

  // ---------------------------------------------------------------------
  // Id order

  /** Every element of a subsequence comes from the original list. */
  lemma {:induction false} SubsequenceMembers(r: seq<Booking>, s: seq<Booking>)
    requires IsSubsequence(r, s)
    ensures forall b :: b in r ==> b in s
    decreases |s|
  {
    if r != [] {
      if r[0] == s[0] && IsSubsequence(r[1..], s[1..]) {
        SubsequenceMembers(r[1..], s[1..]);
        assert forall b :: b in r ==> b == r[0] || b in r[1..];
      } else {
        SubsequenceMembers(r, s[1..]);
      }
    }
  }

  /** Deleting bookings cannot break the increasing order of ids. */
  lemma {:induction false} SubsequenceKeepsIdsIncreasing(r: seq<Booking>, s: seq<Booking>)
    requires IsSubsequence(r, s) && IdsIncreasing(s)
    ensures IdsIncreasing(r)
    decreases |s|
  {
    if r != [] {
      assert IdsIncreasing(s[1..]) by {
        forall i, j | 0 <= i < j < |s| - 1 ensures s[1..][i].id < s[1..][j].id {
          assert s[1..][i] == s[i + 1] && s[1..][j] == s[j + 1];
        }
      }
      if r[0] == s[0] && IsSubsequence(r[1..], s[1..]) {
        SubsequenceKeepsIdsIncreasing(r[1..], s[1..]);
        SubsequenceMembers(r[1..], s[1..]);
        forall j | 0 < j < |r| ensures r[0].id < r[j].id {
          assert r[j] in r[1..] by { assert r[j] == r[1..][j - 1]; }
          var k :| 0 <= k < |s[1..]| && s[1..][k] == r[j];
          assert s[k + 1] == r[j];
        }
        forall i, j | 0 < i < j < |r| ensures r[i].id < r[j].id {
          assert r[i] == r[1..][i - 1] && r[j] == r[1..][j - 1];
        }
      } else {
        SubsequenceKeepsIdsIncreasing(r, s[1..]);
      }
    }
  }

  /** A cancel keeps ids increasing and below any bound they were below. */
  lemma WithoutIdKeepsIdOrder(s: seq<Booking>, id: int, bound: int)
    requires IdsIncreasing(s) && IdsBelow(s, bound)
    ensures IdsIncreasing(WithoutId(s, id)) && IdsBelow(WithoutId(s, id), bound)
  {
    var r := WithoutId(s, id);
    WithoutIdIsSubsequence(s, id);
    SubsequenceKeepsIdsIncreasing(r, s);
    forall i | 0 <= i < |r| ensures r[i].id < bound {
      assert r[i] in s;
    }
  }

  /** Appending a booking whose id is above every id in the list keeps ids increasing. */
  lemma AppendKeepsIdsIncreasing(s: seq<Booking>, b: Booking)
    requires IdsIncreasing(s) && IdsBelow(s, b.id)
    ensures IdsIncreasing(s + [b])
  {
  }
}
