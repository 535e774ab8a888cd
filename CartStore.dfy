/**
 * The shopping-cart store: a sequence of lines keyed by `id`, with totals that
 * every mutating action recomputes. Prices are whole numbers of the smallest
 * currency unit.
 */
module CartStore {
  import opened Wrappers

  datatype CartItem = CartItem(id: string, name: string, price: int, quantity: int, image: Option<string>)

  /** Some line of `items` has this id. */
  predicate HasId(items: seq<CartItem>, id: string)
  {
    exists i :: 0 <= i < |items| && items[i].id == id
  }

  /** No two lines share an id. */
  predicate UniqueIds(items: seq<CartItem>)
  {
    forall i, j :: 0 <= i < j < |items| ==> items[i].id != items[j].id
  }

  /** `b` is `a` with nothing but quantities changed: same lines, same order, same ids, names, prices, images. */
  predicate SameLines(a: seq<CartItem>, b: seq<CartItem>)
  {
    |a| == |b| && forall i :: 0 <= i < |a| ==> b[i] == a[i].(quantity := b[i].quantity)
  }

  /** `items.reduce((sum, i) => sum + i.quantity, 0)` */
  function TotalItems(items: seq<CartItem>): int
  {
    if items == [] then 0 else items[0].quantity + TotalItems(items[1..])
  }

  /** `items.reduce((sum, i) => sum + i.price * i.quantity, 0)` */
  function TotalPrice(items: seq<CartItem>): int
  {
    if items == [] then 0 else items[0].price * items[0].quantity + TotalPrice(items[1..])
  }

  /** `items.find((i) => i.id === id)`: the first line with that id. */
  function Find(items: seq<CartItem>, id: string): (r: Option<CartItem>)
    ensures r.Some? <==> HasId(items, id)
    ensures r.Some? ==> exists k :: 0 <= k < |items| && items[k] == r.value && r.value.id == id &&
                                    forall j :: 0 <= j < k ==> items[j].id != id
  {
    if items == [] then None
    else if items[0].id == id then Some(items[0])
    else
      var r := Find(items[1..], id);
      assert HasId(items, id) ==> HasId(items[1..], id) by {
        if HasId(items, id) {
          var i :| 0 <= i < |items| && items[i].id == id;
          assert items[1..][i - 1].id == id;
        }
      }
      assert r.Some? ==> exists k :: 0 <= k < |items| && items[k] == r.value && r.value.id == id &&
                                     forall j :: 0 <= j < k ==> items[j].id != id by {
        if r.Some? {
          var k :| 0 <= k < |items[1..]| && items[1..][k] == r.value && r.value.id == id &&
                   forall j :: 0 <= j < k ==> items[1..][j].id != id;
          assert items[k + 1] == r.value;
          assert forall j :: 0 <= j < k + 1 ==> items[j].id != id by {
            forall j | 0 <= j < k + 1 ensures items[j].id != id {
              if j > 0 { assert items[j] == items[1..][j - 1]; }
            }
          }
        }
      }
      r
  }

  /** A line as `addItem` rewrites it: the incoming quantity is added when the ids agree. */
  function Merged(line: CartItem, item: CartItem): CartItem
  {
    if line.id == item.id then line.(quantity := line.quantity + item.quantity) else line
  }

  /** `items.map((i) => i.id === item.id ? { ...i, quantity: i.quantity + item.quantity } : i)` */
  function MergeQuantity(items: seq<CartItem>, item: CartItem): (r: seq<CartItem>)
    ensures SameLines(items, r)
  {
    seq(|items|, i requires 0 <= i < |items| => Merged(items[i], item))
  }

  /** The lines after `addItem(item)`: merged into an existing line with its id, else appended. */
  function Added(items: seq<CartItem>, item: CartItem): (r: seq<CartItem>)
    ensures HasId(r, item.id)
    ensures |r| == |items| + (if HasId(items, item.id) then 0 else 1)
    ensures forall id :: HasId(r, id) <==> HasId(items, id) || id == item.id
  {
    if Find(items, item.id).Some? then MergeQuantity(items, item)
    else
      var r := items + [item];
      assert r[|items|] == item;
      assert forall id :: HasId(r, id) <==> HasId(items, id) || id == item.id by {
        forall id ensures HasId(r, id) <==> HasId(items, id) || id == item.id {
          if HasId(items, id) {
            var i :| 0 <= i < |items| && items[i].id == id;
            assert r[i] == items[i];
          }
          if HasId(r, id) && id != item.id {
            var i :| 0 <= i < |r| && r[i].id == id;
            assert items[i] == r[i];
          }
        }
      }
      r
  }

  /** `items.filter((i) => i.id !== id)` */
  function Removed(items: seq<CartItem>, id: string): (r: seq<CartItem>)
    ensures forall x :: x in r <==> x in items && x.id != id
    ensures !HasId(r, id)
    ensures |r| <= |items|
  {
    if items == [] then []
    else if items[0].id != id then [items[0]] + Removed(items[1..], id)
    else Removed(items[1..], id)
  }

  /** `items.map((i) => i.id === id ? { ...i, quantity } : i)` */
  function WithQuantity(items: seq<CartItem>, id: string, quantity: int): (r: seq<CartItem>)
    ensures SameLines(items, r)
  {
    seq(|items|, i requires 0 <= i < |items| => if items[i].id == id then items[i].(quantity := quantity) else items[i])
  }

  // ---- Totals ------------------------------------------------------------

  /** Totals add up over concatenation. */
  lemma {:induction false} TotalsAppend(a: seq<CartItem>, b: seq<CartItem>)
    ensures TotalItems(a + b) == TotalItems(a) + TotalItems(b)
    ensures TotalPrice(a + b) == TotalPrice(a) + TotalPrice(b)
  {
    if a == [] {
      assert a + b == b;
    } else {
      assert (a + b)[1..] == a[1..] + b;
      TotalsAppend(a[1..], b);
    }
  }

  // ---- addItem -----------------------------------------------------------

  /**
   * Adding an item whose id is already in the cart keeps every line in place
   * and changes only quantities: each line with that id grows by the incoming
   * quantity, every other line stays as it was.
   */
  lemma AddExisting(items: seq<CartItem>, item: CartItem)
    requires HasId(items, item.id)
    ensures SameLines(items, Added(items, item))
    ensures forall i :: 0 <= i < |items| ==>
              Added(items, item)[i].quantity == items[i].quantity + (if items[i].id == item.id then item.quantity else 0)
  {
  }

  /** Adding an item whose id is not in the cart appends it, unchanged, at the end. */
  lemma AddNew(items: seq<CartItem>, item: CartItem)
    requires !HasId(items, item.id)
    ensures Added(items, item) == items + [item]
  {
  }

  /** Merging a quantity into a cart without that id changes nothing. */
  lemma MergeAbsent(items: seq<CartItem>, item: CartItem)
    requires !HasId(items, item.id)
    ensures MergeQuantity(items, item) == items
  {
  }

  /**
   * With unique ids, merging adds the incoming quantity once, priced at the
   * line's own price (the incoming price is ignored).
   */
  lemma {:induction false} MergeTotals(items: seq<CartItem>, item: CartItem)
    requires UniqueIds(items) && HasId(items, item.id)
    ensures TotalItems(MergeQuantity(items, item)) == TotalItems(items) + item.quantity
    ensures TotalPrice(MergeQuantity(items, item))
         == TotalPrice(items) + Find(items, item.id).value.price * item.quantity
  {
    var m := MergeQuantity(items, item);
    assert m[1..] == MergeQuantity(items[1..], item);
    if items[0].id == item.id {
      assert !HasId(items[1..], item.id) by {
        forall i | 0 <= i < |items[1..]| ensures items[1..][i].id != item.id {
          assert items[1..][i] == items[i + 1];
        }
      }
      MergeAbsent(items[1..], item);
      var p, q := items[0].price, items[0].quantity;
      assert p * (q + item.quantity) == p * q + p * item.quantity;
    } else {
      var i :| 0 <= i < |items| && items[i].id == item.id;
      assert items[1..][i - 1].id == item.id;
      MergeTotals(items[1..], item);
    }
  }

  /**
   * With unique ids, `addItem` raises the item count by exactly the incoming
   * quantity, and the price total by that quantity times the price of the line
   * it lands in: the existing line's price when merged, its own when appended.
   */
  lemma AddedTotals(items: seq<CartItem>, item: CartItem)
    requires UniqueIds(items)
    ensures TotalItems(Added(items, item)) == TotalItems(items) + item.quantity
    ensures TotalPrice(Added(items, item))
         == TotalPrice(items) + (if HasId(items, item.id) then Find(items, item.id).value.price else item.price) * item.quantity
  {
    if HasId(items, item.id) {
      MergeTotals(items, item);
    } else {
      TotalsAppend(items, [item]);
    }
  }

  /** `addItem` never creates a second line with the same id. */
  lemma AddedKeepsUnique(items: seq<CartItem>, item: CartItem)
    requires UniqueIds(items)
    ensures UniqueIds(Added(items, item))
  {
  }

  // ---- removeItem --------------------------------------------------------

  /** Removal keeps the surviving lines in their order: it works piecewise over concatenation. */
  lemma {:induction false} RemovedKeepsOrder(a: seq<CartItem>, b: seq<CartItem>, id: string)
    ensures Removed(a + b, id) == Removed(a, id) + Removed(b, id)
  {
    if a == [] {
      assert a + b == b;
    } else {
      assert (a + b)[1..] == a[1..] + b;
      RemovedKeepsOrder(a[1..], b, id);
    }
  }

  /** Removing an id that is not in the cart changes nothing. */
  lemma {:induction false} RemovedAbsent(items: seq<CartItem>, id: string)
    requires !HasId(items, id)
    ensures Removed(items, id) == items
  {
    if items != [] {
      assert !HasId(items[1..], id) by {
        forall i | 0 <= i < |items[1..]| ensures items[1..][i].id != id {
          assert items[1..][i] == items[i + 1];
        }
      }
      RemovedAbsent(items[1..], id);
      assert items == [items[0]] + items[1..];
    }
  }

  /** With unique ids, removing a present id takes that one line's quantity and price off the totals. */
  lemma {:induction false} RemovedTotals(items: seq<CartItem>, id: string)
    requires UniqueIds(items) && HasId(items, id)
    ensures TotalItems(Removed(items, id)) == TotalItems(items) - Find(items, id).value.quantity
    ensures TotalPrice(Removed(items, id))
         == TotalPrice(items) - Find(items, id).value.price * Find(items, id).value.quantity
  {
    if items[0].id == id {
      assert !HasId(items[1..], id) by {
        forall i | 0 <= i < |items[1..]| ensures items[1..][i].id != id {
          assert items[1..][i] == items[i + 1];
        }
      }
      RemovedAbsent(items[1..], id);
    } else {
      var i :| 0 <= i < |items| && items[i].id == id;
      assert items[1..][i - 1].id == id;
      RemovedTotals(items[1..], id);
      assert Removed(items, id)[1..] == Removed(items[1..], id);
    }
  }

  /** Removal never creates a duplicate id. */
  lemma {:induction false} RemovedKeepsUnique(items: seq<CartItem>, id: string)
    requires UniqueIds(items)
    ensures UniqueIds(Removed(items, id))
  {
    if items != [] {
      var rest := Removed(items[1..], id);
      RemovedKeepsUnique(items[1..], id);
      if items[0].id != id {
        var r := [items[0]] + rest;
        forall i, j | 0 <= i < j < |r| ensures r[i].id != r[j].id {
          if i == 0 {
            assert r[j] in items[1..];
            var k :| 0 <= k < |items[1..]| && items[1..][k] == r[j];
            assert items[k + 1] == r[j];
          } else {
            assert r[i] == rest[i - 1] && r[j] == rest[j - 1];
          }
        }
      }
    }
  }

  // ---- updateQuantity ----------------------------------------------------

  /**
   * Setting a quantity keeps every line in place and changes only the quantity
   * of the lines with that id.
   */
  lemma UpdateChangesOnlyQuantity(items: seq<CartItem>, id: string, quantity: int)
    ensures SameLines(items, WithQuantity(items, id, quantity))
    ensures forall i :: 0 <= i < |items| ==>
              WithQuantity(items, id, quantity)[i].quantity == if items[i].id == id then quantity else items[i].quantity
  {
  }

  /** Setting the quantity of an id that is not in the cart changes nothing. */
  lemma UpdateUnknownId(items: seq<CartItem>, id: string, quantity: int)
    requires !HasId(items, id)
    ensures WithQuantity(items, id, quantity) == items
  {
  }

  /** Setting a quantity never creates a duplicate id. */
  lemma UpdateKeepsUnique(items: seq<CartItem>, id: string, quantity: int)
    requires UniqueIds(items)
    ensures UniqueIds(WithQuantity(items, id, quantity))
  {
  }

  /** With unique ids, setting a present line's quantity swaps its old quantity for the new one in the totals. */
  lemma {:induction false} UpdateTotals(items: seq<CartItem>, id: string, quantity: int)
    requires UniqueIds(items) && HasId(items, id)
    ensures TotalItems(WithQuantity(items, id, quantity))
         == TotalItems(items) - Find(items, id).value.quantity + quantity
    ensures TotalPrice(WithQuantity(items, id, quantity))
         == TotalPrice(items) + Find(items, id).value.price * (quantity - Find(items, id).value.quantity)
  {
    var w := WithQuantity(items, id, quantity);
    assert w[1..] == WithQuantity(items[1..], id, quantity);
    if items[0].id == id {
      assert !HasId(items[1..], id) by {
        forall i | 0 <= i < |items[1..]| ensures items[1..][i].id != id {
          assert items[1..][i] == items[i + 1];
        }
      }
      UpdateUnknownId(items[1..], id, quantity);
      var p, q := items[0].price, items[0].quantity;
      assert p * quantity == p * q + p * (quantity - q);
    } else {
      var i :| 0 <= i < |items| && items[i].id == id;
      assert items[1..][i - 1].id == id;
      UpdateTotals(items[1..], id, quantity);
    }
  }

  // ---- The store ---------------------------------------------------------

  class CartStore {
    var items: seq<CartItem>
    var totalPrice: int
    var totalItems: int

    /** The totals agree with the lines. */
    predicate TotalsCorrect()
      reads this
    {
      totalPrice == TotalPrice(items) && totalItems == TotalItems(items)
    }

    constructor ()
      ensures items == [] && totalPrice == 0 && totalItems == 0
      ensures TotalsCorrect()
    {
      items, totalPrice, totalItems := [], 0, 0;
    }

    method AddItem(item: CartItem)
      modifies this
      ensures items == Added(old(items), item) && TotalsCorrect()
      ensures old(UniqueIds(items)) ==> UniqueIds(items)
      ensures old(UniqueIds(items) && TotalsCorrect()) ==> totalItems == old(totalItems) + item.quantity
    {
      if UniqueIds(items) {
        AddedKeepsUnique(items, item);
        AddedTotals(items, item);
      }
      items := Added(items, item);
      totalPrice := TotalPrice(items);
      totalItems := TotalItems(items);
    }

    method RemoveItem(id: string)
      modifies this
      ensures items == Removed(old(items), id) && TotalsCorrect()
      ensures old(UniqueIds(items)) ==> UniqueIds(items)
    {
      if UniqueIds(items) {
        RemovedKeepsUnique(items, id);
      }
      items := Removed(items, id);
      totalPrice := TotalPrice(items);
      totalItems := TotalItems(items);
    }

    method UpdateQuantity(id: string, quantity: int)
      modifies this
      ensures quantity <= 0 ==> unchanged(this)
      ensures quantity > 0 ==> items == WithQuantity(old(items), id, quantity) && TotalsCorrect()
      ensures old(TotalsCorrect()) ==> TotalsCorrect()
      ensures old(UniqueIds(items)) ==> UniqueIds(items)
    {
      if quantity <= 0 {
        return;
      }
      if UniqueIds(items) {
        UpdateKeepsUnique(items, id, quantity);
      }
      items := WithQuantity(items, id, quantity);
      totalPrice := TotalPrice(items);
      totalItems := TotalItems(items);
    }

    method ClearCart()
      modifies this
      ensures items == [] && totalPrice == 0 && totalItems == 0
    {
      items, totalPrice, totalItems := [], 0, 0;
    }

    method CalculateTotals()
      modifies this
      ensures items == old(items) && TotalsCorrect()
    {
      totalPrice := TotalPrice(items);
      totalItems := TotalItems(items);
    }
  }
}
