/**
 * The session cart: a dictionary from product id to an entry that keeps a
 * snapshot of the product taken when it was first added. Python dictionaries
 * iterate in insertion order, so the cart is a map together with the order
 * of its keys.
 */
module Cart {
  import opened Models

  /** One value of the session dictionary; its product id is the key. */
  datatype CartEntry = CartEntry(name: string, price: Cents, quantity: int, subtotal: Cents, stock: int)

  /** The entry a first add creates: one unit, priced and stocked as the product is now. */
  function NewEntry(p: Product): (e: CartEntry)
    ensures e.quantity == 1 && e.subtotal == p.price
    ensures e.name == p.name && e.price == p.price && e.stock == p.stock
  {
    CartEntry(p.name, p.price, 1, p.price, p.stock)
  }

  /** The entry with a new quantity, its subtotal recomputed from the snapshotted price. */
  function WithQuantity(e: CartEntry, quantity: int): (r: CartEntry)
    ensures r.quantity == quantity && r.subtotal == e.price * quantity
    ensures r.name == e.name && r.price == e.price && r.stock == e.stock
  {
    e.(quantity := quantity, subtotal := e.price * quantity)
  }

  /** What every entry of a cart satisfies: at least one unit, priced at its snapshot. */
  predicate EntryConsistent(e: CartEntry) {
    e.quantity >= 1 && e.subtotal == e.price * e.quantity
  }

  predicate Distinct(keys: seq<ProductId>) {
    forall i, j | 0 <= i < j < |keys| :: keys[i] != keys[j]
  }

  /** The cart, its key order and the consistency of its entries. */
  predicate WellFormed(cart: map<ProductId, CartEntry>, order: seq<ProductId>) {
    && Distinct(order)
    && (forall k | k in cart :: k in order)
    && (forall k | k in order :: k in cart)
    && (forall k | k in cart :: EntryConsistent(cart[k]))
  }

  lemma {:induction false} DistinctAppend(keys: seq<ProductId>, k: ProductId)
    requires Distinct(keys) && k !in keys
    ensures Distinct(keys + [k])
  {
    var s := keys + [k];
    forall i, j | 0 <= i < j < |s| ensures s[i] != s[j] {
      if j == |keys| {
        assert s[i] == keys[i];
      }
    }
  }

  /** The key order after `del carrito[k]`. */
  function RemoveKey(keys: seq<ProductId>, k: ProductId): (r: seq<ProductId>)
    ensures forall x :: x in r <==> x in keys && x != k
    ensures Distinct(keys) ==> Distinct(r)
    ensures k !in keys ==> r == keys
    decreases |keys|
  {
    if keys == [] then []
    else
      var init, last := keys[..|keys| - 1], keys[|keys| - 1];
      assert keys == init + [last];
      var rest := RemoveKey(init, k);
      if last == k then rest
      else
        assert Distinct(keys) ==> Distinct(init) && last !in init by {
          if Distinct(keys) {
            forall j | 0 <= j < |init| ensures init[j] != last {
              assert init[j] == keys[j];
            }
          }
        }
        assert Distinct(keys) ==> Distinct(rest + [last]) by {
          if Distinct(keys) { DistinctAppend(rest, last); }
        }
        rest + [last]
  }

  /**
   * `del` keeps the relative order of the other keys: in a duplicate-free
   * order, deleting the key at position i leaves the keys before it followed
   * by the keys after it.
   */
  lemma {:induction false} RemoveKeyKeepsOrder(keys: seq<ProductId>, k: ProductId, i: nat)
    requires Distinct(keys) && i < |keys| && keys[i] == k
    ensures RemoveKey(keys, k) == keys[..i] + keys[i + 1..]
    decreases |keys|
  {
    var n := |keys|;
    var init, last := keys[..n - 1], keys[n - 1];
    DistinctInit(keys);
    RemoveKeySnoc(keys, k);
    if i == n - 1 {
      assert keys[i + 1..] == [];
    } else {
      assert init[i] == keys[i];
      RemoveKeyKeepsOrder(init, k, i);
      SpliceSnoc(keys, i);
    }
  }

  lemma RemoveKeySnoc(keys: seq<ProductId>, k: ProductId)
    requires keys != []
    ensures var init, last := keys[..|keys| - 1], keys[|keys| - 1];
            RemoveKey(keys, k) == if last == k then RemoveKey(init, k) else RemoveKey(init, k) + [last]
  {
  }

  /** Without its last key a duplicate-free order stays duplicate-free and no longer holds that key. */
  lemma DistinctInit(keys: seq<ProductId>)
    requires Distinct(keys) && keys != []
    ensures Distinct(keys[..|keys| - 1]) && keys[|keys| - 1] !in keys[..|keys| - 1]
  {
    var init := keys[..|keys| - 1];
    forall j | 0 <= j < |init| ensures init[j] == keys[j] { }
  }

  lemma SpliceSnoc(keys: seq<ProductId>, i: nat)
    requires i + 1 < |keys|
    ensures var init := keys[..|keys| - 1];
            init[..i] + init[i + 1..] + [keys[|keys| - 1]] == keys[..i] + keys[i + 1..]
  {
    var init := keys[..|keys| - 1];
    assert init[..i] == keys[..i];
    assert init[i + 1..] + [keys[|keys| - 1]] == keys[i + 1..];
  }

  /** The sum of `f` over the entries of `keys`, in key order. */
  function SumOf(cart: map<ProductId, CartEntry>, keys: seq<ProductId>, f: CartEntry -> int): int
    requires forall k | k in keys :: k in cart
    decreases |keys|
  {
    if keys == [] then 0
    else
      assert forall k | k in keys[..|keys| - 1] :: k in keys;
      SumOf(cart, keys[..|keys| - 1], f) + f(cart[keys[|keys| - 1]])
  }

  function Subtotal(e: CartEntry): int { e.subtotal }

  function Quantity(e: CartEntry): int { e.quantity }

  /** `total_carrito` on the store page: the sum of the entries' subtotals. */
  function CartTotal(cart: map<ProductId, CartEntry>, order: seq<ProductId>): Cents
    requires forall k | k in order :: k in cart
  {
    SumOf(cart, order, Subtotal)
  }

  /** `cantidad_items` on the store page: the sum of the entries' quantities. */
  function ItemCount(cart: map<ProductId, CartEntry>, order: seq<ProductId>): int
    requires forall k | k in order :: k in cart
  {
    SumOf(cart, order, Quantity)
  }

  /**
   * The store page sums over the cart's values: for a well-formed cart the
   * total and the item count do not depend on the order its keys are listed in.
   */
  lemma TotalsIgnoreOrder(cart: map<ProductId, CartEntry>, a: seq<ProductId>, b: seq<ProductId>)
    requires WellFormed(cart, a) && WellFormed(cart, b)
    ensures CartTotal(cart, a) == CartTotal(cart, b)
    ensures ItemCount(cart, a) == ItemCount(cart, b)
  {
    SumOrderIrrelevant(cart, a, b, Subtotal);
    SumOrderIrrelevant(cart, a, b, Quantity);
  }

  lemma {:induction false} SumSnoc(cart: map<ProductId, CartEntry>, keys: seq<ProductId>, k: ProductId, f: CartEntry -> int)
    requires forall x | x in keys :: x in cart
    requires k in cart
    ensures SumOf(cart, keys + [k], f) == SumOf(cart, keys, f) + f(cart[k])
  {
    assert (keys + [k])[..|keys|] == keys;
  }

  /** The sum only reads the entries of the keys summed over. */
  lemma {:induction false} SumFrame(c1: map<ProductId, CartEntry>, c2: map<ProductId, CartEntry>,
                                    keys: seq<ProductId>, f: CartEntry -> int)
    requires forall k | k in keys :: k in c1 && k in c2 && f(c1[k]) == f(c2[k])
    ensures SumOf(c1, keys, f) == SumOf(c2, keys, f)
    decreases |keys|
  {
    if keys != [] {
      var init := keys[..|keys| - 1];
      assert forall k | k in init :: k in keys;
      SumFrame(c1, c2, init, f);
    }
  }

  /** Dropping one key of a duplicate-free order drops exactly its entry from the sum. */
  lemma {:induction false} SumRemoveKey(cart: map<ProductId, CartEntry>, keys: seq<ProductId>,
                                        k: ProductId, f: CartEntry -> int)
    requires forall x | x in keys :: x in cart
    requires Distinct(keys) && k in keys
    ensures SumOf(cart, RemoveKey(keys, k), f) == SumOf(cart, keys, f) - f(cart[k])
    decreases |keys|
  {
    var init, last := keys[..|keys| - 1], keys[|keys| - 1];
    assert keys == init + [last];
    assert forall x | x in init :: x in keys;
    assert Distinct(init);
    if last == k {
      forall j | 0 <= j < |init| ensures init[j] != k {
        assert init[j] == keys[j];
      }
      assert RemoveKey(init, k) == init;
    } else {
      SumRemoveKey(cart, init, k, f);
      SumSnoc(cart, RemoveKey(init, k), last, f);
    }
  }

  /** Replacing the entry of a key that occurs once changes the sum by the difference. */
  lemma {:induction false} SumReplace(cart: map<ProductId, CartEntry>, keys: seq<ProductId>,
                                      k: ProductId, e: CartEntry, f: CartEntry -> int)
    requires forall x | x in keys :: x in cart
    requires Distinct(keys) && k in keys
    ensures SumOf(cart[k := e], keys, f) == SumOf(cart, keys, f) - f(cart[k]) + f(e)
    decreases |keys|
  {
    var init, last := keys[..|keys| - 1], keys[|keys| - 1];
    assert keys == init + [last];
    assert forall x | x in init :: x in keys;
    assert Distinct(init);
    if last == k {
      forall j | 0 <= j < |init| ensures init[j] != k {
        assert init[j] == keys[j];
      }
      SumFrame(cart[k := e], cart, init, f);
    } else {
      SumReplace(cart, init, k, e, f);
    }
  }

  /** A new key appended with its entry adds exactly that entry to the sum. */
  lemma {:induction false} SumExtend(cart: map<ProductId, CartEntry>, keys: seq<ProductId>,
                  k: ProductId, e: CartEntry, f: CartEntry -> int)
    requires forall x | x in keys :: x in cart
    requires k !in keys
    ensures SumOf(cart[k := e], keys + [k], f) == SumOf(cart, keys, f) + f(e)
  {
    SumFrame(cart[k := e], cart, keys, f);
    SumSnoc(cart[k := e], keys, k, f);
  }

  /**
   * The sum does not depend on the order of the keys: the store page sums
   * `carrito.values()` and the checkout sums `carrito.items()`, and both
   * agree with any duplicate-free listing of the cart's keys.
   */
  lemma {:induction false} SumOrderIrrelevant(cart: map<ProductId, CartEntry>, a: seq<ProductId>,
                                              b: seq<ProductId>, f: CartEntry -> int)
    requires forall x | x in a :: x in cart
    requires Distinct(a) && Distinct(b)
    requires forall x :: x in a <==> x in b
    ensures SumOf(cart, a, f) == SumOf(cart, b, f)
    decreases |a|
  {
    if a != [] {
      var init, last := a[..|a| - 1], a[|a| - 1];
      assert a == init + [last];
      assert Distinct(init);
      forall j | 0 <= j < |init| ensures init[j] != last {
        assert init[j] == a[j];
      }
      var b' := RemoveKey(b, last);
      SumOrderIrrelevant(cart, init, b', f);
      SumRemoveKey(cart, b, last, f);
    }
  }

  // ------------------------------------------------------------------
  // What each cart view does to the store page's totals

  /** Taking one more unit of an entry adds its snapshotted price to the total and one to the count. */
  lemma {:induction false} IncrementTotals(cart: map<ProductId, CartEntry>, order: seq<ProductId>, id: ProductId)
    requires WellFormed(cart, order) && id in cart
    ensures WellFormed(cart[id := WithQuantity(cart[id], cart[id].quantity + 1)], order)
    ensures var c := cart[id := WithQuantity(cart[id], cart[id].quantity + 1)];
            && CartTotal(c, order) == CartTotal(cart, order) + cart[id].price
            && ItemCount(c, order) == ItemCount(cart, order) + 1
  {
    var e := cart[id];
    SetQuantityTotals(cart, order, id, e.quantity + 1);
    assert e.price * (e.quantity + 1) == e.subtotal + e.price by {
      assert EntryConsistent(e);
    }
  }

  /** A first add appends one entry of one unit: the total grows by the price, the count by one. */
  lemma {:induction false} AddNewTotals(cart: map<ProductId, CartEntry>, order: seq<ProductId>, id: ProductId, p: Product)
    requires WellFormed(cart, order) && id !in cart
    ensures WellFormed(cart[id := NewEntry(p)], order + [id])
    ensures CartTotal(cart[id := NewEntry(p)], order + [id]) == CartTotal(cart, order) + p.price
    ensures ItemCount(cart[id := NewEntry(p)], order + [id]) == ItemCount(cart, order) + 1
  {
    DistinctAppend(order, id);
    SumExtend(cart, order, id, NewEntry(p), Subtotal);
    SumExtend(cart, order, id, NewEntry(p), Quantity);
  }

  /** Setting an entry's quantity replaces its subtotal and its count in the totals. */
  lemma {:induction false} SetQuantityTotals(cart: map<ProductId, CartEntry>, order: seq<ProductId>,
                                             id: ProductId, quantity: int)
    requires WellFormed(cart, order) && id in cart && quantity >= 1
    ensures WellFormed(cart[id := WithQuantity(cart[id], quantity)], order)
    ensures var c := cart[id := WithQuantity(cart[id], quantity)];
            && CartTotal(c, order) == CartTotal(cart, order) - cart[id].subtotal + cart[id].price * quantity
            && ItemCount(c, order) == ItemCount(cart, order) - cart[id].quantity + quantity
  {
    var e := WithQuantity(cart[id], quantity);
    SumReplace(cart, order, id, e, Subtotal);
    SumReplace(cart, order, id, e, Quantity);
  }

  /** Deleting an entry takes exactly its subtotal off the total and its quantity off the count. */
  lemma {:induction false} RemoveTotals(cart: map<ProductId, CartEntry>, order: seq<ProductId>, id: ProductId)
    requires WellFormed(cart, order) && id in cart
    ensures WellFormed(cart - {id}, RemoveKey(order, id))
    ensures CartTotal(cart - {id}, RemoveKey(order, id)) == CartTotal(cart, order) - cart[id].subtotal
    ensures ItemCount(cart - {id}, RemoveKey(order, id)) == ItemCount(cart, order) - cart[id].quantity
  {
    var order' := RemoveKey(order, id);
    SumRemoveKey(cart, order, id, Subtotal);
    SumRemoveKey(cart, order, id, Quantity);
    SumFrame(cart, cart - {id}, order', Subtotal);
    SumFrame(cart, cart - {id}, order', Quantity);
  }

  /** Every entry holds at least one unit, so the item count is at least the number of entries. */
  lemma {:induction false} ItemCountAtLeastEntries(cart: map<ProductId, CartEntry>, keys: seq<ProductId>)
    requires forall k | k in keys :: k in cart && EntryConsistent(cart[k])
    ensures ItemCount(cart, keys) >= |keys|
    decreases |keys|
  {
    if keys != [] {
      var init := keys[..|keys| - 1];
      assert forall k | k in init :: k in keys;
      ItemCountAtLeastEntries(cart, init);
    }
  }
}
