/**
 * The state the views change, gathered in one object: the product table,
 * one session's cart, and the sales and line-item tables. Each method is one
 * POST handler; a refused request leaves every table as it was.
 */
module Views {
  import opened Wrappers
  import opened Models
  import opened Outcomes
  import opened Access
  import opened Cart
  import opened Ledger
  import opened Checkout

  class Shop {
    /** `Producto` rows by id. Products are deactivated, never deleted. */
    var catalog: map<ProductId, Product>
    /** `request.session['carrito']`, keyed by product id. */
    var cart: map<ProductId, CartEntry>
    /** The insertion order of the cart's keys. */
    var order: seq<ProductId>
    /** `Venta` rows; the i-th has id i + 1. */
    var sales: seq<Sale>
    /** `ItemVenta` rows, in creation order. */
    var lineItems: seq<LineItem>

    ghost predicate Valid()
      reads this
    {
      WellFormed(cart, order) && LedgerConsistent(sales, lineItems)
    }

    constructor (products: map<ProductId, Product>)
      ensures Valid()
      ensures catalog == products && cart == map[] && order == [] && sales == [] && lineItems == []
    {
      catalog := products;
      cart := map[];
      order := [];
      sales := [];
      lineItems := [];
    }

    /**
     * `agregar_al_carrito`: an active product with stock enters the cart
     * with one unit, or its entry gains one unit while it stays within the
     * live stock. The effect on the store page's totals is stated by
     * `IncrementTotals` and `AddNewTotals`.
     */
    method AddToCart(id: ProductId) returns (status: CartStatus)
      requires Valid()
      modifies this
      ensures Valid()
      ensures catalog == old(catalog) && sales == old(sales) && lineItems == old(lineItems)
      ensures status == ProductNotFound <==> id !in catalog || !catalog[id].active
      ensures status == NoStock <==> id in catalog && catalog[id].active && catalog[id].stock <= 0
      ensures status == Incremented <==>
                id in catalog && catalog[id].active && catalog[id].stock > 0 &&
                id in old(cart) && old(cart)[id].quantity < catalog[id].stock
      ensures status == AtStockLimit <==>
                id in catalog && catalog[id].active && catalog[id].stock > 0 &&
                id in old(cart) && old(cart)[id].quantity >= catalog[id].stock
      ensures status == Added <==>
                id in catalog && catalog[id].active && catalog[id].stock > 0 && id !in old(cart)
      ensures status in {ProductNotFound, NoStock, AtStockLimit} ==> cart == old(cart) && order == old(order)
      ensures status == Incremented ==>
                cart == old(cart)[id := WithQuantity(old(cart)[id], old(cart)[id].quantity + 1)] && order == old(order)
      ensures status == Added ==> cart == old(cart)[id := NewEntry(catalog[id])] && order == old(order) + [id]
      ensures status in {Incremented, Added} ==> cart[id].quantity <= catalog[id].stock
    {
      if id !in catalog || !catalog[id].active {
        return ProductNotFound;
      }
      var p := catalog[id];
      if p.stock <= 0 {
        return NoStock;
      }
      if id in cart {
        var e := cart[id];
        if e.quantity < p.stock {
          cart := cart[id := WithQuantity(e, e.quantity + 1)];
          status := Incremented;
        } else {
          status := AtStockLimit;
        }
      } else {
        DistinctAppend(order, id);
        cart := cart[id := NewEntry(p)];
        order := order + [id];
        status := Added;
      }
    }

    /**
     * `actualizar_carrito` (POST): an entry in the cart is dropped when the
     * new quantity is not positive, set to it when it is within the live
     * stock, and left alone otherwise. A key not in the cart is ignored; a
     * product gone from the table is a 404. The effect on the totals is
     * stated by `RemoveTotals` and `SetQuantityTotals`.
     */
    method UpdateCart(id: ProductId, quantity: int) returns (status: CartStatus)
      requires Valid()
      modifies this
      ensures Valid()
      ensures catalog == old(catalog) && sales == old(sales) && lineItems == old(lineItems)
      ensures status == NotInCart <==> id !in old(cart)
      ensures status == ProductNotFound <==> id in old(cart) && id !in catalog
      ensures status == Removed <==> id in old(cart) && id in catalog && quantity <= 0
      ensures status == Updated <==> id in old(cart) && id in catalog && 0 < quantity <= catalog[id].stock
      ensures status == NotEnoughStock <==> id in old(cart) && id in catalog && 0 < quantity && catalog[id].stock < quantity
      ensures status in {NotInCart, ProductNotFound, NotEnoughStock} ==> cart == old(cart) && order == old(order)
      ensures status == Removed ==> cart == old(cart) - {id} && order == RemoveKey(old(order), id)
      ensures status == Updated ==> cart == old(cart)[id := WithQuantity(old(cart)[id], quantity)] && order == old(order)
    {
      if id !in cart {
        return NotInCart;
      }
      if id !in catalog {
        return ProductNotFound;
      }
      if quantity <= 0 {
        cart := cart - {id};
        order := RemoveKey(order, id);
        status := Removed;
      } else if quantity <= catalog[id].stock {
        cart := cart[id := WithQuantity(cart[id], quantity)];
        status := Updated;
      } else {
        status := NotEnoughStock;
      }
    }

    /** `eliminar_del_carrito`: the entry is dropped if it is there; a second call changes nothing. */
    method RemoveFromCart(id: ProductId) returns (removed: bool)
      requires Valid()
      modifies this
      ensures Valid()
      ensures catalog == old(catalog) && sales == old(sales) && lineItems == old(lineItems)
      ensures removed <==> id in old(cart)
      ensures cart == old(cart) - {id} && order == RemoveKey(old(order), id)
      ensures id !in cart
    {
      removed := id in cart;
      if removed {
        cart := cart - {id};
        order := RemoveKey(order, id);
      } else {
        assert cart - {id} == cart;
      }
    }

    /**
     * `finalizar_compra` (POST): an empty cart is refused; otherwise every
     * entry is checked against the live stock before anything is written.
     * Then one sale, totalling the cart's snapshotted subtotals, and one line
     * per entry are recorded, each product loses the entry's quantity, and
     * the cart is emptied.
     */
    method FinishPurchase(user: UserId, payment: PaymentMethod) returns (r: Result<SaleId, Failure>)
      requires Valid()
      modifies this
      ensures Valid()
      ensures old(cart) == map[] ==> r == Err(EmptyCart)
      ensures old(cart) != map[] ==> (r.Ok? <==> StockSuffices(old(catalog), old(cart), old(order)))
      ensures old(cart) != map[] && r.Err? ==>
                exists j | 0 <= j < |old(order)| ::
                  && (forall i | 0 <= i < j :: !EntryFails(old(catalog), old(cart), old(order)[i]))
                  && EntryFails(old(catalog), old(cart), old(order)[j])
                  && r.error == EntryError(old(catalog), old(order)[j])
      ensures r.Err? ==>
                catalog == old(catalog) && cart == old(cart) && order == old(order) &&
                sales == old(sales) && lineItems == old(lineItems)
      ensures r.Ok? ==>
                && StockSuffices(old(catalog), old(cart), old(order))
                && r.value == |old(sales)| + 1
                && sales == old(sales) + [NewSale(r.value, user, CartTotal(old(cart), old(order)), payment)]
                && lineItems == old(lineItems) + CheckoutLines(r.value, old(catalog), old(cart), old(order))
                && cart == map[] && order == []
                && catalog == CheckoutStock(old(catalog), old(cart), old(order))
                && (forall k | k in old(order) :: catalog[k].stock >= 0)
    {
      if cart == map[] {
        return Err(EmptyCart);
      }
      var prepared := PrepareCheckout(catalog, cart, order);
      if prepared.Err? {
        return Err(prepared.error);
      }
      var saleId := |sales| + 1;
      CheckoutKeepsStock(catalog, cart, order);
      RecordPurchase(saleId, user, payment, prepared.value);
      r := Ok(saleId);
    }

    /**
     * The writing half of `finalizar_compra`, once every entry has passed:
     * the sale, its lines and the stock changes are recorded and the cart
     * is emptied.
     */
    method RecordPurchase(saleId: SaleId, user: UserId, payment: PaymentMethod, batch: Batch)
      requires saleId == |sales| + 1
      requires LedgerConsistent(sales, lineItems)
      requires StockSuffices(catalog, cart, order)
      requires batch.total == CartTotal(cart, order)
      requires |batch.items| == |order|
      requires forall j | 0 <= j < |order| ::
                 batch.items[j] == Prepared(order[j], catalog[order[j]], cart[order[j]].quantity, cart[order[j]].subtotal)
      modifies this
      ensures Valid()
      ensures sales == old(sales) + [NewSale(saleId, user, CartTotal(old(cart), old(order)), payment)]
      ensures lineItems == old(lineItems) + CheckoutLines(saleId, old(catalog), old(cart), old(order))
      ensures cart == map[] && order == []
      ensures catalog == CheckoutStock(old(catalog), old(cart), old(order))
    {
      CheckoutCommit(saleId, catalog, cart, order, batch.items);
      Commit(saleId, user, payment, batch);
      cart := map[];
      order := [];
    }

    /**
     * `venta_crear_view` (POST), as written: customers are sent away, an
     * empty form is refused, and each line is checked on its own against
     * the stock of its product. The commit saves, line after line, the
     * product as it was fetched minus that line's quantity, so for a
     * product named twice the last line's save is what remains: the sale
     * can sell more than the stock held, yet no stock ends below zero.
     */
    method CreatePosSale(profile: Option<Role>, user: UserId, lines: seq<PosLine>, payment: PaymentMethod)
      returns (r: Result<SaleId, Failure>)
      requires Valid()
      modifies this
      ensures Valid()
      ensures !Can(profile, RecordPosSale) ==> r == Err(PermissionDenied)
      ensures Can(profile, RecordPosSale) && lines == [] ==> r == Err(NoLines)
      ensures Can(profile, RecordPosSale) && lines != [] ==> (r.Ok? <==> PerLineStockOk(old(catalog), lines))
      ensures Can(profile, RecordPosSale) && lines != [] && r.Err? ==>
                exists j | 0 <= j < |lines| ::
                  && (forall i | 0 <= i < j :: !LineFails(old(catalog), lines[i]))
                  && LineFails(old(catalog), lines[j])
                  && r.error == LineError(old(catalog), lines[j])
      ensures cart == old(cart) && order == old(order)
      ensures r.Err? ==> catalog == old(catalog) && sales == old(sales) && lineItems == old(lineItems)
      ensures r.Ok? ==>
                && PerLineStockOk(old(catalog), lines)
                && r.value == |old(sales)| + 1
                && sales == old(sales) + [NewSale(r.value, user, PosTotal(old(catalog), lines), payment)]
                && lineItems == old(lineItems) + PosLines(r.value, old(catalog), lines)
                && catalog == PosStockAsWritten(old(catalog), lines)
                && (forall j | 0 <= j < |lines| :: catalog[lines[j].id].stock >= 0)
    {
      if !Can(profile, RecordPosSale) {
        return Err(PermissionDenied);
      }
      if lines == [] {
        return Err(NoLines);
      }
      var catalog0 := catalog;
      r := PosSale(user, lines, payment);
      if r.Ok? {
        AsWrittenKeepsStock(catalog0, lines);
      }
    }

    /** The body of `venta_crear_view` behind its two gates: validation, then the commit. */
    method PosSale(user: UserId, lines: seq<PosLine>, payment: PaymentMethod) returns (r: Result<SaleId, Failure>)
      requires LedgerConsistent(sales, lineItems)
      modifies this
      ensures LedgerConsistent(sales, lineItems)
      ensures r.Ok? <==> PerLineStockOk(old(catalog), lines)
      ensures r.Err? ==> exists j | 0 <= j < |lines| ::
                && (forall i | 0 <= i < j :: !LineFails(old(catalog), lines[i]))
                && LineFails(old(catalog), lines[j])
                && r.error == LineError(old(catalog), lines[j])
      ensures cart == old(cart) && order == old(order)
      ensures r.Err? ==> catalog == old(catalog) && sales == old(sales) && lineItems == old(lineItems)
      ensures r.Ok? ==>
                && r.value == |old(sales)| + 1
                && sales == old(sales) + [NewSale(r.value, user, PosTotal(old(catalog), lines), payment)]
                && lineItems == old(lineItems) + PosLines(r.value, old(catalog), lines)
                && catalog == PosStockAsWritten(old(catalog), lines)
    {
      var prepared := PreparePosSale(catalog, lines);
      if prepared.Err? {
        return Err(prepared.error);
      }
      var saleId := |sales| + 1;
      PosCommit(saleId, catalog, lines, prepared.value.items);
      Commit(saleId, user, payment, prepared.value);
      r := Ok(saleId);
    }

    /**
     * The point-of-sale sale as intended: lines must ask for at least one
     * unit, all lines for a product together must fit its stock, and each
     * line's save starts from the product as the previous lines left it, so
     * every product loses exactly what was sold and no stock goes negative.
     */
    method CreatePosSaleChecked(profile: Option<Role>, user: UserId, lines: seq<PosLine>, payment: PaymentMethod)
      returns (r: Result<SaleId, Failure>)
      requires Valid()
      modifies this
      ensures Valid()
      ensures !Can(profile, RecordPosSale) ==> r == Err(PermissionDenied)
      ensures Can(profile, RecordPosSale) && lines == [] ==> r == Err(NoLines)
      ensures Can(profile, RecordPosSale) && lines != [] ==> (r.Ok? <==> CumulativeStockOk(old(catalog), lines))
      ensures Can(profile, RecordPosSale) && lines != [] && r.Err? ==>
                exists j | 0 <= j < |lines| ::
                  && (forall i | 0 <= i < j :: !RunningFails(old(catalog), lines, i))
                  && RunningFails(old(catalog), lines, j)
                  && r.error == RunningError(old(catalog), lines[j])
      ensures cart == old(cart) && order == old(order)
      ensures r.Err? ==> catalog == old(catalog) && sales == old(sales) && lineItems == old(lineItems)
      ensures r.Ok? ==>
                && CumulativeStockOk(old(catalog), lines)
                && Listed(old(catalog), lines)
                && r.value == |old(sales)| + 1
                && sales == old(sales) + [NewSale(r.value, user, PosTotal(old(catalog), lines), payment)]
                && lineItems == old(lineItems) + PosLines(r.value, old(catalog), lines)
                && catalog == PosStockChecked(old(catalog), lines)
                && (forall j | 0 <= j < |lines| :: catalog[lines[j].id].stock >= 0)
    {
      if !Can(profile, RecordPosSale) {
        return Err(PermissionDenied);
      }
      if lines == [] {
        return Err(NoLines);
      }
      var catalog0 := catalog;
      r := PosSaleChecked(user, lines, payment);
      if r.Ok? {
        CheckedKeepsStock(catalog0, lines);
      }
    }

    /** The body of the corrected sale behind the same two gates. */
    method PosSaleChecked(user: UserId, lines: seq<PosLine>, payment: PaymentMethod) returns (r: Result<SaleId, Failure>)
      requires LedgerConsistent(sales, lineItems)
      modifies this
      ensures LedgerConsistent(sales, lineItems)
      ensures r.Ok? <==> CumulativeStockOk(old(catalog), lines)
      ensures r.Err? ==> exists j | 0 <= j < |lines| ::
                && (forall i | 0 <= i < j :: !RunningFails(old(catalog), lines, i))
                && RunningFails(old(catalog), lines, j)
                && r.error == RunningError(old(catalog), lines[j])
      ensures cart == old(cart) && order == old(order)
      ensures r.Err? ==> catalog == old(catalog) && sales == old(sales) && lineItems == old(lineItems)
      ensures r.Ok? ==>
                && Listed(old(catalog), lines)
                && r.value == |old(sales)| + 1
                && sales == old(sales) + [NewSale(r.value, user, PosTotal(old(catalog), lines), payment)]
                && lineItems == old(lineItems) + PosLines(r.value, old(catalog), lines)
                && catalog == PosStockChecked(old(catalog), lines)
    {
      var prepared := PreparePosSaleChecked(catalog, lines);
      if prepared.Err? {
        return Err(prepared.error);
      }
      var saleId := |sales| + 1;
      PosCommit(saleId, catalog, lines, prepared.value.items);
      CommitLive(saleId, user, payment, prepared.value);
      r := Ok(saleId);
    }

    /**
     * `Venta.objects.create` followed by the commit loop: the next sale
     * number, one sale whose total is the sum of its items' subtotals, its
     * lines and the fetched-row stock saves. The ledger stays consistent.
     */
    method Commit(saleId: SaleId, user: UserId, payment: PaymentMethod, batch: Batch)
      requires saleId == |sales| + 1
      requires LedgerConsistent(sales, lineItems)
      requires batch.total == LinesSubtotal(ItemLines(saleId, batch.items))
      modifies this
      ensures sales == old(sales) + [NewSale(saleId, user, batch.total, payment)]
      ensures lineItems == old(lineItems) + ItemLines(saleId, batch.items)
      ensures catalog == SavedStock(old(catalog), batch.items)
      ensures cart == old(cart) && order == old(order)
      ensures LedgerConsistent(sales, lineItems)
    {
      var sale := NewSale(saleId, user, batch.total, payment);
      LedgerAppend(sales, lineItems, sale, ItemLines(saleId, batch.items));
      sales := sales + [sale];
      SaveItems(saleId, batch.items);
    }

    /** `Commit` with the corrected commit loop, each save starting from the current row. */
    method CommitLive(saleId: SaleId, user: UserId, payment: PaymentMethod, batch: Batch)
      requires saleId == |sales| + 1
      requires LedgerConsistent(sales, lineItems)
      requires batch.total == LinesSubtotal(ItemLines(saleId, batch.items))
      requires forall j | 0 <= j < |batch.items| :: batch.items[j].id in catalog
      modifies this
      ensures sales == old(sales) + [NewSale(saleId, user, batch.total, payment)]
      ensures lineItems == old(lineItems) + ItemLines(saleId, batch.items)
      ensures catalog == LiveStock(old(catalog), batch.items)
      ensures cart == old(cart) && order == old(order)
      ensures LedgerConsistent(sales, lineItems)
    {
      var sale := NewSale(saleId, user, batch.total, payment);
      LedgerAppend(sales, lineItems, sale, ItemLines(saleId, batch.items));
      sales := sales + [sale];
      SaveItemsLive(saleId, batch.items);
    }

    /**
     * The commit loop of both sale views: for each prepared item, a line
     * item, then the product as it was fetched saved with the item's
     * quantity taken off.
     */
    method SaveItems(saleId: SaleId, items: seq<Prepared>)
      modifies this
      ensures lineItems == old(lineItems) + ItemLines(saleId, items)
      ensures catalog == SavedStock(old(catalog), items)
      ensures cart == old(cart) && order == old(order) && sales == old(sales)
    {
      var i := 0;
      while i < |items|
        invariant 0 <= i <= |items|
        invariant lineItems == old(lineItems) + ItemLines(saleId, items[..i])
        invariant catalog == SavedStock(old(catalog), items[..i])
        invariant cart == old(cart) && order == old(order) && sales == old(sales)
      {
        var item := items[i];
        assert items[..i + 1][..i] == items[..i];
        lineItems := lineItems + [NewLineItem(saleId, item.id, item.product, item.quantity, item.subtotal)];
        catalog := catalog[item.id := Sold(item.product, item.quantity)];
        i := i + 1;
      }
      assert items[..i] == items;
    }

    /**
     * The corrected commit loop: each item's save starts from the product
     * row as the earlier items left it.
     */
    method SaveItemsLive(saleId: SaleId, items: seq<Prepared>)
      requires forall j | 0 <= j < |items| :: items[j].id in catalog
      modifies this
      ensures lineItems == old(lineItems) + ItemLines(saleId, items)
      ensures catalog == LiveStock(old(catalog), items)
      ensures cart == old(cart) && order == old(order) && sales == old(sales)
    {
      var i := 0;
      while i < |items|
        invariant 0 <= i <= |items|
        invariant lineItems == old(lineItems) + ItemLines(saleId, items[..i])
        invariant catalog == LiveStock(old(catalog), items[..i])
        invariant cart == old(cart) && order == old(order) && sales == old(sales)
      {
        var item := items[i];
        assert items[..i + 1][..i] == items[..i];
        lineItems := lineItems + [NewLineItem(saleId, item.id, item.product, item.quantity, item.subtotal)];
        catalog := catalog[item.id := Sold(catalog[item.id], item.quantity)];
        i := i + 1;
      }
      assert items[..i] == items;
    }

    /**
     * `producto_eliminar_view`: an administrator or cashier deactivates an
     * existing product. The row, the sales that name it and any cart entry
     * for it stay; it only disappears from the listings and from new adds.
     */
    method DeleteProduct(profile: Option<Role>, pk: ProductId) returns (r: Result<(), Failure>)
      requires Valid()
      modifies this
      ensures Valid()
      ensures cart == old(cart) && order == old(order) && sales == old(sales) && lineItems == old(lineItems)
      ensures !Can(profile, ManageCatalog) ==> r == Err(PermissionDenied)
      ensures Can(profile, ManageCatalog) && pk !in old(catalog) ==> r == Err(NotFound(pk))
      ensures Can(profile, ManageCatalog) && pk in old(catalog) ==> r == Ok(())
      ensures r.Err? ==> catalog == old(catalog)
      ensures r.Ok? ==> catalog == old(catalog)[pk := old(catalog)[pk].(active := false)]
      ensures r.Ok? ==> !catalog[pk].active && catalog.Keys == old(catalog).Keys
    {
      if !Can(profile, ManageCatalog) {
        return Err(PermissionDenied);
      }
      if pk !in catalog {
        return Err(NotFound(pk));
      }
      catalog := catalog[pk := catalog[pk].(active := false)];
      r := Ok(());
    }
  }
}
