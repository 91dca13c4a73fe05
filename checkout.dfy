/**
 * The validation half of the two sale paths, and the line items each path
 * writes. Both paths first walk their lines, fetch each product, check its
 * stock and collect `items_data`; only when every line has passed do they
 * write anything. The writing half lives with the rest of the state in
 * views.dfy.
 */
module Checkout {
  import opened Wrappers
  import opened Models
  import opened Outcomes
  import opened Cart
  import opened Ledger

  /** One element of `items_data`: the product as fetched, the quantity and the subtotal. */
  datatype Prepared = Prepared(id: ProductId, product: Product, quantity: int, subtotal: Cents)

  /** What validation hands to the commit: the sale total and `items_data`. */
  datatype Batch = Batch(total: Cents, items: seq<Prepared>)

  // ------------------------------------------------------------------
  // Customer checkout

  /** Every entry's product exists and has at least the entry's quantity in stock. */
  predicate StockSuffices(catalog: map<ProductId, Product>, cart: map<ProductId, CartEntry>, keys: seq<ProductId>) {
    forall j | 0 <= j < |keys| ::
      keys[j] in cart && keys[j] in catalog && cart[keys[j]].quantity <= catalog[keys[j]].stock
  }

  /** The entry stops the checkout: its product is gone or has too little stock. */
  predicate EntryFails(catalog: map<ProductId, Product>, cart: map<ProductId, CartEntry>, k: ProductId)
    requires k in cart
  {
    k !in catalog || catalog[k].stock < cart[k].quantity
  }

  function EntryError(catalog: map<ProductId, Product>, k: ProductId): Failure {
    if k !in catalog then NotFound(k) else InsufficientStock(k)
  }

  /**
   * The first loop of the customer checkout: every entry, in cart order, is
   * checked against the live product; the first that fails stops the walk.
   * On success the total is the sum of the cart's snapshotted subtotals and
   * one prepared item stands for each entry.
   */
  method PrepareCheckout(catalog: map<ProductId, Product>, cart: map<ProductId, CartEntry>, keys: seq<ProductId>)
    returns (r: Result<Batch, Failure>)
    requires forall k | k in keys :: k in cart
    ensures r.Ok? <==> StockSuffices(catalog, cart, keys)
    ensures r.Ok? ==> r.value.total == CartTotal(cart, keys)
    ensures r.Ok? ==> |r.value.items| == |keys|
    ensures r.Ok? ==> forall j | 0 <= j < |keys| ::
              r.value.items[j] == Prepared(keys[j], catalog[keys[j]], cart[keys[j]].quantity, cart[keys[j]].subtotal)
    ensures r.Err? ==> exists j | 0 <= j < |keys| ::
              && (forall i | 0 <= i < j :: !EntryFails(catalog, cart, keys[i]))
              && EntryFails(catalog, cart, keys[j])
              && r.error == EntryError(catalog, keys[j])
  {
    var total := 0;
    var items: seq<Prepared> := [];
    var i := 0;
    while i < |keys|
      invariant 0 <= i <= |keys|
      invariant forall j | 0 <= j < i :: !EntryFails(catalog, cart, keys[j])
      invariant StockSuffices(catalog, cart, keys[..i])
      invariant total == CartTotal(cart, keys[..i])
      invariant |items| == i
      invariant forall j | 0 <= j < i ::
                  items[j] == Prepared(keys[j], catalog[keys[j]], cart[keys[j]].quantity, cart[keys[j]].subtotal)
    {
      var k := keys[i];
      if k !in catalog || catalog[k].stock < cart[k].quantity {
        assert EntryFails(catalog, cart, keys[i]);
        return Err(EntryError(catalog, k));
      }
      var p, e := catalog[k], cart[k];
      assert keys[..i + 1] == keys[..i] + [k];
      SumSnoc(cart, keys[..i], k, Subtotal);
      total := total + e.subtotal;
      items := items + [Prepared(k, p, e.quantity, e.subtotal)];
      i := i + 1;
    }
    assert keys[..i] == keys;
    r := Ok(Batch(total, items));
  }

  /**
   * The lines the customer checkout writes: one per cart entry, in cart
   * order, with the entry's quantity and snapshotted subtotal and the
   * product's live name and price. Their subtotals add up to the cart total.
   */
  function CheckoutLines(sale: SaleId, catalog: map<ProductId, Product>, cart: map<ProductId, CartEntry>,
                         keys: seq<ProductId>): (r: seq<LineItem>)
    requires StockSuffices(catalog, cart, keys)
    ensures |r| == |keys|
    ensures forall j | 0 <= j < |keys| ::
              r[j] == NewLineItem(sale, keys[j], catalog[keys[j]], cart[keys[j]].quantity, cart[keys[j]].subtotal)
    ensures forall j | 0 <= j < |r| :: r[j].sale == sale
    ensures LinesSubtotal(r) == CartTotal(cart, keys)
    decreases |keys|
  {
    if keys == [] then []
    else
      var init, k := keys[..|keys| - 1], keys[|keys| - 1];
      assert keys == init + [k];
      var rest := CheckoutLines(sale, catalog, cart, init);
      var line := NewLineItem(sale, k, catalog[k], cart[k].quantity, cart[k].subtotal);
      assert (rest + [line])[..|rest|] == rest;
      rest + [line]
  }

  /**
   * The product table after the customer checkout's commit: each entry's
   * product, as fetched, saved with the entry's quantity taken off. Products
   * not in the cart keep their row.
   */
  function CheckoutStock(catalog: map<ProductId, Product>, cart: map<ProductId, CartEntry>,
                         keys: seq<ProductId>): (r: map<ProductId, Product>)
    requires StockSuffices(catalog, cart, keys)
    ensures r.Keys == catalog.Keys
    decreases |keys|
  {
    if keys == [] then catalog
    else
      var init, k := keys[..|keys| - 1], keys[|keys| - 1];
      assert keys == init + [k];
      CheckoutStock(catalog, cart, init)[k := Sold(catalog[k], cart[k].quantity)]
  }

  /** Each product in the cart loses the entry's quantity; every other product keeps its row. */
  lemma {:induction false} CheckoutStockAt(catalog: map<ProductId, Product>, cart: map<ProductId, CartEntry>,
                                           keys: seq<ProductId>, k: ProductId)
    requires StockSuffices(catalog, cart, keys) && k in catalog
    ensures CheckoutStock(catalog, cart, keys)[k] ==
            if k in keys then Sold(catalog[k], cart[k].quantity) else catalog[k]
    decreases |keys|
  {
    if keys != [] {
      var init := keys[..|keys| - 1];
      assert keys == init + [keys[|keys| - 1]];
      CheckoutStockAt(catalog, cart, init, k);
    }
  }

  /** The checkout leaves no product it sold with negative stock. */
  lemma {:induction false} CheckoutKeepsStock(catalog: map<ProductId, Product>, cart: map<ProductId, CartEntry>,
                                              keys: seq<ProductId>)
    requires StockSuffices(catalog, cart, keys)
    ensures forall k | k in keys :: k in catalog && CheckoutStock(catalog, cart, keys)[k].stock >= 0
  {
    forall k | k in keys ensures k in catalog && CheckoutStock(catalog, cart, keys)[k].stock >= 0 {
      var j :| 0 <= j < |keys| && keys[j] == k;
      CheckoutStockAt(catalog, cart, keys, k);
    }
  }

  // ------------------------------------------------------------------
  // Point-of-sale sale

  /** One posted pair (`producto_id[i]`, `cantidad[i]`) of the sale form. */
  datatype PosLine = PosLine(id: ProductId, quantity: int)

  predicate Listed(catalog: map<ProductId, Product>, lines: seq<PosLine>) {
    forall j | 0 <= j < |lines| :: lines[j].id in catalog
  }

  /** The sale total: every line at the product's live price times its quantity. */
  function PosTotal(catalog: map<ProductId, Product>, lines: seq<PosLine>): Cents
    requires Listed(catalog, lines)
    decreases |lines|
  {
    if lines == [] then 0
    else
      var last := lines[|lines| - 1];
      PosTotal(catalog, lines[..|lines| - 1]) + catalog[last.id].price * last.quantity
  }

  /** Each line adds its own price times quantity: the total of a form is the totals of its parts. */
  lemma {:induction false} PosTotalAppend(catalog: map<ProductId, Product>, a: seq<PosLine>, b: seq<PosLine>)
    requires Listed(catalog, a) && Listed(catalog, b)
    ensures Listed(catalog, a + b)
    ensures PosTotal(catalog, a + b) == PosTotal(catalog, a) + PosTotal(catalog, b)
    decreases |b|
  {
    if b == [] {
      assert a + b == a;
    } else {
      var init, last := b[..|b| - 1], b[|b| - 1];
      assert (a + b)[..|a + b| - 1] == a + init;
      assert Listed(catalog, init) by {
        forall j | 0 <= j < |init| ensures init[j] == b[j] { }
      }
      PosTotalAppend(catalog, a, init);
    }
  }

  /** A single line totals its product's live price times its quantity. */
  lemma PosTotalSingle(catalog: map<ProductId, Product>, line: PosLine)
    requires line.id in catalog
    ensures Listed(catalog, [line])
    ensures PosTotal(catalog, [line]) == catalog[line.id].price * line.quantity
  {
    assert [line][..0] == [];
  }

  function PosItem(catalog: map<ProductId, Product>, line: PosLine): (item: Prepared)
    requires line.id in catalog
    ensures item.product == catalog[line.id] && item.subtotal == item.product.price * line.quantity
    ensures item.id == line.id && item.quantity == line.quantity
  {
    Prepared(line.id, catalog[line.id], line.quantity, catalog[line.id].price * line.quantity)
  }

  /**
   * The lines a point-of-sale sale writes: one per posted line, at the live
   * price, each with subtotal = unit price × quantity. Their subtotals add up
   * to the sale total.
   */
  function PosLines(sale: SaleId, catalog: map<ProductId, Product>, lines: seq<PosLine>): (r: seq<LineItem>)
    requires Listed(catalog, lines)
    ensures |r| == |lines|
    ensures forall j | 0 <= j < |lines| ::
              r[j] == NewLineItem(sale, lines[j].id, catalog[lines[j].id], lines[j].quantity,
                                  catalog[lines[j].id].price * lines[j].quantity)
    ensures forall j | 0 <= j < |r| :: r[j].sale == sale && r[j].subtotal == r[j].unitPrice * r[j].quantity
    ensures LinesSubtotal(r) == PosTotal(catalog, lines)
    decreases |lines|
  {
    if lines == [] then []
    else
      var init, last := lines[..|lines| - 1], lines[|lines| - 1];
      assert lines == init + [last];
      var rest := PosLines(sale, catalog, init);
      var p := catalog[last.id];
      var line := NewLineItem(sale, last.id, p, last.quantity, p.price * last.quantity);
      assert (rest + [line])[..|rest|] == rest;
      rest + [line]
  }

  /** The check as the sale form writes it: each line alone against the stock fetched for it. */
  predicate PerLineStockOk(catalog: map<ProductId, Product>, lines: seq<PosLine>) {
    forall j | 0 <= j < |lines| :: lines[j].id in catalog && lines[j].quantity <= catalog[lines[j].id].stock
  }

  predicate LineFails(catalog: map<ProductId, Product>, line: PosLine) {
    line.id !in catalog || catalog[line.id].stock < line.quantity
  }

  function LineError(catalog: map<ProductId, Product>, line: PosLine): Failure {
    if line.id !in catalog then NotFound(line.id) else InsufficientStock(line.id)
  }

  /**
   * The first loop of the point-of-sale sale as written: each line is checked
   * on its own; the total is priced at the live prices.
   */
  method PreparePosSale(catalog: map<ProductId, Product>, lines: seq<PosLine>) returns (r: Result<Batch, Failure>)
    ensures r.Ok? <==> PerLineStockOk(catalog, lines)
    ensures r.Ok? ==> r.value.total == PosTotal(catalog, lines)
    ensures r.Ok? ==> |r.value.items| == |lines|
    ensures r.Ok? ==> forall j | 0 <= j < |lines| :: r.value.items[j] == PosItem(catalog, lines[j])
    ensures r.Err? ==> exists j | 0 <= j < |lines| ::
              && (forall i | 0 <= i < j :: !LineFails(catalog, lines[i]))
              && LineFails(catalog, lines[j])
              && r.error == LineError(catalog, lines[j])
  {
    var total := 0;
    var items: seq<Prepared> := [];
    var i := 0;
    while i < |lines|
      invariant 0 <= i <= |lines|
      invariant forall j | 0 <= j < i :: !LineFails(catalog, lines[j])
      invariant Listed(catalog, lines[..i])
      invariant total == PosTotal(catalog, lines[..i])
      invariant |items| == i
      invariant forall j | 0 <= j < i :: items[j] == PosItem(catalog, lines[j])
    {
      var line := lines[i];
      if line.id !in catalog || catalog[line.id].stock < line.quantity {
        assert LineFails(catalog, lines[i]);
        return Err(LineError(catalog, line));
      }
      var p := catalog[line.id];
      assert lines[..i + 1][..i] == lines[..i];
      total := total + p.price * line.quantity;
      items := items + [PosItem(catalog, line)];
      i := i + 1;
    }
    assert lines[..i] == lines;
    r := Ok(Batch(total, items));
  }

  /** The quantity of the last line for `k`, or 0 when no line names it. */
  function LastQty(lines: seq<PosLine>, k: ProductId): int
    decreases |lines|
  {
    if lines == [] then 0
    else if lines[|lines| - 1].id == k then lines[|lines| - 1].quantity
    else LastQty(lines[..|lines| - 1], k)
  }

  /** The total quantity the lines ask for `k`. */
  function QtyFor(lines: seq<PosLine>, k: ProductId): int
    decreases |lines|
  {
    if lines == [] then 0
    else
      var last := lines[|lines| - 1];
      QtyFor(lines[..|lines| - 1], k) + (if last.id == k then last.quantity else 0)
  }

  predicate DistinctIds(lines: seq<PosLine>) {
    forall i, j | 0 <= i < j < |lines| :: lines[i].id != lines[j].id
  }

  /**
   * The product table after the point-of-sale commit as written: line after
   * line, the product as it was fetched before any save is saved with that
   * line's quantity taken off, so the last line for a product decides its
   * stock.
   */
  function PosStockAsWritten(catalog: map<ProductId, Product>, lines: seq<PosLine>): (r: map<ProductId, Product>)
    requires Listed(catalog, lines)
    ensures r.Keys == catalog.Keys
    decreases |lines|
  {
    if lines == [] then catalog
    else
      var init, last := lines[..|lines| - 1], lines[|lines| - 1];
      PosStockAsWritten(catalog, init)[last.id := Sold(catalog[last.id], last.quantity)]
  }

  /** Under the as-written commit a product loses what its last line asked for. */
  lemma {:induction false} PosStockAsWrittenAt(catalog: map<ProductId, Product>, lines: seq<PosLine>, k: ProductId)
    requires Listed(catalog, lines) && k in catalog
    ensures PosStockAsWritten(catalog, lines)[k] == Sold(catalog[k], LastQty(lines, k))
    decreases |lines|
  {
    if lines != [] {
      PosStockAsWrittenAt(catalog, lines[..|lines| - 1], k);
    }
  }

  /**
   * The product table after the corrected commit: each line's save starts
   * from the row as the earlier lines left it, so a product loses all that
   * its lines asked for.
   */
  function PosStockChecked(catalog: map<ProductId, Product>, lines: seq<PosLine>): (r: map<ProductId, Product>)
    requires Listed(catalog, lines)
    ensures r.Keys == catalog.Keys
    decreases |lines|
  {
    if lines == [] then catalog
    else
      var init, last := lines[..|lines| - 1], lines[|lines| - 1];
      var before := PosStockChecked(catalog, init);
      before[last.id := Sold(before[last.id], last.quantity)]
  }

  /** Under the corrected commit a product loses all that its lines asked for. */
  lemma {:induction false} PosStockCheckedAt(catalog: map<ProductId, Product>, lines: seq<PosLine>, k: ProductId)
    requires Listed(catalog, lines) && k in catalog
    ensures PosStockChecked(catalog, lines)[k] == Sold(catalog[k], QtyFor(lines, k))
    decreases |lines|
  {
    if lines != [] {
      PosStockCheckedAt(catalog, lines[..|lines| - 1], k);
      PosStockCheckedAt(catalog, lines[..|lines| - 1], lines[|lines| - 1].id);
    }
  }

  /** The corrected commit leaves no product it sold with negative stock. */
  lemma {:induction false} CheckedKeepsStock(catalog: map<ProductId, Product>, lines: seq<PosLine>)
    requires CumulativeStockOk(catalog, lines)
    ensures Listed(catalog, lines)
    ensures forall j | 0 <= j < |lines| :: PosStockChecked(catalog, lines)[lines[j].id].stock >= 0
  {
    forall j | 0 <= j < |lines| ensures PosStockChecked(catalog, lines)[lines[j].id].stock >= 0 {
      PosStockCheckedAt(catalog, lines, lines[j].id);
    }
  }

  /** Every line passed against the fetched stock, so the last line for a product asks for no more than it. */
  lemma {:induction false} LastQtyFits(catalog: map<ProductId, Product>, lines: seq<PosLine>, k: ProductId)
    requires PerLineStockOk(catalog, lines) && k in catalog
    requires exists j | 0 <= j < |lines| :: lines[j].id == k
    ensures LastQty(lines, k) <= catalog[k].stock
    decreases |lines|
  {
    var init, last := lines[..|lines| - 1], lines[|lines| - 1];
    if last.id != k {
      var j :| 0 <= j < |lines| && lines[j].id == k;
      assert init[j] == lines[j];
      assert PerLineStockOk(catalog, init) by {
        forall i | 0 <= i < |init| ensures init[i] == lines[i] { }
      }
      LastQtyFits(catalog, init, k);
    }
  }

  /**
   * The as-written commit oversells a product named twice, but it never
   * leaves a product below zero: the last line's save is the fetched stock
   * minus a quantity that passed the check against that same stock.
   */
  lemma {:induction false} AsWrittenKeepsStock(catalog: map<ProductId, Product>, lines: seq<PosLine>)
    requires PerLineStockOk(catalog, lines)
    ensures Listed(catalog, lines)
    ensures forall j | 0 <= j < |lines| :: PosStockAsWritten(catalog, lines)[lines[j].id].stock >= 0
  {
    forall j | 0 <= j < |lines| ensures PosStockAsWritten(catalog, lines)[lines[j].id].stock >= 0 {
      PosStockAsWrittenAt(catalog, lines, lines[j].id);
      LastQtyFits(catalog, lines, lines[j].id);
    }
  }

  lemma {:induction false} QtyForAbsent(lines: seq<PosLine>, k: ProductId)
    requires forall j | 0 <= j < |lines| :: lines[j].id != k
    ensures QtyFor(lines, k) == 0
    decreases |lines|
  {
    if lines != [] {
      QtyForAbsent(lines[..|lines| - 1], k);
    }
  }

  /**
   * When no product is named twice, the last line for a product is its only
   * line: what the as-written commit subtracts equals what was sold.
   */
  lemma {:induction false} LastQtyIsTotalWhenDistinct(lines: seq<PosLine>, k: ProductId)
    requires DistinctIds(lines)
    ensures LastQty(lines, k) == QtyFor(lines, k)
    decreases |lines|
  {
    if lines != [] {
      var init := lines[..|lines| - 1];
      assert DistinctIds(init);
      if lines[|lines| - 1].id == k {
        QtyForAbsent(init, k);
      } else {
        LastQtyIsTotalWhenDistinct(init, k);
      }
    }
  }

  /** A line whose product is named by no other line asks for exactly its own quantity. */
  lemma {:induction false} QtyForSingle(lines: seq<PosLine>, j: nat)
    requires DistinctIds(lines) && j < |lines|
    ensures QtyFor(lines, lines[j].id) == lines[j].quantity
  {
    var k := lines[j].id;
    LastQtyIsTotalWhenDistinct(lines, k);
    LastQtyAt(lines, j);
  }

  lemma {:induction false} LastQtyAt(lines: seq<PosLine>, j: nat)
    requires DistinctIds(lines) && j < |lines|
    ensures LastQty(lines, lines[j].id) == lines[j].quantity
    decreases |lines|
  {
    var init := lines[..|lines| - 1];
    if j < |lines| - 1 {
      assert DistinctIds(init);
      assert init[j] == lines[j];
      LastQtyAt(init, j);
    }
  }

  /**
   * The sale form, as written, accepts two lines for a product with 5 units
   * in stock, each asking for 3: 6 units are sold, and the stock is left at
   * 2 because the second line's save overwrites the first.
   */
  lemma {:induction false} RepeatedLineOversells()
    ensures var ron := Product("ron", 1, "", 1000, 5, None, true);
            var catalog := map[7 := ron];
            var lines := [PosLine(7, 3), PosLine(7, 3)];
            && PerLineStockOk(catalog, lines)
            && QtyFor(lines, 7) == 6 > ron.stock
            && Sold(ron, LastQty(lines, 7)).stock == 2
            && Sold(ron, LastQty(lines, 7)).stock != ron.stock - QtyFor(lines, 7)
  {
    var lines := [PosLine(7, 3), PosLine(7, 3)];
    assert lines[..1] == [PosLine(7, 3)];
    assert lines[..1][..0] == [];
  }

  /**
   * The sale form, as written, accepts a line with quantity -2: the sale
   * total comes out negative and the product's stock grows.
   */
  lemma {:induction false} NegativeQuantityRestocks()
    ensures var ron := Product("ron", 1, "", 1000, 5, None, true);
            var catalog := map[7 := ron];
            var lines := [PosLine(7, -2)];
            && PerLineStockOk(catalog, lines)
            && PosTotal(catalog, lines) == -2000
            && Sold(ron, LastQty(lines, 7)).stock == 7
  {
    var lines := [PosLine(7, -2)];
    assert lines[..0] == [];
  }

  // Corrected point-of-sale validation.

  /**
   * The check the sale form evidently intends: every line asks for at least
   * one unit, and all lines for a product together ask for no more than its
   * stock.
   */
  predicate CumulativeStockOk(catalog: map<ProductId, Product>, lines: seq<PosLine>) {
    forall j | 0 <= j < |lines| ::
      lines[j].quantity >= 1 && lines[j].id in catalog && QtyFor(lines, lines[j].id) <= catalog[lines[j].id].stock
  }

  /** Line j stops the corrected check: a bad quantity, a missing product, or too much asked so far. */
  predicate RunningFails(catalog: map<ProductId, Product>, lines: seq<PosLine>, j: nat)
    requires j < |lines|
  {
    lines[j].quantity < 1 || lines[j].id !in catalog || QtyFor(lines[..j + 1], lines[j].id) > catalog[lines[j].id].stock
  }

  function RunningError(catalog: map<ProductId, Product>, line: PosLine): Failure {
    if line.quantity < 1 then BadQuantity(line.id)
    else if line.id !in catalog then NotFound(line.id)
    else InsufficientStock(line.id)
  }

  lemma {:induction false} QtyForGrows(lines: seq<PosLine>, n: nat, k: ProductId)
    requires n <= |lines|
    requires forall j | n <= j < |lines| :: lines[j].quantity >= 0
    ensures QtyFor(lines[..n], k) <= QtyFor(lines, k)
    decreases |lines|
  {
    if n == |lines| {
      assert lines[..n] == lines;
    } else {
      var init := lines[..|lines| - 1];
      assert init[..n] == lines[..n];
      QtyForGrows(init, n, k);
    }
  }

  lemma {:induction false} CumulativeImpliesRunning(catalog: map<ProductId, Product>, lines: seq<PosLine>)
    requires CumulativeStockOk(catalog, lines)
    ensures forall j | 0 <= j < |lines| :: !RunningFails(catalog, lines, j)
  {
    forall j | 0 <= j < |lines| ensures !RunningFails(catalog, lines, j) {
      QtyForGrows(lines, j + 1, lines[j].id);
    }
  }

  lemma {:induction false} RunningImpliesCumulative(catalog: map<ProductId, Product>, lines: seq<PosLine>)
    requires forall j | 0 <= j < |lines| :: !RunningFails(catalog, lines, j)
    ensures CumulativeStockOk(catalog, lines)
    decreases |lines|
  {
    if lines != [] {
      var n := |lines|;
      var init, last := lines[..n - 1], lines[n - 1];
      assert lines[..n] == lines;
      assert !RunningFails(catalog, lines, n - 1);
      forall j | 0 <= j < n - 1 ensures !RunningFails(catalog, init, j) {
        assert init[j] == lines[j];
        assert init[..j + 1] == lines[..j + 1];
        assert !RunningFails(catalog, lines, j);
      }
      RunningImpliesCumulative(catalog, init);
      forall j | 0 <= j < n
        ensures lines[j].quantity >= 1 && lines[j].id in catalog
        ensures QtyFor(lines, lines[j].id) <= catalog[lines[j].id].stock
      {
        assert !RunningFails(catalog, lines, j);
        if last.id != lines[j].id {
          assert init[j] == lines[j];
          assert QtyFor(lines, lines[j].id) == QtyFor(init, lines[j].id);
        }
      }
    }
  }

  /**
   * Checking each line against what has been asked so far for its product
   * accepts exactly the lines the cumulative check accepts.
   */
  lemma {:induction false} RunningIffCumulative(catalog: map<ProductId, Product>, lines: seq<PosLine>)
    ensures (forall j | 0 <= j < |lines| :: !RunningFails(catalog, lines, j)) <==> CumulativeStockOk(catalog, lines)
  {
    if CumulativeStockOk(catalog, lines) {
      CumulativeImpliesRunning(catalog, lines);
    }
    if forall j | 0 <= j < |lines| :: !RunningFails(catalog, lines, j) {
      RunningImpliesCumulative(catalog, lines);
    }
  }

  /**
   * Without repeated products and with positive quantities, the corrected
   * check and the check as written accept the same sales.
   */
  lemma {:induction false} CheckedAgreesWhenDistinct(catalog: map<ProductId, Product>, lines: seq<PosLine>)
    requires DistinctIds(lines)
    requires forall j | 0 <= j < |lines| :: lines[j].quantity >= 1
    ensures CumulativeStockOk(catalog, lines) <==> PerLineStockOk(catalog, lines)
  {
    forall j | 0 <= j < |lines| ensures QtyFor(lines, lines[j].id) == lines[j].quantity {
      QtyForSingle(lines, j);
    }
  }

  /**
   * The corrected first loop: lines with quantity below one are refused, and
   * each line is checked against the product's stock minus what earlier
   * lines already asked for it.
   */
  method PreparePosSaleChecked(catalog: map<ProductId, Product>, lines: seq<PosLine>)
    returns (r: Result<Batch, Failure>)
    ensures r.Ok? <==> CumulativeStockOk(catalog, lines)
    ensures r.Ok? ==> Listed(catalog, lines) && r.value.total == PosTotal(catalog, lines)
    ensures r.Ok? ==> |r.value.items| == |lines|
    ensures r.Ok? ==> forall j | 0 <= j < |lines| :: r.value.items[j] == PosItem(catalog, lines[j])
    ensures r.Err? ==> exists j | 0 <= j < |lines| ::
              && (forall i | 0 <= i < j :: !RunningFails(catalog, lines, i))
              && RunningFails(catalog, lines, j)
              && r.error == RunningError(catalog, lines[j])
  {
    var taken: map<ProductId, int> := map[];
    var total := 0;
    var items: seq<Prepared> := [];
    var i := 0;
    while i < |lines|
      invariant 0 <= i <= |lines|
      invariant forall j | 0 <= j < i :: !RunningFails(catalog, lines, j)
      invariant forall k :: QtyFor(lines[..i], k) == (if k in taken then taken[k] else 0)
      invariant Listed(catalog, lines[..i])
      invariant total == PosTotal(catalog, lines[..i])
      invariant |items| == i
      invariant forall j | 0 <= j < i :: items[j] == PosItem(catalog, lines[j])
    {
      var line := lines[i];
      assert lines[..i + 1][..i] == lines[..i];
      var already := if line.id in taken then taken[line.id] else 0;
      if line.quantity < 1 || line.id !in catalog || already + line.quantity > catalog[line.id].stock {
        assert RunningFails(catalog, lines, i);
        RunningIffCumulative(catalog, lines);
        return Err(RunningError(catalog, line));
      }
      var p := catalog[line.id];
      taken := taken[line.id := already + line.quantity];
      total := total + p.price * line.quantity;
      items := items + [PosItem(catalog, line)];
      i := i + 1;
    }
    assert lines[..i] == lines;
    RunningIffCumulative(catalog, lines);
    r := Ok(Batch(total, items));
  }

  // ------------------------------------------------------------------
  // The commit loops, stated over the prepared items

  /** The line items the commit loop writes for the prepared items, in order. */
  function ItemLines(sale: SaleId, items: seq<Prepared>): (r: seq<LineItem>)
    ensures |r| == |items|
    ensures forall j | 0 <= j < |r| :: r[j].sale == sale
    decreases |items|
  {
    if items == [] then []
    else
      var it := items[|items| - 1];
      ItemLines(sale, items[..|items| - 1]) + [NewLineItem(sale, it.id, it.product, it.quantity, it.subtotal)]
  }

  /** The product table after saving, item after item, the product as it was fetched minus the item's quantity. */
  function SavedStock(catalog: map<ProductId, Product>, items: seq<Prepared>): map<ProductId, Product>
    decreases |items|
  {
    if items == [] then catalog
    else
      var it := items[|items| - 1];
      SavedStock(catalog, items[..|items| - 1])[it.id := Sold(it.product, it.quantity)]
  }

  /** The product table after saving, item after item, the current row minus the item's quantity. */
  function LiveStock(catalog: map<ProductId, Product>, items: seq<Prepared>): (r: map<ProductId, Product>)
    requires forall j | 0 <= j < |items| :: items[j].id in catalog
    ensures r.Keys == catalog.Keys
    decreases |items|
  {
    if items == [] then catalog
    else
      var it := items[|items| - 1];
      var before := LiveStock(catalog, items[..|items| - 1]);
      before[it.id := Sold(before[it.id], it.quantity)]
  }

  /** The items the customer checkout prepares commit exactly its lines and its stock changes. */
  lemma {:induction false} CheckoutCommit(sale: SaleId, catalog: map<ProductId, Product>,
                                          cart: map<ProductId, CartEntry>, keys: seq<ProductId>, items: seq<Prepared>)
    requires StockSuffices(catalog, cart, keys)
    requires |items| == |keys|
    requires forall j | 0 <= j < |keys| ::
               items[j] == Prepared(keys[j], catalog[keys[j]], cart[keys[j]].quantity, cart[keys[j]].subtotal)
    ensures ItemLines(sale, items) == CheckoutLines(sale, catalog, cart, keys)
    ensures SavedStock(catalog, items) == CheckoutStock(catalog, cart, keys)
    decreases |keys|
  {
    if keys != [] {
      var n := |keys|;
      assert keys[..n - 1] + [keys[n - 1]] == keys;
      CheckoutCommit(sale, catalog, cart, keys[..n - 1], items[..n - 1]);
    }
  }

  /** The items the point-of-sale sale prepares commit exactly its lines and, either way, its stock changes. */
  lemma {:induction false} PosCommit(sale: SaleId, catalog: map<ProductId, Product>, lines: seq<PosLine>,
                                     items: seq<Prepared>)
    requires Listed(catalog, lines)
    requires |items| == |lines|
    requires forall j | 0 <= j < |lines| :: items[j] == PosItem(catalog, lines[j])
    ensures forall j | 0 <= j < |items| :: items[j].id in catalog
    ensures ItemLines(sale, items) == PosLines(sale, catalog, lines)
    ensures SavedStock(catalog, items) == PosStockAsWritten(catalog, lines)
    ensures LiveStock(catalog, items) == PosStockChecked(catalog, lines)
  {
    PosCommitLines(sale, catalog, lines, items);
    PosCommitSaved(catalog, lines, items);
    PosCommitLive(catalog, lines, items);
  }

  lemma {:induction false} PosCommitLines(sale: SaleId, catalog: map<ProductId, Product>, lines: seq<PosLine>,
                                          items: seq<Prepared>)
    requires Listed(catalog, lines)
    requires |items| == |lines|
    requires forall j | 0 <= j < |lines| :: items[j] == PosItem(catalog, lines[j])
    ensures ItemLines(sale, items) == PosLines(sale, catalog, lines)
    decreases |lines|
  {
    if lines != [] {
      var n := |lines|;
      PosCommitLines(sale, catalog, lines[..n - 1], items[..n - 1]);
    }
  }

  lemma {:induction false} PosCommitSaved(catalog: map<ProductId, Product>, lines: seq<PosLine>, items: seq<Prepared>)
    requires Listed(catalog, lines)
    requires |items| == |lines|
    requires forall j | 0 <= j < |lines| :: items[j] == PosItem(catalog, lines[j])
    ensures SavedStock(catalog, items) == PosStockAsWritten(catalog, lines)
    decreases |lines|
  {
    if lines != [] {
      var n := |lines|;
      PosCommitSaved(catalog, lines[..n - 1], items[..n - 1]);
    }
  }

  lemma {:induction false} PosCommitLive(catalog: map<ProductId, Product>, lines: seq<PosLine>, items: seq<Prepared>)
    requires Listed(catalog, lines)
    requires |items| == |lines|
    requires forall j | 0 <= j < |lines| :: items[j] == PosItem(catalog, lines[j])
    ensures forall j | 0 <= j < |items| :: items[j].id in catalog
    ensures LiveStock(catalog, items) == PosStockChecked(catalog, lines)
    decreases |lines|
  {
    if lines != [] {
      var n := |lines|;
      PosCommitLive(catalog, lines[..n - 1], items[..n - 1]);
    }
  }
}
