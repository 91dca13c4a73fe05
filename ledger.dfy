/**
 * The sale ledger: sales and their line items, the consistency between a
 * sale's total and its lines, and the two views that read it (the sales
 * list and one sale's detail).
 */
module Ledger {
  import opened Wrappers
  import opened Models
  import opened Outcomes
  import opened Access

  /** The sum of the lines' subtotals. */
  function LinesSubtotal(lines: seq<LineItem>): Cents
    decreases |lines|
  {
    if lines == [] then 0
    else LinesSubtotal(lines[..|lines| - 1]) + lines[|lines| - 1].subtotal
  }

  /** The sum of the subtotals of the lines that belong to one sale. */
  function SaleLinesTotal(lines: seq<LineItem>, sale: SaleId): Cents
    decreases |lines|
  {
    if lines == [] then 0
    else
      var last := lines[|lines| - 1];
      SaleLinesTotal(lines[..|lines| - 1], sale) + (if last.sale == sale then last.subtotal else 0)
  }

  /**
   * Sales are numbered 1, 2, ... in the order they were created, every line
   * belongs to a recorded sale, and every sale's total is the sum of its
   * lines' subtotals.
   */
  predicate LedgerConsistent(sales: seq<Sale>, lines: seq<LineItem>) {
    && (forall i | 0 <= i < |sales| :: sales[i].id == i + 1 && sales[i].total == SaleLinesTotal(lines, i + 1))
    && (forall j | 0 <= j < |lines| :: 1 <= lines[j].sale <= |sales|)
  }

  lemma {:induction false} SaleLinesTotalAppend(a: seq<LineItem>, b: seq<LineItem>, sale: SaleId)
    ensures SaleLinesTotal(a + b, sale) == SaleLinesTotal(a, sale) + SaleLinesTotal(b, sale)
    decreases |b|
  {
    if b == [] {
      assert a + b == a;
    } else {
      var init := b[..|b| - 1];
      assert (a + b)[..|a + b| - 1] == a + init;
      SaleLinesTotalAppend(a, init, sale);
    }
  }

  lemma {:induction false} SaleLinesTotalOfOthers(lines: seq<LineItem>, sale: SaleId)
    requires forall j | 0 <= j < |lines| :: lines[j].sale != sale
    ensures SaleLinesTotal(lines, sale) == 0
    decreases |lines|
  {
    if lines != [] {
      SaleLinesTotalOfOthers(lines[..|lines| - 1], sale);
    }
  }

  lemma {:induction false} SaleLinesTotalOfOne(lines: seq<LineItem>, sale: SaleId)
    requires forall j | 0 <= j < |lines| :: lines[j].sale == sale
    ensures SaleLinesTotal(lines, sale) == LinesSubtotal(lines)
    decreases |lines|
  {
    if lines != [] {
      SaleLinesTotalOfOne(lines[..|lines| - 1], sale);
    }
  }

  /**
   * Recording a new sale together with its own lines, whose subtotals add up
   * to its total, keeps the ledger consistent.
   */
  lemma {:induction false} LedgerAppend(sales: seq<Sale>, lines: seq<LineItem>, s: Sale, newLines: seq<LineItem>)
    requires LedgerConsistent(sales, lines)
    requires s.id == |sales| + 1
    requires forall j | 0 <= j < |newLines| :: newLines[j].sale == s.id
    requires s.total == LinesSubtotal(newLines)
    ensures LedgerConsistent(sales + [s], lines + newLines)
  {
    var sales', lines' := sales + [s], lines + newLines;
    forall i | 0 <= i < |sales'|
      ensures sales'[i].id == i + 1 && sales'[i].total == SaleLinesTotal(lines', i + 1)
    {
      SaleLinesTotalAppend(lines, newLines, i + 1);
      if i < |sales| {
        SaleLinesTotalOfOthers(newLines, i + 1);
      } else {
        SaleLinesTotalOfOthers(lines, i + 1);
        SaleLinesTotalOfOne(newLines, i + 1);
      }
    }
  }

  /** The sales made by one user, in ledger order (`Venta.objects.filter(usuario=...)`). */
  function SalesOf(sales: seq<Sale>, user: UserId): (r: seq<Sale>)
    ensures forall s :: s in r <==> s in sales && s.user == user
    ensures |r| <= |sales|
    decreases |sales|
  {
    if sales == [] then []
    else
      var init, last := sales[..|sales| - 1], sales[|sales| - 1];
      assert sales == init + [last];
      SalesOf(init, user) + (if last.user == user then [last] else [])
  }

  /** The filter keeps ledger order: the history of a longer ledger extends the shorter one's. */
  lemma {:induction false} SalesOfAppend(a: seq<Sale>, b: seq<Sale>, user: UserId)
    ensures SalesOf(a + b, user) == SalesOf(a, user) + SalesOf(b, user)
    decreases |b|
  {
    if b == [] {
      assert a + b == a;
    } else {
      var init, last := b[..|b| - 1], b[|b| - 1];
      var tail := if last.user == user then [last] else [];
      assert (a + b)[..|a + b| - 1] == a + init;
      assert (a + b)[|a + b| - 1] == last;
      assert SalesOf(a + b, user) == SalesOf(a + init, user) + tail;
      assert SalesOf(b, user) == SalesOf(init, user) + tail;
      SalesOfAppend(a, init, user);
      assert SalesOf(a, user) + SalesOf(init, user) + tail == SalesOf(a, user) + (SalesOf(init, user) + tail);
    }
  }

  /** The filter neither repeats nor drops a sale: each of the user's own sales occurs as often as in the ledger. */
  lemma {:induction false} SalesOfCounts(sales: seq<Sale>, user: UserId)
    ensures forall s :: multiset(SalesOf(sales, user))[s] == if s.user == user then multiset(sales)[s] else 0
    decreases |sales|
  {
    if sales != [] {
      var init, last := sales[..|sales| - 1], sales[|sales| - 1];
      assert sales == init + [last];
      SalesOfCounts(init, user);
      assert multiset(sales) == multiset(init) + multiset{last};
    }
  }

  /** The sales list: every sale for an administrator, one's own sales for everybody else. */
  function VisibleSales(sales: seq<Sale>, user: UserId, profile: Option<Role>): (r: seq<Sale>)
    ensures forall s :: s in r <==> s in sales && (profile == Some(Admin) || s.user == user)
    ensures forall s :: multiset(r)[s] == if profile == Some(Admin) || s.user == user then multiset(sales)[s] else 0
  {
    if Can(profile, SeeAllSales) then sales else SalesOfCounts(sales, user); SalesOf(sales, user)
  }

  /** The first sale with the given id. */
  function FindSale(sales: seq<Sale>, pk: SaleId): (r: Option<Sale>)
    ensures r.Some? ==> r.value in sales && r.value.id == pk
    ensures r.None? ==> forall s | s in sales :: s.id != pk
    decreases |sales|
  {
    if sales == [] then None
    else if sales[0].id == pk then Some(sales[0])
    else
      assert sales == [sales[0]] + sales[1..];
      FindSale(sales[1..], pk)
  }

  /**
   * One sale's detail page: a missing sale is a 404; a customer may see only
   * the sales made by that customer; everybody else sees any sale.
   */
  function SaleDetail(sales: seq<Sale>, user: UserId, profile: Option<Role>, pk: SaleId): (r: Result<Sale, Failure>)
    ensures r.Ok? || r == Err(NotFound(pk)) || r == Err(PermissionDenied)
    ensures r == Err(NotFound(pk)) <==> forall s | s in sales :: s.id != pk
    ensures r.Ok? ==> r.value in sales && r.value.id == pk && Can(profile, SeeSaleDetail(r.value.user == user))
    ensures r == Err(PermissionDenied) ==>
              profile == Some(Customer) && exists s | s in sales :: s.id == pk && s.user != user
  {
    match FindSale(sales, pk)
    case None => Err(NotFound(pk))
    case Some(s) =>
      if Can(profile, SeeSaleDetail(s.user == user)) then Ok(s) else Err(PermissionDenied)
  }
}
