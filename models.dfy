/**
 * The records of the store: products, sales, line items and user profiles,
 * their choice lists as enumerations with the codes stored in the database,
 * and the defaults a new record gets.
 */
module Models {
  import opened Wrappers

  type ProductId = nat
  type CategoryId = nat
  type SaleId = nat
  type UserId = nat

  /** A `DecimalField(decimal_places=2)` amount, as a whole number of cents. */
  type Cents = int

  /** `Perfil.ROLES` */
  datatype Role = Admin | Cashier | Customer

  /** `Venta.METODOS_PAGO` */
  datatype PaymentMethod = Cash | Card | Transfer

  /** `Venta.ESTADOS` */
  datatype SaleStatus = Completed | Cancelled

  /** The value the role column stores for each choice. */
  function RoleCode(r: Role): string {
    match r
    case Admin => "admin"
    case Cashier => "cajero"
    case Customer => "cliente"
  }

  /** Reads a stored role back; only the three choice codes are roles. */
  function ParseRole(s: string): (r: Option<Role>)
    ensures r.Some? ==> RoleCode(r.value) == s
    ensures forall x :: RoleCode(x) == s ==> r == Some(x)
  {
    if s == "admin" then Some(Admin)
    else if s == "cajero" then Some(Cashier)
    else if s == "cliente" then Some(Customer)
    else None
  }

  function PaymentCode(m: PaymentMethod): string {
    match m
    case Cash => "efectivo"
    case Card => "tarjeta"
    case Transfer => "transferencia"
  }

  /** Reads a stored payment method back; only the three choice codes are methods. */
  function ParsePayment(s: string): (r: Option<PaymentMethod>)
    ensures r.Some? ==> PaymentCode(r.value) == s
    ensures forall x :: PaymentCode(x) == s ==> r == Some(x)
  {
    if s == "efectivo" then Some(Cash)
    else if s == "tarjeta" then Some(Card)
    else if s == "transferencia" then Some(Transfer)
    else None
  }

  function StatusCode(st: SaleStatus): string {
    match st
    case Completed => "completada"
    case Cancelled => "cancelada"
  }

  /** Reads a stored sale status back; only the two choice codes are statuses. */
  function ParseStatus(s: string): (r: Option<SaleStatus>)
    ensures r.Some? ==> StatusCode(r.value) == s
    ensures forall x :: StatusCode(x) == s ==> r == Some(x)
  {
    if s == "completada" then Some(Completed)
    else if s == "cancelada" then Some(Cancelled)
    else None
  }

  /** Below this many units a product counts as low on stock. */
  const LowStockThreshold: int := 10

  /**
   * `Producto`. Stock is a plain integer column: nothing in the schema keeps
   * it non-negative. The image and the timestamps are not modelled.
   */
  datatype Product = Product(
    name: string,
    category: CategoryId,
    description: string,
    price: Cents,
    stock: int,
    barcode: Option<string>,
    active: bool)
  {
    /** `stock_bajo` */
    predicate LowStock() {
      stock < LowStockThreshold
    }
  }

  /**
   * The low-stock flag is set from nine units down and cleared from ten up,
   * and a product with less stock than a flagged one is flagged too.
   */
  lemma LowStockBoundary(p: Product, q: Product)
    ensures p.stock <= 9 ==> p.LowStock()
    ensures p.stock >= 10 ==> !p.LowStock()
    ensures q.stock <= p.stock && p.LowStock() ==> q.LowStock()
  {
  }

  /** A product created with the column defaults: no stock, and active. */
  function NewProduct(name: string, category: CategoryId, description: string,
                      price: Cents, barcode: Option<string>): (p: Product)
    ensures p.stock == 0 && p.active
    ensures p.LowStock()
    ensures p.name == name && p.category == category && p.description == description
    ensures p.price == price && p.barcode == barcode
  {
    Product(name, category, description, price, 0, barcode, true)
  }

  /**
   * The product after `producto.stock -= cantidad; producto.save()`: only the
   * stock moves, and selling a non-negative quantity never clears the
   * low-stock flag.
   */
  function Sold(p: Product, quantity: int): (r: Product)
    ensures r.stock == p.stock - quantity
    ensures r.(stock := p.stock) == p
    ensures quantity == 0 ==> r == p
    ensures quantity >= 0 && p.LowStock() ==> r.LowStock()
  {
    p.(stock := p.stock - quantity)
  }

  /** `Venta`. The creation time is not modelled. */
  datatype Sale = Sale(
    id: SaleId,
    user: UserId,
    total: Cents,
    payment: PaymentMethod,
    status: SaleStatus,
    notes: string)

  const DefaultStatus: SaleStatus := Completed

  /** `Venta.objects.create(usuario, total, metodo_pago)`: completed, without notes. */
  function NewSale(id: SaleId, user: UserId, total: Cents, payment: PaymentMethod): (s: Sale)
    ensures s.status == DefaultStatus && s.notes == ""
    ensures s.id == id && s.user == user && s.total == total && s.payment == payment
  {
    Sale(id, user, total, payment, DefaultStatus, "")
  }

  /**
   * `ItemVenta`: the line keeps its own copy of the product's name and price,
   * so later edits or a deactivation of the product do not alter it.
   */
  datatype LineItem = LineItem(
    sale: SaleId,
    product: ProductId,
    productName: string,
    quantity: int,
    unitPrice: Cents,
    subtotal: Cents)

  /** `ItemVenta.objects.create(...)` from the product as it was fetched. */
  function NewLineItem(sale: SaleId, id: ProductId, p: Product, quantity: int, subtotal: Cents): (l: LineItem)
    ensures l.productName == p.name && l.unitPrice == p.price
    ensures l.sale == sale && l.product == id && l.quantity == quantity && l.subtotal == subtotal
  {
    LineItem(sale, id, p.name, quantity, p.price, subtotal)
  }

  /** `Perfil`. */
  datatype Profile = Profile(user: UserId, role: Role, phone: string, address: string)

  const DefaultRole: Role := Customer

  /** A profile created with the column defaults. */
  function NewProfile(user: UserId): (p: Profile)
    ensures p.role == DefaultRole && p.user == user && p.phone == "" && p.address == ""
  {
    Profile(user, DefaultRole, "", "")
  }
}
