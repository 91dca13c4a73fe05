/**
 * The role gates of the views, gathered into one policy. The views test the
 * stored role string through `hasattr(request.user, 'perfil')` and
 * `request.user.perfil.rol`; a user without a profile is let through some
 * gates and stopped at others.
 */
module Access {
  import opened Wrappers
  import opened Models

  datatype Action =
    | ManageCatalog            // create, edit and deactivate products
    | RecordPosSale            // the point-of-sale sale form
    | SeeDashboard             // the statistics dashboard
    | SeeReports               // the sales reports
    | SeeAllSales              // the sales list without the per-user filter
    | SeeSaleDetail(ownSale: bool) // one sale; ownSale: the sale was made by the requesting user
    | SeeOwnOrders             // the customer's order history
    | UseStore                 // the store page, the cart and the customer checkout

  /** The role string the views read, or None for a user without a profile. */
  function StoredRole(profile: Option<Role>): Option<string> {
    match profile
    case None => None
    case Some(r) => Some(RoleCode(r))
  }

  /** Each gate as the views write it, over the stored role string. */
  predicate ViewAllows(rol: Option<string>, action: Action) {
    match action
    case ManageCatalog => !(rol.None? || rol.value !in ["admin", "cajero"])
    case SeeReports => !(rol.None? || rol.value != "admin")
    case RecordPosSale => !(rol.Some? && rol.value == "cliente")
    case SeeDashboard => !(rol.Some? && rol.value == "cliente")
    case SeeAllSales => rol.Some? && rol.value == "admin"
    case SeeSaleDetail(own) => !(rol.Some? && rol.value !in ["admin", "cajero"] && !own)
    case SeeOwnOrders => true
    case UseStore => true
  }

  /**
   * The access policy as one table over roles, with "no profile" as its own
   * row; it agrees with every gate the views write out.
   */
  function Can(profile: Option<Role>, action: Action): (allowed: bool)
    ensures allowed == ViewAllows(StoredRole(profile), action)
  {
    match action
    case ManageCatalog => profile == Some(Admin) || profile == Some(Cashier)
    case SeeReports => profile == Some(Admin)
    case SeeAllSales => profile == Some(Admin)
    case RecordPosSale => profile != Some(Customer)
    case SeeDashboard => profile != Some(Customer)
    case SeeSaleDetail(own) => own || profile != Some(Customer)
    case SeeOwnOrders => true
    case UseStore => true
  }

  /**
   * How much a profile may do: a customer least, then a user without a
   * profile, then a cashier, then an administrator.
   */
  function Rank(profile: Option<Role>): nat {
    match profile
    case Some(Customer) => 0
    case None => 1
    case Some(Cashier) => 2
    case Some(Admin) => 3
  }

  /** Whatever a profile may do, every profile of higher rank may do too. */
  lemma {:induction false} CanIsMonotone(p: Option<Role>, q: Option<Role>, a: Action)
    requires Rank(p) <= Rank(q)
    requires Can(p, a)
    ensures Can(q, a)
  {
  }

  /**
   * A user without a profile is let into the point-of-sale form, the
   * dashboard and every sale's detail, but not into the catalog or the
   * reports; a customer is kept out of all five.
   */
  lemma {:induction false} NoProfileAndCustomerGates()
    ensures Can(None, RecordPosSale) && Can(None, SeeDashboard) && Can(None, SeeSaleDetail(false))
    ensures !Can(None, ManageCatalog) && !Can(None, SeeReports) && !Can(None, SeeAllSales)
    ensures !Can(Some(Customer), RecordPosSale) && !Can(Some(Customer), SeeDashboard)
    ensures !Can(Some(Customer), SeeSaleDetail(false)) && !Can(Some(Customer), ManageCatalog)
    ensures !Can(Some(Customer), SeeReports)
  {
  }

  /**
   * A stored role outside the choice list passes exactly the gates a user
   * without a profile passes, except another user's sale detail, which it is
   * refused like a customer.
   */
  lemma {:induction false} UnlistedRoleString(s: string, a: Action)
    requires ParseRole(s).None?
    ensures a != SeeSaleDetail(false) ==> ViewAllows(Some(s), a) == Can(None, a)
    ensures !ViewAllows(Some(s), SeeSaleDetail(false))
  {
    assert s != "admin" && s != "cajero" && s != "cliente";
  }
}
