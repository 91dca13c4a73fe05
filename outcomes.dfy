/** What a view reports back: the error taxonomy and the messages of the cart views. */
module Outcomes {
  /** Why a view refused a request; nothing was written when one of these is returned. */
  datatype Failure =
    | PermissionDenied           // a role gate redirected the user
    | NotFound(id: nat)          // `get_object_or_404` or `objects.get` found no row
    | EmptyCart                  // 'El carrito está vacío'
    | NoLines                    // 'Debes agregar al menos un producto'
    | InsufficientStock(id: nat) // 'Stock insuficiente para ...'
    | BadQuantity(id: nat)       // a point-of-sale line with quantity below one (corrected sale only)

  /** The message each cart view leaves for the store page. */
  datatype CartStatus =
    | Added           // 'Producto agregado'
    | Incremented     // 'Cantidad actualizada'
    | AtStockLimit    // 'No hay más stock disponible'
    | NoStock         // 'Producto sin stock disponible'
    | ProductNotFound // 404 from `get_object_or_404`
    | Updated         // 'Carrito actualizado'
    | Removed         // 'Producto eliminado del carrito'
    | NotInCart       // the key was not in the cart: nothing happens, no message
    | NotEnoughStock  // 'No hay suficiente stock'
}
