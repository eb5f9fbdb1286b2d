/** The documents the server keeps in its five collections, and the error
    responses its handlers send. */
module Records {

  datatype Option<+T> = None | Some(value: T)

  datatype Result<+T, +E> = Ok(value: T) | Err(error: E)

  /** A document identifier. The store generates them, as MongoDB generates
      ObjectIds; nothing but equality is ever asked of them. */
  type Id = nat

  type Email = string

  /** The only role value that the server ever compares against. */
  const AdminRole: string := "admin"

  /** A document of `usersCollection`. The registration body is stored as it
      arrives, so `role` is whatever the client sent, possibly nothing. */
  datatype User = User(id: Id, email: Email, role: Option<string>)

  predicate IsAdmin(u: User) {
    u.role == Some(AdminRole)
  }

  /** A document of `menuCollection`; `price` in cents. */
  datatype MenuItem = MenuItem(id: Id, name: string, category: string, price: int)

  /** A document of `carts`: one pending selection of one menu item by its owner. */
  datatype CartEntry = CartEntry(id: Id, email: Email, menuItemId: Id, price: int)

  /** A document of `payments`: the checkout body as the client posted it,
      with the cart entries it pays for and the menu items they refer to.
      `cartItems` is `None` when the body has no `cartItems` array (the field
      is missing or is not an array); the document is stored all the same. */
  datatype Payment = Payment(id: Id, email: Email, price: int, cartItems: Option<seq<Id>>, menuItems: seq<Id>)

  /** An error response: HTTP status and the `message` of `{error: true, message}`. */
  datatype HttpError = HttpError(status: nat, message: string)

  /** Sent by `verifyJWT`. */
  const Unauthorized: HttpError := HttpError(401, "unauthorized access")

  /** Sent by `verifyAdmin`. */
  const Forbidden: HttpError := HttpError(403, "forbidden")

  /** Sent by `GET /carts` when the query email is not the caller's. */
  const ForbiddenAccess: HttpError := HttpError(403, "forbidden access")
}
