/** Authorization on top of an authenticated identity: the `verifyAdmin`
    gate, the admin self-check of `GET /users/admin/:email` and the owner
    check of `GET /carts`. Roles are always read from the directory, never
    from the token. */
module Access {
  import opened Records
  import opened Tokens
  import opened Directory
  import opened Carts

  /** `verifyAdmin`: forbidden unless the first user with the caller's email
      has role "admin"; a caller with no user record is forbidden too. */
  function RequireAdmin(users: seq<User>, caller: Claims): (r: Result<Claims, HttpError>)
    ensures r.Ok? ==> r.value == caller
    ensures r.Err? ==> r.error == Forbidden
    ensures r.Ok? <==>
      exists i :: 0 <= i < |users| && users[i].email == caller.email && IsAdmin(users[i])
        && forall j :: 0 <= j < i ==> users[j].email != caller.email
  {
    match FindByEmail(users, caller.email)
    case Some(u) =>
      if IsAdmin(u) then Ok(caller) else Err(Forbidden)
    case None => Err(Forbidden)
  }

  /** `verifyJWT` followed by `verifyAdmin`, as every admin-only route chains
      them: 401 before any directory lookup, then 403, then the caller. */
  function AdminGate(authorization: Option<string>, now: int, verify: Verifier, users: seq<User>): (r: Result<Claims, HttpError>)
    ensures Authenticate(authorization, now, verify).Err? ==> r == Err(Unauthorized)
    ensures Authenticate(authorization, now, verify).Ok? ==>
      r == RequireAdmin(users, Authenticate(authorization, now, verify).value)
  {
    match Authenticate(authorization, now, verify)
    case Err(e) => Err(e)
    case Ok(caller) => RequireAdmin(users, caller)
  }

  /** The first response of `GET /users/admin/:email`: `{admin: false}` when
      the path email is not the caller's, otherwise whether the first user
      with that email has role "admin". */
  function AdminSelfCheck(caller: Claims, email: Email, users: seq<User>): (admin: bool)
    ensures caller.email != email ==> !admin
    ensures caller.email == email ==>
      (admin <==> exists i :: 0 <= i < |users| && users[i].email == email && IsAdmin(users[i])
                     && forall j :: 0 <= j < i ==> users[j].email != email)
  {
    if caller.email != email then false
    else
      match FindByEmail(users, email)
      case Some(u) => IsAdmin(u)
      case None => false
  }

  /** The self-check answers true exactly when the admin gate would let the
      same caller through: the client's view of its role and the server's
      enforcement agree. */
  lemma SelfCheckAgreesWithGate(caller: Claims, users: seq<User>)
    ensures AdminSelfCheck(caller, caller.email, users) <==> RequireAdmin(users, caller).Ok?
  {
  }

  /** The first response of `GET /carts?email=`: `[]` when the query email is
      missing or empty, 403 "forbidden access" when it is not the caller's,
      otherwise exactly the caller's cart entries. */
  function ReadCarts(query: Option<Email>, caller: Claims, carts: seq<CartEntry>): (r: Result<seq<CartEntry>, HttpError>)
    ensures query.None? || query == Some("") ==> r == Ok([])
    ensures query.Some? && query.value != "" && query.value != caller.email ==> r == Err(ForbiddenAccess)
    ensures query.Some? && query.value != "" && query.value == caller.email ==>
      && r.Ok?
      && (forall c :: c in r.value ==> c.email == caller.email)
      && (forall c: CartEntry :: c.email == caller.email ==> multiset(r.value)[c] == multiset(carts)[c])
  {
    if query.None? || query.value == "" then Ok([])
    else if query.value != caller.email then Err(ForbiddenAccess)
    else Ok(CartsOf(carts, query.value))
  }

  /** Whatever the query, a successful cart read never shows an entry owned by
      someone other than the authenticated caller. */
  lemma {:induction false} ReadCartsOnlyOwn(query: Option<Email>, caller: Claims, carts: seq<CartEntry>, c: CartEntry)
    requires ReadCarts(query, caller, carts).Ok?
    requires c in ReadCarts(query, caller, carts).value
    ensures c.email == caller.email && c in carts
  {
    var r := ReadCarts(query, caller, carts).value;
    assert multiset(r)[c] > 0;
  }

  /** After `PATCH /users/admin/:id` on a user who is the first with their
      email, that user passes the admin gate. */
  lemma {:induction false} PromotedUserPassesGate(users: seq<User>, id: Id, k: nat)
    requires Directory.FirstWithId(users, id) == Some(k)
    requires FirstWithEmail(users, users[k].email) == Some(k)
    ensures RequireAdmin(Promoted(users, id), Claims(users[k].email)).Ok?
  {
    FirstWithEmailPromoted(users, id, users[k].email);
  }

  /** In a directory with unique emails, as the store keeps it, promoting a
      user always lets that user through the admin gate. */
  lemma {:induction false} PromotionGrantsAdmin(users: seq<User>, id: Id, k: nat)
    requires UniqueEmails(users)
    requires Directory.FirstWithId(users, id) == Some(k)
    ensures RequireAdmin(Promoted(users, id), Claims(users[k].email)).Ok?
  {
    UniqueEmailFound(users, k);
    PromotedUserPassesGate(users, id, k);
  }

  /** `POST /users` stores the body as it arrives, role included, and is not
      gated: a new email registered with role "admin" passes the admin gate. */
  lemma {:induction false} SelfRegisteredAdminPassesGate(users: seq<User>, u: User)
    requires FindByEmail(users, u.email).None?
    requires IsAdmin(u)
    ensures RequireAdmin(Registered(users, u), Claims(u.email)).Ok?
  {
    RegisterThenFind(users, u);
  }
}
