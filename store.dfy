/** The server's database and its route handlers. The five collections are
    fields of one `Store`; the handlers that write (`insertOne`, `updateOne`,
    `deleteOne`, `deleteMany`) are methods that reassign them one step at a
    time, the read-only handlers are functions of the current contents. */
module Server {
  import opened Records
  import opened Tokens
  import Directory
  import Carts
  import opened Access
  import opened Reports

  /** `POST /users` answers `{message: "user already exist"}` or the insert
      result. */
  datatype RegisterResult = UserExists(message: string) | Inserted(insertedId: Id)

  const UserExistsMessage: string := "user already exist"

  /** The `updateOne` result. */
  datatype UpdateResult = UpdateResult(matchedCount: nat, modifiedCount: nat)

  /** How `POST /payments` ends. `Completed` is the `{insertResult,
      deleteResult}` response. `Aborted` is a handler that threw after the
      insert: the payment is stored under `insertedId`, and no response is
      sent. */
  datatype CheckoutResult = Completed(insertedId: Id, deletedCount: nat) | Aborted(insertedId: Id)

  class Store {
    var users: seq<User>
    var menu: seq<MenuItem>
    var carts: seq<CartEntry>
    var payments: seq<Payment>
    /** Where the store's identifier generator stands: every id it has handed
        out is below it. */
    var nextId: Id

    ghost predicate Valid()
      reads this
    {
      && (forall u :: u in users ==> u.id < nextId)
      && (forall c :: c in carts ==> c.id < nextId)
      && (forall p :: p in payments ==> p.id < nextId)
      && Directory.UniqueIds(users)
      && Directory.UniqueEmails(users)
      && Carts.UniqueIds(carts)
    }

    /** A store with the given menu catalogue and nothing else. */
    constructor (catalogue: seq<MenuItem>)
      ensures Valid()
      ensures menu == catalogue && users == [] && carts == [] && payments == []
    {
      users, menu, carts, payments := [], catalogue, [], [];
      nextId := 0;
    }

    /** `POST /users`: insert the body unless its email is already registered. */
    method Register(email: Email, role: Option<string>) returns (r: RegisterResult)
      requires Valid()
      modifies this
      ensures Valid()
      ensures users == Directory.Registered(old(users), User(old(nextId), email, role))
      ensures r == if Directory.FindByEmail(old(users), email).Some? then UserExists(UserExistsMessage) else Inserted(old(nextId))
      ensures r.Inserted? ==> forall u :: u in old(users) ==> u.id != r.insertedId
      ensures r.UserExists? ==> nextId == old(nextId)
      ensures menu == old(menu) && carts == old(carts) && payments == old(payments)
    {
      var existing := Directory.FindByEmail(users, email);
      if existing.Some? {
        return UserExists(UserExistsMessage);
      }
      var u := User(nextId, email, role);
      Directory.RegisterKeepsUniqueEmails(users, u);
      users := users + [u];
      r := Inserted(nextId);
      nextId := nextId + 1;
    }

    /** `PATCH /users/admin/:id`: set role "admin" on the user with the id. */
    method Promote(id: Id) returns (r: UpdateResult)
      requires Valid()
      modifies this
      ensures Valid()
      ensures users == Directory.Promoted(old(users), id)
      ensures r.matchedCount == if Directory.FirstWithId(old(users), id).Some? then 1 else 0
      ensures r.modifiedCount ==
        if Directory.FirstWithId(old(users), id).Some? && !IsAdmin(old(users)[Directory.FirstWithId(old(users), id).value])
        then 1 else 0
      ensures menu == old(menu) && carts == old(carts) && payments == old(payments) && nextId == old(nextId)
    {
      var found := Directory.FirstWithId(users, id);
      if found.None? {
        return UpdateResult(0, 0);
      }
      var k := found.value;
      Directory.PromoteKeepsUniqueEmails(users, id);
      var modified := if IsAdmin(users[k]) then 0 else 1;
      users := users[k := users[k].(role := Some(AdminRole))];
      r := UpdateResult(1, modified);
      assert forall j :: 0 <= j < |users| ==> users[j].id == old(users)[j].id;
    }

    /** `DELETE /user/delete/:id`: `deleteOne` by id. */
    method DeleteUser(id: Id) returns (deletedCount: nat)
      requires Valid()
      modifies this
      ensures Valid()
      ensures users == Directory.WithoutUser(old(users), id)
      ensures deletedCount == |old(users)| - |users|
      ensures deletedCount == if Directory.FirstWithId(old(users), id).Some? then 1 else 0
      ensures menu == old(menu) && carts == old(carts) && payments == old(payments) && nextId == old(nextId)
    {
      Directory.DeleteRemovesOnlyThatUser(users, id);
      Directory.DeleteKeepsUniqueEmails(users, id);
      var found := Directory.FirstWithId(users, id);
      if found.None? {
        return 0;
      }
      users := Directory.WithoutUser(users, id);
      deletedCount := 1;
    }

    /** `POST /carts`: insert the body. */
    method AddCartEntry(email: Email, menuItemId: Id, price: int) returns (insertedId: Id)
      requires Valid()
      modifies this
      ensures Valid()
      ensures carts == old(carts) + [CartEntry(insertedId, email, menuItemId, price)]
      ensures insertedId == old(nextId) && forall c :: c in old(carts) ==> c.id != insertedId
      ensures menu == old(menu) && users == old(users) && payments == old(payments)
    {
      insertedId := nextId;
      carts := carts + [CartEntry(insertedId, email, menuItemId, price)];
      nextId := nextId + 1;
    }

    /** `DELETE /carts/:id`: `deleteOne` by id. */
    method DeleteCartEntry(id: Id) returns (deletedCount: nat)
      requires Valid()
      modifies this
      ensures Valid()
      ensures carts == Carts.WithoutEntry(old(carts), id)
      ensures deletedCount == |old(carts)| - |carts|
      ensures deletedCount == if Carts.FirstWithId(old(carts), id).Some? then 1 else 0
      ensures menu == old(menu) && users == old(users) && payments == old(payments) && nextId == old(nextId)
    {
      Carts.DeleteRemovesOnlyThatEntry(carts, id);
      var found := Carts.FirstWithId(carts, id);
      if found.None? {
        return 0;
      }
      carts := Carts.WithoutEntry(carts, id);
      deletedCount := 1;
    }

    /** The body of `POST /payments`, in its two steps: insert the payment,
        then `deleteMany` the cart entries whose id is in `cartItems`. A body
        without a `cartItems` array is stored by the first step, and the
        second step throws before it deletes anything or responds. */
    method Checkout(email: Email, price: int, cartItems: Option<seq<Id>>, menuItems: seq<Id>) returns (r: CheckoutResult)
      requires Valid()
      modifies this
      ensures Valid()
      ensures payments == old(payments) + [Payment(r.insertedId, email, price, cartItems, menuItems)]
      ensures r.insertedId == old(nextId) && forall p :: p in old(payments) ==> p.id != r.insertedId
      ensures cartItems.None? ==> r.Aborted? && carts == old(carts)
      ensures cartItems.Some? ==>
        && r.Completed?
        && carts == Carts.RemoveIds(old(carts), cartItems.value)
        && r.deletedCount == |old(carts)| - |carts| == Carts.CountIn(old(carts), cartItems.value)
      ensures menu == old(menu) && users == old(users)
    {
      payments := payments + [Payment(nextId, email, price, cartItems, menuItems)];
      var insertedId := nextId;
      nextId := nextId + 1;
      if cartItems.None? {
        return Aborted(insertedId);
      }

      var deletedCount := DeleteMany(cartItems.value);
      r := Completed(insertedId, deletedCount);
    }

    /** `cartsCollection.deleteMany({_id: {$in: ids}})`. */
    method DeleteMany(ids: seq<Id>) returns (deletedCount: nat)
      requires Valid()
      modifies this
      ensures Valid()
      ensures carts == Carts.RemoveIds(old(carts), ids)
      ensures deletedCount == |old(carts)| - |carts| == Carts.CountIn(old(carts), ids)
      ensures menu == old(menu) && users == old(users) && payments == old(payments) && nextId == old(nextId)
    {
      Carts.RemoveIdsCount(carts, ids);
      Carts.RemoveIdsKeepsUnique(carts, ids);
      var kept := Carts.RemoveIds(carts, ids);
      deletedCount := |carts| - |kept|;
      carts := kept;
    }

    /** `POST /payments`, behind `verifyJWT`: an unauthenticated request gets
        401 and changes nothing; any authenticated caller may check out, for
        any email and any cart entries. */
    method PostPayment(authorization: Option<string>, now: int, verify: Verifier,
                       email: Email, price: int, cartItems: Option<seq<Id>>, menuItems: seq<Id>)
      returns (r: Result<CheckoutResult, HttpError>)
      requires Valid()
      modifies this
      ensures Valid()
      ensures Authenticate(authorization, now, verify).Err? ==>
        r == Err(Unauthorized) && unchanged(this)
      ensures Authenticate(authorization, now, verify).Ok? ==>
        && r.Ok?
        && payments == old(payments) + [Payment(r.value.insertedId, email, price, cartItems, menuItems)]
        && menu == old(menu) && users == old(users)
        && (cartItems.None? ==> r.value.Aborted? && carts == old(carts))
        && (cartItems.Some? ==>
              && r.value.Completed?
              && carts == Carts.RemoveIds(old(carts), cartItems.value)
              && r.value.deletedCount == Carts.CountIn(old(carts), cartItems.value))
    {
      var caller := Authenticate(authorization, now, verify);
      if caller.Err? {
        return Err(caller.error);
      }
      var done := Checkout(email, price, cartItems, menuItems);
      r := Ok(done);
    }

    /** `GET /users`, behind both gates. */
    function ListUsers(authorization: Option<string>, now: int, verify: Verifier): (r: Result<seq<User>, HttpError>)
      reads this
      ensures r.Ok? <==> AdminGate(authorization, now, verify, users).Ok?
      ensures r.Ok? ==> r.value == users
      ensures r.Err? ==> r.error == AdminGate(authorization, now, verify, users).error
    {
      match AdminGate(authorization, now, verify, users)
      case Err(e) => Err(e)
      case Ok(_) => Ok(users)
    }

    /** `GET /users/admin/:email`, behind `verifyJWT`. */
    function AdminCheck(authorization: Option<string>, now: int, verify: Verifier, email: Email): (r: Result<bool, HttpError>)
      reads this
      ensures Authenticate(authorization, now, verify).Err? ==> r == Err(Unauthorized)
      ensures r.Ok? ==> r.value == AdminSelfCheck(Authenticate(authorization, now, verify).value, email, users)
      ensures Authenticate(authorization, now, verify).Ok? ==> r.Ok?
    {
      match Authenticate(authorization, now, verify)
      case Err(e) => Err(e)
      case Ok(caller) => Ok(AdminSelfCheck(caller, email, users))
    }

    /** `GET /carts?email=`, behind `verifyJWT`. */
    function GetCarts(authorization: Option<string>, now: int, verify: Verifier, query: Option<Email>): (r: Result<seq<CartEntry>, HttpError>)
      reads this
      ensures Authenticate(authorization, now, verify).Err? ==> r == Err(Unauthorized)
      ensures Authenticate(authorization, now, verify).Ok? ==>
        r == ReadCarts(query, Authenticate(authorization, now, verify).value, carts)
    {
      match Authenticate(authorization, now, verify)
      case Err(e) => Err(e)
      case Ok(caller) => ReadCarts(query, caller, carts)
    }

    /** `GET /order-stats`, behind both gates. */
    function GetOrderStats(authorization: Option<string>, now: int, verify: Verifier): (r: Result<seq<CategoryStat>, HttpError>)
      reads this
      ensures r.Ok? <==> AdminGate(authorization, now, verify, users).Ok?
      ensures r.Ok? ==> r.value == OrderStats(payments, menu)
      ensures r.Err? ==> r.error == AdminGate(authorization, now, verify, users).error
    {
      match AdminGate(authorization, now, verify, users)
      case Err(e) => Err(e)
      case Ok(_) => Ok(OrderStats(payments, menu))
    }

    /** `GET /admin-stats`, behind both gates. */
    function GetAdminStats(authorization: Option<string>, now: int, verify: Verifier): (r: Result<AdminStats, HttpError>)
      reads this
      ensures r.Ok? <==> AdminGate(authorization, now, verify, users).Ok?
      ensures r.Ok? ==> r.value == Dashboard(users, payments, menu)
      ensures r.Ok? ==> r.value.revenue == TotalPrice(payments) && r.value.order == |payments|
      ensures r.Err? ==> r.error == AdminGate(authorization, now, verify, users).error
    {
      match AdminGate(authorization, now, verify, users)
      case Err(e) => Err(e)
      case Ok(_) => Ok(Dashboard(users, payments, menu))
    }
  }

  /** The two steps of a checkout are not one transaction: a body without a
      `cartItems` array leaves a stored payment whose price already counts in
      the `/admin-stats` revenue, while the cart entries it was meant to pay
      for all remain and the client gets no answer. */
  method AbortedCheckoutIsHalfDone(store: Store, email: Email, price: int, menuItems: seq<Id>)
    returns (r: CheckoutResult)
    requires store.Valid()
    modifies store
    ensures store.Valid()
    ensures r.Aborted?
    ensures |store.payments| == |old(store.payments)| + 1
    ensures Revenue(store.payments) == old(Revenue(store.payments)) + price
    ensures store.carts == old(store.carts)
  {
    ghost var paid := store.payments;
    r := store.Checkout(email, price, None, menuItems);
    RevenueIsSum(paid, Payment(r.insertedId, email, price, None, menuItems));
  }
}
