/** The user directory (`usersCollection`) as a sequence in natural order:
    `findOne`, `updateOne` and `deleteOne` act on the first matching
    document. */
module Directory {
  import opened Records

  /** Index of the first user with this email (`findOne({email})`). */
  function FirstWithEmail(users: seq<User>, email: Email): (r: Option<nat>)
    ensures r.Some? ==>
      && r.value < |users|
      && users[r.value].email == email
      && forall j :: 0 <= j < r.value ==> users[j].email != email
    ensures r.None? <==> forall j :: 0 <= j < |users| ==> users[j].email != email
    decreases |users|
  {
    if users == [] then None
    else if users[0].email == email then Some(0)
    else
      match FirstWithEmail(users[1..], email)
      case None => None
      case Some(i) => Some(i + 1)
  }

  /** `usersCollection.findOne({email: email})`. */
  function FindByEmail(users: seq<User>, email: Email): (r: Option<User>)
    ensures r.None? <==> forall u :: u in users ==> u.email != email
    ensures r.Some? ==> r.value in users && r.value.email == email
  {
    match FirstWithEmail(users, email)
    case None => None
    case Some(i) => Some(users[i])
  }

  /** Index of the first user with this id (`{_id: new ObjectId(id)}`). */
  function FirstWithId(users: seq<User>, id: Id): (r: Option<nat>)
    ensures r.Some? ==>
      && r.value < |users|
      && users[r.value].id == id
      && forall j :: 0 <= j < r.value ==> users[j].id != id
    ensures r.None? <==> forall j :: 0 <= j < |users| ==> users[j].id != id
    decreases |users|
  {
    if users == [] then None
    else if users[0].id == id then Some(0)
    else
      match FirstWithId(users[1..], id)
      case None => None
      case Some(i) => Some(i + 1)
  }

  ghost predicate UniqueIds(users: seq<User>) {
    forall i, j :: 0 <= i < j < |users| ==> users[i].id != users[j].id
  }

  /** `POST /users` refuses a second account for an email, so no two users
      share one. */
  ghost predicate UniqueEmails(users: seq<User>) {
    forall i, j :: 0 <= i < j < |users| ==> users[i].email != users[j].email
  }

  /** `POST /users`: the body is inserted unless a user with its email exists. */
  function Registered(users: seq<User>, u: User): (r: seq<User>)
    ensures r == users || r == users + [u]
    ensures r == users + [u] <==> FindByEmail(users, u.email).None?
    ensures FindByEmail(r, u.email).Some?
  {
    FirstWithEmailAppend(users, u, u.email);
    if FindByEmail(users, u.email).Some? then users else users + [u]
  }

  /** `PATCH /users/admin/:id`: `$set: {role: "admin"}` on the first user with
      the id. */
  function Promoted(users: seq<User>, id: Id): (r: seq<User>)
    ensures |r| == |users|
    ensures forall k :: 0 <= k < |r| ==> r[k].id == users[k].id && r[k].email == users[k].email
    ensures forall k :: 0 <= k < |r| && Some(k) != FirstWithId(users, id) ==> r[k] == users[k]
    ensures FirstWithId(users, id).Some? ==> IsAdmin(r[FirstWithId(users, id).value])
  {
    match FirstWithId(users, id)
    case None => users
    case Some(k) => users[k := users[k].(role := Some(AdminRole))]
  }

  /** `deleteOne({_id})`: the first user with the id is removed. */
  function WithoutUser(users: seq<User>, id: Id): (r: seq<User>)
    ensures forall v :: v in r ==> v in users
    ensures |r| == if FirstWithId(users, id).Some? then |users| - 1 else |users|
    decreases |users|
  {
    if users == [] then []
    else if users[0].id == id then users[1..]
    else [users[0]] + WithoutUser(users[1..], id)
  }

  /** Appending a user can only add a match after every existing one. */
  lemma FirstWithEmailAppend(users: seq<User>, u: User, email: Email)
    ensures FirstWithEmail(users + [u], email) ==
      if FirstWithEmail(users, email).Some? then FirstWithEmail(users, email)
      else if u.email == email then Some(|users|) else None
  {
    var s := users + [u];
    assert forall j :: 0 <= j < |users| ==> s[j] == users[j];
    assert s[|users|] == u;
  }

  /** Registering twice with the same email leaves the directory as
      registering once did: the second request finds the first's user. */
  lemma {:induction false} RegisterIdempotent(users: seq<User>, u: User, again: User)
    requires again.email == u.email
    ensures Registered(Registered(users, u), again) == Registered(users, u)
  {
    FirstWithEmailAppend(users, u, u.email);
  }

  /** Registering a new email appends exactly one user, and that user is then
      the one `findOne` returns for the email. */
  lemma {:induction false} RegisterThenFind(users: seq<User>, u: User)
    requires FindByEmail(users, u.email).None?
    ensures |Registered(users, u)| == |users| + 1
    ensures FindByEmail(Registered(users, u), u.email) == Some(u)
  {
    FirstWithEmailAppend(users, u, u.email);
  }

  /** After a promotion, finding the same id again finds the same index. */
  lemma FirstWithIdPromoted(users: seq<User>, id: Id, other: Id)
    ensures FirstWithId(Promoted(users, id), other) == FirstWithId(users, other)
  {
    var r := Promoted(users, id);
    assert forall j :: 0 <= j < |users| ==> r[j].id == users[j].id;
  }

  /** Emails do not change under promotion, so neither do email lookups. */
  lemma FirstWithEmailPromoted(users: seq<User>, id: Id, email: Email)
    ensures FirstWithEmail(Promoted(users, id), email) == FirstWithEmail(users, email)
  {
    var r := Promoted(users, id);
    assert forall j :: 0 <= j < |users| ==> r[j].email == users[j].email;
  }

  /** Promoting the same id a second time changes nothing. */
  lemma {:induction false} PromoteIdempotent(users: seq<User>, id: Id)
    ensures Promoted(Promoted(users, id), id) == Promoted(users, id)
  {
    var once := Promoted(users, id);
    FirstWithIdPromoted(users, id, id);
    match FirstWithId(users, id)
    case None =>
    case Some(k) =>
      assert once[k := once[k].(role := Some(AdminRole))] == once;
  }

  lemma UniqueTail(users: seq<User>)
    requires UniqueIds(users) && users != []
    ensures UniqueIds(users[1..])
    ensures forall u :: u in users[1..] ==> u.id != users[0].id
  {
    var tail := users[1..];
    forall i, j | 0 <= i < j < |tail| ensures tail[i].id != tail[j].id {
      assert tail[i] == users[i + 1] && tail[j] == users[j + 1];
    }
    forall u | u in tail ensures u.id != users[0].id {
      var l :| 0 <= l < |tail| && tail[l] == u;
      assert users[l + 1] == u;
    }
  }

  lemma UniqueCons(u: User, users: seq<User>)
    requires UniqueIds(users)
    requires forall v :: v in users ==> v.id != u.id
    ensures UniqueIds([u] + users)
  {
    var r := [u] + users;
    forall i, j | 0 <= i < j < |r| ensures r[i].id != r[j].id {
      assert r[j] == users[j - 1];
      if i > 0 { assert r[i] == users[i - 1]; }
    }
  }

  /** Deleting a user by id, when ids are unique, leaves no user with that id,
      keeps every other user, keeps ids unique, and removes one user exactly
      when one had the id. */
  lemma {:induction false} DeleteRemovesOnlyThatUser(users: seq<User>, id: Id)
    requires UniqueIds(users)
    ensures forall u :: u in WithoutUser(users, id) ==> u in users && u.id != id
    ensures forall u :: u in users && u.id != id ==> u in WithoutUser(users, id)
    ensures UniqueIds(WithoutUser(users, id))
    ensures |WithoutUser(users, id)| == if FirstWithId(users, id).Some? then |users| - 1 else |users|
    ensures FirstWithId(users, id).None? ==> WithoutUser(users, id) == users
    decreases |users|
  {
    if users != [] {
      var tail := users[1..];
      UniqueTail(users);
      if users[0].id == id {
        assert users == [users[0]] + tail;
      } else {
        DeleteRemovesOnlyThatUser(tail, id);
        UniqueCons(users[0], WithoutUser(tail, id));
        assert users == [users[0]] + tail;
      }
    }
  }

  /** With unique emails, every user is the one `findOne` finds for its email. */
  lemma UniqueEmailFound(users: seq<User>, k: nat)
    requires UniqueEmails(users) && k < |users|
    ensures FirstWithEmail(users, users[k].email) == Some(k)
  {
    var f := FirstWithEmail(users, users[k].email);
    assert f.Some?;
    assert !(f.value < k) && !(k < f.value);
  }

  /** Registration keeps emails unique: it appends only a new email. */
  lemma RegisterKeepsUniqueEmails(users: seq<User>, u: User)
    requires UniqueEmails(users)
    ensures UniqueEmails(Registered(users, u))
  {
    var r := Registered(users, u);
    if r != users {
      forall i, j | 0 <= i < j < |r| ensures r[i].email != r[j].email {
        assert r[i] == users[i] && r[i] in users;
        if j < |users| { assert r[j] == users[j]; }
      }
    }
  }

  /** Promotion changes no email, so emails stay unique. */
  lemma PromoteKeepsUniqueEmails(users: seq<User>, id: Id)
    requires UniqueEmails(users)
    ensures UniqueEmails(Promoted(users, id))
  {
  }

  /** Deletion keeps emails unique: what remains are distinct stored users. */
  lemma {:induction false} DeleteKeepsUniqueEmails(users: seq<User>, id: Id)
    requires UniqueIds(users) && UniqueEmails(users)
    ensures UniqueEmails(WithoutUser(users, id))
  {
    DeleteRemovesOnlyThatUser(users, id);
    var r := WithoutUser(users, id);
    forall i, j | 0 <= i < j < |r| ensures r[i].email != r[j].email {
      assert r[i] in users && r[j] in users;
      assert r[i].id != r[j].id;
    }
  }
}
