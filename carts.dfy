/** The `carts` collection as a sequence in natural order, and the queries
    the handlers run on it. */
module Carts {
  import opened Records

  /** `cartsCollection.find({email})`: the owner's entries, in store order. */
  function CartsOf(carts: seq<CartEntry>, email: Email): (r: seq<CartEntry>)
    ensures forall c :: c in r ==> c.email == email
    ensures forall c :: multiset(r)[c] == if c.email == email then multiset(carts)[c] else 0
    decreases |carts|
  {
    if carts == [] then []
    else
      assert carts == [carts[0]] + carts[1..];
      (if carts[0].email == email then [carts[0]] else []) + CartsOf(carts[1..], email)
  }

  /** `deleteMany({_id: {$in: ids}})`: every entry whose id is listed goes. */
  function RemoveIds(carts: seq<CartEntry>, ids: seq<Id>): (r: seq<CartEntry>)
    ensures forall c :: c in r ==> c in carts && c.id !in ids
    ensures forall c :: c in carts && c.id !in ids ==> c in r
    decreases |carts|
  {
    if carts == [] then []
    else (if carts[0].id in ids then [] else [carts[0]]) + RemoveIds(carts[1..], ids)
  }

  /** The number of entries `deleteMany({_id: {$in: ids}})` matches. */
  function CountIn(carts: seq<CartEntry>, ids: seq<Id>): (n: nat)
    ensures n <= |carts|
    ensures n == 0 <==> forall c :: c in carts ==> c.id !in ids
    decreases |carts|
  {
    if carts == [] then 0
    else (if carts[0].id in ids then 1 else 0) + CountIn(carts[1..], ids)
  }

  /** The reported `deletedCount` is exactly the number of entries removed. */
  lemma {:induction false} RemoveIdsCount(carts: seq<CartEntry>, ids: seq<Id>)
    ensures |RemoveIds(carts, ids)| + CountIn(carts, ids) == |carts|
    decreases |carts|
  {
    if carts != [] {
      RemoveIdsCount(carts[1..], ids);
    }
  }

  /** Deleting the same ids again removes nothing and matches nothing: the
      second `deleteMany` of a replayed checkout reports 0. */
  lemma {:induction false} RemoveIdsReplay(carts: seq<CartEntry>, ids: seq<Id>)
    ensures RemoveIds(RemoveIds(carts, ids), ids) == RemoveIds(carts, ids)
    ensures CountIn(RemoveIds(carts, ids), ids) == 0
    decreases |carts|
  {
    if carts != [] {
      RemoveIdsReplay(carts[1..], ids);
      var rest := RemoveIds(carts[1..], ids);
      if carts[0].id !in ids {
        var once := [carts[0]] + rest;
        assert once[0] == carts[0] && once[1..] == rest;
        assert RemoveIds(carts, ids) == once;
        assert RemoveIds(once, ids) == [carts[0]] + RemoveIds(rest, ids);
      } else {
        assert RemoveIds(carts, ids) == [] + rest == rest;
      }
    }
  }

  /** Entries whose id is not listed keep their relative order: they are
      exactly what a filter on the id leaves, the ones listed exactly what it
      takes out. */
  lemma {:induction false} RemoveIdsKeepsOthers(carts: seq<CartEntry>, ids: seq<Id>)
    ensures forall c :: multiset(RemoveIds(carts, ids))[c] == if c.id in ids then 0 else multiset(carts)[c]
    decreases |carts|
  {
    if carts != [] {
      RemoveIdsKeepsOthers(carts[1..], ids);
      assert carts == [carts[0]] + carts[1..];
    }
  }

  /** Index of the first entry with this id. */
  function FirstWithId(carts: seq<CartEntry>, id: Id): (r: Option<nat>)
    ensures r.Some? ==>
      && r.value < |carts|
      && carts[r.value].id == id
      && forall j :: 0 <= j < r.value ==> carts[j].id != id
    ensures r.None? <==> forall j :: 0 <= j < |carts| ==> carts[j].id != id
    decreases |carts|
  {
    if carts == [] then None
    else if carts[0].id == id then Some(0)
    else
      match FirstWithId(carts[1..], id)
      case None => None
      case Some(i) => Some(i + 1)
  }

  /** `DELETE /carts/:id`: `deleteOne({_id})` removes the first entry with the id. */
  function WithoutEntry(carts: seq<CartEntry>, id: Id): (r: seq<CartEntry>)
    ensures forall c :: c in r ==> c in carts
    ensures |r| == if FirstWithId(carts, id).Some? then |carts| - 1 else |carts|
    decreases |carts|
  {
    if carts == [] then []
    else if carts[0].id == id then carts[1..]
    else [carts[0]] + WithoutEntry(carts[1..], id)
  }

  ghost predicate UniqueIds(carts: seq<CartEntry>) {
    forall i, j :: 0 <= i < j < |carts| ==> carts[i].id != carts[j].id
  }

  lemma UniqueTail(carts: seq<CartEntry>)
    requires UniqueIds(carts) && carts != []
    ensures UniqueIds(carts[1..])
    ensures forall c :: c in carts[1..] ==> c.id != carts[0].id
  {
    var tail := carts[1..];
    forall i, j | 0 <= i < j < |tail| ensures tail[i].id != tail[j].id {
      assert tail[i] == carts[i + 1] && tail[j] == carts[j + 1];
    }
    forall c | c in tail ensures c.id != carts[0].id {
      var l :| 0 <= l < |tail| && tail[l] == c;
      assert carts[l + 1] == c;
    }
  }

  lemma UniqueCons(c: CartEntry, carts: seq<CartEntry>)
    requires UniqueIds(carts)
    requires forall d :: d in carts ==> d.id != c.id
    ensures UniqueIds([c] + carts)
  {
    var r := [c] + carts;
    forall i, j | 0 <= i < j < |r| ensures r[i].id != r[j].id {
      assert r[j] == carts[j - 1];
      if i > 0 { assert r[i] == carts[i - 1]; }
    }
  }

  /** With unique ids, deleting an entry by id leaves no entry with that id,
      keeps every other entry, keeps ids unique, and removes one entry exactly
      when one had the id. */
  lemma {:induction false} DeleteRemovesOnlyThatEntry(carts: seq<CartEntry>, id: Id)
    requires UniqueIds(carts)
    ensures forall c :: c in WithoutEntry(carts, id) ==> c in carts && c.id != id
    ensures forall c :: c in carts && c.id != id ==> c in WithoutEntry(carts, id)
    ensures UniqueIds(WithoutEntry(carts, id))
    ensures |WithoutEntry(carts, id)| == if FirstWithId(carts, id).Some? then |carts| - 1 else |carts|
    ensures FirstWithId(carts, id).None? ==> WithoutEntry(carts, id) == carts
    decreases |carts|
  {
    if carts != [] {
      var tail := carts[1..];
      UniqueTail(carts);
      if carts[0].id == id {
        assert carts == [carts[0]] + tail;
      } else {
        DeleteRemovesOnlyThatEntry(tail, id);
        UniqueCons(carts[0], WithoutEntry(tail, id));
        assert carts == [carts[0]] + tail;
      }
    }
  }

  /** What `deleteMany` keeps is a subsequence, so unique ids stay unique. */
  lemma {:induction false} RemoveIdsKeepsUnique(carts: seq<CartEntry>, ids: seq<Id>)
    requires UniqueIds(carts)
    ensures UniqueIds(RemoveIds(carts, ids))
    decreases |carts|
  {
    if carts != [] {
      var tail := carts[1..];
      UniqueTail(carts);
      RemoveIdsKeepsUnique(tail, ids);
      if carts[0].id !in ids {
        UniqueCons(carts[0], RemoveIds(tail, ids));
      } else {
        assert RemoveIds(carts, ids) == RemoveIds(tail, ids);
      }
    }
  }
}
