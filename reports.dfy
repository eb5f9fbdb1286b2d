/** The admin dashboards. `/order-stats` runs the pipeline
    `$lookup` (payment.menuItems -> menu _id), `$unwind`, `$group` by
    category with a count and a price sum, `$project`; `/admin-stats` sums
    `price` over all payments with `reduce`. Prices are integer cents, so the
    `$round: 2` and `toFixed(2)` steps change nothing. */
module Reports {
  import opened Records

  /** `$lookup` for one payment: the menu items, in collection order, whose
      `_id` is in the payment's `menuItems`. Each item matches at most once,
      however often its id is listed; listed ids with no item match nothing. */
  function Matches(menu: seq<MenuItem>, ids: seq<Id>): (r: seq<MenuItem>)
    ensures forall m :: m in r ==> m in menu && m.id in ids
    ensures forall m :: m in menu && m.id in ids ==> m in r
    ensures |r| <= |menu|
    ensures forall m :: multiset(r)[m] == if m.id in ids then multiset(menu)[m] else 0
    decreases |menu|
  {
    if menu == [] then []
    else
      assert menu == [menu[0]] + menu[1..];
      (if menu[0].id in ids then [menu[0]] else []) + Matches(menu[1..], ids)
  }

  /** `$lookup` then `$unwind`: one row per (payment, matched menu item). */
  function Rows(payments: seq<Payment>, menu: seq<MenuItem>): (r: seq<MenuItem>)
    ensures forall m :: m in r ==> m in menu
    ensures forall p, m :: p in payments && m in menu && m.id in p.menuItems ==> m in r
    decreases |payments|
  {
    if payments == [] then []
    else Matches(menu, payments[0].menuItems) + Rows(payments[1..], menu)
  }

  /** What the lookup joins depends only on which ids a payment lists, not on
      their order or repetition. */
  lemma {:induction false} MatchesOnlyMembership(menu: seq<MenuItem>, a: seq<Id>, b: seq<Id>)
    requires forall x :: x in a <==> x in b
    ensures Matches(menu, a) == Matches(menu, b)
    decreases |menu|
  {
    if menu != [] {
      MatchesOnlyMembership(menu[1..], a, b);
    }
  }

  /** So a menu id listed a second time in one payment adds no row. */
  lemma RepeatedIdCountsOnce(menu: seq<MenuItem>, ids: seq<Id>, x: Id)
    requires x in ids
    ensures Matches(menu, ids + [x]) == Matches(menu, ids)
  {
    MatchesOnlyMembership(menu, ids + [x], ids);
  }

  /** And an id no menu item has adds no row either. */
  lemma {:induction false} UnknownIdDropped(menu: seq<MenuItem>, ids: seq<Id>, x: Id)
    requires forall m :: m in menu ==> m.id != x
    ensures Matches(menu, ids + [x]) == Matches(menu, ids)
    decreases |menu|
  {
    if menu != [] {
      UnknownIdDropped(menu[1..], ids, x);
      assert menu[0] in menu;
      assert menu[0].id in ids + [x] <==> menu[0].id in ids;
      var head := if menu[0].id in ids then [menu[0]] else [];
      assert Matches(menu, ids + [x]) == head + Matches(menu[1..], ids + [x]);
      assert Matches(menu, ids) == head + Matches(menu[1..], ids);
    }
  }

  /** A new payment contributes exactly its own rows. */
  lemma {:induction false} RowsAppend(payments: seq<Payment>, p: Payment, menu: seq<MenuItem>)
    ensures Rows(payments + [p], menu) == Rows(payments, menu) + Matches(menu, p.menuItems)
    decreases |payments|
  {
    if payments == [] {
      assert [p][1..] == [];
    } else {
      assert (payments + [p])[1..] == payments[1..] + [p];
      RowsAppend(payments[1..], p, menu);
    }
  }

  /** One output document of the pipeline: `{category, count, total}`. */
  datatype CategoryStat = CategoryStat(category: string, count: nat, total: int)

  /** Reference count: the rows of one category. */
  function CountCat(rows: seq<MenuItem>, category: string): (n: nat)
    ensures n > 0 <==> exists i :: 0 <= i < |rows| && rows[i].category == category
    decreases |rows|
  {
    if rows == [] then 0
    else
      var last := rows[|rows| - 1];
      var n := CountCat(rows[..|rows| - 1], category);
      assert forall i :: 0 <= i < |rows| - 1 ==> rows[..|rows| - 1][i] == rows[i];
      n + (if last.category == category then 1 else 0)
  }

  /** Reference sum: the prices of the rows of one category. */
  function SumCat(rows: seq<MenuItem>, category: string): (total: int)
    ensures CountCat(rows, category) == 0 ==> total == 0
    decreases |rows|
  {
    if rows == [] then 0
    else
      var last := rows[|rows| - 1];
      SumCat(rows[..|rows| - 1], category) + (if last.category == category then last.price else 0)
  }

  /** The first stat of a category, if any. */
  function StatFor(stats: seq<CategoryStat>, category: string): (r: Option<CategoryStat>)
    ensures r.Some? ==> r.value in stats && r.value.category == category
    ensures r.None? <==> forall k :: 0 <= k < |stats| ==> stats[k].category != category
    decreases |stats|
  {
    if stats == [] then None
    else if stats[0].category == category then Some(stats[0])
    else StatFor(stats[1..], category)
  }

  ghost predicate DistinctCategories(stats: seq<CategoryStat>) {
    forall k, l :: 0 <= k < l < |stats| ==> stats[k].category != stats[l].category
  }

  /** `$group` taking in one row: the row's category is counted once more and
      its price added, or the category starts at count 1. */
  function Tally(stats: seq<CategoryStat>, row: MenuItem): seq<CategoryStat>
    decreases |stats|
  {
    if stats == [] then [CategoryStat(row.category, 1, row.price)]
    else if stats[0].category == row.category then
      [CategoryStat(row.category, stats[0].count + 1, stats[0].total + row.price)] + stats[1..]
    else [stats[0]] + Tally(stats[1..], row)
  }

  /** `$group` over all rows, in row order; the stats come out in order of
      first appearance of their category. */
  function Group(rows: seq<MenuItem>): seq<CategoryStat>
    decreases |rows|
  {
    if rows == [] then []
    else Tally(Group(rows[..|rows| - 1]), rows[|rows| - 1])
  }

  /** The `/order-stats` result. */
  function OrderStats(payments: seq<Payment>, menu: seq<MenuItem>): seq<CategoryStat> {
    Group(Rows(payments, menu))
  }

  function SumCounts(stats: seq<CategoryStat>): nat
    decreases |stats|
  {
    if stats == [] then 0 else stats[0].count + SumCounts(stats[1..])
  }

  /** The stat a category has after one more row of it. */
  function Bump(s: Option<CategoryStat>, row: MenuItem): CategoryStat {
    match s
    case None => CategoryStat(row.category, 1, row.price)
    case Some(st) => CategoryStat(row.category, st.count + 1, st.total + row.price)
  }

  lemma {:induction false} TallyStat(stats: seq<CategoryStat>, row: MenuItem, category: string)
    ensures StatFor(Tally(stats, row), category) ==
      if category == row.category then Some(Bump(StatFor(stats, category), row))
      else StatFor(stats, category)
    decreases |stats|
  {
    var t := Tally(stats, row);
    if stats == [] {
      assert t == [CategoryStat(row.category, 1, row.price)];
      assert t[1..] == [];
    } else if stats[0].category == row.category {
      assert t[0] == CategoryStat(row.category, stats[0].count + 1, stats[0].total + row.price);
      assert t[1..] == stats[1..];
    } else {
      assert t[0] == stats[0];
      assert t[1..] == Tally(stats[1..], row);
      TallyStat(stats[1..], row, category);
    }
  }

  lemma {:induction false} TallyDistinct(stats: seq<CategoryStat>, row: MenuItem)
    requires DistinctCategories(stats)
    ensures DistinctCategories(Tally(stats, row))
    decreases |stats|
  {
    var t := Tally(stats, row);
    if stats != [] && stats[0].category == row.category {
      assert forall k :: 0 <= k < |t| ==> t[k].category == stats[k].category;
    } else if stats != [] {
      var tail := stats[1..];
      assert DistinctCategories(tail) by {
        forall k, l | 0 <= k < l < |tail| ensures tail[k].category != tail[l].category {
          assert tail[k] == stats[k + 1] && tail[l] == stats[l + 1];
        }
      }
      TallyDistinct(tail, row);
      assert StatFor(tail, stats[0].category).None? by {
        forall l | 0 <= l < |tail| ensures tail[l].category != stats[0].category {
          assert tail[l] == stats[l + 1];
        }
      }
      TallyStat(tail, row, stats[0].category);
      assert t == [stats[0]] + Tally(tail, row);
    }
  }

  lemma {:induction false} TallyCounts(stats: seq<CategoryStat>, row: MenuItem)
    ensures SumCounts(Tally(stats, row)) == SumCounts(stats) + 1
    decreases |stats|
  {
    if stats != [] && stats[0].category != row.category {
      TallyCounts(stats[1..], row);
      var t := Tally(stats, row);
      assert t[1..] == Tally(stats[1..], row);
    } else if stats != [] {
      var t := Tally(stats, row);
      assert t[1..] == stats[1..];
    }
  }

  /** The group a category should have, by the reference count and sum. */
  function Expected(rows: seq<MenuItem>, category: string): Option<CategoryStat> {
    if CountCat(rows, category) == 0 then None
    else Some(CategoryStat(category, CountCat(rows, category), SumCat(rows, category)))
  }

  lemma ExpectedSnoc(rows: seq<MenuItem>, category: string)
    requires rows != []
    ensures var init, last := rows[..|rows| - 1], rows[|rows| - 1];
      Expected(rows, category) ==
        if last.category == category then Some(Bump(Expected(init, category), last))
        else Expected(init, category)
  {
  }

  /** The grouping against its reference: a category has a group exactly when
      some row has that category, and then its count and total are the
      number of such rows and the sum of their prices. */
  lemma {:induction false} GroupStat(rows: seq<MenuItem>, category: string)
    ensures StatFor(Group(rows), category) == Expected(rows, category)
    decreases |rows|
  {
    if rows != [] {
      var init, last := rows[..|rows| - 1], rows[|rows| - 1];
      GroupStat(init, category);
      TallyStat(Group(init), last, category);
      ExpectedSnoc(rows, category);
    }
  }

  lemma {:induction false} GroupDistinct(rows: seq<MenuItem>)
    ensures DistinctCategories(Group(rows))
    decreases |rows|
  {
    if rows != [] {
      GroupDistinct(rows[..|rows| - 1]);
      TallyDistinct(Group(rows[..|rows| - 1]), rows[|rows| - 1]);
    }
  }

  /** The counts of all groups add up to the number of rows. */
  lemma {:induction false} GroupCounts(rows: seq<MenuItem>)
    ensures SumCounts(Group(rows)) == |rows|
    decreases |rows|
  {
    if rows != [] {
      GroupCounts(rows[..|rows| - 1]);
      TallyCounts(Group(rows[..|rows| - 1]), rows[|rows| - 1]);
    }
  }

  lemma StatForDistinct(stats: seq<CategoryStat>, k: nat)
    requires DistinctCategories(stats) && k < |stats|
    ensures StatFor(stats, stats[k].category) == Some(stats[k])
    decreases |stats|
  {
    if k > 0 {
      var tail := stats[1..];
      assert DistinctCategories(tail) by {
        forall i, j | 0 <= i < j < |tail| ensures tail[i].category != tail[j].category {
          assert tail[i] == stats[i + 1] && tail[j] == stats[j + 1];
        }
      }
      StatForDistinct(tail, k - 1);
    }
  }

  /** What `/order-stats` promises: one stat per category that occurs in
      some (payment, matched menu item) row and none for any other; each
      stat's count is the number of its rows and its total their price sum;
      the counts add up to the number of rows. */
  lemma {:induction false} OrderStatsCorrect(payments: seq<Payment>, menu: seq<MenuItem>)
    ensures var rows := Rows(payments, menu); var stats := OrderStats(payments, menu);
      && DistinctCategories(stats)
      && (forall k :: 0 <= k < |stats| ==>
            && stats[k].count == CountCat(rows, stats[k].category) > 0
            && stats[k].total == SumCat(rows, stats[k].category))
      && (forall c :: CountCat(rows, c) > 0 ==> exists k :: 0 <= k < |stats| && stats[k].category == c)
      && SumCounts(stats) == |rows|
  {
    var rows := Rows(payments, menu);
    var stats := Group(rows);
    GroupDistinct(rows);
    GroupCounts(rows);
    forall k | 0 <= k < |stats|
      ensures stats[k].count == CountCat(rows, stats[k].category) > 0
      ensures stats[k].total == SumCat(rows, stats[k].category)
    {
      StatForDistinct(stats, k);
      GroupStat(rows, stats[k].category);
    }
    forall c | CountCat(rows, c) > 0 ensures exists k :: 0 <= k < |stats| && stats[k].category == c {
      GroupStat(rows, c);
    }
  }

  /** `payment.reduce((sum, item) => item.price + sum, acc)`. */
  function RevenueFrom(acc: int, payments: seq<Payment>): int
    decreases |payments|
  {
    if payments == [] then acc else RevenueFrom(payments[0].price + acc, payments[1..])
  }

  /** The `revenue` of `/admin-stats`: the fold started at 0. */
  function Revenue(payments: seq<Payment>): int {
    RevenueFrom(0, payments)
  }

  /** Reference sum of the payment prices. */
  function TotalPrice(payments: seq<Payment>): int
    decreases |payments|
  {
    if payments == [] then 0 else payments[0].price + TotalPrice(payments[1..])
  }

  lemma {:induction false} RevenueFromIsTotal(acc: int, payments: seq<Payment>)
    ensures RevenueFrom(acc, payments) == acc + TotalPrice(payments)
    decreases |payments|
  {
    if payments != [] {
      RevenueFromIsTotal(payments[0].price + acc, payments[1..]);
    }
  }

  lemma {:induction false} TotalPriceAppend(payments: seq<Payment>, p: Payment)
    ensures TotalPrice(payments + [p]) == TotalPrice(payments) + p.price
    decreases |payments|
  {
    if payments == [] {
      assert [p][1..] == [];
    } else {
      assert (payments + [p])[1..] == payments[1..] + [p];
      TotalPriceAppend(payments[1..], p);
    }
  }

  /** The fold sums every payment's price; a checkout adds its own price. */
  lemma {:induction false} RevenueIsSum(payments: seq<Payment>, p: Payment)
    ensures Revenue(payments) == TotalPrice(payments)
    ensures Revenue(payments + [p]) == Revenue(payments) + p.price
  {
    RevenueFromIsTotal(0, payments);
    RevenueFromIsTotal(0, payments + [p]);
    TotalPriceAppend(payments, p);
  }

  /** The `/admin-stats` body. The document counts are exact here. */
  datatype AdminStats = AdminStats(user: nat, order: nat, products: nat, revenue: int)

  function Dashboard(users: seq<User>, payments: seq<Payment>, menu: seq<MenuItem>): (r: AdminStats)
    ensures r.user == |users| && r.order == |payments| && r.products == |menu|
    ensures r.revenue == TotalPrice(payments)
  {
    RevenueFromIsTotal(0, payments);
    AdminStats(|users|, |payments|, |menu|, Revenue(payments))
  }
}
