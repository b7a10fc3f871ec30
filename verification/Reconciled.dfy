/** A reconciled subscription manages each catalogue route once. */
module Reconciled {
  import opened Wrappers
  import opened Tables
  import opened Lifecycle
  import opened Schedule
  import Query
  import Routes

  /** No two rows are linked to the same catalogue route. */
  ghost predicate Apart(rows: seq<SubscriptionRoute>) {
    forall i, j | 0 <= i < j < |rows| && rows[i].route.Some? :: rows[i].route != rows[j].route
  }

  lemma {:induction false} InsertKeepsApart(x: SubscriptionRoute, rows: seq<SubscriptionRoute>)
    requires Apart([x] + rows)
    ensures Apart(Query.Insert(RouteBefore, x, rows))
  {
    if rows != [] && !RouteBefore(x, rows[0]) {
      var first, rest := rows[0], rows[1..];
      assert rows == [first] + rest;
      ApartWithoutSecond(x, first, rest);
      InsertKeepsApart(x, rest);
      var r := Query.Insert(RouteBefore, x, rest);
      forall y | y in r ensures first.route.Some? ==> y.route != first.route {
        Query.InsertMember(RouteBefore, x, rest, y);
      }
      ApartFromFirst(first, r);
    }
  }

  lemma {:induction false} ApartWithoutSecond(x: SubscriptionRoute, first: SubscriptionRoute,
                                              rest: seq<SubscriptionRoute>)
    requires Apart([x] + ([first] + rest))
    ensures Apart([x] + rest)
    ensures first.route.Some? ==> x.route != first.route && forall y | y in rest :: y.route != first.route
  {
    var all := [x] + ([first] + rest);
    assert all[0] == x && all[1] == first;
    assert forall k | 0 <= k < |rest| :: rest[k] == all[k + 2];
  }

  lemma {:induction false} ApartFromFirst(first: SubscriptionRoute, rows: seq<SubscriptionRoute>)
    requires Apart(rows) && forall y | y in rows :: first.route.Some? ==> y.route != first.route
    ensures Apart([first] + rows)
  {
    var all := [first] + rows;
    forall i, j | 0 <= i < j < |all| && all[i].route.Some? ensures all[i].route != all[j].route {
      assert all[j] == rows[j - 1] && rows[j - 1] in rows;
    }
  }

  lemma {:induction false} OrderKeepsApart(rows: seq<SubscriptionRoute>)
    requires Apart(rows)
    ensures Apart(InOrder(rows))
  {
    if rows != [] {
      var rest := rows[1..];
      OrderKeepsApart(rest);
      var r := InOrder(rest);
      forall k | 0 <= k < |r| ensures rows[0].route.Some? ==> r[k].route != rows[0].route {
        assert r[k] in r;
        Query.OrderByMember(RouteBefore, rest, r[k]);
      }
      InsertKeepsApart(rows[0], r);
    }
  }

  lemma {:induction false} ApartManagesOnce(rows: seq<SubscriptionRoute>)
    requires Apart(rows)
    ensures Distinct(Managed(rows))
  {
    if rows != [] {
      var rest := rows[1..];
      assert rows == [rows[0]] + rest;
      ApartManagesOnce(rest);
      if rows[0].route.Some? {
        var r := Managed(rest);
        forall k | 0 <= k < |r| ensures r[k] != rows[0].route.value {
          assert r[k] in r;
          var row :| row in rest && row.route == Some(r[k]);
          var m :| 0 <= m < |rest| && rest[m] == row;
          assert rows[m + 1].route != rows[0].route;
        }
      }
    }
  }

  /** Rows of a reconciliation are linked to pairwise different routes. */
  lemma {:induction false} ReconciledApart(catalog: seq<Route>, defs: seq<Definition>, t: Routes.RouteTable)
    requires Routes.InCatalog(catalog, defs) && Routes.DistinctDefinitions(defs)
    requires Routes.UniqueCodes(t.rows) && Routes.IdsBelow(t)
    ensures Apart(Routes.Reconcile(catalog, defs, t).rows)
  {
    var rows := Routes.Reconcile(catalog, defs, t).rows;
    Routes.ReconcileKeepsTable(catalog, defs, t);
    Routes.ReconcileIsExact(catalog, defs, t);
    forall i, j | 0 <= i < j < |rows| ensures rows[i].route != rows[j].route {
      assert rows[i] in rows && rows[j] in rows;
      assert catalog[rows[i].route.value].code == rows[i].code;
      assert catalog[rows[j].route.value].code == rows[j].code;
    }
  }

  /** So the subscription manages pairwise different catalogue routes. */
  lemma {:induction false} ReconciledRoutesAreDistinct(catalog: seq<Route>, defs: seq<Definition>, t: Routes.RouteTable)
    requires Routes.InCatalog(catalog, defs) && Routes.DistinctDefinitions(defs)
    requires Routes.UniqueCodes(t.rows) && Routes.IdsBelow(t)
    ensures Distinct(Managed(InOrder(Routes.Reconcile(catalog, defs, t).rows)))
  {
    var rows := Routes.Reconcile(catalog, defs, t).rows;
    ReconciledApart(catalog, defs, t);
    OrderKeepsApart(rows);
    ApartManagesOnce(InOrder(rows));
  }
}
