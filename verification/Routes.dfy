/** Bringing a subscription's routes in line with a list of route definitions. */
module Routes {
  import opened Wrappers
  import opened Tables
  import opened VlessLink
  import Query

  function FindRoute(catalog: seq<Route>, code: string): (i: nat)
    ensures i <= |catalog|
    ensures i < |catalog| ==> catalog[i].code == code
    ensures forall k | 0 <= k < i :: catalog[k].code != code
  {
    Query.First(catalog, (x: Route) => x.code == code)
  }

  function FindCode(rows: seq<SubscriptionRoute>, code: string): (i: nat)
    ensures i <= |rows|
    ensures i < |rows| ==> rows[i].code == code
    ensures forall k | 0 <= k < i :: rows[k].code != code
  {
    Query.First(rows, (x: SubscriptionRoute) => x.code == code)
  }

  ghost predicate UniqueCodes(rows: seq<SubscriptionRoute>) {
    forall i, j | 0 <= i < j < |rows| :: rows[i].code != rows[j].code
  }

  ghost predicate DistinctDefinitions(defs: seq<Definition>) {
    forall i, j | 0 <= i < j < |defs| :: defs[i].code != defs[j].code
  }

  predicate InCatalog(catalog: seq<Route>, defs: seq<Definition>) {
    forall i | 0 <= i < |defs| :: FindRoute(catalog, defs[i].code) < |catalog|
  }

  predicate Defines(defs: seq<Definition>, code: string) {
    exists i | 0 <= i < |defs| :: defs[i].code == code
  }

  /** The row that definition number `i` asks for. */
  function RowFor(catalog: seq<Route>, def: Definition, i: nat, id: nat): SubscriptionRoute
    requires FindRoute(catalog, def.code) < |catalog|
  {
    var r := FindRoute(catalog, def.code);
    SubscriptionRoute(id, def.code, OrElse(catalog[r].locationName, def.title), catalog[r].endpointUrl, Some(r), i + 1)
  }

  datatype RouteTable = RouteTable(rows: seq<SubscriptionRoute>, nextId: nat)

  /** One pass over the definitions: update the row that existed at the start, or add one. */
  function ApplyDefinitions(catalog: seq<Route>, defs: seq<Definition>, t: RouteTable): (r: RouteTable)
    requires InCatalog(catalog, defs)
    ensures |t.rows| <= |r.rows|
  {
    if defs == [] then t
    else
      var n := |defs| - 1;
      var t1 := ApplyDefinitions(catalog, defs[..n], t);
      var j := FindCode(t.rows, defs[n].code);
      if j < |t.rows| then RouteTable(t1.rows[j := RowFor(catalog, defs[n], n, t1.rows[j].id)], t1.nextId)
      else RouteTable(t1.rows + [RowFor(catalog, defs[n], n, t1.nextId)], t1.nextId + 1)
  }

  function KeepDefined(rows: seq<SubscriptionRoute>, defs: seq<Definition>): (r: seq<SubscriptionRoute>)
    ensures forall row :: row in r <==> row in rows && Defines(defs, row.code)
  {
    if rows == [] then []
    else
      var n := |rows| - 1;
      var front := KeepDefined(rows[..n], defs);
      assert rows == rows[..n] + [rows[n]];
      if Defines(defs, rows[n].code) then front + [rows[n]] else front
  }

  /** `ensure_subscription_routes`: the pass, then the deletion of every other row. */
  function Reconcile(catalog: seq<Route>, defs: seq<Definition>, t: RouteTable): RouteTable
    requires InCatalog(catalog, defs)
  {
    var t1 := ApplyDefinitions(catalog, defs, t);
    RouteTable(KeepDefined(t1.rows, defs), t1.nextId)
  }

  // ----- What the pass establishes -----

  ghost predicate IdsBelow(t: RouteTable) {
    forall k | 0 <= k < |t.rows| :: t.rows[k].id < t.nextId
  }

  /** Row `m` of the pass: the right contents, and the identity of the row it updates. */
  ghost predicate Placed(catalog: seq<Route>, def: Definition, i: nat, t: RouteTable, t1: RouteTable)
    requires FindRoute(catalog, def.code) < |catalog|
  {
    var m := FindCode(t1.rows, def.code);
    && m < |t1.rows| && t1.rows[m] == RowFor(catalog, def, i, t1.rows[m].id)
    && (m < |t.rows| ==> t1.rows[m].id == t.rows[m].id)
    && (m >= |t.rows| ==> t1.rows[m].id >= t.nextId)
  }

  ghost predicate PassOk(catalog: seq<Route>, defs: seq<Definition>, t: RouteTable, t1: RouteTable)
    requires InCatalog(catalog, defs)
  {
    && |t.rows| <= |t1.rows| && t.nextId <= t1.nextId
    && UniqueCodes(t1.rows) && IdsBelow(t1)
    && (forall k | 0 <= k < |t.rows| :: t1.rows[k].id == t.rows[k].id && t1.rows[k].code == t.rows[k].code)
    && (forall k | |t.rows| <= k < |t1.rows| :: Defines(defs, t1.rows[k].code))
    && (forall i | 0 <= i < |defs| :: Placed(catalog, defs[i], i, t, t1))
  }

  lemma {:induction false} UniqueFind(rows: seq<SubscriptionRoute>, m: nat)
    requires UniqueCodes(rows) && m < |rows|
    ensures FindCode(rows, rows[m].code) == m
  {
  }

  /** Writing one row under its own code moves no other row. */
  lemma {:induction false} FindAfterUpdate(rows: seq<SubscriptionRoute>, j: nat, row: SubscriptionRoute, code: string)
    requires j < |rows| && row.code == rows[j].code
    ensures FindCode(rows[j := row], code) == FindCode(rows, code)
  {
    var rows' := rows[j := row];
    assert forall k | 0 <= k < |rows| :: rows'[k].code == rows[k].code;
  }

  lemma {:induction false} FindAfterAppend(rows: seq<SubscriptionRoute>, row: SubscriptionRoute, code: string)
    requires row.code != code
    ensures var i := FindCode(rows, code);
      FindCode(rows + [row], code) == (if i < |rows| then i else |rows| + 1)
  {
  }

  lemma {:induction false} PlacedAfterUpdate(catalog: seq<Route>, def: Definition, i: nat, t: RouteTable,
                                             t1: RouteTable,
                                             j: nat, row: SubscriptionRoute)
    requires FindRoute(catalog, def.code) < |catalog| && Placed(catalog, def, i, t, t1)
    requires j < |t1.rows| && row.code == t1.rows[j].code != def.code
    ensures Placed(catalog, def, i, t, RouteTable(t1.rows[j := row], t1.nextId))
  {
    FindAfterUpdate(t1.rows, j, row, def.code);
  }

  lemma {:induction false} PlacedAfterAppend(catalog: seq<Route>, def: Definition, i: nat, t: RouteTable,
                                             t1: RouteTable,
                                             row: SubscriptionRoute)
    requires FindRoute(catalog, def.code) < |catalog| && Placed(catalog, def, i, t, t1)
    requires row.code != def.code
    ensures Placed(catalog, def, i, t, RouteTable(t1.rows + [row], t1.nextId + 1))
  {
    FindAfterAppend(t1.rows, row, def.code);
  }

  function NextTable(catalog: seq<Route>, def: Definition, n: nat, t: RouteTable, t1: RouteTable): RouteTable
    requires FindRoute(catalog, def.code) < |catalog| && |t.rows| <= |t1.rows|
  {
    var j := FindCode(t.rows, def.code);
    if j < |t.rows| then RouteTable(t1.rows[j := RowFor(catalog, def, n, t1.rows[j].id)], t1.nextId)
    else RouteTable(t1.rows + [RowFor(catalog, def, n, t1.nextId)], t1.nextId + 1)
  }

  /** Only the row that existed at the start, if any, can already carry the next code. */
  lemma {:induction false} NextCodeIsFree(front: seq<Definition>, def: Definition, t: RouteTable, t1: RouteTable,
                                          k: nat)
    requires |t.rows| <= |t1.rows| && UniqueCodes(t1.rows) && k < |t1.rows|
    requires forall i | 0 <= i < |t.rows| :: t1.rows[i].code == t.rows[i].code
    requires forall i | |t.rows| <= i < |t1.rows| :: Defines(front, t1.rows[i].code)
    requires forall i | 0 <= i < |front| :: front[i].code != def.code
    requires k != FindCode(t.rows, def.code) || |t.rows| <= k
    ensures t1.rows[k].code != def.code
  {
    var j := FindCode(t.rows, def.code);
    if k < |t.rows| && j < |t.rows| {
      assert t1.rows[k].code != t1.rows[j].code;
    } else if |t.rows| <= k {
      assert Defines(front, t1.rows[k].code);
    }
  }

  lemma {:induction false} NextKeepsUnique(catalog: seq<Route>, front: seq<Definition>, def: Definition,
                                           t: RouteTable, t1: RouteTable)
    requires FindRoute(catalog, def.code) < |catalog| && InCatalog(catalog, front) && PassOk(catalog, front, t, t1)
    requires forall i | 0 <= i < |front| :: front[i].code != def.code
    ensures UniqueCodes(NextTable(catalog, def, |front|, t, t1).rows)
  {
    var t2 := NextTable(catalog, def, |front|, t, t1);
    if FindCode(t.rows, def.code) == |t.rows| {
      forall k | 0 <= k < |t1.rows| ensures t1.rows[k].code != def.code {
        NextCodeIsFree(front, def, t, t1, k);
      }
    }
  }

  lemma {:induction false} NextKeepsPlaced(catalog: seq<Route>, front: seq<Definition>, def: Definition,
                                           t: RouteTable, t1: RouteTable, i: nat)
    requires FindRoute(catalog, def.code) < |catalog| && InCatalog(catalog, front) && PassOk(catalog, front, t, t1)
    requires i < |front| && front[i].code != def.code
    ensures Placed(catalog, front[i], i, t, NextTable(catalog, def, |front|, t, t1))
  {
    var t2 := NextTable(catalog, def, |front|, t, t1);
    var j := FindCode(t.rows, def.code);
    assert Placed(catalog, front[i], i, t, t1);
    if j < |t.rows| {
      PlacedAfterUpdate(catalog, front[i], i, t, t1, j, t2.rows[j]);
    } else {
      PlacedAfterAppend(catalog, front[i], i, t, t1, t2.rows[|t1.rows|]);
    }
  }

  lemma {:induction false} NextPlacesNew(catalog: seq<Route>, front: seq<Definition>, def: Definition,
                                         t: RouteTable, t1: RouteTable)
    requires FindRoute(catalog, def.code) < |catalog| && InCatalog(catalog, front) && PassOk(catalog, front, t, t1)
    requires forall i | 0 <= i < |front| :: front[i].code != def.code
    ensures Placed(catalog, def, |front|, t, NextTable(catalog, def, |front|, t, t1))
  {
    var t2 := NextTable(catalog, def, |front|, t, t1);
    var j := FindCode(t.rows, def.code);
    NextKeepsUnique(catalog, front, def, t, t1);
    UniqueFind(t2.rows, if j < |t.rows| then j else |t1.rows|);
  }

  lemma {:induction false} DefinesMore(front: seq<Definition>, def: Definition, code: string)
    requires Defines(front, code) || def.code == code
    ensures Defines(front + [def], code)
  {
    var defs := front + [def];
    if Defines(front, code) {
      var i :| 0 <= i < |front| && front[i].code == code;
      assert defs[i].code == code;
    } else {
      assert defs[|front|].code == code;
    }
  }

  lemma {:induction false} PassStep(catalog: seq<Route>, front: seq<Definition>, def: Definition, t: RouteTable,
                                    t1: RouteTable)
    requires FindRoute(catalog, def.code) < |catalog| && InCatalog(catalog, front) && InCatalog(catalog, front + [def])
    requires forall i | 0 <= i < |front| :: front[i].code != def.code
    requires PassOk(catalog, front, t, t1)
    ensures PassOk(catalog, front + [def], t, NextTable(catalog, def, |front|, t, t1))
  {
    var defs, n := front + [def], |front|;
    var t2 := NextTable(catalog, def, n, t, t1);
    NextKeepsUnique(catalog, front, def, t, t1);
    forall i | 0 <= i < |defs| ensures Placed(catalog, defs[i], i, t, t2) {
      if i < n {
        NextKeepsPlaced(catalog, front, def, t, t1, i);
      } else {
        NextPlacesNew(catalog, front, def, t, t1);
      }
    }
    forall k | |t.rows| <= k < |t2.rows| ensures Defines(defs, t2.rows[k].code) {
      DefinesMore(front, def, t2.rows[k].code);
    }
  }

  lemma {:induction false} PassNext(catalog: seq<Route>, front: seq<Definition>, def: Definition, t: RouteTable)
    requires FindRoute(catalog, def.code) < |catalog| && InCatalog(catalog, front) && InCatalog(catalog, front + [def])
    requires forall i | 0 <= i < |front| :: front[i].code != def.code
    requires PassOk(catalog, front, t, ApplyDefinitions(catalog, front, t))
    ensures PassOk(catalog, front + [def], t, ApplyDefinitions(catalog, front + [def], t))
  {
    var t1 := ApplyDefinitions(catalog, front, t);
    assert (front + [def])[..|front|] == front;
    assert ApplyDefinitions(catalog, front + [def], t) == NextTable(catalog, def, |front|, t, t1);
    PassStep(catalog, front, def, t, t1);
  }

  lemma {:induction false} PassEstablishes(catalog: seq<Route>, defs: seq<Definition>, t: RouteTable)
    requires InCatalog(catalog, defs) && DistinctDefinitions(defs) && UniqueCodes(t.rows) && IdsBelow(t)
    ensures PassOk(catalog, defs, t, ApplyDefinitions(catalog, defs, t))
  {
    if defs != [] {
      var n := |defs| - 1;
      var front, def := defs[..n], defs[n];
      assert front + [def] == defs;
      assert InCatalog(catalog, front);
      PassEstablishes(catalog, front, t);
      PassNext(catalog, front, def, t);
    }
  }

  // ----- Results -----

  /** Some row is exactly what definition `i` asks for. */
  ghost predicate Represented(catalog: seq<Route>, def: Definition, i: nat, rows: seq<SubscriptionRoute>)
    requires FindRoute(catalog, def.code) < |catalog|
  {
    exists row | row in rows :: row == RowFor(catalog, def, i, row.id)
  }

  /** The result has exactly the defined codes, each at its position and linked to its catalogue route. */
  lemma {:induction false} ReconcileIsExact(catalog: seq<Route>, defs: seq<Definition>, t: RouteTable)
    requires InCatalog(catalog, defs) && DistinctDefinitions(defs) && UniqueCodes(t.rows) && IdsBelow(t)
    ensures var r := Reconcile(catalog, defs, t);
      && (forall row | row in r.rows :: exists i | 0 <= i < |defs| :: row == RowFor(catalog, defs[i], i, row.id))
      && (forall i | 0 <= i < |defs| :: Represented(catalog, defs[i], i, r.rows))
  {
    var t1 := ApplyDefinitions(catalog, defs, t);
    var r := Reconcile(catalog, defs, t);
    PassEstablishes(catalog, defs, t);
    forall row | row in r.rows ensures exists i | 0 <= i < |defs| :: row == RowFor(catalog, defs[i], i, row.id) {
      var i :| 0 <= i < |defs| && defs[i].code == row.code;
      var k :| 0 <= k < |t1.rows| && t1.rows[k] == row;
      UniqueFind(t1.rows, k);
      assert Placed(catalog, defs[i], i, t, t1);
    }
    forall i | 0 <= i < |defs| ensures Represented(catalog, defs[i], i, r.rows) {
      assert Placed(catalog, defs[i], i, t, t1);
      var row := t1.rows[FindCode(t1.rows, defs[i].code)];
      assert row in t1.rows && Defines(defs, row.code);
    }
  }

  /** A row whose code is still defined survives under its identity; the others' identities are new. */
  lemma {:induction false} ReconcileKeepsIdentity(catalog: seq<Route>, defs: seq<Definition>, t: RouteTable, i: nat)
    requires InCatalog(catalog, defs) && DistinctDefinitions(defs) && UniqueCodes(t.rows) && IdsBelow(t)
    requires i < |defs|
    ensures var r := Reconcile(catalog, defs, t); var j := FindCode(t.rows, defs[i].code);
      if j < |t.rows| then RowFor(catalog, defs[i], i, t.rows[j].id) in r.rows
      else exists id | t.nextId <= id < r.nextId :: RowFor(catalog, defs[i], i, id) in r.rows
  {
    var t1 := ApplyDefinitions(catalog, defs, t);
    PassEstablishes(catalog, defs, t);
    var j := FindCode(t.rows, defs[i].code);
    var m := FindCode(t1.rows, defs[i].code);
    assert Placed(catalog, defs[i], i, t, t1);
    assert t1.rows[m] in t1.rows && Defines(defs, t1.rows[m].code);
    if j < |t.rows| {
      UniqueFind(t1.rows, j);
    } else {
      assert t1.rows[m].id < t1.nextId;
    }
  }

  lemma {:induction false} KeepPreservesUnique(rows: seq<SubscriptionRoute>, defs: seq<Definition>)
    requires UniqueCodes(rows)
    ensures UniqueCodes(KeepDefined(rows, defs))
  {
    if rows != [] {
      var n := |rows| - 1;
      KeepPreservesUnique(rows[..n], defs);
      var front := KeepDefined(rows[..n], defs);
      forall k | 0 <= k < |front| ensures front[k].code != rows[n].code {
        assert front[k] in front;
      }
    }
  }

  lemma {:induction false} KeepAll(rows: seq<SubscriptionRoute>, defs: seq<Definition>)
    requires forall row | row in rows :: Defines(defs, row.code)
    ensures KeepDefined(rows, defs) == rows
  {
    if rows != [] {
      var n := |rows| - 1;
      assert rows[n] in rows;
      KeepAll(rows[..n], defs);
    }
  }

  /** A pass over rows that are already right changes nothing. */
  lemma {:induction false} PassIdle(catalog: seq<Route>, defs: seq<Definition>, t: RouteTable)
    requires InCatalog(catalog, defs) && UniqueCodes(t.rows)
    requires forall i | 0 <= i < |defs| :: Represented(catalog, defs[i], i, t.rows)
    ensures ApplyDefinitions(catalog, defs, t) == t
  {
    if defs != [] {
      var n := |defs| - 1;
      var front := defs[..n];
      PassIdle(catalog, front, t);
      assert Represented(catalog, defs[n], n, t.rows);
      var row :| row in t.rows && row == RowFor(catalog, defs[n], n, row.id);
      var k :| 0 <= k < |t.rows| && t.rows[k] == row;
      UniqueFind(t.rows, k);
    }
  }

  /** Reconciling twice is reconciling once. */
  lemma {:induction false} ReconcileIdempotent(catalog: seq<Route>, defs: seq<Definition>, t: RouteTable)
    requires InCatalog(catalog, defs) && DistinctDefinitions(defs) && UniqueCodes(t.rows) && IdsBelow(t)
    ensures Reconcile(catalog, defs, Reconcile(catalog, defs, t)) == Reconcile(catalog, defs, t)
  {
    var r := Reconcile(catalog, defs, t);
    ReconcileIsExact(catalog, defs, t);
    PassEstablishes(catalog, defs, t);
    KeepPreservesUnique(ApplyDefinitions(catalog, defs, t).rows, defs);
    PassIdle(catalog, defs, r);
    KeepAll(r.rows, defs);
  }

  /** The table stays well formed. */
  lemma {:induction false} ReconcileKeepsTable(catalog: seq<Route>, defs: seq<Definition>, t: RouteTable)
    requires InCatalog(catalog, defs) && DistinctDefinitions(defs) && UniqueCodes(t.rows) && IdsBelow(t)
    ensures var r := Reconcile(catalog, defs, t); UniqueCodes(r.rows) && IdsBelow(r) && t.nextId <= r.nextId
  {
    var t1 := ApplyDefinitions(catalog, defs, t);
    var r := Reconcile(catalog, defs, t);
    PassEstablishes(catalog, defs, t);
    KeepPreservesUnique(t1.rows, defs);
    forall k | 0 <= k < |r.rows| ensures r.rows[k].id < r.nextId {
      assert r.rows[k] in r.rows;
    }
  }

  ghost predicate LinksKnown(catalog: seq<Route>, rows: seq<SubscriptionRoute>) {
    forall k | 0 <= k < |rows| :: rows[k].route.Some? ==> rows[k].route.value < |catalog|
  }

  lemma {:induction false} PassLinks(catalog: seq<Route>, defs: seq<Definition>, t: RouteTable)
    requires InCatalog(catalog, defs) && LinksKnown(catalog, t.rows)
    ensures LinksKnown(catalog, ApplyDefinitions(catalog, defs, t).rows)
  {
    if defs != [] {
      assert InCatalog(catalog, defs[..|defs| - 1]);
      PassLinks(catalog, defs[..|defs| - 1], t);
    }
  }

  /** Reconciled rows refer to existing catalogue routes. */
  lemma {:induction false} ReconcileLinks(catalog: seq<Route>, defs: seq<Definition>, t: RouteTable)
    requires InCatalog(catalog, defs) && LinksKnown(catalog, t.rows)
    ensures LinksKnown(catalog, Reconcile(catalog, defs, t).rows)
  {
    PassLinks(catalog, defs, t);
    var t1 := ApplyDefinitions(catalog, defs, t);
    var r := Reconcile(catalog, defs, t);
    forall k | 0 <= k < |r.rows| ensures r.rows[k].route.Some? ==> r.rows[k].route.value < |catalog| {
      assert r.rows[k] in t1.rows;
      var m :| 0 <= m < |t1.rows| && t1.rows[m] == r.rows[k];
    }
  }
}
