/** The queries the services run: filtering a table and ordering the result. */
module Query {
  /** The row numbers that satisfy `p`, in ascending order. */
  function Where<T>(rows: seq<T>, p: T -> bool): (r: seq<nat>)
    ensures forall i: nat :: i in r <==> i < |rows| && p(rows[i])
    ensures forall i: nat, j: nat :: i < j < |r| ==> r[i] < r[j]
  {
    if rows == [] then []
    else
      var n := |rows| - 1;
      var front := Where(rows[..n], p);
      assert forall i: nat :: i < |front| ==> front[i] in front;
      if p(rows[n]) then front + [n] else front
  }

  /** The position of the first row that satisfies `p`, or the number of rows when none does. */
  function First<T>(rows: seq<T>, p: T -> bool): (i: nat)
    ensures i <= |rows|
    ensures i < |rows| ==> p(rows[i])
    ensures forall k | 0 <= k < i :: !p(rows[k])
  {
    if rows == [] then 0
    else
      var front := rows[..|rows| - 1];
      var f := First(front, p);
      assert forall k | 0 <= k < f :: rows[k] == front[k];
      if f < |front| then f else if p(rows[|front|]) then |front| else |rows|
  }

  function Insert<T>(before: (T, T) -> bool, x: T, xs: seq<T>): (r: seq<T>)
    ensures multiset(r) == multiset{x} + multiset(xs)
  {
    if xs == [] || before(x, xs[0]) then
      assert multiset([x] + xs) == multiset{x} + multiset(xs);
      [x] + xs
    else
      assert xs == [xs[0]] + xs[1..];
      [xs[0]] + Insert(before, x, xs[1..])
  }

  /** A stable `ORDER BY`: insertion sort on the given comparison. */
  function OrderBy<T>(before: (T, T) -> bool, xs: seq<T>): (r: seq<T>)
    ensures multiset(r) == multiset(xs) && |r| == |xs|
  {
    if xs == [] then []
    else
      assert xs == [xs[0]] + xs[1..];
      var r := Insert(before, xs[0], OrderBy(before, xs[1..]));
      assert |multiset(r)| == |r|;
      assert |multiset(xs)| == |xs|;
      r
  }

  ghost predicate Ordered<T>(before: (T, T) -> bool, xs: seq<T>) {
    forall i, j :: 0 <= i < j < |xs| ==> before(xs[i], xs[j])
  }

  ghost predicate TotalOn<T>(before: (T, T) -> bool, xs: seq<T>) {
    && (forall a, b | a in xs && b in xs :: before(a, b) || before(b, a))
    && (forall a, b, c | a in xs && b in xs && c in xs && before(a, b) && before(b, c) :: before(a, c))
  }

  lemma {:induction false} InsertMember<T>(before: (T, T) -> bool, x: T, xs: seq<T>, y: T)
    ensures y in Insert(before, x, xs) <==> y == x || y in xs
  {
    assert y in Insert(before, x, xs) <==> y in multiset(Insert(before, x, xs));
    assert y in xs <==> y in multiset(xs);
  }

  lemma {:induction false} OrderByMember<T>(before: (T, T) -> bool, xs: seq<T>, y: T)
    ensures y in OrderBy(before, xs) <==> y in xs
  {
    assert y in OrderBy(before, xs) <==> y in multiset(OrderBy(before, xs));
    assert y in xs <==> y in multiset(xs);
  }

  lemma {:induction false} InsertOrdered<T>(before: (T, T) -> bool, x: T, xs: seq<T>)
    requires Ordered(before, xs)
    requires TotalOn(before, [x] + xs)
    ensures Ordered(before, Insert(before, x, xs))
  {
    if xs == [] || before(x, xs[0]) {
      forall i, j | 0 <= i < j < |[x] + xs| ensures before(([x] + xs)[i], ([x] + xs)[j]) {
        assert x in [x] + xs;
        if i == 0 && j > 1 {
          assert xs[0] in [x] + xs && xs[j - 1] in [x] + xs;
        }
      }
    } else {
      var rest := xs[1..];
      assert forall y :: y in [x] + rest ==> y in [x] + xs;
      InsertOrdered(before, x, rest);
      var r := Insert(before, x, rest);
      assert x in [x] + xs && xs[0] in [x] + xs;
      forall j | 0 <= j < |r| ensures before(xs[0], r[j]) {
        var y := r[j];
        assert y in r;
        InsertMember(before, x, rest, y);
        if y != x {
          var k :| 0 <= k < |rest| && rest[k] == y;
          assert before(xs[0], xs[k + 1]);
        }
      }
    }
  }

  /** Ordering sorts whenever the comparison is a total preorder on the rows. */
  lemma {:induction false} OrderByOrdered<T>(before: (T, T) -> bool, xs: seq<T>)
    requires TotalOn(before, xs)
    ensures Ordered(before, OrderBy(before, xs))
  {
    if xs != [] {
      var rest := OrderBy(before, xs[1..]);
      OrderByOrdered(before, xs[1..]);
      forall y | y in [xs[0]] + rest ensures y in xs {
        if y != xs[0] {
          assert y in rest;
          OrderByMember(before, xs[1..], y);
        }
      }
      InsertOrdered(before, xs[0], rest);
    }
  }
}
