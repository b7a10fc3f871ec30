/** The arithmetic of renewals: a grant of days starts from the end date or from today, whichever is later. */
module Renewal {
  datatype Grant = Grant(today: int, days: nat)

  function Renew(endsAt: int, g: Grant): int {
    (if endsAt >= g.today then endsAt else g.today) + g.days
  }

  /** The end date after a sequence of grants. */
  function RenewAll(endsAt: int, grants: seq<Grant>): int
    decreases |grants|
  {
    if grants == [] then endsAt
    else RenewAll(Renew(endsAt, grants[0]), grants[1..])
  }

  function Total(grants: seq<Grant>): nat {
    if grants == [] then 0 else grants[0].days + Total(grants[1..])
  }

  /** The candidates of the closed form: the old end date plus everything, or the day of
      one grant plus that grant and all later ones. */
  ghost predicate IsCandidate(endsAt: int, grants: seq<Grant>, x: int) {
    || x == endsAt + Total(grants)
    || exists i | 0 <= i < |grants| :: x == grants[i].today + Total(grants[i..])
  }

  /** The end date after any sequence of grants is the largest candidate. */
  lemma {:induction false} ClosedForm(endsAt: int, grants: seq<Grant>)
    ensures IsCandidate(endsAt, grants, RenewAll(endsAt, grants))
    ensures forall x | IsCandidate(endsAt, grants, x) :: x <= RenewAll(endsAt, grants)
    decreases |grants|
  {
    if grants != [] {
      var rest := grants[1..];
      var next := Renew(endsAt, grants[0]);
      ClosedForm(next, rest);
      var r := RenewAll(endsAt, grants);
      assert grants[0..] == grants;
      assert forall i | 0 <= i < |rest| :: rest[i] == grants[i + 1] && rest[i..] == grants[i + 1..];
      assert IsCandidate(next, rest, next + Total(rest));
      forall x | IsCandidate(endsAt, grants, x) ensures x <= r {
        if x != endsAt + Total(grants) {
          var i :| 0 <= i < |grants| && x == grants[i].today + Total(grants[i..]);
          if i > 0 {
            assert x == rest[i - 1].today + Total(rest[i - 1..]);
            assert IsCandidate(next, rest, x);
          }
        }
      }
      if r == next + Total(rest) {
        assert endsAt >= grants[0].today || r == grants[0].today + Total(grants[0..]);
      } else {
        var i :| 0 <= i < |rest| && r == rest[i].today + Total(rest[i..]);
        assert r == grants[i + 1].today + Total(grants[i + 1..]);
      }
    }
  }

  /** No granted day is lost, and the end date never moves back. */
  lemma {:induction false} NoDayIsLost(endsAt: int, grants: seq<Grant>)
    ensures RenewAll(endsAt, grants) >= endsAt + Total(grants)
  {
    ClosedForm(endsAt, grants);
    assert IsCandidate(endsAt, grants, endsAt + Total(grants));
  }

  /** Grants made on one day only count together: their order does not matter. */
  lemma {:induction false} SameDayGrants(endsAt: int, day: int, grants: seq<Grant>)
    requires grants != [] && forall i | 0 <= i < |grants| :: grants[i].today == day
    ensures RenewAll(endsAt, grants) == Renew(endsAt, Grant(day, Total(grants)))
    decreases |grants|
  {
    if |grants| > 1 {
      SameDayGrants(Renew(endsAt, grants[0]), day, grants[1..]);
    } else {
      assert grants[1..] == [];
    }
  }

  lemma {:induction false} RenewAllSplits(endsAt: int, a: seq<Grant>, b: seq<Grant>)
    ensures RenewAll(endsAt, a + b) == RenewAll(RenewAll(endsAt, a), b)
    decreases |a|
  {
    if a == [] {
      assert a + b == b;
    } else {
      assert (a + b)[1..] == a[1..] + b;
      RenewAllSplits(Renew(endsAt, a[0]), a[1..], b);
    }
  }
}
