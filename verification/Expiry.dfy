/** The expiry instant sent to a panel against the subscription's own end-of-day rule. */
module Expiry {
  import opened Tables
  import opened Wrappers
  import Services

  const MILLISECOND: int := 1000

  /** The calendar day of an instant, in a zone at a fixed offset from UTC. */
  function DayAt(instant: int, offset: int): int {
    (instant + offset) / DAY
  }

  /** The last microsecond of the end date in that zone. */
  function EndOfDay(endsAt: int, offset: int): int {
    (endsAt + 1) * DAY - offset - 1
  }

  /** Python's `int()` drops the fraction towards zero. */
  function Truncate(x: int, unit: int): int
    requires unit > 0
  {
    if x >= 0 then x / unit else -((-x) / unit)
  }

  /** `int(access_expires_at.timestamp() * 1000)`. */
  function PanelExpiry(endsAt: int, offset: int): int {
    Truncate(EndOfDay(endsAt, offset), MILLISECOND)
  }

  /** The subscription's rule: it is past its end date once the day has gone by. */
  predicate InForce(endsAt: int, offset: int, milliseconds: int) {
    !(endsAt < DayAt(milliseconds * MILLISECOND, offset))
  }

  lemma {:induction false} InForceBound(endsAt: int, offset: int, milliseconds: int)
    ensures InForce(endsAt, offset, milliseconds) <==> milliseconds * MILLISECOND <= EndOfDay(endsAt, offset)
  {
    var x := milliseconds * MILLISECOND + offset;
    assert x == DAY * (x / DAY) + x % DAY;
  }

  /** Panel and backend agree on every millisecond exactly for end dates whose day does not
      end before 1970: earlier, truncation grants the panel one millisecond too many. */
  lemma {:induction false} PanelAgreesFromTheEpochOn(endsAt: int, offset: int)
    requires offset % MILLISECOND == 0
    ensures (forall t :: InForce(endsAt, offset, t) <==> t <= PanelExpiry(endsAt, offset))
            <==> EndOfDay(endsAt, offset) >= 0
  {
    var end, p := EndOfDay(endsAt, offset), PanelExpiry(endsAt, offset);
    EndOfDayAligned(endsAt, offset);
    if end >= 0 {
      forall t ensures InForce(endsAt, offset, t) <==> t <= p {
        InForceBound(endsAt, offset, t);
      }
    } else {
      InForceBound(endsAt, offset, p);
      assert !InForce(endsAt, offset, p) && p <= p;
    }
  }

  lemma {:induction false} EndOfDayAligned(endsAt: int, offset: int)
    requires offset % MILLISECOND == 0
    ensures (EndOfDay(endsAt, offset) + 1) % MILLISECOND == 0
  {
    assert DAY == 86_400_000 * MILLISECOND;
    assert (endsAt + 1) * DAY == ((endsAt + 1) * 86_400_000) * MILLISECOND;
    assert offset == (offset / MILLISECOND) * MILLISECOND;
    assert EndOfDay(endsAt, offset) + 1 == ((endsAt + 1) * 86_400_000 - offset / MILLISECOND) * MILLISECOND;
    MultipleHasNoRemainder((endsAt + 1) * 86_400_000 - offset / MILLISECOND);
  }

  lemma {:induction false} MultipleHasNoRemainder(k: int)
    ensures (k * MILLISECOND) % MILLISECOND == 0
  {
  }

  /** An end date of 31 December 1969 in the backend's own zone: the panel still admits the first millisecond
      of the following day there. */
  lemma {:induction false} BeforeTheEpochPanelIsLate()
    ensures PanelExpiry(-1, Services.ZONE_OFFSET) == -18_000_000
    ensures !InForce(-1, Services.ZONE_OFFSET, -18_000_000)
  {
  }

  /** A touch is admitted exactly until the expiry that a sync for this end date would send. */
  lemma {:induction false} TouchAdmittedUntilPanelExpiry(x: Subscription, milliseconds: int, pending: bool)
    requires EndOfDay(x.endsAt, Services.ZONE_OFFSET) >= 0
    ensures var status := Services.StatusOf(Some(x), Services.Today(milliseconds * MILLISECOND), pending);
      status.Trial? || status.Paid? <==> milliseconds <= PanelExpiry(x.endsAt, Services.ZONE_OFFSET)
  {
    PanelAgreesFromTheEpochOn(x.endsAt, Services.ZONE_OFFSET);
    assert InForce(x.endsAt, Services.ZONE_OFFSET, milliseconds)
      <==> x.endsAt >= Services.Today(milliseconds * MILLISECOND);
  }
}
