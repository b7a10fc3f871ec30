/** What the payment import leaves and counts, read off from the records and the payment table alone. */
module ImportOutcomes {
  import opened Wrappers
  import opened Text
  import opened Billing
  import opened LegacyImport
  import opened PaymentOutcomes
  import opened ServiceOutcomes

  // ----- Records -----

  predicate StillOpen(s: LegacyStatus) {
    s == LegacyPending || s == AwaitingUser || s == AwaitingAdmin
  }

  predicate AnyStatus(s: LegacyStatus) { true }

  predicate WasPaid(s: LegacyStatus) { s == LegacyConfirmed }

  predicate WasCanceled(s: LegacyStatus) { s == LegacyCancelled }

  predicate WasOther(s: LegacyStatus) { s == AnythingElse }

  /** Confirmed payments were paid, cancelled ones canceled, open ones are awaited, and all others failed. */
  lemma {:induction false} StatusMapped(s: LegacyStatus)
    ensures MapStatus(s) == Paid <==> s == LegacyConfirmed
    ensures MapStatus(s) == Canceled <==> s == LegacyCancelled
    ensures MapStatus(s) == Awaiting <==> StillOpen(s)
    ensures MapStatus(s) == PaymentFailed <==> s == AnythingElse
  {
  }

  /** The external id, or one made from the number of the record. */
  function IdOf(r: Record): string {
    if r.externalId == "" then "amonora-payment-" + Decimal(r.legacyId) else r.externalId
  }

  /** The record's plan is on offer and its user is known. */
  ghost predicate Eligible(users: set<string>, r: Record) {
    r.username in users && OnOffer(r.tariff)
  }

  lemma {:induction false} EligibleIff(users: set<string>, r: Record)
    ensures Supported(r) <==> OnOffer(r.tariff)
    ensures Importable(users, r) <==> Eligible(users, r)
    ensures Key(r) == IdOf(r)
  {
    OnOfferFound(r.tariff);
  }

  /** An eligible record before number `k` has the id. */
  ghost predicate Before(users: set<string>, records: seq<Record>, k: nat, id: string) {
    exists j: nat | j < k && j < |records| :: Eligible(users, records[j]) && IdOf(records[j]) == id
  }

  /** Record `k` is eligible, and neither the table nor an earlier eligible record has its id. */
  ghost predicate Creates(users: set<string>, t: Table, records: seq<Record>, k: nat) {
    && k < |records| && Eligible(users, records[k])
    && IdOf(records[k]) !in t && !Before(users, records, k, IdOf(records[k]))
  }

  // ----- The table -----

  /** The row says what the record said. */
  ghost predicate Copies(r: Record, row: Row) {
    && row.username == r.username && row.plan == r.tariff && row.amount == r.amount
    && (row.status == Paid <==> r.status == LegacyConfirmed)
    && (row.status == Canceled <==> r.status == LegacyCancelled)
    && (row.status == Awaiting <==> StillOpen(r.status))
    && row.paidAt == (if r.status != LegacyConfirmed then None
                      else if r.confirmedAt.Some? then r.confirmedAt else Some(r.createdAt))
    && (if r.days == 0 then exists limit: nat :: Offered(r.tariff, row.days, limit) else row.days == r.days)
  }

  lemma {:induction false} RowCopies(r: Record)
    requires Supported(r)
    ensures Copies(r, RowOf(r))
  {
    PlansOnOffer(r.tariff);
    StatusMapped(r.status);
    assert r.days == 0 ==> Offered(r.tariff, RowOf(r).days, Services.FindPlan(r.tariff).value.maxDevices);
  }

  lemma {:induction false} BeforeNext(users: set<string>, records: seq<Record>, k: nat, id: string)
    requires k < |records|
    ensures Before(users, records, k + 1, id)
      <==> Before(users, records, k, id) || (Eligible(users, records[k]) && IdOf(records[k]) == id)
  {
  }

  /** An id is in the table after `k` records exactly if it was there or an eligible record brought it. */
  lemma {:induction false} IdsAfter(users: set<string>, t: Table, records: seq<Record>, k: nat, id: string)
    requires k <= |records|
    ensures id in ImportAll(users, t, records[..k]) <==> id in t || Before(users, records, k, id)
  {
    if k > 0 {
      IdsAfter(users, t, records, k - 1, id);
      BeforeNext(users, records, k - 1, id);
      EligibleIff(users, records[k - 1]);
      assert records[..k][..k - 1] == records[..k - 1];
    }
  }

  /** No row is overwritten, and each id new to the table gets the row of the first eligible record that has it. */
  lemma {:induction false} ImportCopies(users: set<string>, t: Table, records: seq<Record>, k: nat)
    requires k <= |records|
    ensures var t' := ImportAll(users, t, records[..k]);
      && (forall id | id in t :: id in t' && t'[id] == t[id])
      && (forall j: nat | j < k && Creates(users, t, records, j) ::
            IdOf(records[j]) in t' && Copies(records[j], t'[IdOf(records[j])]))
  {
    if k > 0 {
      var r := records[k - 1];
      var t1, t' := ImportAll(users, t, records[..k - 1]), ImportAll(users, t, records[..k]);
      assert records[..k][..k - 1] == records[..k - 1];
      ImportCopies(users, t, records, k - 1);
      EligibleIff(users, r);
      IdsAfter(users, t, records, k - 1, IdOf(r));
      assert t' == ImportOne(users, t1, r);
      if Supported(r) {
        RowCopies(r);
      }
      forall j: nat | j < k && Creates(users, t, records, j)
        ensures IdOf(records[j]) in t' && Copies(records[j], t'[IdOf(records[j])])
      {
        if j < k - 1 {
          assert IdOf(records[j]) in t1;
        }
      }
    }
  }

  /** The table after the import: the rows it had, and one for each id that an eligible record brings. */
  lemma {:induction false} ImportedTableIs(users: set<string>, t: Table, records: seq<Record>)
    ensures var t' := ImportAll(users, t, records);
      && (forall id :: id in t' <==> id in t || Before(users, records, |records|, id))
      && (forall id | id in t :: t'[id] == t[id])
      && (forall j: nat | Creates(users, t, records, j) :: Copies(records[j], t'[IdOf(records[j])]))
  {
    assert records[..|records|] == records;
    ImportCopies(users, t, records, |records|);
    forall id ensures id in ImportAll(users, t, records) <==> id in t || Before(users, records, |records|, id) {
      IdsAfter(users, t, records, |records|, id);
    }
  }

  // ----- The counters -----

  ghost function Positions(outcomes: seq<Outcome>, p: Outcome -> bool): (r: set<nat>)
    ensures forall k: nat :: k in r <==> k < |outcomes| && p(outcomes[k])
  {
    set k: nat | k < |outcomes| && p(outcomes[k])
  }

  lemma {:induction false} PositionsNext(outcomes: seq<Outcome>, p: Outcome -> bool)
    requires outcomes != []
    ensures var n := |outcomes| - 1;
      |Positions(outcomes, p)| == |Positions(outcomes[..n], p)| + if p(outcomes[n]) then 1 else 0
  {
    var n := |outcomes| - 1;
    assert Positions(outcomes, p) == if p(outcomes[n]) then Positions(outcomes[..n], p) + {n}
      else Positions(outcomes[..n], p);
  }

  predicate IsUnsupported(o: Outcome) { o == Unsupported }

  predicate IsExisting(o: Outcome) { o == Existing }

  predicate IsImported(o: Outcome) { o.Imported? }

  predicate IsPaid(o: Outcome) { o == Imported(Paid) }

  predicate IsAwaiting(o: Outcome) { o == Imported(Awaiting) }

  predicate IsCanceled(o: Outcome) { o == Imported(Canceled) }

  predicate IsFailed(o: Outcome) { o == Imported(PaymentFailed) }

  /** Every counter counts the outcomes of its kind. */
  lemma {:induction false} CountersCount(source: nat, outcomes: seq<Outcome>, dryRun: bool)
    ensures Tally(source, outcomes, dryRun)
      == Summary(source, |Positions(outcomes, IsImported)|, |Positions(outcomes, IsPaid)|,
                 |Positions(outcomes, IsAwaiting)|, |Positions(outcomes, IsCanceled)|, |Positions(outcomes, IsFailed)|,
                 |Positions(outcomes, IsUnsupported)|, |Positions(outcomes, IsExisting)|, dryRun)
  {
    if outcomes != [] {
      CountersCount(source, outcomes[..|outcomes| - 1], dryRun);
      PositionsNext(outcomes, IsImported);
      PositionsNext(outcomes, IsPaid);
      PositionsNext(outcomes, IsAwaiting);
      PositionsNext(outcomes, IsCanceled);
      PositionsNext(outcomes, IsFailed);
      PositionsNext(outcomes, IsUnsupported);
      PositionsNext(outcomes, IsExisting);
    }
  }

  lemma {:induction false} OutcomeAt(users: set<string>, t: Table, records: seq<Record>, k: nat)
    requires k < |records|
    ensures Outcomes(users, t, records)[k] == OutcomeOf(users, ImportAll(users, t, records[..k]), records[k])
  {
    var n := |records| - 1;
    if k < n {
      OutcomeAt(users, t, records[..n], k);
      assert records[..n][..k] == records[..k];
    }
  }

  /** What becomes of record `k`. */
  lemma {:induction false} OutcomeIs(users: set<string>, t: Table, records: seq<Record>, k: nat)
    requires k < |records|
    ensures var o, r := Outcomes(users, t, records)[k], records[k];
      && (o == Unsupported <==> !OnOffer(r.tariff))
      && (o == Existing <==> Eligible(users, r) && !Creates(users, t, records, k))
      && (o.Imported? <==> Creates(users, t, records, k))
      && (o.Imported? ==> o.status == MapStatus(r.status))
  {
    OutcomeAt(users, t, records, k);
    EligibleIff(users, records[k]);
    IdsAfter(users, t, records, k, IdOf(records[k]));
  }

  /** The records of a kind that create a row. */
  ghost function Created(users: set<string>, t: Table, records: seq<Record>, kind: LegacyStatus -> bool): set<nat> {
    set k: nat | k < |records| && Creates(users, t, records, k) && kind(records[k].status)
  }

  /** Among the outcomes `p` picks the created rows of a kind. */
  ghost predicate Picks(p: Outcome -> bool, kind: LegacyStatus -> bool) {
    !p(Unsupported) && !p(NoUser) && !p(Existing) && forall s :: p(Imported(MapStatus(s))) <==> kind(s)
  }

  lemma {:induction false} KindsPicked()
    ensures Picks(IsImported, AnyStatus) && Picks(IsPaid, WasPaid) && Picks(IsCanceled, WasCanceled)
    ensures Picks(IsAwaiting, StillOpen) && Picks(IsFailed, WasOther)
  {
    forall s {
      StatusMapped(s);
    }
  }

  lemma {:induction false} CreatedCounted(users: set<string>, t: Table, records: seq<Record>, p: Outcome -> bool,
                                          kind: LegacyStatus -> bool)
    requires Picks(p, kind)
    ensures Positions(Outcomes(users, t, records), p) == Created(users, t, records, kind)
  {
    var o := Outcomes(users, t, records);
    forall k: nat | k < |records| ensures p(o[k]) <==> Creates(users, t, records, k) && kind(records[k].status) {
      OutcomeIs(users, t, records, k);
    }
  }

  lemma {:induction false} SkippedCounted(users: set<string>, t: Table, records: seq<Record>)
    ensures Positions(Outcomes(users, t, records), IsUnsupported)
      == set k: nat | k < |records| && !OnOffer(records[k].tariff)
    ensures Positions(Outcomes(users, t, records), IsExisting)
      == set k: nat | k < |records| && Eligible(users, records[k]) && !Creates(users, t, records, k)
  {
    var o := Outcomes(users, t, records);
    forall k: nat | k < |records|
      ensures IsUnsupported(o[k]) <==> !OnOffer(records[k].tariff)
      ensures IsExisting(o[k]) <==> Eligible(users, records[k]) && !Creates(users, t, records, k)
    {
      OutcomeIs(users, t, records, k);
    }
  }

  /** The import counts each record once: rows created, plans no longer on offer, and ids that were there already. */
  lemma {:induction false} ImportCounts(users: set<string>, t: Table, records: seq<Record>)
    ensures var s := Tally(|records|, Outcomes(users, t, records), false);
      && s.source == |records| && !s.dryRun
      && s.imported == |Created(users, t, records, AnyStatus)|
      && s.unsupported == |set k: nat | k < |records| && !OnOffer(records[k].tariff)|
      && s.existing == |set k: nat | k < |records| && Eligible(users, records[k]) && !Creates(users, t, records, k)|
  {
    CountersCount(|records|, Outcomes(users, t, records), false);
    KindsPicked();
    CreatedCounted(users, t, records, IsImported, AnyStatus);
    SkippedCounted(users, t, records);
  }

  /** Created rows are counted by what became of the payment. */
  lemma {:induction false} ImportCountsByState(users: set<string>, t: Table, records: seq<Record>)
    ensures var s := Tally(|records|, Outcomes(users, t, records), false);
      && s.paid == |Created(users, t, records, WasPaid)| && s.canceled == |Created(users, t, records, WasCanceled)|
      && s.pending == |Created(users, t, records, StillOpen)| && s.failed == |Created(users, t, records, WasOther)|
  {
    CountersCount(|records|, Outcomes(users, t, records), false);
    KindsPicked();
    CreatedCounted(users, t, records, IsPaid, WasPaid);
    CreatedCounted(users, t, records, IsCanceled, WasCanceled);
    CreatedCounted(users, t, records, IsAwaiting, StillOpen);
    CreatedCounted(users, t, records, IsFailed, WasOther);
  }

  lemma {:induction false} DryOutcomeAt(records: seq<Record>, k: nat)
    requires k < |records|
    ensures DryOutcomes(records)[k] == if OnOffer(records[k].tariff) then Imported(MapStatus(records[k].status))
                                       else Unsupported
  {
    OnOfferFound(records[k].tariff);
    if k < |records| - 1 {
      DryOutcomeAt(records[..|records| - 1], k);
    }
  }

  ghost function OfferedOnes(records: seq<Record>, kind: LegacyStatus -> bool): set<nat> {
    set k: nat | k < |records| && OnOffer(records[k].tariff) && kind(records[k].status)
  }

  lemma {:induction false} OfferedCounted(records: seq<Record>, p: Outcome -> bool, kind: LegacyStatus -> bool)
    requires Picks(p, kind)
    ensures Positions(DryOutcomes(records), p) == OfferedOnes(records, kind)
  {
    var o := DryOutcomes(records);
    forall k: nat | k < |records| ensures p(o[k]) <==> OnOffer(records[k].tariff) && kind(records[k].status) {
      DryOutcomeAt(records, k);
    }
  }

  lemma {:induction false} NotOfferedCounted(records: seq<Record>)
    ensures Positions(DryOutcomes(records), IsUnsupported) == set k: nat | k < |records| && !OnOffer(records[k].tariff)
    ensures Positions(DryOutcomes(records), IsExisting) == {}
  {
    var o := DryOutcomes(records);
    forall k: nat | k < |records|
      ensures IsUnsupported(o[k]) <==> !OnOffer(records[k].tariff)
      ensures !IsExisting(o[k])
    {
      DryOutcomeAt(records, k);
    }
  }

  /** The dry run counts every record whose plan is on offer as created, and nothing as there already. */
  lemma {:induction false} DryRunCounts(records: seq<Record>)
    ensures var s := Tally(|records|, DryOutcomes(records), true);
      && s.source == |records| && s.dryRun && s.existing == 0
      && s.imported == |OfferedOnes(records, AnyStatus)|
      && s.unsupported == |set k: nat | k < |records| && !OnOffer(records[k].tariff)|
  {
    CountersCount(|records|, DryOutcomes(records), true);
    KindsPicked();
    OfferedCounted(records, IsImported, AnyStatus);
    NotOfferedCounted(records);
  }

  lemma {:induction false} DryRunCountsByState(records: seq<Record>)
    ensures var s := Tally(|records|, DryOutcomes(records), true);
      && s.paid == |OfferedOnes(records, WasPaid)| && s.canceled == |OfferedOnes(records, WasCanceled)|
      && s.pending == |OfferedOnes(records, StillOpen)| && s.failed == |OfferedOnes(records, WasOther)|
  {
    CountersCount(|records|, DryOutcomes(records), true);
    KindsPicked();
    OfferedCounted(records, IsPaid, WasPaid);
    OfferedCounted(records, IsCanceled, WasCanceled);
    OfferedCounted(records, IsAwaiting, StillOpen);
    OfferedCounted(records, IsFailed, WasOther);
  }
}
