/** The one-off import of legacy payments, its counters, and the dry run that predicts them. */
module LegacyImport {
  import opened Wrappers
  import opened Text
  import opened Billing
  import Services

  /** A legacy payment state. */
  datatype LegacyStatus =
    | LegacyConfirmed | LegacyCancelled | LegacyPending | AwaitingUser | AwaitingAdmin | AnythingElse

  function MapStatus(s: LegacyStatus): PaymentStatus {
    match s
    case LegacyConfirmed => Paid
    case LegacyCancelled => Canceled
    case LegacyPending => Awaiting
    case AwaitingUser => Awaiting
    case AwaitingAdmin => Awaiting
    case AnythingElse => PaymentFailed
  }

  datatype Record = Record(
    legacyId: nat, username: string, externalId: string, tariff: string, amount: nat, days: nat,
    status: LegacyStatus, confirmedAt: Option<int>, createdAt: int)

  datatype Row = Row(username: string, plan: string, amount: nat, days: nat, status: PaymentStatus, paidAt: Option<int>)

  type Table = map<string, Row>

  predicate Supported(r: Record) {
    Services.FindPlan(r.tariff).Some?
  }

  function LegacyPrefix(): string { "amonora-payment-" }

  function Key(r: Record): string {
    if r.externalId != "" then r.externalId else LegacyPrefix() + Decimal(r.legacyId)
  }

  function PaidAt(r: Record): int {
    if r.confirmedAt.Some? then r.confirmedAt.value else r.createdAt
  }

  /** The row a record creates; a zero duration falls back to the plan's. */
  function RowOf(r: Record): Row
    requires Supported(r)
  {
    var plan := Services.FindPlan(r.tariff).value;
    Row(r.username, r.tariff, r.amount, if r.days == 0 then plan.days else r.days, MapStatus(r.status),
        if MapStatus(r.status) == Paid then Some(PaidAt(r)) else None)
  }

  // ----- The import, record by record -----

  datatype Outcome = Unsupported | NoUser | Existing | Imported(status: PaymentStatus)

  function OutcomeOf(users: set<string>, t: Table, r: Record): Outcome {
    if !Supported(r) then Unsupported
    else if r.username !in users then NoUser
    else if Key(r) in t then Existing
    else Imported(MapStatus(r.status))
  }

  function ImportOne(users: set<string>, t: Table, r: Record): Table {
    if OutcomeOf(users, t, r).Imported? then t[Key(r) := RowOf(r)] else t
  }

  function ImportAll(users: set<string>, t: Table, records: seq<Record>): Table {
    if records == [] then t
    else
      var n := |records| - 1;
      ImportOne(users, ImportAll(users, t, records[..n]), records[n])
  }

  function Outcomes(users: set<string>, t: Table, records: seq<Record>): (o: seq<Outcome>)
    ensures |o| == |records|
  {
    if records == [] then []
    else
      var n := |records| - 1;
      Outcomes(users, t, records[..n]) + [OutcomeOf(users, ImportAll(users, t, records[..n]), records[n])]
  }

  /** What the dry run supposes of each record. */
  function DryOutcome(r: Record): Outcome {
    if Supported(r) then Imported(MapStatus(r.status)) else Unsupported
  }

  function DryOutcomes(records: seq<Record>): (o: seq<Outcome>)
    ensures |o| == |records|
  {
    if records == [] then []
    else
      var n := |records| - 1;
      DryOutcomes(records[..n]) + [DryOutcome(records[n])]
  }

  // ----- Counters -----

  datatype Summary = Summary(
    source: nat, imported: nat, paid: nat, pending: nat, canceled: nat, failed: nat,
    unsupported: nat, existing: nat, dryRun: bool)

  /** One more outcome. */
  function Add(s: Summary, o: Outcome): Summary {
    match o
    case Unsupported => s.(unsupported := s.unsupported + 1)
    case NoUser => s
    case Existing => s.(existing := s.existing + 1)
    case Imported(status) =>
      var t := s.(imported := s.imported + 1);
      match status
      case Paid => t.(paid := t.paid + 1)
      case Awaiting => t.(pending := t.pending + 1)
      case Canceled => t.(canceled := t.canceled + 1)
      case PaymentFailed => t.(failed := t.failed + 1)
  }

  function Tally(source: nat, outcomes: seq<Outcome>, dryRun: bool): Summary {
    if outcomes == [] then Summary(source, 0, 0, 0, 0, 0, 0, 0, dryRun)
    else
      var n := |outcomes| - 1;
      Add(Tally(source, outcomes[..n], dryRun), outcomes[n])
  }

  /** The payment table and the two loops over the source rows. */
  class PaymentTable {
    var rows: Table

    /** One round of the loop: skip, or create the row and count it. */
    method ImportRecord(users: set<string>, r: Record, before: Summary) returns (summary: Summary)
      modifies this
      ensures rows == ImportOne(users, old(rows), r)
      ensures summary == Add(before, OutcomeOf(users, old(rows), r))
    {
      summary := before;
      if !Supported(r) {
        summary := summary.(unsupported := summary.unsupported + 1);
      } else if r.username in users {
        var key := Key(r);
        if key in rows {
          summary := summary.(existing := summary.existing + 1);
        } else {
          var row := RowOf(r);
          rows := rows[key := row];
          summary := summary.(imported := summary.imported + 1);
          match row.status {
            case Paid => summary := summary.(paid := summary.paid + 1);
            case Awaiting => summary := summary.(pending := summary.pending + 1);
            case Canceled => summary := summary.(canceled := summary.canceled + 1);
            case PaymentFailed => summary := summary.(failed := summary.failed + 1);
          }
        }
      }
    }

    /** `import_amonora_payments` without the dry-run flag. */
    method Import(users: set<string>, records: seq<Record>) returns (summary: Summary)
      modifies this
      ensures rows == ImportAll(users, old(rows), records)
      ensures summary == Tally(|records|, Outcomes(users, old(rows), records), false)
    {
      summary := Summary(|records|, 0, 0, 0, 0, 0, 0, 0, false);
      for k := 0 to |records|
        invariant rows == ImportAll(users, old(rows), records[..k])
        invariant summary == Tally(|records|, Outcomes(users, old(rows), records[..k]), false)
      {
        OutcomesGrow(users, old(rows), records, k, |records|);
        summary := ImportRecord(users, records[k], summary);
      }
      assert records[..|records|] == records;
    }
  }

  /** One round of the dry run: count the row as if its user and a free key were there. */
  method PreviewRecord(r: Record, before: Summary) returns (summary: Summary)
    ensures summary == Add(before, DryOutcome(r))
  {
    summary := before;
    if !Supported(r) {
      summary := summary.(unsupported := summary.unsupported + 1);
    } else {
      summary := summary.(imported := summary.imported + 1);
      match MapStatus(r.status) {
        case Paid => summary := summary.(paid := summary.paid + 1);
        case Awaiting => summary := summary.(pending := summary.pending + 1);
        case Canceled => summary := summary.(canceled := summary.canceled + 1);
        case PaymentFailed => summary := summary.(failed := summary.failed + 1);
      }
    }
  }

  /** `_build_payment_import_summary`. */
  method DryRun(records: seq<Record>) returns (summary: Summary)
    ensures summary == Tally(|records|, DryOutcomes(records), true)
  {
    summary := Summary(|records|, 0, 0, 0, 0, 0, 0, 0, true);
    for k := 0 to |records|
      invariant summary == Tally(|records|, DryOutcomes(records[..k]), true)
    {
      DryOutcomesGrow(records, k, |records|);
      summary := PreviewRecord(records[k], summary);
    }
    assert records[..|records|] == records;
  }

  lemma {:induction false} TallyGrows(source: nat, outcomes: seq<Outcome>, o: Outcome, dryRun: bool)
    ensures Tally(source, outcomes + [o], dryRun) == Add(Tally(source, outcomes, dryRun), o)
  {
    assert (outcomes + [o])[..|outcomes|] == outcomes;
  }

  lemma {:induction false} OutcomesGrow(users: set<string>, t: Table, records: seq<Record>, k: nat, source: nat)
    requires k < |records|
    ensures ImportAll(users, t, records[..k + 1]) == ImportOne(users, ImportAll(users, t, records[..k]), records[k])
    ensures Tally(source, Outcomes(users, t, records[..k + 1]), false)
         == Add(Tally(source, Outcomes(users, t, records[..k]), false),
                OutcomeOf(users, ImportAll(users, t, records[..k]), records[k]))
  {
    assert records[..k + 1][..k] == records[..k];
    TallyGrows(source, Outcomes(users, t, records[..k]),
      OutcomeOf(users, ImportAll(users, t, records[..k]), records[k]), false);
  }

  lemma {:induction false} DryOutcomesGrow(records: seq<Record>, k: nat, source: nat)
    requires k < |records|
    ensures Tally(source, DryOutcomes(records[..k + 1]), true)
         == Add(Tally(source, DryOutcomes(records[..k]), true), DryOutcome(records[k]))
  {
    assert records[..k + 1][..k] == records[..k];
    TallyGrows(source, DryOutcomes(records[..k]), DryOutcome(records[k]), true);
  }

  // ----- Idempotence and prefixes -----

  /** The records that can create a row at all. */
  predicate Importable(users: set<string>, r: Record) {
    Supported(r) && r.username in users
  }

  lemma {:induction false} ImportKeepsRows(users: set<string>, t: Table, records: seq<Record>)
    ensures forall key | key in t :: key in ImportAll(users, t, records) && ImportAll(users, t, records)[key] == t[key]
    ensures forall k | 0 <= k < |records|
      && Importable(users, records[k]) :: Key(records[k]) in ImportAll(users, t, records)
  {
    if records != [] {
      ImportKeepsRows(users, t, records[..|records| - 1]);
    }
  }

  lemma {:induction false} ImportAbsorbed(users: set<string>, t: Table, records: seq<Record>)
    requires forall k | 0 <= k < |records| && Importable(users, records[k]) :: Key(records[k]) in t
    ensures ImportAll(users, t, records) == t
  {
    if records != [] {
      ImportAbsorbed(users, t, records[..|records| - 1]);
    }
  }

  lemma {:induction false} ImportSplits(users: set<string>, t: Table, a: seq<Record>, b: seq<Record>)
    ensures ImportAll(users, t, a + b) == ImportAll(users, ImportAll(users, t, a), b)
  {
    if b == [] {
      assert a + b == a;
    } else {
      var n := |b| - 1;
      assert (a + b)[..|a| + n] == a + b[..n];
      ImportSplits(users, t, a, b[..n]);
    }
  }

  /** Importing a prefix first and everything afterwards leaves the same payments as one full run;
      with an empty rest, importing twice is importing once. */
  lemma {:induction false} PrefixStable(users: set<string>, t: Table, a: seq<Record>, b: seq<Record>)
    ensures ImportAll(users, ImportAll(users, t, a), a + b) == ImportAll(users, t, a + b)
  {
    var t1 := ImportAll(users, t, a);
    ImportKeepsRows(users, t, a);
    ImportAbsorbed(users, t1, a);
    ImportSplits(users, t1, a, b);
    ImportSplits(users, t, a, b);
  }

  /** The status counters always add up to the imported count. */
  lemma {:induction false} CountersAddUp(source: nat, outcomes: seq<Outcome>, dryRun: bool)
    ensures var s := Tally(source, outcomes, dryRun);
      s.paid + s.pending + s.canceled + s.failed == s.imported && s.source == source && s.dryRun == dryRun
  {
    if outcomes != [] {
      CountersAddUp(source, outcomes[..|outcomes| - 1], dryRun);
    }
  }

  // ----- When the dry run predicts the import -----

  /** Every supported record finds its user, and its key neither in the table nor on an earlier supported record. */
  predicate Predictable(users: set<string>, t: Table, records: seq<Record>) {
    forall k | 0 <= k < |records| && Supported(records[k]) ::
      && records[k].username in users && Key(records[k]) !in t
      && forall j | 0 <= j < k && Supported(records[j]) :: Key(records[j]) != Key(records[k])
  }

  lemma {:induction false} KeysAfterImport(users: set<string>, t: Table, records: seq<Record>, key: string)
    requires key in ImportAll(users, t, records)
    ensures key in t || exists k | 0 <= k < |records| && Supported(records[k]) :: Key(records[k]) == key
  {
    if records != [] {
      var n := |records| - 1;
      if key in ImportAll(users, t, records[..n]) {
        KeysAfterImport(users, t, records[..n], key);
        if key !in t {
          var k :| 0 <= k < |records[..n]| && Supported(records[..n][k]) && Key(records[..n][k]) == key;
          assert records[k] == records[..n][k];
        }
      } else {
        assert Key(records[n]) == key;
      }
    }
  }

  /** The import follows the dry run record by record exactly when the records are predictable. */
  lemma {:induction false} OutcomesPredicted(users: set<string>, t: Table, records: seq<Record>)
    ensures Predictable(users, t, records) <==> Outcomes(users, t, records) == DryOutcomes(records)
  {
    if records != [] {
      var n := |records| - 1;
      var front, last := records[..n], records[n];
      assert records == front + [last];
      OutcomesPredicted(users, t, front);
      var t1 := ImportAll(users, t, front);
      assert Outcomes(users, t, records)[..n] == Outcomes(users, t, front);
      assert DryOutcomes(records)[..n] == DryOutcomes(front);
      if Outcomes(users, t, records) == DryOutcomes(records) {
        assert Outcomes(users, t, records)[n] == DryOutcomes(records)[n];
        LastIsNew(users, t, front, last);
      } else if Predictable(users, t, records) {
        PredictableFront(users, t, front, last);
        LastPredicted(users, t, front, last);
      }
    }
  }

  lemma {:induction false} PredictableFront(users: set<string>, t: Table, front: seq<Record>, last: Record)
    requires Predictable(users, t, front + [last])
    ensures Predictable(users, t, front)
  {
    assert forall k | 0 <= k < |front| :: (front + [last])[k] == front[k];
  }

  lemma {:induction false} LastPredicted(users: set<string>, t: Table, front: seq<Record>, last: Record)
    requires Predictable(users, t, front + [last])
    ensures OutcomeOf(users, ImportAll(users, t, front), last) == DryOutcome(last)
  {
    var records := front + [last];
    assert records[|front|] == last && forall k | 0 <= k < |front| :: records[k] == front[k];
    if Supported(last) && Key(last) in ImportAll(users, t, front) {
      KeysAfterImport(users, t, front, Key(last));
    }
  }

  lemma {:induction false} LastIsNew(users: set<string>, t: Table, front: seq<Record>, last: Record)
    requires Predictable(users, t, front) && OutcomeOf(users, ImportAll(users, t, front), last) == DryOutcome(last)
    ensures Predictable(users, t, front + [last])
  {
    var records := front + [last];
    ImportKeepsRows(users, t, front);
    forall k | 0 <= k < |records| && Supported(records[k])
      ensures records[k].username in users && Key(records[k]) !in t
      ensures forall j | 0 <= j < k && Supported(records[j]) :: Key(records[j]) != Key(records[k])
    {
      if k < |front| {
        assert records[k] == front[k];
      } else {
        forall j | 0 <= j < k && Supported(records[j]) ensures Key(records[j]) != Key(records[k]) {
          assert records[j] == front[j] && Importable(users, front[j]);
        }
      }
    }
  }

  /** The outcome is the dry run's, or the dry run counted a row that was not created. */
  predicate Follows(o: Outcome, d: Outcome) {
    o == d || (d.Imported? && !o.Imported?)
  }

  lemma {:induction false} OutcomesFollow(users: set<string>, t: Table, records: seq<Record>)
    ensures forall k | 0 <= k < |records| :: Follows(Outcomes(users, t, records)[k], DryOutcomes(records)[k])
  {
    if records != [] {
      OutcomesFollow(users, t, records[..|records| - 1]);
    }
  }

  function CountImported(outcomes: seq<Outcome>): nat {
    if outcomes == [] then 0
    else
      var n := |outcomes| - 1;
      CountImported(outcomes[..n]) + if outcomes[n].Imported? then 1 else 0
  }

  lemma {:induction false} TallyCountsImported(source: nat, outcomes: seq<Outcome>, dryRun: bool)
    ensures Tally(source, outcomes, dryRun).imported == CountImported(outcomes)
  {
    if outcomes != [] {
      TallyCountsImported(source, outcomes[..|outcomes| - 1], dryRun);
    }
  }

  /** The import never counts more than the dry run, and equally many only if it follows it throughout. */
  lemma {:induction false} CountsCompare(outcomes: seq<Outcome>, dry: seq<Outcome>)
    requires |outcomes| == |dry| && forall k | 0 <= k < |dry| :: Follows(outcomes[k], dry[k])
    ensures CountImported(outcomes) <= CountImported(dry)
    ensures CountImported(outcomes) == CountImported(dry) ==> outcomes == dry
  {
    if dry != [] {
      var n := |dry| - 1;
      CountsCompare(outcomes[..n], dry[..n]);
      assert outcomes == outcomes[..n] + [outcomes[n]] && dry == dry[..n] + [dry[n]];
    }
  }

  lemma {:induction false} TallyFlag(source: nat, outcomes: seq<Outcome>)
    ensures Tally(source, outcomes, true) == Tally(source, outcomes, false).(dryRun := true)
  {
    if outcomes != [] {
      TallyFlag(source, outcomes[..|outcomes| - 1]);
    }
  }

  /** The dry run predicts the import's summary, up to the flag, if and only if the records are predictable. */
  lemma {:induction false} DryRunPredicts(users: set<string>, t: Table, records: seq<Record>)
    ensures Tally(|records|, Outcomes(users, t, records), false).(dryRun := true)
            == Tally(|records|, DryOutcomes(records), true)
            <==> Predictable(users, t, records)
  {
    OutcomesPredicted(users, t, records);
    OutcomesFollow(users, t, records);
    CountsCompare(Outcomes(users, t, records), DryOutcomes(records));
    TallyCountsImported(|records|, Outcomes(users, t, records), false);
    TallyCountsImported(|records|, DryOutcomes(records), true);
    TallyFlag(|records|, Outcomes(users, t, records));
  }
}
