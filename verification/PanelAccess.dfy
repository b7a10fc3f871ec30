/** What panels were last told against what subscriptions grant, over every run. */
module PanelAccess {
  import opened Wrappers
  import opened Tables
  import opened Adapters
  import opened Lifecycle
  import opened Services
  import opened Access
  import opened AccessRuns
  import opened AccessTheorems
  import opened Expiry
  import opened Renewal

  /** A row that is active on a panel: its last synchronisation was accepted there. */
  predicate OnPanel(b: Binding) {
    b.status == Active && b.adapter == Some(Xui)
  }

  lemma {:induction false} TruncateGrows(x: int, y: int)
    requires x + 2 * MILLISECOND <= y
    ensures Truncate(x, MILLISECOND) < Truncate(y, MILLISECOND)
  {
    if x >= 0 {
      assert (x + MILLISECOND) / MILLISECOND == x / MILLISECOND + 1;
    } else if y < 0 {
      assert (-y + MILLISECOND) / MILLISECOND == (-y) / MILLISECOND + 1;
    }
  }

  /** A later end date is a later expiry on the panel. */
  lemma {:induction false} LaterEndsLater(a: int, b: int)
    ensures PanelExpiry(a, ZONE_OFFSET) < PanelExpiry(b, ZONE_OFFSET) <==> a < b
  {
    if a < b {
      assert EndOfDay(a, ZONE_OFFSET) + DAY <= EndOfDay(b, ZONE_OFFSET);
      TruncateGrows(EndOfDay(a, ZONE_OFFSET), EndOfDay(b, ZONE_OFFSET));
    } else if b < a {
      assert EndOfDay(b, ZONE_OFFSET) + DAY <= EndOfDay(a, ZONE_OFFSET);
      TruncateGrows(EndOfDay(b, ZONE_OFFSET), EndOfDay(a, ZONE_OFFSET));
    }
  }

  /** A panel told an earlier end date admits the client only while the later one is in force. */
  lemma {:induction false} EarlierIsSafe(told: int, endsAt: int, milliseconds: int)
    requires told <= endsAt
    ensures PanelExpiry(told, ZONE_OFFSET) <= PanelExpiry(endsAt, ZONE_OFFSET)
    ensures EndOfDay(told, ZONE_OFFSET) >= 0 && milliseconds <= PanelExpiry(told, ZONE_OFFSET)
            ==> InForce(endsAt, ZONE_OFFSET, milliseconds)
  {
    LaterEndsLater(endsAt, told);
    if EndOfDay(told, ZONE_OFFSET) >= 0 && milliseconds <= PanelExpiry(told, ZONE_OFFSET) {
      PanelAgreesFromTheEpochOn(told, ZONE_OFFSET);
      assert InForce(told, ZONE_OFFSET, milliseconds);
    }
  }

  lemma {:induction false} PanelRowIsTold(s: State, i: nat)
    requires Consistent(s) && i < |s.engine.bindings| && OnPanel(s.engine.bindings[i])
    ensures ToldItsOwn(s.engine.bindings[i]) && ToldWithin(s.catalog, s.engine.bindings[i])
  {
    assert RowOk(s.catalog, |s.engine.servers|, s.engine.now, s.engine.bindings[i]);
  }

  /** Whatever else happened, no panel lets a client in for longer than the subscription lasts: over every run the
      expiry an active panel row was told is at most that of its subscription's present end date, so (for end dates
      from 1970 on) the subscription is in force whenever the panel admits the client. */
  lemma {:induction false} PanelNeverOutlivesSubscription(w: World, s: State, steps: seq<Step>, i: nat,
                                                          milliseconds: int)
    requires Consistent(s) && i < |Run(w, s, steps).engine.bindings| && OnPanel(Run(w, s, steps).engine.bindings[i])
    ensures var s' := Run(w, s, steps); var b := s'.engine.bindings[i];
      && b.told.Some? && b.subscription == Some(b.told.value.subscription)
      && b.told.value.subscription < |s'.catalog.subscriptions|
      && var told, endsAt := b.told.value.endsAt, s'.catalog.subscriptions[b.told.value.subscription].endsAt;
        && PanelExpiry(told, ZONE_OFFSET) <= PanelExpiry(endsAt, ZONE_OFFSET)
        && (EndOfDay(told, ZONE_OFFSET) >= 0 && milliseconds <= PanelExpiry(told, ZONE_OFFSET)
            ==> InForce(endsAt, ZONE_OFFSET, milliseconds))
  {
    RunAdvances(w, s, steps);
    var s' := Run(w, s, steps);
    PanelRowIsTold(s', i);
    var told := s'.engine.bindings[i].told.value;
    EarlierIsSafe(told.endsAt, s'.catalog.subscriptions[told.subscription].endsAt, milliseconds);
  }

  // ----- How far a panel lags behind -----

  /** The end date is what row `i` was told, renewed by these grants. */
  ghost predicate Lags(s: State, i: nat, grants: seq<Grant>) {
    var bs, subscriptions := s.engine.bindings, s.catalog.subscriptions;
    i < |bs| && bs[i].told.Some? ==>
      && bs[i].told.value.subscription < |subscriptions|
      && subscriptions[bs[i].told.value.subscription].endsAt == RenewAll(bs[i].told.value.endsAt, grants)
  }

  /** A step in which row `i` appears or is told another expiry. */
  predicate Retold(s: State, s': State, i: nat) {
    i < |s'.engine.bindings| && (i < |s.engine.bindings| ==> s'.engine.bindings[i].told != s.engine.bindings[i].told)
  }

  /** The grants a step makes to the subscription that row `i` was told about. */
  function GrantsBehind(s: State, step: Step, i: nat): seq<Grant> {
    var bs := s.engine.bindings;
    if i < |bs| && bs[i].told.Some? && bs[i].told.value.subscription < |s.catalog.subscriptions|
    then GrantOf(s, step, bs[i].told.value.subscription)
    else []
  }

  /** The grants made since row `i` was last told an expiry, `grants` having been made before the run. */
  function Pending(w: World, s: State, steps: seq<Step>, i: nat, grants: seq<Grant>): seq<Grant>
    requires Wired(s.catalog, s.engine)
    decreases |steps|
  {
    if steps == [] then grants
    else
      var s1 := Apply(w, s, steps[0]);
      Pending(w, s1, steps[1..], i, if Retold(s, s1, i) then [] else grants + GrantsBehind(s, steps[0], i))
  }

  lemma {:induction false} StepLags(w: World, s: State, step: Step, i: nat, grants: seq<Grant>)
    requires Consistent(s) && Lags(s, i, grants)
    ensures var s1 := Apply(w, s, step); Lags(s1, i, if Retold(s, s1, i) then [] else grants + GrantsBehind(s, step, i))
  {
    var s1 := Apply(w, s, step);
    StepAdvances(w, s, step);
    assert TellsTruly(s1.catalog, s.engine.bindings, s1.engine.bindings);
    if i < |s1.engine.bindings| && s1.engine.bindings[i].told.Some? && !Retold(s, s1, i) {
      var k := s.engine.bindings[i].told.value.subscription;
      StepRenews(w, s, step, k);
      RenewAllSplits(s.engine.bindings[i].told.value.endsAt, grants, GrantOf(s, step, k));
    }
  }

  lemma {:induction false} RunLags(w: World, s: State, steps: seq<Step>, i: nat, grants: seq<Grant>)
    requires Consistent(s) && Lags(s, i, grants)
    ensures Lags(Run(w, s, steps), i, Pending(w, s, steps, i, grants))
    decreases |steps|
  {
    if steps != [] {
      var s1 := Apply(w, s, steps[0]);
      StepLags(w, s, steps[0], i, grants);
      StepAdvances(w, s, steps[0]);
      RunLags(w, s1, steps[1..], i, if Retold(s, s1, i) then [] else grants + GrantsBehind(s, steps[0], i));
    }
  }

  ghost predicate AllPositive(grants: seq<Grant>) {
    forall g | g in grants :: g.days > 0
  }

  lemma {:induction false} PendingPositive(w: World, s: State, steps: seq<Step>, i: nat, grants: seq<Grant>)
    requires Wired(s.catalog, s.engine) && AllPositive(grants)
    ensures AllPositive(Pending(w, s, steps, i, grants))
    decreases |steps|
  {
    if steps != [] {
      var s1 := Apply(w, s, steps[0]);
      GrantsPositive(s, steps[0], i);
      PendingPositive(w, s1, steps[1..], i, if Retold(s, s1, i) then [] else grants + GrantsBehind(s, steps[0], i));
    }
  }

  lemma {:induction false} GrantsPositive(s: State, step: Step, i: nat)
    ensures AllPositive(GrantsBehind(s, step, i))
  {
  }

  lemma {:induction false} GrantsMoveTheEnd(endsAt: int, grants: seq<Grant>)
    requires AllPositive(grants)
    ensures RenewAll(endsAt, grants) == endsAt <==> grants == []
  {
    NoDayIsLost(endsAt, grants);
    if grants != [] {
      assert grants[0] in grants;
    }
  }

  /** Over every run from a state in which row `i` is absent or up to date: if the row is active on a panel at the
      end, the subscription's end date is what the panel was told renewed by exactly the grants made since, and
      the panel's expiry is that of the present end date if and only if there were none. */
  lemma {:induction false} PanelLagsByPendingGrants(w: World, s: State, steps: seq<Step>, i: nat)
    requires Consistent(s)
      && (i < |s.engine.bindings| && s.engine.bindings[i].told.Some? ==> UpToDate(s.catalog, s.engine.bindings[i]))
    requires i < |Run(w, s, steps).engine.bindings| && OnPanel(Run(w, s, steps).engine.bindings[i])
    ensures var s' := Run(w, s, steps); var b := s'.engine.bindings[i];
      && b.told.Some? && b.told.value.subscription < |s'.catalog.subscriptions|
      && var told, endsAt := b.told.value.endsAt, s'.catalog.subscriptions[b.told.value.subscription].endsAt;
        && endsAt == RenewAll(told, Pending(w, s, steps, i, []))
        && (PanelExpiry(told, ZONE_OFFSET) == PanelExpiry(endsAt, ZONE_OFFSET) <==> Pending(w, s, steps, i, []) == [])
  {
    RunAdvances(w, s, steps);
    RunLags(w, s, steps, i, []);
    PendingPositive(w, s, steps, i, []);
    var s' := Run(w, s, steps);
    PanelRowIsTold(s', i);
    var told := s'.engine.bindings[i].told.value;
    var endsAt := s'.catalog.subscriptions[told.subscription].endsAt;
    GrantsMoveTheEnd(told.endsAt, Pending(w, s, steps, i, []));
    LaterEndsLater(told.endsAt, endsAt);
    LaterEndsLater(endsAt, told.endsAt);
  }

  lemma {:induction false} ExtensionMovesTheEnd(w: World, s: State, k: nat, days: int)
    requires Wired(s.catalog, s.engine) && k < |s.catalog.subscriptions| && days > 0
    ensures var s' := Apply(w, s, ExtendStep(k, days));
      && s'.engine == s.engine && s'.operations == s.operations
        && |s'.catalog.subscriptions| == |s.catalog.subscriptions|
      && s.catalog.subscriptions[k].endsAt < s'.catalog.subscriptions[k].endsAt
  {
  }

  /** An extension schedules no synchronisation: every panel row of the subscription is left behind. */
  lemma {:induction false} ExtensionLeavesPanelBehind(w: World, s: State, k: nat, days: int, i: nat)
    requires Consistent(s) && k < |s.catalog.subscriptions| && days > 0
    requires i < |s.engine.bindings| && OnPanel(s.engine.bindings[i]) && s.engine.bindings[i].subscription == Some(k)
    ensures var s' := Apply(w, s, ExtendStep(k, days));
      && s'.engine == s.engine && s'.operations == s.operations && k < |s'.catalog.subscriptions|
      && s.engine.bindings[i].told.Some?
      && PanelExpiry(s.engine.bindings[i].told.value.endsAt, ZONE_OFFSET)
           < PanelExpiry(s'.catalog.subscriptions[k].endsAt, ZONE_OFFSET)
  {
    PanelRowIsTold(s, i);
    var s' := Apply(w, s, ExtendStep(k, days));
    ExtensionMovesTheEnd(w, s, k, days);
    LaterEndsLater(s.engine.bindings[i].told.value.endsAt, s'.catalog.subscriptions[k].endsAt);
  }
}
