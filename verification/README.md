# Access lifecycle of the INFINDA backend

A Dafny model of the Django backend under `apps/api`, with proofs about it. The model follows the
services of seven applications: provisioning, subscription, devices, servers, support, telegram
and the legacy import of payments.

## How it is built

- **Specifications.** `Provisioning.dfy`, `Devices.dfy`, `Routes.dfy`, `Feed.dfy`, `Services.dfy`, `Billing.dfy` and
  `Support.dfy` say, as functions on values, what one service call does to the rows in `Tables.dfy`.
- **The outside world.** Every call to a panel, payment provider or messenger is an arbitrary
  answer: a result, an adapter error, or any other exception (`Adapters.World` for the panels, arguments elsewhere).
  Each panel call may take any time; the clock only moves forwards.
- **Tables that change in place.** `Backend.Database`, `PaymentDesk.Desk`, `SupportDesk.Conversation` and
  `LegacyImport.PaymentTable` are objects whose methods assign fields and run the source's loops. Each
  method is proved equal to its specification on the whole state, refusals and roll-backs included.
  `Dispatch.dfy` maps every step of the transition systems to one such call and every run to a sequence of calls.
- **Runs.** `Access.dfy`, `Billing.dfy` and `Support.dfy` define steps and runs; `AccessRuns.dfy` has the invariant
  of the database; `AccessTheorems.dfy`, `ServedLinks.dfy`, `PanelAccess.dfy`, `HeaderKeys.dfy`,
  `BillingTheorems.dfy`, `Entitlement.dfy` and `Support.dfy` hold what is proved of every run from any state with the invariant.
- **Outcomes.** The `*Outcomes.dfy` files pin every operation from its inputs alone: the tables before the call, the
  arguments, the clock and the answers of the outside decide exactly when the call is refused or fails, with which
  error, and every row it leaves. They are stated without the functions that compute the result.
- **Arithmetic and text.** `Renewal.dfy`, `Expiry.dfy`, `VlessLink.dfy`, `Quoting.dfy`, `Text.dfy`.

`dafny verify dfyconfig.toml` checks everything.

## What turned out false, and when it holds

- *The expiry computed for the panel is the end of the subscription.* Only from 1970 on: `int()`
  truncates toward zero, so for an end date whose day ends before the epoch the panel admits one millisecond more (`Expiry.PanelAgreesFromTheEpochOn`).
- *A device is found again by the key that touched it.* The header is trimmed and then cut at 64 characters, and
  the touch trims again; if the cut leaves a blank at the end, the stored key is shorter than the one that lookups
  use (`HeaderKeys.KeyFollowsDevice`).
- *The dry run predicts the payment import.* Exactly if every supported record finds its user and brings a new
  key (`LegacyImport.DryRunPredicts`).
- *A payment activates its plan once.* Not when an operator cancels a paid payment and marks it paid again
  (`BillingTheorems.OverrideRepeatsActivation`). A paid payment stays paid exactly if no override of that payment
  takes it elsewhere (`BillingTheorems.StaysPaidUnlessDemoted`), and its activations are its demotions from paid,
  plus one if it ends paid, minus one if it began paid (`BillingTheorems.EdgesBalanceDemotions`,
  `BillingTheorems.ActivationsMatchEdges`, `BillingTheorems.ActivatedAtMostOnce`).
- *The panel's expiry follows the subscription.* It never runs ahead, but it lags by exactly the grants made since
  the last accepted synchronisation; an extension schedules none (`PanelAccess.PanelLagsByPendingGrants`).

## Model

| member | source | states |
|---|---|---|
| `AccessTheorems.RevocationIsFinal` | apps/api/apps/devices/services.py:47-66 | over every later run of touches, repairs, syncs, activations, revokes, health checks and operator edits, with any adapter outcomes: a revoked device row is frozen, it gains no binding, none of its bindings turns active, and no request resolves to it |
| `AccessTheorems.RevokedIsNeverServed` | apps/api/apps/subscription/services.py:229-295 | over every later run no public view resolves to a revoked device, and each provisioned link it shows belongs to a row of another device |
| `ServedLinks.ServedLinkNamesItsDevice` | apps/api/apps/provisioning/adapters.py:268-309 | after every run, reading a served panel link back gives the client email of the row that serves it and of no other row in the table |
| `ServedLinks.RevokedClientIsNeverServed` | apps/api/apps/subscription/services.py:251-279 | after every run no panel link in a view carries, when read back, the email of any client of a revoked device |
| `ServedLinks.FlaggedIsServed` | apps/api/apps/subscription/services.py:266-279 | a route is flagged as provisioned only with the link of an active row of the resolved device and of this subscription |
| `AccessTheorems.RevokeTakesEffect` | apps/api/apps/devices/views.py:45-61 | a revoke marks the device at once, whatever the panel answers to the revoke operations |
| `Operations.ExecuteNoRevival` | apps/api/apps/provisioning/services.py:398-524 | no operation moves a revoked device's row to active or adds one, unless a sync or repair names that device |
| `Schedule.BatchNoRevival` | apps/api/apps/provisioning/services.py:527-615 | the same for a whole batch over the managed routes |
| `AccessTheorems.IdentityIsStable` | apps/api/apps/provisioning/services.py:156-204 | over every run a row keeps its device, route, non-empty UUID and email, and its first provisioning time; emails of different rows differ |
| `AccessTheorems.ClientEmailInjective` | apps/api/apps/provisioning/services.py:152-153 | the client email determines subscription number, device number and route code |
| `Adapters.SyncKeepsIdentity` | apps/api/apps/provisioning/adapters.py:82-109 | no adapter replaces a UUID and email that are filled in |
| `AccessTheorems.LifecycleHolds` | apps/api/apps/provisioning/models.py:223-225 | after every run: one row per device and route; active rows have both times in order, no revocation time, no error, and (panel rows) a link built for their own client; revoked rows a revocation time and no error; failed rows an error; every logged operation is finished |
| `Lifecycle.SyncDeviceKeeps` | apps/api/apps/provisioning/services.py:482-496 | one round of the device loop keeps that invariant and writes at most the row of its device and route |
| `Lifecycle.SyncBindingShape` | apps/api/apps/provisioning/services.py:297-348 | one adapter call rewrites one row: active with the reported link, a panel having been told the present end date, or failed with the reported error; key and identity stay |
| `Adapters.SyncResult` | apps/api/apps/provisioning/adapters.py:478-499 | a panel's answer carries a link built for the client of the row |
| `Lifecycle.SyncDevicesKeep` | apps/api/apps/provisioning/services.py:481-496 | the whole loop keeps it and stays with its devices and its route |
| `Lifecycle.SyncDevicesReport` | apps/api/apps/provisioning/services.py:481-496 | after the loop the row of every target is as the item reported for it says, in order |
| `Lifecycle.SyncDevicesSpare` | apps/api/apps/provisioning/services.py:481-496 | a device and route outside the loop keep their row, or its absence, exactly |
| `Operations.ExecuteKeeps` | apps/api/apps/provisioning/services.py:398-524 | every operation ends in exactly one terminal status with its finishing time, keeps the row invariant and the status cache, and brings no server back up |
| `Operations.RevokeReportsFaithfully` | apps/api/apps/provisioning/services.py:446-468 | past the gates a revoke succeeds if and only if the row ends revoked, at the finishing time; otherwise row and operation show the same error; without device or row it is skipped |
| `Operations.StoppedChangesNoBinding` | apps/api/apps/provisioning/services.py:399-453 | an operation stopped at a gate or skipped changes no row |
| `Operations.ExecuteConfined` | apps/api/apps/provisioning/services.py:398-524 | no operation writes or adds a row of another route or of a device it does not target |
| `Schedule.BatchKeeps` | apps/api/apps/provisioning/services.py:527-615 | a batch returns one finished operation per managed route, in order, and keeps everything operations keep |
| `Schedule.BatchDelivers` | apps/api/apps/provisioning/services.py:587-615 | after a repair over different routes the link that each succeeded operation reported is the one stored, later routes included |
| `ServerCache.GatesSound` | apps/api/apps/provisioning/services.py:407-444 | an adapter loop starts only with an enabled profile, a server that is active or degraded, a heartbeat under 300 seconds old or just refreshed, and a subscription |
| `ServerCache.RefreshKeepsCache` | apps/api/apps/provisioning/services.py:38-97 | a health check touches one server, stamps it now, and leaves it up only if its profile is enabled |
| `AccessTheorems.DownStaysDown` | apps/api/apps/provisioning/services.py:418-444 | over every run without an explicit health check a server that is offline or in maintenance stays so |
| `AccessTheorems.CacheShowsLatest` | apps/api/apps/servers/services.py:4-22 | after every run a server with snapshots shows the status and heartbeat of the latest one |
| `AccessRuns.StepAdvances` | apps/api/apps/provisioning/services.py:398-615 | every service call, operator edit or pause keeps the invariant of the whole database, moves it only forwards (end dates never move back), and tells panels present end dates only |
| `AccessRuns.RunAdvances` | apps/api/apps/provisioning/services.py:398-615 | the invariant holds after every run from a state that has it |
| `AccessRuns.EmptyIsConsistent` | apps/api/apps/subscription/services.py:35-45 | a database with servers and the shipped route lists but no users has the invariant |
| `CallOutcomes.HealthFollowsAnswer` | apps/api/apps/provisioning/services.py:38-97 | a health check puts a server with a disabled profile into maintenance without asking the panel; otherwise the server runs exactly if the panel reports itself available and is offline in every other case; the code is the one reported or raised, and the check is recorded |
| `CallOutcomes.GatesDecide` | apps/api/apps/provisioning/services.py:407-444 | the gates open exactly for an enabled profile, a server that is active or degraded and was heard from under 300 seconds ago or answers now, and an operation with a subscription; otherwise the first reason that applies stops it, with its status and error |
| `CallOutcomes.SyncFollowsAnswer` | apps/api/apps/provisioning/services.py:297-348 | a synchronisation succeeds exactly if the adapter does; otherwise item and row show the code raised, or a runtime error for a crash, and the row's server ends offline; the row, the clock and everything else are as stated |
| `CallOutcomes.RevokeFollowsAnswer` | apps/api/apps/provisioning/services.py:351-395 | a revoke succeeds exactly if the panel answers so and has an email to go by; otherwise item and row show the code raised, a runtime error for a crash, or the missing email, and the row's server ends offline |
| `CallOutcomes.AnswerContents` | apps/api/apps/provisioning/adapters.py:553-580 | which identity, inbound and link each adapter reports |
| `CallOutcomes.PanelLink` | apps/api/apps/provisioning/adapters.py:478-499 | a panel row gets the link for its inbound, host, UUID and email, the host being the panel's or else the server's |
| `CallOutcomes.EnsuredRowIs` | apps/api/apps/provisioning/services.py:156-204 | the row handed to an adapter: a new one with a fresh UUID and the client's email, or the stored one brought up to date with its identity kept |
| `CallOutcomes.ClientEmailIs` | apps/api/apps/provisioning/services.py:152-153 | the format of a client's email |
| `OperationOutcomes.ActiveListed` | apps/api/apps/provisioning/services.py:141-145 | the devices of a subscription are exactly those its user has not revoked, each once, by last-seen time and then creation time, newest first |
| `OperationOutcomes.ActiveListedOnce` | apps/api/apps/provisioning/services.py:141-145 | there is only one such list |
| `OperationOutcomes.StoppedForItsReason` | apps/api/apps/provisioning/services.py:399-444 | an operation without route or server, or one that does not meet the conditions of the gates, changes no row, makes no item and reports the first reason |
| `OperationOutcomes.LoopFollowsAnswers` | apps/api/apps/provisioning/services.py:481-496 | the loop makes one call per device in order; each item says what the adapter answered to its call, and the route's server ends offline exactly if a call failed, all other servers unchanged |
| `OperationOutcomes.SyncCoversEveryDevice` | apps/api/apps/provisioning/services.py:470-524 | past the gates an operation without a device makes one call and one item for every device the subscriber has not revoked, newest first; it is skipped exactly if there is none, succeeds exactly if every one ends with an active row on the route, and otherwise fails with the error of the first failing device |
| `OperationOutcomes.AimedSyncFollowsAnswer` | apps/api/apps/provisioning/services.py:470-524 | an operation aimed at one device makes one call, for that device, and succeeds, with the row active, exactly if the adapter does |
| `OperationOutcomes.FailedSyncTakesServerDown` | apps/api/apps/provisioning/services.py:229-234 | a failed operation leaves the server of its route offline; its calls change no other server |
| `OperationOutcomes.RevokeOperationFollowsAnswer` | apps/api/apps/provisioning/services.py:446-468 | past the gates a revoke operation for a device with a row ends as the panel answers: row revoked at the finishing time, or row in error with the reported code and its server offline; no other row changes |
| `OperationOutcomes.NothingToRevoke` | apps/api/apps/provisioning/services.py:446-468 | without a device, or without a row of it on the route, a revoke operation is skipped and changes no row |
| `OperationOutcomes.OperationNamesAdapter` | apps/api/apps/provisioning/models.py:132-157 | every operation is stamped with the time it ended and the adapter of its server's profile |
| `BatchOutcomes.InOrderSorts` | apps/api/apps/provisioning/services.py:133-138 | the rows of a subscription in order: the same rows, by position and then by number |
| `BatchOutcomes.ManagedAre` | apps/api/apps/provisioning/services.py:133-138 | the managed routes are those of exactly the rows that are linked to one, in the order of the rows |
| `BatchOutcomes.ScheduleAddresses` | apps/api/apps/provisioning/services.py:527-615 | a scheduling call logs one operation per linked row, in order of position, each for the subscription's user, its route and the server that hosts it; they are executed one after the other, each on what the one before left |
| `TouchOutcomes.TouchRefusedExactly` | apps/api/apps/devices/services.py:89-168 | a touch without an address is refused; any other is refused exactly if no active device of the user has the normalised key or the address and the user already holds as many devices as allowed |
| `TouchOutcomes.TouchWritesItsDevice` | apps/api/apps/devices/services.py:96-187 | an accepted touch writes the newest active device with the key, or else the newest one at the address, and adds a row exactly if there is neither; the row carries the request's data, trimmed and with the stated defaults, and nothing else changes |
| `TouchOutcomes.ResolveRecognises` | apps/api/apps/subscription/services.py:198-226 | a request is resolved to the newest active device of the subscriber with its key, or else to the newest one at its address, and to none exactly if there is neither |
| `TouchOutcomes.KeyNormalised` | apps/api/apps/devices/services.py:99 | the key that counts is the request's without the blanks at both ends, cut to 64 characters |
| `ServiceOutcomes.TouchRefusedFor` | apps/api/apps/subscription/services.py:314-379 | a touch of a subscription is refused exactly if the end date has passed or the device table refuses it, with the error of the first of these reasons |
| `ServiceOutcomes.TouchStepFollows` | apps/api/apps/subscription/services.py:314-379 | a refused touch changes nothing; an accepted one writes the device table and then repairs the touched device on every linked route |
| `ServiceOutcomes.RepairReachesEveryRoute` | apps/api/apps/devices/views.py:89-104 | a device the user still holds is repaired on every linked route of the user's subscription; any other call changes nothing |
| `ServiceOutcomes.RevokeReachesEveryRoute` | apps/api/apps/devices/views.py:45-61 | a device the user still holds is stamped with time and trimmed reason and revoked on every linked route; any other call changes nothing |
| `ServiceOutcomes.ManualSyncReachesEveryRoute` | apps/api/apps/provisioning/services.py:618-622 | a manual synchronisation runs over every linked route, for all devices |
| `ServiceOutcomes.PlansOnOffer` | apps/api/apps/subscription/services.py:46-79 | the four plans, their days and their device limits |
| `ServiceOutcomes.ReconciledComesWith` | apps/api/apps/subscription/services.py:382-413 | after a reconciliation each definition has one row, at its position, with the title and link of the catalogue route of its code, and there is no other row |
| `ServiceOutcomes.ActivationTakesPlan` | apps/api/apps/subscription/services.py:465-512 | a plan is activated exactly if it is on offer; the user's subscription, new or not, then has the plan's code and limit, starts today, lasts the plan's days from its end date or today, counts as paid, comes with the paid routes and is synchronised on each; no other subscription changes |
| `ServiceOutcomes.ActivationStepFollows` | apps/api/apps/subscription/services.py:465-512 | as a step of a run, the activation of a plan that is not on offer changes nothing |
| `ServiceOutcomes.TrialStartsOnce` | apps/api/apps/subscription/services.py:416-462 | a trial starts exactly for a user without a subscription: three days, three devices, the trial routes, a synchronisation on each; no other subscription changes |
| `ServiceOutcomes.ExtensionMovesEndDate` | apps/api/apps/subscription/services.py:539-547 | an extension is refused unless its days are positive; otherwise it moves the end date from itself or today and changes nothing else |
| `ServiceOutcomes.StatusFollows` | apps/api/apps/subscription/services.py:106-130 | trial and paid are shown up to the end date; afterwards an open payment decides between pending and expired |
| `ServiceOutcomes.TodayIs` | apps/api/config/settings.py:154 | a day begins at midnight five hours ahead of UTC |
| `PaymentOutcomes.CallbackNeedsPayment` | apps/api/apps/subscription/services.py:690-702 | a callback without an id, or for an id that no payment has, is refused |
| `PaymentOutcomes.CallbackRefusedExactly` | apps/api/apps/subscription/services.py:703-726 | a callback for a known payment is refused exactly if a field of its payload is garbled or disagrees with that payment, or it confirms an unpaid payment whose plan is not on offer; the error is that of the first such field, in the order payment, user, plan |
| `PaymentOutcomes.AcceptedCallbackSettles` | apps/api/apps/subscription/services.py:714-734 | an accepted confirmation leaves the payment paid, an accepted cancellation or chargeback cancels it if it was awaited, and any other keeps its state; no other payment changes, and without a new payment neither does history or access |
| `PaymentOutcomes.ConfirmationGrantsPlan` | apps/api/apps/subscription/services.py:555-599 | the confirmation of an unpaid payment gives its user the plan, synchronises it, and logs one event with the subscription's new dates |
| `PaymentOutcomes.OverrideSettles` | apps/api/apps/subscription/views.py:122-128 | what an operator's status leads to, for every old and new status |
| `PaymentOutcomes.OverrideGrantsPlan` | apps/api/apps/subscription/views.py:122-128 | marking an unpaid payment paid by hand has the same effect as a confirmation |
| `PaymentOutcomes.CheckoutAddsPayment` | apps/api/apps/subscription/services.py:633-681 | a checkout adds one awaited payment for a plan on offer, unless the user has one open for it; it fails with the provider, and carries the provider's id, link and status exactly if the provider created its side under a new id |
| `PaymentOutcomes.TrialLogged` | apps/api/apps/subscription/services.py:416-462 | a trial that starts is logged once, with its dates; one that does not is not |
| `Backend.Database.CheckServerHealth` | apps/api/apps/provisioning/services.py:38-97 | the method equals the specification on the whole engine state, for every adapter outcome |
| `Backend.Database.GetProfile` | apps/api/apps/provisioning/services.py:22-30 | a missing profile is created as an enabled mock profile, an existing one is left alone |
| `Backend.Database.CreateSnapshot` | apps/api/apps/servers/services.py:4-22 | the snapshot is appended and copied onto the server, status and time together |
| `Backend.Database.EnsureBinding` | apps/api/apps/provisioning/services.py:156-204 | get-or-create followed by field updates leaves exactly the specified row and nothing else changed |
| `Backend.Database.MarkBindingFailed` | apps/api/apps/provisioning/services.py:207-226 | the row's status, adapter and error become the given ones; all other rows and fields stay |
| `Backend.Database.MarkBindingSynced` | apps/api/apps/provisioning/services.py:237-274 | the row takes the adapter's result; the first provisioning time is set once |
| `Backend.Database.MarkBindingRevoked` | apps/api/apps/provisioning/services.py:277-294 | the row becomes revoked now, without error |
| `Backend.Database.SyncOneBinding` | apps/api/apps/provisioning/services.py:297-348 | one adapter call and its write-back: success, adapter error and crash |
| `Backend.Database.RevokeOneBinding` | apps/api/apps/provisioning/services.py:351-395 | the same for a revocation |
| `Backend.Database.MarkFinished` | apps/api/apps/provisioning/models.py:132-157 | the operation gets status, results, error, adapter and finishing time; the log is otherwise unchanged |
| `Backend.Database.SyncTargets` | apps/api/apps/provisioning/services.py:481-496 | the device loop computes the specified engine state and result list |
| `Backend.Database.FinishSync` | apps/api/apps/provisioning/services.py:498-506 | the verdict from the list of failures is the specified one |
| `Backend.Database.PassOrFinish` | apps/api/apps/provisioning/services.py:407-444 | the gates in order; a failed gate finishes the operation with its own status and error |
| `Backend.Database.ExecuteOperation` | apps/api/apps/provisioning/services.py:398-524 | the operation as a whole equals the specification on engine and log |
| `Backend.Database.ScheduleOver` | apps/api/apps/provisioning/services.py:587-615 | the loop over routes logs and executes one operation each; the log grows by exactly these |
| `Backend.Database.ScheduleBatch` | apps/api/apps/provisioning/services.py:527-553 | the batch runs over the managed routes by position; state and returned operations are the specified ones |
| `Backend.Database.TouchDevice` | apps/api/apps/devices/services.py:79-187 | match by key, else by address, else create within the limit: the specified table or the specified error with nothing changed |
| `Backend.Database.TouchSubscription` | apps/api/apps/subscription/services.py:314-379 | a refused touch changes nothing; an accepted one binds the device and repairs it on every managed route |
| `Backend.Database.RevokeUserDevice` | apps/api/apps/devices/views.py:45-61 | refused for a device that is not the user's or already revoked; otherwise the specified state |
| `Backend.Database.RepairUserDevice` | apps/api/apps/devices/views.py:89-104 | the same for a repair |
| `Backend.Database.EnsureRoutes` | apps/api/apps/subscription/services.py:382-413 | update-or-create pass and deletion equal the specified reconciliation |
| `Backend.Database.ActivatePlan` | apps/api/apps/subscription/services.py:465-512 | an unknown plan changes nothing; otherwise subscription, routes and sync operations are the specified ones |
| `Backend.Database.RenewSubscription` | apps/api/apps/subscription/services.py:465-501 | a missing subscription is created; an existing one is renewed from its end date or today, whichever is later, and starts today |
| `Backend.Database.ExtendByDays` | apps/api/apps/subscription/services.py:538-547 | refused unless the number of days is positive |
| `Backend.Database.CreateTrial` | apps/api/apps/subscription/services.py:416-462 | a user with a subscription is left alone; otherwise the specified trial |
| `Backend.Database.RouteAccessSnapshot` | apps/api/apps/subscription/services.py:229-295 | the dictionary-based view equals the row-by-row specification |
| `Backend.Database.PublicFeed` | apps/api/apps/subscription/services.py:298-311 | the feed text equals the specification |
| `Loops.CollectLinks` | apps/api/apps/subscription/services.py:251-264 | the dictionary built with setdefault holds exactly the personal links of the device |
| `Loops.ShowRoute` | apps/api/apps/subscription/services.py:266-288 | personal link first, else the catalogue link, else the row's own; flagged in the first case only |
| `Loops.ShowRoutes` | apps/api/apps/subscription/services.py:266-288 | the loop yields the specified entries and counts exactly the flagged ones |
| `Dispatch.Perform` | apps/api/apps/provisioning/services.py:527-615 | every step of the access transition system is one call on the mutable tables |
| `Dispatch.PerformAll` | apps/api/apps/provisioning/services.py:527-615 | any sequence of calls leaves the tables as the run of the transition system says |
| `Dispatch.PerformAllOnDesk` | apps/api/apps/subscription/services.py:556-734 | the same for calls on the payment tables |
| `Dispatch.PerformAllOnConversation` | apps/api/apps/support/services.py:112-440 | the same for calls on a conversation |
| `Dispatch.PerformOnDesk` | apps/api/apps/subscription/services.py:556-734 | every ledger step is one call on the payment tables |
| `Dispatch.PerformOnConversation` | apps/api/apps/support/services.py:112-440 | every conversation step is one call on the conversation object and keeps its invariant |
| `Devices.TouchThenResolve` | apps/api/apps/devices/services.py:104-156 | after any accepted touch its normalised key, or none, and its address resolve to the touched device, even on equal last-seen times |
| `Devices.TouchShape` | apps/api/apps/devices/services.py:104-187 | a touch changes one row at most, active, seen now at the request's address, with the normalised key if there is one |
| `Devices.TouchKeepsKeys` | apps/api/apps/devices/services.py:98-187 | a touch keeps non-empty keys of active devices distinct although the address fallback rewrites keys |
| `Devices.TouchRespectsLimit` | apps/api/apps/devices/services.py:158-187 | a touch takes the user's active count to at most the larger of the old count and the limit, and no other user's count changes |
| `Devices.RevokeLowersCount` | apps/api/apps/devices/services.py:47-56 | a revoke lowers the user's active count by one |
| `Devices.ResolvedIsActive` | apps/api/apps/subscription/services.py:198-226 | resolution finds only active devices of the subscriber |
| `Devices.ByKeyPicks` | apps/api/apps/subscription/services.py:204-216 | the lookup by key finds an active device with the key if and only if the user has one |
| `Devices.ByIpPicks` | apps/api/apps/subscription/services.py:217-226 | the lookup by address finds the most recently seen active device at it, ties included |
| `AccessTheorems.KeysStayDistinct` | apps/api/apps/devices/services.py:98-187 | over every run non-empty keys of a user's active devices are pairwise distinct |
| `AccessTheorems.LimitNeverExceeded` | apps/api/apps/devices/services.py:158-168 | over every run with any plan changes the active count stays within the largest of the starting count and the limits in force |
| `AccessTheorems.TouchedIsResolved` | apps/api/apps/subscription/services.py:314-379 | after a whole accepted touch, repairs included, its normalised key and address resolve to the touched device |
| `AccessTheorems.TouchFeedsLinks` | apps/api/apps/subscription/services.py:314-379 | in the view after a touch every managed route has an operation of its own, and shows, flagged, the link that operation reported if it succeeded with one |
| `AccessTheorems.RoutesManagedOnce` | apps/api/apps/provisioning/services.py:133-138 | after every run a subscription manages pairwise different routes |
| `AccessTheorems.FeedListsLinks` | apps/api/apps/subscription/services.py:298-311 | splitting the feed at newlines gives the links of the view in order, one each, and nothing more; the provisioned count is the number of flagged entries |
| `Feed.FeedSplits` | apps/api/apps/subscription/services.py:309-311 | joining with newlines and splitting again gives back links without newlines |
| `AccessTheorems.RowsInPositionOrder` | apps/api/apps/provisioning/services.py:133-138 | routes come ordered by position and row number, none lost or repeated |
| `HeaderKeys.KeyFollowsDevice` | apps/api/apps/activity/services.py:21-24 | after a touch, the key taken from a request header finds the device from every address if and only if cutting the trimmed header at 64 characters leaves no blank at the end |
| `HeaderKeys.KeysStayTrimmed` | apps/api/apps/devices/services.py:98-187 | over every run whose touches take their keys from headers the stored keys are trimmed |
| `HeaderKeys.KeyFollowsDeviceAfterRun` | apps/api/apps/activity/services.py:21-24 | hence the same equivalence for the next accepted touch after every such run |
| `HeaderKeys.KeyDecides` | apps/api/apps/subscription/services.py:198-226 | a key that is not trimmed finds nothing, so the address alone decides |
| `HeaderKeys.LongHeaderLosesItsDevice` | apps/api/apps/activity/services.py:21-24 | a concrete header with which the touched device is not found by its key |
| `ViewOutcomes.EntryShows` | apps/api/apps/subscription/services.py:266-288 | an entry shows the personal link of the device if an active row of it with a link exists on the route for this subscription, and is flagged exactly then; otherwise the catalogue link, or the row's own if it is not linked |
| `ViewOutcomes.ViewShows` | apps/api/apps/subscription/services.py:229-295 | a view shows every row of the subscription once, by position, each entry so, for the device the request belongs to, and counts the flagged ones |
| `Renewal.ClosedForm` | apps/api/apps/subscription/services.py:539-547 | after any sequence of grants the end date is the maximum of the old one plus all days and, for each grant, its day plus that and all later days |
| `Renewal.NoDayIsLost` | apps/api/apps/subscription/services.py:539-547 | no granted day is lost |
| `Renewal.SameDayGrants` | apps/api/apps/subscription/services.py:539-547 | grants on one day depend only on their sum, hence not on their order |
| `AccessTheorems.EndDateOverRun` | apps/api/apps/subscription/services.py:465-547 | over every run the end date is the old one renewed by exactly the grants the run made, so it has the closed form |
| `Entitlement.PaidDaysAreGranted` | apps/api/apps/subscription/services.py:556-599 | over every run of callbacks, overrides, checkouts and services the end date of a subscription grows by at least the plan days of all paid events logged for its owner since |
| `Entitlement.PaidDaysFromCreation` | apps/api/apps/subscription/services.py:471-482 | a subscription that the run creates lasts at least from its creation day for the days of all paid events the run logs for its owner |
| `Routes.ReconcileIsExact` | apps/api/apps/subscription/services.py:382-413 | the result has exactly the defined codes, each at its position with its catalogue route's title and link |
| `Routes.ReconcileKeepsIdentity` | apps/api/apps/subscription/services.py:384-409 | a row whose code is still defined keeps its identity; added rows get fresh ones |
| `Routes.ReconcileIdempotent` | apps/api/apps/subscription/services.py:382-413 | a second reconciliation changes nothing |
| `Reconciled.ReconciledApart` | apps/api/apps/subscription/services.py:384-409 | no two reconciled rows are linked to the same catalogue route |
| `Reconciled.ReconciledRoutesAreDistinct` | apps/api/apps/subscription/services.py:382-413 | a reconciled subscription manages pairwise different catalogue routes |
| `Expiry.PanelAgreesFromTheEpochOn` | apps/api/apps/provisioning/adapters.py:442 | panel and subscription agree on every millisecond if and only if the end date's day does not end before 1970 |
| `Expiry.BeforeTheEpochPanelIsLate` | apps/api/apps/provisioning/adapters.py:442 | before 1970 truncation toward zero grants the panel one millisecond too many: a concrete instance in the backend's own zone |
| `Expiry.TouchAdmittedUntilPanelExpiry` | apps/api/apps/subscription/services.py:106-130 | for end dates from 1970 on a touch is admitted exactly until the expiry that a sync for this end date would send |
| `PanelAccess.PanelNeverOutlivesSubscription` | apps/api/apps/provisioning/adapters.py:429-465 | over every run no active panel row was told a later expiry than that of its subscription's present end date, so from 1970 on the subscription is in force whenever the panel admits the client |
| `PanelAccess.PanelLagsByPendingGrants` | apps/api/apps/subscription/services.py:538-547 | over every run the end date is what the panel was last told renewed by exactly the grants made since, and both expiries agree if and only if there were none |
| `PanelAccess.ExtensionLeavesPanelBehind` | apps/api/apps/subscription/services.py:538-547 | an extension schedules nothing and so leaves every active panel row of the subscription with an earlier expiry |
| `VlessLink.BuildParameters` | apps/api/apps/provisioning/adapters.py:289-301 | the query dictionary filled step by step is the specified parameter list |
| `VlessLink.JoinParameters` | apps/api/apps/provisioning/adapters.py:303-307 | the join skips exactly the pairs with a blank value, and a query without blanks loses nothing |
| `VlessLink.BuildConnectionUrl` | apps/api/apps/provisioning/adapters.py:268-309 | the assembled link equals the specification for every inbound |
| `VlessLink.BuiltLinkReadsBack` | apps/api/apps/provisioning/adapters.py:303-309 | splitting and percent-decoding a built link gives back authority, decimal port, ordered query pairs and email, whatever characters they contain |
| `VlessLink.BuiltLinkReadsLeftToRight` | apps/api/apps/provisioning/adapters.py:303-309 | the left-to-right reading gives the same when neither delimiter occurs in UUID or host |
| `VlessLink.BuiltLinkIsOneLine` | apps/api/apps/provisioning/adapters.py:309 | a link breaks the line only if the UUID or the host does |
| `LinkOutcomes.RealityValueIs` | apps/api/apps/provisioning/adapters.py:254-266 | a reality setting: the direct text if it is not blank, or else the nested text or the first nested item that is not blank, trimmed |
| `LinkOutcomes.BuiltLinkSays` | apps/api/apps/provisioning/adapters.py:268-309 | a built link, read back, is addressed to UUID and host, carries the email, has the port of the inbound or 443, and has the seven parameters under their keys, in order, without the ones that have no value: network, security and fingerprint with their defaults, then public key, server name, short id and path |
| `Quoting.UnreservedIsKept` | apps/api/apps/provisioning/adapters.py:303-309 | a string of unreserved characters is left as it is (section 2.3 of RFC 3986) |
| `Quoting.UnquoteQuoted` | apps/api/apps/provisioning/adapters.py:303-309 | percent-decoding undoes percent-encoding of the UTF-8 form of any string (sections 2.1 and 2.3 of RFC 3986) |
| `BillingTheorems.EventsMatchEdges` | apps/api/apps/subscription/services.py:555-599 | over every run, overrides included, a payment gains one history event per transition from not paid to paid |
| `BillingTheorems.PaidUnlessDemoted` | apps/api/apps/subscription/views.py:122-128 | a step leaves a paid payment paid if and only if it is not an override of that payment to another status |
| `BillingTheorems.StaysPaidUnlessDemoted` | apps/api/apps/subscription/services.py:685-734 | a paid payment stays paid throughout a run if and only if no step demotes it in this way |
| `BillingTheorems.EdgesBalanceDemotions` | apps/api/apps/subscription/services.py:555-613 | over every run the transitions to paid and the demotions from paid of a payment balance, up to whether it begins and ends paid |
| `BillingTheorems.ActivationsMatchEdges` | apps/api/apps/subscription/services.py:555-565 | over every run, overrides included, a payment activates its plan once per transition to paid |
| `BillingTheorems.ActivatedAtMostOnce` | apps/api/apps/subscription/services.py:555-613 | a payment activates its plan at most once in a run if and only if its demotions, counted with a paid end, exceed a paid beginning by at most one; in particular if no step demotes it |
| `BillingTheorems.PaidIsAbsorbing` | apps/api/apps/subscription/services.py:685-734 | for a payment that no step of the run demotes, paid is absorbing and reached at most once, whatever else is overridden |
| `BillingTheorems.ReplayIsSafe` | apps/api/apps/subscription/services.py:685-734 | for any callbacks, repeated, reordered or mismatched, and any overrides, paid payments and paid events stay one to one if and only if no payment is demoted while paid |
| `BillingTheorems.RunClassifies` | apps/api/apps/subscription/services.py:575-587 | over every run a paid event is a renewal exactly if the user had one for another payment before |
| `BillingTheorems.FirstActivatedThenRenewed` | apps/api/apps/subscription/services.py:575-587 | if no payment is demoted while paid, a user's first paid event is an activation and all later ones renewals |
| `BillingTheorems.OverrideRepeatsActivation` | apps/api/apps/subscription/views.py:122-128 | with overrides a payment can be canceled, paid and activated again: a concrete run |
| `BillingTheorems.LedgerRunsAreAccessRuns` | apps/api/apps/subscription/services.py:556-599 | every ledger run acts on devices, rows and subscriptions as the run of its service calls and activations |
| `PaymentDesk.Desk.MarkPaid` | apps/api/apps/subscription/services.py:555-599 | nothing happens twice; an unknown plan leaves everything as it was |
| `PaymentDesk.Desk.LogPaidEvent` | apps/api/apps/subscription/services.py:571-587 | one event is appended, with the dates of the activated subscription, as a renewal exactly if another payment of the user has an event |
| `PaymentDesk.Desk.MarkCanceled` | apps/api/apps/subscription/services.py:602-607 | a provider status that is already there is kept |
| `PaymentDesk.Desk.MarkFailed` | apps/api/apps/subscription/services.py:610-613 | only the status of that payment changes |
| `PaymentDesk.Desk.ConfirmPayment` | apps/api/apps/subscription/services.py:684-734 | a refused callback, even one refused after its provider status was stored, leaves payments, history and access unchanged |
| `PaymentDesk.Desk.CreateCheckout` | apps/api/apps/subscription/services.py:633-681 | an open checkout is reused; the new row survives a provider failure |
| `PaymentDesk.Desk.OverrideStatus` | apps/api/apps/subscription/views.py:122-128 | the operator endpoint: paid, canceled, otherwise failed |
| `Support.ConversationInvariant` | apps/api/apps/support/services.py:75-108 | after every run: closed exactly when a closing time is set, a new conversation has no owner, one in progress has one, and the cached time and preview are those of the last message |
| `Support.StepKeeps` | apps/api/apps/support/services.py:112-305 | every accepted or refused call keeps that invariant |
| `Support.ReplyKeeps` | apps/api/apps/support/services.py:407-440 | an accepted reply leaves its author as owner, in progress or, if asked, closed |
| `Support.CloseKeeps` | apps/api/apps/support/services.py:283-305 | an accepted close keeps the owner |
| `Support.RepliesOfTwoAdmins` | apps/api/apps/support/services.py:385-440 | without explicit assignment, accepted replies of two admins are separated by a close and then a user message that reopens |
| `SupportDesk.Conversation.RefreshState` | apps/api/apps/support/services.py:75-108 | the field updates equal the specified state |
| `SupportDesk.Conversation.PostUserMessage` | apps/api/apps/support/services.py:112-225 | a refused message, or one whose team notice cannot be sent, leaves the conversation as it was |
| `SupportDesk.Conversation.PostAdminMessage` | apps/api/apps/support/services.py:229-270 | the same for an admin message whose delivery fails |
| `SupportDesk.Conversation.Deliver` | apps/api/apps/support/services.py:326-364 | sending fails only on the Telegram channel, with a linked account and a failing client |
| `SupportDesk.Conversation.AssignTo` | apps/api/apps/support/services.py:273-279 | explicit assignment takes the conversation over and reopens it |
| `SupportDesk.Conversation.CheckAccess` | apps/api/apps/support/services.py:385-404 | access is granted exactly to the owner, or to anyone while there is none |
| `SupportDesk.Conversation.CloseBy` | apps/api/apps/support/services.py:283-305 | closing twice is closing once; a failed notice undoes the close |
| `SupportDesk.Conversation.ReplyBy` | apps/api/apps/support/services.py:407-440 | claim, answer and optional close succeed together or not at all |
| `SupportOutcomes.ChannelFollowsLatest` | apps/api/apps/support/services.py:59-72 | an answer goes to Telegram exactly if the latest message of the user came from there |
| `SupportOutcomes.UserMessageFollows` | apps/api/apps/support/services.py:112-225 | when a user's message is refused and why; otherwise it is the last one, trimmed, with the cached preview, and the conversation is open, without an owner if it was closed |
| `SupportOutcomes.AdminMessageFollows` | apps/api/apps/support/services.py:229-270 | an answer is refused exactly if it is empty or cannot be delivered; otherwise it is the last message, and an ownerless conversation becomes its author's |
| `SupportOutcomes.CloseFollows` | apps/api/apps/support/services.py:283-305 | a close is refused exactly if its notice cannot be delivered; otherwise the notice is the last message and the closing time is now |
| `SupportOutcomes.ReplyRefusedFor` | apps/api/apps/support/services.py:385-440 | a reply is refused exactly to an admin who neither owns nor takes over an owned conversation, if it is empty, or if the answer or the requested closing notice cannot be delivered |
| `SupportOutcomes.ReplyAnswers` | apps/api/apps/support/services.py:407-440 | an accepted reply appends the answer and leaves its author in charge |
| `SupportOutcomes.ReplyCloses` | apps/api/apps/support/services.py:407-440 | a reply that closes appends the notice after the answer and closes now |
| `Polling.RoundGoesAsFarAsItCan` | apps/api/apps/telegram/services.py:455-468 | a poll completes as many updates as have arrived and its limit allows, up to the first that fails |
| `Polling.RunPolling` | apps/api/apps/telegram/services.py:455-472 | for any pattern of client errors the completed updates are exactly the first ones of the stream, in order and each once, the offset is just past them, and every attempt but the failing ones completes an update |
| `Polling.ProcessBatch` | apps/api/apps/telegram/services.py:466-468 | the inner loop advances completion and offset together and stops at the first failure |
| `Polling.RetriesAndOrder` | apps/api/apps/telegram/services.py:459-472 | a failing update is the next one attempted; a completed one is followed by the next in the stream, none skipped |
| `Polling.BelowOffsetIsDone` | apps/api/apps/telegram/services.py:466-468 | an update of the stream is completed if and only if it is below the offset |
| `LegacyImport.PaymentTable.Import` | apps/api/apps/legacy_sync/services.py:571-642 | the loop leaves the specified table and counters |
| `LegacyImport.PaymentTable.ImportRecord` | apps/api/apps/legacy_sync/services.py:590-624 | one record: skipped, or stored under its key and counted once |
| `LegacyImport.PreviewRecord` | apps/api/apps/legacy_sync/services.py:1051-1061 | one record of the dry run is counted as if it were imported |
| `LegacyImport.DryRun` | apps/api/apps/legacy_sync/services.py:1036-1073 | the dry-run loop computes the tally of the supposed outcomes |
| `ImportOutcomes.StatusMapped` | apps/api/apps/legacy_sync/services.py:1638-1645 | which payment status each legacy status becomes |
| `ImportOutcomes.ImportedTableIs` | apps/api/apps/legacy_sync/services.py:590-615 | the import keeps every stored row and adds one for each new id that an eligible record brings, with the data of the first such record |
| `ImportOutcomes.ImportCounts` | apps/api/apps/legacy_sync/services.py:587-620 | the counters are the numbers of records that create a row, have a plan that is not on offer, or have an id that is already there |
| `ImportOutcomes.ImportCountsByState` | apps/api/apps/legacy_sync/services.py:622-630 | the created rows counted by the state of the payment |
| `ImportOutcomes.DryRunCounts` | apps/api/apps/legacy_sync/services.py:1036-1073 | the dry run counts every record with a plan on offer as created and none as already there |
| `ImportOutcomes.DryRunCountsByState` | apps/api/apps/legacy_sync/services.py:1051-1061 | the same by the state of the payment |
| `LegacyImport.PrefixStable` | apps/api/apps/legacy_sync/services.py:590-624 | importing a prefix and then everything, or twice, leaves the payments of one full run |
| `LegacyImport.CountersAddUp` | apps/api/apps/legacy_sync/services.py:617-624 | the four status counters add up to the imported count |
| `LegacyImport.OutcomesPredicted` | apps/api/apps/legacy_sync/services.py:590-615 | the import follows the dry run record by record if and only if every supported record has its user and a key that is neither stored nor used earlier |
| `LegacyImport.DryRunPredicts` | apps/api/apps/legacy_sync/services.py:1036-1073 | the dry run's summary equals the import's, up to the flag, under exactly that condition |

## Left out

- Overlapping requests and database locks: each service call is one atomic step; the source locks only the payment row of a callback.
- Cached model instances inside one batch: servers and subscriptions are read afresh for every operation.
- Time within a step: the clock moves only during calls to the outside and between steps, so two clock reads in a row agree.
- Row numbers stand for primary keys, tables only grow, and ties on creation time go to the later row; deleting users, devices or subscriptions is not modelled.
- Direct edits in the admin screens, other than moving a route, configuring a profile and overriding a payment's status.
- Error messages, metadata, stored provider payloads, latency figures, activity log entries and notifications.
- Provisioning an operation that was logged by hand: every operation here comes from one of the scheduling functions.
- Operations.ExecuteNoRevival: does not cover a sync or repair aimed at the revoked device itself, because the operation does not check that; its callers do, and the theorems about runs have no such exception.
- AccessTheorems.TouchedIsResolved: speaks of the normalised key; looking up a key as it came in the header is the subject of `HeaderKeys.KeyFollowsDevice`.
- What a panel holds is recorded on the row (`told`), where the source keeps it on the panel only.
- PanelAccess.PanelLagsByPendingGrants: speaks of rows whose last synchronisation a panel accepted; a failed call may or may not have reached the panel, and a client left on a panel after a switch to another adapter is not tracked.
- Expiry.PanelAgreesFromTheEpochOn: takes zone offsets in whole milliseconds, fixed over time.
- Panel protocol, login, TLS and JSON decoding: an inbound arrives decoded; the branch that adds a panel client is never reached, since every row has a UUID and an email before the adapter is called.
- The default route catalogue is taken to be in place before a trial or an activation; the two route lists are data of the catalogue (`ShippedDefaults` holds the shipped ones) and must have distinct codes.
- Sentences that the support service writes itself are parameters of a conversation (`ShippedWording` holds the shipped ones).
- Plan titles and prices; a subscription stores its plan's code instead of its title.
- Second copies of device fields (display name, resolved platform and client), icons and the stale status.
- Public tokens: generation and uniqueness by retry.
- Upper-casing and parsing of provider callbacks: they arrive as data types, unreadable numbers included.
- Polling outside one process run: an error other than a client error ends the process, and waiting times are not modelled.
- A reply whose sending fails after an update was stored: the update is attempted again, and nothing is claimed about messages stored twice.
- The delivery channel shown to operators, which the serializer computes in its own way.
- The other legacy imports (users, subscriptions, support, devices, slots, repairs), and the decoding of the source rows.
- Float timestamps are taken as exact.
- The user's access decision table, dashboards, install guides, the web front end and its proxies.
