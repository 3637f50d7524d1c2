# Verified models of the booking agent, its billing and its widget

Dafny models of the parts of the platform where many writers, retries or callers meet the same state, each
with the guarantees that hold over every run. `dafny verify dfyconfig.toml` checks the whole project.

- **Billing rows** (`BillingModel`, `BillingEffects`, `BillingInvariants`, `BillingOverrides`, `BillingDunning`,
  `BillingRedelivery`, `TrialReservations`). Accounts, tenant tiers, trial reservations and top-ups as a state
  machine over Stripe events, the manual override, the onboarding trial, checkout and the dunning sweep.
  `BillingEffects` says field by field what each writer comes to, and what of it lasts over runs.
  `BillingDatabase` runs the same writers on mutable tables, statement by statement, and is proved to take
  exactly the model's steps.
- **Webhook protocol** (`WebhookLedger`, `WebhookProgress`, `TopUpLedger`). Advisory lock, log row, savepoint, commit and answer, one
  statement per step, any number of workers interleaved, failing, crashing and redelivered. The handler is a
  parameter that reads the event, the clock and Stripe's answers afresh on each attempt; `WebhookProgress`
  shows that no lock is leaked and that what can run does; `TopUpLedger` puts the billing model's handler there.
- **Capacity** (`Capacity`). The count gate as transactions that lock, count, insert and commit in any order: never
  over the limit, and all the way up to it.
- **Entitlements** (`Entitlements`). The resolver on a mutable feature map, with the dependency pass as a
  greatest fixed point.
- **CSV** (`Csv`, `CsvCells`, `CsvLines`). The printer, and the reader as the character loop it is; what is in a
  printed file for a reader that knows only quoting; and how files printed elsewhere are read.
- **Confirmation gates** (`PendingRecords`, `ConfirmationGates`, `ConversationStore`, `WallClock`, `BookingTimes`). One generic
  remember-refuse-confirm record, the gates of create, move and cancel as instances of it, and the gates as
  methods that overwrite the stored records.
- **Agent run** (`AgentModel`, `AgentLoop`). The ten-iteration loop as a class; the language model, the tools,
  the budget and the text classifiers are arbitrary functions.
- **Reply times** (`ReplyTimes`, `ReplyMeaning`). The clock times a reply names against the slots offered, and the
  chips; `ReplyMeaning` retells both from the readings in the text and the starts of the slots.
- **Widget** (`WidgetModel`, `WidgetInvariants`, `WidgetProgress`, `WidgetDelivery`, `WidgetClient`). Connect, recovery
  and new conversation cut at their awaits and interleaved, where each leads when its awaits are answered, what
  becomes of the messages handed to each socket, and the widget object whose methods take those steps.

Each SQL statement, each span between two awaits, and one whole sweep (read, checks and updates) is one step.
Clocks, network answers, prices, schedules, refetches and Redis availability are arguments of the step.
Uninterpreted text functions are arguments too, so every result holds for all vocabularies.

## Where the code and its promises part

Modelled as the code does it, each with the exact condition proved, and with an input that meets it where the
condition does not show one.

- A `sep=` line with U+2028 or U+2029 as delimiter is not recognised, because the regular expression's dot
  excludes them (`Csv.HintIsRead`, `Csv.LineSeparatorHintBecomesHeader`).
- Unknown override keys are dropped, except names every object inherits, such as `toString`
  (`Entitlements.UnknownOverrideDropped`).
- An Enterprise tenant's other limits are read exactly when its token limit is not -1, since the second test is
  an `else if` (`Entitlements.LiftedTokensHideOverrides`).
- A manual override does not survive the next trialing or active event that finds the tenant's Stripe row, by
  either id, contrary to the note at `api/src/billing/service.ts:775-779`
  (`BillingOverrides.OverrideYieldsToGrantingWebhook`).
- Repeating a manual override is harmless except when a null option meets a stored value off target: the first
  call keeps the value, the second clears it (`BillingOverrides.OverrideTwice`).
- The tier leaves the primary plan exactly when `past_due` is reported for a primary row that gave no access;
  such a run exists from an empty database (`BillingInvariants.StepIsSound`, `BillingOverrides.TierCanDrift`).
- The grace period does not start when the tenant falls past due but at the clock the row carried into it, if it
  carried one (`BillingDunning.ClockIsCarriedOrEntry`, `BillingDunning.ClockIsEntryExactly`); a run from an empty
  database drops a tenant 72 hours after its first failure, however late it fell past due again
  (`BillingDunning.LeftoverClockDropsEarly`).
- A second copy of `subscription.deleted` can cancel another tenant's row through the customer id
  (`BillingRedelivery.RedeliveryIsHarmless`, `BillingRedelivery.SecondDeletionCancelsAnother`).
- The two events of one purchase leave different rows in the two orders exactly when the subscription event,
  coming first, misses the row the checkout books (`BillingRedelivery.OrderMattersOtherwise`,
  `BillingRedelivery.OrderCanMatter`).
- A `failed` webhook answer hides a committed success exactly when it follows its own commit, or when the attempt
  breaks off before it reads the log of an event processed earlier (`WebhookLedger.FailedAnswerExactly`,
  `WebhookLedger.FailedAnswerMayHideSuccess`).
- A start time with a clock but no date, once remembered, is not recognised again after the nudge adds
  seconds (`WallClock.ReKeyingIsStable`, `WallClock.UndatedClockIsUnstable`, `ConfirmationGates.NudgePassesGate`).
- A start time with two offsets in a row keeps one, so it is still read as an instant
  (`BookingTimes.RemembersTheDigits`, `BookingTimes.DoubledOffsetSurvives`).
- One unparseable slot start beyond the eighth empties the confirmable list, so a delivered time counts as
  invented (`ReplyTimes.DeliveredAreOfferable`, `ReplyTimes.BadStartUnsaysDelivered`).
- When Redis fails to delete a record, the same agreement lets a second call through
  (`PendingRecords.UndeletedServesAgain`, `ConfirmationGates.UndeletedSummaryServesAgain`).
- The chips for a refused hour can offer that very hour, on another day
  (`ReplyTimes.RefusedHourReturnsOnAnotherDay`, `ReplyTimes.RefusedHourCanReturn`).
- `_connected` is not reset when a recovery replaces the socket, so a later message can overtake an earlier one
  that is still queued (`WidgetInvariants.OrderBreaksExactlyByOvertaking`, `WidgetInvariants.RecoveryCanReorder`).
- For the same reason messages are lost: sent on a socket given up, or buffered in one that goes before it
  connects, and exactly then (`WidgetDelivery.LosesExactly`, `WidgetDelivery.FlagGoesStaleExactly`,
  `WidgetDelivery.StaleFlagLosesMessage`).
- A recovery is left with nothing to end it, and refuses every later recovery, once its socket's token is called
  invalid or its init brought no token (`WidgetInvariants.RecoveryIsStrandedExactly`,
  `WidgetInvariants.StrandedForGood`, `WidgetInvariants.RecoveryCanStrand`).
- A superseded recovery whose init fails clears the guard of the newer one
  (`WidgetInvariants.SupersededInitChangesNothing`).
- "You already hold that time" outlives the check that found it, so it can replace a promise after a later check
  that found nothing, unlike the comment at `api/src/agent/agent.service.ts:2091-2097`
  (`AgentModel.ReplacementFitsLatestCheck`, `AgentModel.HeldOutlivesItsCheck`).
- The times a list is held against are the first eight slots even when the chips show another window, so a reply
  naming exactly the chips can be replaced, unlike the comment at `api/src/agent/agent.service.ts:1018`
  (`ReplyTimes.ChipsCountAsDelivered`, `ReplyTimes.ChipsCanCountAsInvented`).
- `availabilityChecked` is set by a check that came back, also with an error, but not by one that throws, unlike
  the comment at `api/src/agent/agent.service.ts:930-936` (`AgentModel.CheckedIfReturned`,
  `AgentModel.ThrownCheckIsForgotten`).

## Model

| member | source | states |
|---|---|---|
| WebhookLedger.EffectsAreExactlyOnce | api/src/billing/events.ts:1083-1224 | in every interleaving the committed rows equal one application of the handler per event whose log row turned processed, in commit order and on what that attempt read, and no committed log row reads processing |
| WebhookLedger.OnlySuccessTouchesBilling | api/src/billing/events.ts:1150-1191 | a failed attempt changes its own log row and nothing else; billing changes only as a log row turns processed |
| WebhookLedger.ProcessedIsAbsorbing | api/src/billing/events.ts:1118-1148 | a processed event is never applied again, whatever is delivered later |
| WebhookLedger.SuccessAnswersAreTrue | api/src/billing/events.ts:1123-1205 | a processed or replay answer is given only for an event whose effects are committed |
| WebhookLedger.FailedAnswerExactly | api/src/billing/events.ts:1191-1220 | a failed answer leaves its event as it was, and the event's effects are in exactly when the answer follows its own commit or the attempt broke off before reading the log of an event processed earlier |
| WebhookLedger.FailedAnswersExactly | api/src/billing/events.ts:1083-1224 | over any run every failed answer has a step that gave it, with that condition |
| WebhookLedger.FailedAnswerMayHideSuccess | api/src/billing/events.ts:1191-1220 | from any quiet database, one undisturbed delivery and an invalidation that throws answer failed although the effects are in |
| WebhookLedger.CreditIsCountedOnce | api/src/billing/events.ts:1083-1224 | for a handler that adds what its event is worth, a balance is its opening value plus one credit per distinct processed event |
| WebhookLedger.WritesGoWhereLookupPoints | api/src/billing/events.ts:1150-1175 | over any run each committed application was an attempt of that run, and wrote the rows its lookup named on the committed rows of the moment it ran, and none if it named none |
| WebhookProgress.RunsLeakNothing | api/src/billing/events.ts:1083-1224 | in every interleaving every advisory and row lock is held by an open transaction that still needs it; with nothing in flight none is held |
| WebhookProgress.DeliveryRunsToItsAnswer | api/src/billing/events.ts:1083-1224 | in any such state a delivery that finds its locks free commits what the handler does to the committed rows, counts the attempt and answers processed, or marks the event failed and answers so; every lock is free again |
| WebhookProgress.RedeliveryGoesThrough | api/src/billing/events.ts:1191-1224 | so after any run, failures and crashes included, an unprocessed event goes through at its next delivery once nothing is in flight |
| WebhookProgress.TakenKeyBacksOff | api/src/billing/events.ts:1101-1110 | a delivery that finds its key taken backs off and changes nothing |
| WebhookProgress.ProcessedEventReplays | api/src/billing/events.ts:1112-1123 | a delivery of a processed event answers replay and changes nothing |
| WebhookProgress.CrashLeavesNothingBehind | api/src/billing/events.ts:1083-1224 | a crash frees exactly its own locks and moves nothing committed |
| TopUpLedger.HandlerCredits | api/src/billing/events.ts:810-836 | every handler of the billing model moves every tenant's balance by exactly the tokens its event bought for that tenant |
| TopUpLedger.TopUpsAreCreditedOnce | api/src/billing/token-budget.service.ts:270-290 | in every interleaving, crash and redelivery a tenant's top-up balance is its opening balance plus the tokens bought in the distinct events processed since, each counted once |
| BillingInvariants.StepIsSound | api/src/billing/events.ts:150-290 | every writer keeps unique ids, one primary per tenant and the row shapes, and the tier agrees with the live primary plan afterwards exactly when the step is no past-due revival |
| BillingInvariants.OnePrimaryForever | api/src/billing/events.ts:115-142 | in every reachable state a tenant has at most one primary row, and exactly one from the moment it has any |
| BillingInvariants.TierAgreesOverRuns | api/src/billing/events.ts:634-692 | over any run without past-due revivals the tier of a live primary's tenant is its plan |
| BillingInvariants.TierAgreesUnderStripeOrder | api/src/billing/events.ts:694-775 | so it is whenever Stripe reports past_due only from trialing, active or past_due |
| BillingInvariants.UpsertAgreesUnlessRevived | api/src/billing/events.ts:645-692 | for one subscription event, both directions of that condition |
| BillingInvariants.SweepKeepsTier | api/src/billing/dunning.ts:153-181 | dropping overdue tenants keeps the tier in agreement with every other live primary |
| BillingOverrides.OverrideLands | api/src/billing/service.ts:780-884 | the override leaves the manual row as the only primary on the asked tier and touches nothing else of the Stripe row or of other tenants |
| BillingOverrides.OverrideTwice | api/src/billing/service.ts:694-884 | calling it twice is calling it once exactly when the first call was on target or no null option meets a stored value |
| BillingOverrides.OverrideYieldsToGrantingWebhook | api/src/billing/events.ts:653-664 | after an override, any event takes primary and tier to the Stripe row exactly when it is a subscription event that resolves to that row, is written there and is trialing or active; otherwise the override stands whole |
| BillingOverrides.TierCanDrift | api/src/billing/events.ts:468-482 | a run from an empty database after which the live primary is on Pro and the tenant on Free |
| BillingDunning.WebhookClock | api/src/billing/events.ts:231-278 | no event moves a running clock or changes the plan of a past-due row, and only a failed invoice or a past_due event for that very row starts past_due |
| BillingDunning.GraceKeepsTier | api/src/billing/events.ts:666-679 | a live primary entering or staying in grace keeps its plan and its tenant's tier |
| BillingDunning.ClockIsCarriedOrEntry | api/src/billing/events.ts:579-584 | over any run the clock of a stamped past-due row is the one it carried in when it entered past_due, or the time it entered if it carried none, however many failures follow |
| BillingDunning.ClockIsEntryExactly | api/src/billing/events.ts:579-584 | so the clock is the entry time exactly when none, or that very time, was carried in |
| BillingDunning.ClockIsEntryTime | api/src/billing/events.ts:666-679 | nothing is carried in while Stripe reports past_due only from trialing, active or past_due |
| BillingDunning.SweepDropsExactlyAfterGrace | api/src/billing/dunning.ts:121-181 | after any run a sweep lands a past-due primary on Free exactly when 72 hours have passed since the carried-in clock, or the entry where none was carried in, and Stripe takes the cancellation; otherwise its row and tier do not move |
| BillingDunning.LeftoverClockDropsEarly | api/src/billing/events.ts:571-584 | a run from an empty database whose kept clock lets the sweep drop the tenant 72 hours after its first failure, although it entered past_due anew since |
| BillingDunning.ReminderDayIsElapsedDays | api/src/billing/dunning.ts:28-32 | a reminder names the whole days since the stamp and none is due at or after 72 hours |
| BillingDunning.RemindersAreWhatSweepsFind | api/src/billing/dunning.ts:84-119 | a run queues a reminder exactly when one of its sweeps found the tenant's primary Stripe row past due with that stamp, inside the grace period and on that day of it |
| BillingDunning.AtMostThreeReminders | api/src/billing/dunning.ts:72-81 | so one stamp yields at most three keys, one for each day on which a sweep found it |
| BillingEffects.ResolvesExactly | api/src/billing/events.ts:64-114 | an event is about the Stripe row with its subscription, or failing that the one with its customer if that row has none, the event creates one, or it is an invoice of none; at most one row is that |
| BillingEffects.NobodysEvent | api/src/billing/events.ts:64-186 | an event about no row changes nothing |
| BillingEffects.SubscriptionIsMirrored | api/src/billing/events.ts:440-775 | over every store the invariants allow, a subscription event leaves its row saying what Stripe says, field by field; with access the row is its tenant's one primary, the tier its plan, the clock stopped and the unclaimed reservation claimed; skipped, it changes nothing |
| BillingEffects.DeletionEnds | api/src/billing/events.ts:355-438 | a deletion ends the subscription of the row it is about and drops the tier of a primary, unless Stripe cannot be asked; nothing else moves |
| BillingEffects.PaidInvoiceRecovers | api/src/billing/events.ts:231-254 | a paid invoice makes a past-due row active with no clock exactly when it is for that row's own subscription, and then nothing else in the store moves |
| BillingEffects.PaidInvoiceOtherwise | api/src/billing/events.ts:242-254 | on a row not past due all a paid invoice of a subscription does is stop a leftover clock |
| BillingEffects.FailedInvoiceStartsGrace | api/src/billing/events.ts:256-278 | a failed invoice changes a row exactly when it is for that row's own subscription and the row is trialing or active: then it is past due, its clock starts then, and nothing else moves |
| BillingEffects.RecoveredIsLeftAlone | api/src/billing/dunning.ts:121-181 | over any run, once a past-due tenant's invoice is paid no sweep moves its row or tier or owes it a reminder until the row enters past_due anew |
| BillingEffects.SweepEndsExactly | api/src/billing/dunning.ts:84-181 | a sweep ends exactly the subscriptions whose 72 hours are over and which Stripe cancels, drops exactly their tiers, and moves nothing else |
| BillingEffects.CancelEndsExactly | api/src/billing/dunning.ts:121-181 | the same for one tenant |
| BillingEffects.CheckoutBooksIds | api/src/billing/events.ts:795-961 | a completed subscription checkout books its ids on the tenant's row exactly unless another row holds one of them |
| BillingEffects.CheckoutStartsOnce | api/src/billing/service.ts:192-212 | starting a checkout stores the customer id exactly on a tenant whose row has none and where no other row has it |
| BillingEffects.OverrideWritesExactly | api/src/billing/service.ts:694-884 | which fields of which rows the override moves, and that an option left out keeps, null clears on target only, and a value replaces |
| BillingEffects.TrialIsGrantedExactly | api/src/billing/service.ts:645-679 | the onboarding trial is granted exactly to a tenant that exists and has no reservation, which then is trialing on Pro until the given end |
| BillingEffects.TrialEndsExactly | api/src/billing/onboarding-trial.ts:6-26 | a trial ends exactly when the manual row is primary, trialing and its end has come, and then only status, plan, end and tier move |
| BillingEffects.TrialLastsToItsEnd | api/src/billing/onboarding-trial.ts:6-26 | however often expiry is tried, a granted trial left alone lasts to its end and not beyond the first try from then on |
| BillingEffects.TrialIsReservedExactly | api/src/billing/providers/stripe.ts:291-366 | a checkout reserves the trial exactly for a tenant that exists and has none reserved |
| BillingRedelivery.RedeliveryIsHarmless | api/src/billing/events.ts:64-114 | delivering an event twice, at any two times and with whatever Stripe answers each copy, equals delivering it once with the second answers, exactly unless it credits tokens or is a deletion whose customer id leads to another tenant's row |
| BillingRedelivery.SecondDeletionCancelsAnother | api/src/billing/events.ts:94-97 | a run from an empty database after which the second copy cancels another tenant |
| BillingRedelivery.RedeliveryAfterFailure | api/src/billing/events.ts:355-438 | of two deliveries of which Stripe fails one, the rows show the other only |
| BillingRedelivery.CheckoutAndCreationCommute | api/src/billing/events.ts:795-961 | checkout.session.completed and subscription.created leave the same rows in either order when the row has that customer and no other subscription |
| BillingRedelivery.OrderMattersOtherwise | api/src/billing/events.ts:795-961 | over every store the two orders agree exactly unless the subscription event, coming first, misses the row the checkout books and would have changed it |
| BillingRedelivery.OrderCanMatter | api/src/billing/events.ts:949-961 | a row left by a checkout under an earlier customer id shows the difference |
| TrialReservations.OnboardingTrialAtMostOnce | api/src/billing/service.ts:641-686 | over any run a tenant gets the onboarding trial at most once, and never after its reservation was claimed |
| TrialReservations.ClaimIsForever | api/src/billing/events.ts:757-768 | a claimed reservation keeps its subscription id through every later run |
| TrialReservations.ExpiryIsItsOwn | api/src/billing/events.ts:983-1041 | an expired checkout removes its own unclaimed row and nothing else |
| TrialReservations.ExpiredTrialIsFinal | api/src/billing/onboarding-trial.ts:5-26 | after the trial expires it is never granted again |
| BillingDatabase.Database.ResolveEventRow | api/src/billing/events.ts:64-114 | the two lookups and the fallback rules find the row the unique indexes make unique |
| BillingDatabase.Database.PromotePrimaryAndCascadeTier | api/src/billing/events.ts:122-142 | the single UPDATE crowns the row and demotes the tenant's others |
| BillingDatabase.Database.HandleSubscriptionUpsert | api/src/billing/events.ts:694-775 | the statements of the created/updated arm end in the model's one step, or throw with nothing written |
| BillingDatabase.Database.HandleSubscriptionDeleted | api/src/billing/events.ts:355-438 | the stale guard, the refetch distinction and the cancellation take the model's step |
| BillingDatabase.Database.HandleInvoiceEvent | api/src/billing/events.ts:193-278 | recovery, leftover-clock and first-failure updates take the model's step, whose every case `BillingEffects` spells out |
| BillingDatabase.Database.HandleCheckoutSessionCompleted | api/src/billing/events.ts:795-901 | top-up credit and checkout bookkeeping take the model's step |
| BillingDatabase.Database.HandleCheckoutSessionExpired | api/src/billing/events.ts:983-1041 | the scoped delete takes the model's step |
| BillingDatabase.Database.RunCallback | api/src/billing/events.ts:1150-1175 | between savepoint and release the tables move by exactly one model step, and a throw leaves them as they were |
| BillingDatabase.Database.GrantOnboardingProTrial | api/src/billing/service.ts:645-679 | reservation, demotion, upsert and cascade take the model's step and keep every invariant |
| BillingDatabase.Database.ExpireOnboardingProTrial | api/src/billing/onboarding-trial.ts:6-26 | the conditional update takes the model's step and reports whether it did |
| BillingDatabase.Database.SetTierManual | api/src/billing/service.ts:694-884 | demote, upsert and cascade, or the fields-only path, take the model's step |
| BillingDatabase.Database.StartCheckoutUpsert | api/src/billing/service.ts:192-212 | a stored customer id is kept and a refused insert changes nothing |
| BillingDatabase.Database.ReserveCheckoutTrial | api/src/billing/providers/stripe.ts:291-366 | the trial is offered exactly to a tenant without a reservation, which then carries the session |
| BillingDatabase.Database.CancelPastDueSubscriptionNow | api/src/billing/dunning.ts:121-181 | drops exactly an overdue tenant whose cancellation Stripe takes |
| BillingDatabase.Database.RunDunningSweep | api/src/billing/dunning.ts:84-119 | for any row order the loop equals the model's sweep, queues the due reminders, counts both, and a second sweep in flight does nothing |
| BillingDatabase.SweepQueuesReminders | api/src/billing/dunning.ts:72-119 | what the loop queues are the model's reminders of the tenants with an address whose send does not throw |
| BillingDatabase.StatementsAddUp | api/src/billing/events.ts:742-775 | update, claim, raw data and promotion or stamp, one after another, are the model's single write |
| BillingDatabase.VisitingProgresses | api/src/billing/dunning.ts:95-114 | part way through the rows, tables, queue and counters are the sweep restricted to the rows visited |
| Capacity.CountNeverExceedsLimit | api/src/billing/enforce.ts:78-103 | in every interleaving a committed count within its limit stays within it while the limit is not lowered; its partner is Capacity.CountsReachTheLimit |
| Capacity.OnlyLoweringExceeds | api/src/billing/enforce.ts:89-103 | one step takes a count over its limit exactly when it sets a limit below the count |
| Capacity.RaisedCountsFit | api/src/billing/enforce.ts:45-77 | every count a commit raises fits the limit in force at that commit, even after a downgrade |
| Capacity.GateAdmitsExactly | api/src/billing/enforce.ts:89-103 | after the check the transaction is still open exactly when the limit is null or the committed count plus its own rows is below it, and the check moves nothing else |
| Capacity.OneMoreExactlyWhenRoom | api/src/billing/enforce.ts:78-103 | on a tenant nobody holds, lock, check, insert and commit raise that count by exactly one when there is room; without room the attempt leaves no trace |
| Capacity.CountsReachTheLimit | api/src/billing/enforce.ts:78-103 | so a count can be brought to its limit exactly, and without a limit to any number |
| Capacity.CountsAreConserved | api/src/billing/enforce.ts:85-103 | over every run a count moves by the rows committed and deleted and by nothing else |
| Capacity.RollbackLeavesNoTrace | api/src/billing/enforce.ts:40-44 | whatever a transaction checked and inserted, rolling it back restores the state it began in |
| Capacity.LockWaitsExactly | api/src/billing/enforce.ts:45-58 | a transaction waits for the row lock exactly while another of the same tenant is open |
| Entitlements.EnforceFeatureDependencies | api/src/billing/feature-taxonomy.ts:115-126 | for any requires graph, cycles included, the loop ends with the greatest dependency-closed subset |
| Entitlements.GreatestIsLargest | api/src/billing/feature-taxonomy.ts:107-126 | every dependency-closed subset is contained in what the pass keeps |
| Entitlements.OrderIsIrrelevant | api/src/billing/feature-taxonomy.ts:115-126 | reordering or repeating the entries of the taxonomy leaves the result the same |
| Entitlements.EntitlementsFor | api/src/billing/entitlements.ts:104-183 | the resolver clones before it writes and returns ceiling and effective features as that closure before and after the tenant's preference |
| Entitlements.LiftedTokensHideOverrides | api/src/billing/entitlements.ts:129-137 | an Enterprise tenant's other limit overrides take effect, and make no difference exactly when its token limit is -1 |
| Entitlements.EffectiveClosedForm | api/src/billing/entitlements.ts:141-170 | the two dependency passes amount to one closure of the overridden plan minus what the tenant switched off |
| Entitlements.EffectiveWithinCeiling | api/src/billing/entitlements.ts:214-229 | a preference never exceeds the ceiling and an unbillable tenant has nothing |
| Entitlements.TogglesAreMonotone | api/src/billing/entitlements.ts:218-254 | asking for more never loses a feature and never moves the ceiling |
| Entitlements.SwitchingOnLosesNothing | api/src/billing/entitlements.ts:218-254 | switching one preference on, whatever it was, never loses a feature |
| Entitlements.UnknownOverrideDropped | api/src/billing/entitlements.ts:190-212 | an override outside the catalog is dropped exactly when no plain object inherits its name |
| Entitlements.FeatureIsOnExactly | api/src/billing/entitlements.ts:104-183 | from the inputs alone: a feature is in force exactly for an active tenant on a paid tier, when it stands together with all it requires, each offered by plan or override and none declined; in the ceiling exactly when it does so before any preference |
| Entitlements.PreferencesAreHeardExactly | api/src/billing/entitlements.ts:231-254 | of a drifted column exactly the Booleans under toggleable keys are heard |
| Entitlements.OverridesAreReadExactly | api/src/billing/entitlements.ts:121-139 | which limit override takes effect on which tier, each exactly when; agents and bots never |
| Csv.FromCsv | api/src/analytics/exporters.ts:275-338 | the character loop over field, row, rows and the quote flag computes the table the grammar gives |
| Csv.RoundTripWithHint | api/src/analytics/exporters.ts:189-201 | every table printed with a hint line reads back, for every delimiter the hint can carry, less blank rows and guard apostrophes; that the apostrophes are in the file is CsvCells.FormulasAreInert |
| Csv.TableReturnsExactly | api/src/analytics/exporters.ts:275-350 | rows come back cell for cell exactly when none is blank and no cell is apostrophe-plus-trigger |
| Csv.RoundTripWithoutHint | api/src/analytics/exporters.ts:275-295 | without a hint the same, whenever detection finds the delimiter used |
| Csv.DetectsWithoutHint | api/src/analytics/exporters.ts:276-295 | when that is: the body carries no stray mark, is no hint line itself, and sniffs as that delimiter |
| Csv.HintIsRead | api/src/analytics/exporters.ts:278-283 | the hint is read back exactly when the expression's dot matches the delimiter |
| Csv.LineSeparatorHintBecomesHeader | api/src/analytics/exporters.ts:278-295 | with a line or paragraph separator as delimiter the hint becomes the header, whatever the table |
| Csv.ExcelPresetRoundTrips | api/src/analytics/exporters.ts:170-172 | every table survives the Excel preset |
| Csv.InterchangePresetRoundTrips | api/src/analytics/exporters.ts:174-182 | every table with plain header names survives the interchange preset |
| CsvCells.FormulasAreInert | api/src/analytics/exporters.ts:184-201 | for every table, delimiter and option, a quote-aware reading of the file that undoes no guard has each cell in its place, as it is, or behind an apostrophe exactly when it starts with = + - @ tab or CR, so no cell in the file does; mark and hint come first, character for character |
| CsvCells.PrintedAsIsExactly | api/src/analytics/exporters.ts:193-197 | a cell stands in the file as it is exactly when it is no formula and holds no quote, line break or delimiter |
| CsvLines.UnquotedTextReads | api/src/analytics/exporters.ts:297-333 | any text in which no cell opens with a quote reads as its lines cut at line feeds, then at delimiters: carriage returns vanish, inner quotes stay, empty lines are skipped, guard apostrophes come off |
| CsvLines.UnclosedQuoteRunsOn | api/src/analytics/exporters.ts:311-323 | a quote never closed takes everything to the end of the text |
| CsvLines.HintInAnyCase | api/src/analytics/exporters.ts:276-283 | a hint line in any letter case, behind a mark or not, ended by either line break, is obeyed |
| CsvLines.OnlyHintsAreRead | api/src/analytics/exporters.ts:278-283 | nothing else is taken for one |
| CsvLines.CommonerDelimiterWins | api/src/analytics/exporters.ts:284-289 | without a hint the delimiter is a semicolon exactly when the first line holds more of them than commas |
| PendingRecords.PassesExactlyWhenAgreed | api/src/agent/pending-booking-confirmation.ts:261-293 | however often the store fails, a request passes exactly when no customer line came with it, the store fails it, or it agrees to the refused request last remembered |
| PendingRecords.AgreementServesOnce | api/src/agent/pending-booking-confirmation.ts:289-298 | between two that pass on the customer's word, one was refused, as long as the first could be deleted |
| PendingRecords.UndeletedServesAgain | api/src/agent/pending-booking-confirmation.ts:295-307 | and only then: a deletion that fails lets the same request through again |
| ConfirmationGates.CreatePassesExactlyAfterSummary | api/src/agent/pending-booking-confirmation.ts:261-315 | in every conversation and however often Redis fails, a create passes exactly when there is no customer line, Redis fails it, or it comes right after a refused one with the same wall-clock key of its start, the same trimmed and lowered name and a compatible service, on a chip or on a yes to an earlier question naming that date and clock |
| ConfirmationGates.OneCreatePerSummary | api/src/agent/pending-booking-confirmation.ts:289-298 | one agreed summary lets one create through, as long as Redis deletes it |
| ConfirmationGates.UndeletedSummaryServesAgain | api/src/agent/pending-booking-confirmation.ts:295-307 | where it does not, the same call made at once passes again |
| ConfirmationGates.MovePassesExactlyAsAgreed | api/src/agent/pending-booking-confirmation.ts:326-445 | likewise a move, of the same booking and wall-clock key, agreed to whole in one message when it has an address; it goes to that address even when the call omits it, and no other verdict carries an address |
| ConfirmationGates.CreateStoppedOncePerMove | api/src/agent/pending-booking-confirmation.ts:481-497 | a pending move stops a create at most once per record that Redis deletes |
| ConfirmationGates.CancelPassesExactlyAfterRefusal | api/src/agent/pending-booking-confirmation.ts:499-539 | likewise a cancellation, right after a refused one of the same booking, on a yes or a chip |
| ConfirmationGates.NudgePassesGate | api/src/agent/pending-booking-confirmation.ts:146-166 | the nudge's arguments pass the gate with the same booking and address exactly when the stored key is a bare date and clock or ends in no clock |
| ConfirmationGates.NudgeIffAgreed | api/src/agent/pending-booking-confirmation.ts:398-410 | after a refused move the nudge speaks exactly when Redis answers, there is a customer line, the booking is named and some call would pass the gate |
| ConfirmationGates.CreateNudgePassesGate | api/src/agent/pending-booking-confirmation.ts:122-130 | on a plain yes the create nudge speaks exactly when Redis answers and the create gate lets the same details through |
| WallClock.ReKeyingIsStable | api/src/agent/offered-slots-store.ts:71-81 | when a key with seconds keys back to itself, both directions |
| WallClock.DocumentedShapeIsStable | api/src/agent/offered-slots-store.ts:79-80 | a zoneless date and time always does |
| WallClock.UndatedClockIsUnstable | api/src/agent/offered-slots-store.ts:71-81 | a word ending in a clock is an input for which it fails |
| WallClock.KeyedExactly | api/src/agent/offered-slots-store.ts:71-81 | the key of any start time, by templates: the zone's reading behind an offset, else the first date and clock, else the text; and when seconds are added |
| WallClock.ShapesAreTemplates | api/src/agent/offered-slots-store.ts:71-127 | every shape the code tests for, as a template of digits and signs |
| BookingTimes.ResolveBookingTime | api/src/agent/offered-slots-store.ts:91-127 | the search over the offered starts finds the time as the specification has it |
| BookingTimes.OffsetIsKeptExactly | api/src/agent/offered-slots-store.ts:91-127 | an offset is kept exactly when some offered start is within a second of its instant, at an hour the customer did not contradict; else exactly that offset is cut off |
| BookingTimes.RemembersTheDigits | api/src/agent/offered-slots-store.ts:71-127 | the create gate remembers a dated start time under its own date and clock exactly when the zone reads neither an offered instant nor what is left behind one stripped offset elsewhere |
| BookingTimes.DoubledOffsetSurvives | api/src/agent/offered-slots-store.ts:118-127 | behind a Z nobody offered, the offset in front of it still moves the remembered time |
| BookingTimes.BothSpellingsAreOneBooking | api/src/agent/tools/booking.tool.ts:1310-1314 | a local time and its echo with an offset that does not stand are one booking to the create gate, under the digits' own date and clock |
| ConversationStore.SummaryWasAsked | api/src/agent/pending-booking-confirmation.ts:96-119 | the two scans find a question before the last customer line exactly when there is one |
| ConversationStore.SummaryCarriedMove | api/src/agent/pending-booking-confirmation.ts:326-353 | the scan finds one message with question, address and clock exactly when there is one |
| ConversationStore.Conversation.RefuseUnlessConfirmed | api/src/agent/pending-booking-confirmation.ts:261-315 | the method leaves the record and answers as the create gate specifies |
| ConversationStore.Conversation.RefuseUnlessRescheduleConfirmed | api/src/agent/pending-booking-confirmation.ts:412-464 | likewise for the move gate and its address |
| ConversationStore.Conversation.RefuseCreateWhileMovePending | api/src/agent/pending-booking-confirmation.ts:481-497 | likewise for the stop on a pending move |
| ConversationStore.Conversation.RefuseUnlessCancelConfirmed | api/src/agent/pending-booking-confirmation.ts:499-539 | likewise for the cancel gate |
| ConversationStore.Conversation.PendingYesNeedsReschedule | api/src/agent/pending-booking-confirmation.ts:146-166 | the run loop's reading of the move record |
| AgentLoop.RunLoop.Run | api/src/agent/agent.service.ts:1194-1212 | for every model, tool and budget: every call of every tool turn is asked for and either executed, its result recorded and told, or told which of the three refusals it met; well-formed stacks at each of at most ten provider calls, no guard retried twice, no side effect twice, preconditions met, handoff on every exit exactly when an escalation succeeded on a bot-owned session; and a reply that is a fixed sentence the executions warrant, or honest about the record, the address and the times, and that leaves a pending yes unacted on, or declares a day shut unlooked, only where the guards' own conditions for asking again had run out |
| AgentLoop.RunLoop.RunIteration | api/src/agent/agent.service.ts:1699-1746 | one turn keeps the record, the pairing and the one-shot retries; which of its outcomes each budget and reply leads to, and what it ends with is owed |
| AgentLoop.RunLoop.FinalizeIteration | api/src/agent/agent.service.ts:1765-1785 | the six guards in their order let through only a reply none of them objects to as the state then stands, as it was written, or the fixed sentence that state warrants |
| AgentLoop.RunLoop.ExecuteToolCall | api/src/agent/agent.service.ts:2292-2388 | a call whose tool is listed, whose needs have run and which is no side effect already performed is executed, and recorded if it returned; each refusal executes nothing; every one of the five paths answers once, with its own payload |
| AgentLoop.RunLoop.ForceAvailabilityCheck | api/src/agent/agent.service.ts:1988-2028 | the server's own check is made exactly when none was forced or has run, the tool is there and a date was named; it keeps the stack well formed |
| AgentLoop.RunLoop.AbsorbToolResult | api/src/agent/agent.service.ts:2413-2471 | escalation latches, the facts accumulate, the offer follows the latest check |
| AgentLoop.RunLoop.AbsorbRecordedOutcome | api/src/agent/agent.service.ts:172-190 | which of the three facts a result lets a reply rest on |
| AgentLoop.RunLoop.ApplyAddressGuard | api/src/agent/agent.service.ts:1788-1817 | passes only a reply that states the address used and no other, the sentence stating that very address once a retry is spent, or the conflict sentence when there is a conflict |
| AgentLoop.RunLoop.ApplyBookingClaimGuard | api/src/agent/agent.service.ts:1823-1859 | a claim beyond the record is never passed on |
| AgentLoop.RunLoop.ApplyRequestClaimGuard | api/src/agent/agent.service.ts:1866-1896 | nor a request said to be forwarded with none on record |
| AgentLoop.RunLoop.ApplyPendingYesGuard | api/src/agent/agent.service.ts:1905-1937 | asks again exactly when a yes is pending, the run has not acted, the guard is armed, it has not asked before and an iteration is left; otherwise changes nothing |
| AgentLoop.RunLoop.ApplyAvailabilityClaimGuard | api/src/agent/agent.service.ts:1957-1986 | passes a claim that nothing looked at exactly when the guard is disarmed, times or a held booking are on screen, the run has acted, no iteration is left, or it has asked before and the server's check is spent |
| AgentLoop.RunLoop.ApplyPromisedCheckGuard | api/src/agent/agent.service.ts:2069-2150 | passes no promise to check without confirmable times on screen, and replaces it with the one of four sentences that fits what was checked and found |
| AgentModel.AnsweredExactly | api/src/agent/agent.service.ts:2292-2388 | the five answers a call can get, each exactly when it is given, a result carrying the tool's own |
| AgentModel.AddressIsTheLastUsed | api/src/agent/agent.service.ts:497-512 | the run's address is in conflict exactly when some tool used another address than the one before; until then its address and use are the last named, and no other address is forgotten |
| AgentModel.AddressSentenceIsTrue | api/src/agent/agent.service.ts:521-525 | with uses as the tools give them, the address sentence speaks of a booking, a request or a check only if the run made one |
| AgentModel.OfferIsTheLatestChecks | api/src/agent/agent.service.ts:2452-2461 | until the run acts, the offer is the latest check's, and held means some check found the customer's own booking |
| AgentModel.OfferIsTheLatestWord | api/src/agent/agent.service.ts:2447-2471 | in every run the times on screen are those of the last check that showed any, with no check and no write to the diary after it |
| AgentModel.ReplacementFitsLatestCheck | api/src/agent/agent.service.ts:2091-2102 | the sentence that replaces a promise is true of the latest check exactly when that check found the customer's booking or none did |
| AgentModel.HeldOutlivesItsCheck | api/src/agent/agent.service.ts:2098-2102 | two checks after which it is not |
| AgentModel.ClaimsAreTrue | api/src/agent/agent.service.ts:172-190 | bookingRecorded holds exactly when some mutation of the run succeeded with a non-request outcome, and so for each other flag |
| AgentModel.FlagsMeanExactly | api/src/agent/agent.service.ts:172-190 | each flag in the tools' own names: which tools, with which results, record a booking, reach the diary, take a request, hand over or look |
| AgentModel.CheckedIfReturned | api/src/agent/agent.service.ts:2364-2445 | availabilityChecked is set exactly when some check of the run came back |
| AgentModel.ThrownCheckIsForgotten | api/src/agent/agent.service.ts:930-936 | a check that throws leaves the run as one that never looked |
| AgentModel.DisciplineHolds | api/src/agent/agent.service.ts:2307-2345 | in-run dedupe and preconditions give at-most-once side effects and needs before uses over the whole run |
| AgentModel.PairedAppends | api/src/agent/agent.service.ts:1736-1745 | well-formed message stacks stay well formed when joined |
| ReplyTimes.ShipsOnlyOfferedTimes | api/src/agent/agent.service.ts:2241-2289 | on a turn that delivered times, what a reply that ships unchanged may name, both directions |
| ReplyTimes.ReplacementSaysWhy | api/src/agent/agent.service.ts:2261-2273 | the plain fallback is used exactly for an enumeration whose invented times the customer never named |
| ReplyMeaning.EveryReplyShips | api/src/agent/agent.service.ts:2241-2289 | what becomes of every reply in every turn, from its readings and the starts of the slots: when it ships as written and which of three sentences replaces it |
| ReplyMeaning.OffersAndNamesExactly | api/src/agent/clock-times.ts:81-94 | an assistant's offer names two different minutes; a customer names a time with any reading |
| ReplyMeaning.DaysAndHoursExactly | api/src/agent/clock-times.ts:223-246 | which slots are of a named day and hour |
| ReplyMeaning.HourIsRefusedExactly | api/src/agent/clock-times.ts:258-279 | an hour counts as refused exactly when the text names one minute, not like a price, that fits no slot to come |
| ReplyMeaning.NearestComesFirst | api/src/agent/clock-times.ts:281-314 | the window's head is first by distance from the hour, then by the hour, then by position, and the window is the next eight slots from it |
| ReplyTimes.DeliveredAreOfferable | api/src/agent/agent.service.ts:1051-1079 | when everything delivered counts as offerable |
| ReplyTimes.BadStartUnsaysDelivered | api/src/agent/agent.service.ts:2241-2289 | with a ninth start that does not parse, a reply repeating a delivered time is replaced |
| ReplyTimes.AppointmentSpanMeasuresItsLength | api/src/agent/clock-times.ts:336-348 | a span measures an appointment exactly when its end is the start plus that length, over midnight too |
| ReplyTimes.UnofferedTimesIn | api/src/agent/clock-times.ts:369-381 | nothing is flagged exactly when there is no enumeration or every reading, or its afternoon reading, was offered |
| ReplyTimes.LatestCustomerTime | api/src/agent/clock-times.ts:81-94 | the newest customer message naming a time, unless an assistant turn listed two times after it |
| ReplyTimes.ResolveNamedSlot | api/src/agent/clock-times.ts:223-246 | the first matching slot of the named day still to come, else the last gone by, else none |
| ReplyTimes.NamesSingleOfferedSlot | api/src/agent/clock-times.ts:248-256 | true exactly when a future slot of the named day matches the one time named |
| ReplyTimes.ChipCandidates | api/src/agent/clock-times.ts:281-314 | for a refused hour on a day with slots, a window of at most eight whose head is the same-day slot nearest that hour, earlier on ties; otherwise all slots |
| ReplyTimes.NearestIsUnique | api/src/agent/clock-times.ts:298-313 | that head is determined |
| ReplyTimes.ChipsCountAsDelivered | api/src/agent/agent.service.ts:1051-1079 | every chip counts as delivered exactly when those taken from beyond the eighth slot repeat a delivered time |
| ReplyTimes.ChipsCanCountAsInvented | api/src/agent/agent.service.ts:2241-2289 | with both chips behind the eighth slot, a reply naming exactly those two is replaced |
| ReplyTimes.WindowIsAnInterval | api/src/agent/clock-times.ts:281-314 | of slots in time order the window holds exactly those from its head to its last, and is short of eight only at the end of the list |
| ReplyTimes.RefusedHourReturnsOnAnotherDay | api/src/agent/clock-times.ts:258-314 | a chip still bookable at the refused hour is shown exactly when one of the seven slots behind the nearest is another day's at that hour |
| ReplyTimes.RefusedHourCanReturn | api/src/agent/clock-times.ts:281-314 | it does, with the next day's slot at that hour behind the named day's last |
| WidgetInvariants.OneSocketOneSession | api/public/widget.js:1660-2077 | in every interleaving: one live socket at most, the widget's own, on the current token and its session; no message under a session other than its socket's, and none twice |
| WidgetDelivery.EveryMessageHasOnePlace | api/public/widget.js:1656-1681 | in every run each message sent is in exactly one place: out, buffered in the live socket, lost with a socket given up, queued, or dropped with its conversation |
| WidgetDelivery.LosesExactly | api/public/widget.js:1656-1670 | a step loses messages exactly when one is sent on a socket given up, or a socket that holds a buffer goes |
| WidgetDelivery.RunLosesExactly | api/public/widget.js:1656-1681 | over every run, messages are lost exactly when some step loses one |
| WidgetDelivery.FlagGoesStaleExactly | api/public/widget.js:1908-1920 | `_connected` outlives its socket exactly when the socket changes while it is set |
| WidgetDelivery.NoMessageIsLost | api/public/widget.js:1672-1681 | in a run where that never happens, every message sent is out, queued, or was dropped when its conversation was replaced |
| WidgetDelivery.RecoveryLeavesFlagStale | api/public/widget.js:1908-1931 | from any connected state a forbidden answer and the recovery leave it set over a socket not yet connected |
| WidgetDelivery.StaleFlagLosesMessage | api/public/widget.js:2199-2204 | there a message is lost whether it is sent before or after the server calls the token invalid |
| WidgetInvariants.SupersededInitChangesNothing | api/public/widget.js:1872-1927 | a superseded init leaves session, token, socket, queue and cache as they were, and so does its connect; one that fails as a recovery clears the guard and nothing else |
| WidgetInvariants.NewConversationStartsClean | api/public/widget.js:1993-2014 | after a new conversation is granted no earlier message ever goes out |
| WidgetProgress.ScriptResumesCache | api/public/widget.js:1827-1872 | a usable cached session with a token is resumed under its own session and token without asking; otherwise the server is asked |
| WidgetProgress.ForbiddenAnswersRecover | api/public/widget.js:1908-1931 | the three forbidden answers begin the same recovery, and none does while one is on its way |
| WidgetProgress.OtherAnswersBeginNothing | api/public/widget.js:1781-1927 | a script that fails, a history that is not forbidden and a refusal begin nothing |
| WidgetProgress.PageLoadReachesItsSession | api/public/widget.js:1781-2077 | a page load whose awaits are answered ends connected on the cached session, or the server's, and sends what was typed meanwhile on that socket, in order |
| WidgetProgress.RecoveryReaches | api/public/widget.js:1908-1931 | so does a recovery, from any state whose own socket is refused |
| WidgetProgress.GrantedConversationReaches | api/public/widget.js:1993-2039 | a granted conversation ends connected on what was granted, with the old queue dropped and nothing new out |
| WidgetProgress.DropQueuesUntilBack | api/public/widget.js:1656-1681 | a dropped socket queues what is sent until it is back, and then sends it in order |
| WidgetProgress.SendGoesOutExactly | api/public/widget.js:3032-3057 | a message goes out at once exactly when session, socket and flag are there; else it queues last |
| WidgetProgress.RequestsAreSpaced | api/public/widget.js:1933-1992 | however often the button is tapped, two requests are a second and a half apart |
| WidgetProgress.TapAsksExactly | api/public/widget.js:1933-1992 | the server is asked exactly for a tap outside the guard and the throttle, with a token to ask with |
| WidgetProgress.SavedSessionIsResumed | api/public/widget.js:1827-1872 | the session held when the widget saves is the one the next page load resumes |
| WidgetProgress.JoinBackfillsExactly | api/public/widget.js:2099-2112 | a join asks for the history exactly when it is wanted and there is a session and a token to ask with |
| WidgetInvariants.StrandsExactly | api/public/widget.js:2191-2205 | one step leaves a recovery without a waiting piece and without a socket to hear from exactly when its socket is refused as invalid, its turn to connect finds no token, or it was so and nothing rescued it |
| WidgetInvariants.RecoveryIsStrandedExactly | api/public/widget.js:1908-1931 | over every run from a page load, the last event that strands or rescues decides |
| WidgetInvariants.RecoveryIsNeverStranded | api/public/widget.js:1908-1931 | while no socket is refused as invalid and every init brings a token, an unfinished recovery has a piece waiting or a live socket |
| WidgetInvariants.StrandedForGood | api/public/widget.js:1909-1909 | until a new conversation is granted or an earlier recovery's init fails, a stranded widget opens no socket and refuses every recovery |
| WidgetInvariants.RecoveryCanStrand | api/public/widget.js:1884-2204 | from any connected state, both ways of stranding |
| WidgetInvariants.OrderBreaksExactlyByOvertaking | api/public/widget.js:3032-3057 | messages stay in order except exactly when one goes straight out while others are queued |
| WidgetInvariants.RecoveryCanReorder | api/public/widget.js:1908-1931 | from any connected state a forbidden answer, two messages and a reconnect do that |
| WidgetClient.Widget.FlushPendingMessages | api/public/widget.js:1672-1681 | the loop emits the queue whole and in order, or leaves it |
| WidgetClient.Widget.RecoverWidgetSession | api/public/widget.js:1908-1931 | up to its first await, recovery takes the model's piece |
| WidgetClient.Widget.InitSession | api/public/widget.js:1827-1872 | resuming the cache or asking the server, up to the first await |
| WidgetClient.Widget.ConnectSocketIO | api/public/widget.js:2041-2077 | a superseded, tokenless or scriptless caller opens nothing |
| WidgetClient.Widget.OnConnectError | api/public/widget.js:2191-2206 | an expired token recovers, an invalid one silences the socket, anything else changes nothing |
| WidgetClient.Widget.AdoptNewConversation | api/public/widget.js:1993-2039 | the swap to the granted session takes the model's piece |
| WidgetClient.Widget.Dispatch | api/public/widget.js:1781-2207 | every event moves the object by exactly one step of the model |

## Left out

- Parsing text: regular expressions for times, dates, weekdays, spans, affirmations and claims are parameters or given as parsed pieces.
- Time zones and calendar arithmetic: a slot carries its local day and minute; `upcomingMidnightDate` is not modelled.
- Characters are Unicode scalar values, not UTF-16 units; a CSV delimiter is one character.
- Lower-casing and spreadsheet output; `clampCell` and `toXlsx` are not modelled.
- Empty strings from Stripe are treated as absent ids, as the code's truthiness tests do.
- Sibling keys of `raw_provider_data`, `updated_at`, audit rows, billing-event rows, telemetry metadata and cache invalidation timing.
- The row lookup before the tenant lock and the re-read after it are one step; a single UPDATE's row-by-row index checks are not modelled.
- The `changed` results of the manual override, which compare dates by reference.
- Refunds and trial-will-end events write nothing and appear as one logged event.
- Price lookup, status mapping and schedule phases of the Stripe adapter are inputs; a webhook's subscription id is the same in its lookup and payload fields.
- BillingInvariants.TierAgreesOverRuns: excludes past-due revivals, because `BillingOverrides.TierCanDrift` shows they break it.
- That the mail queue honours a reminder's key is outside the model.
- TTL lengths, and records of other sessions, which share nothing.
- Capacity: rows inserted without passing the gate, and the cached read of `requireFeature`.
- Tenant deletion, portal actions, plan changes and cancellation at period end.
- Prompt building, metering, tracing, affordances, chips' labels, the offer record and the persisted request mark.
- Top-ups in `TopUpLedger` are balances only, and a tenant without a row is one with balance zero.
- The provider's single retry on a transient failure shows the same stack again.
- The widget's transcript, history backfill, uploads and `destroy`, which does not end pending pieces.
- A clock that reads zero, which the new-conversation throttle ignores.
- Socket.IO itself: a message over a connected socket counts as out, and one buffered in a live socket goes out when it connects.
