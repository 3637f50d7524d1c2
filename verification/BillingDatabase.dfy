/**
 The billing tables as the writers change them, statement by statement. Each method is proved to leave
 the tables as `BillingModel` says one step does, so the results about runs of steps hold of it.
 */
module BillingDatabase {
  import opened Wrappers
  import opened BillingModel
  import opened BillingInvariants
  import BillingDunning

  class Database {
    var tiers: map<Id, Plan>
    var accounts: Accounts
    var reservations: map<Id, Reservation>
    var topUps: map<Id, int>
    /** Reminder e-mails accepted by the durable queue, one per idempotency key. */
    var outbox: set<Reminder>
    var sweepInFlight: bool

    ghost function State(): Store
      reads this
    {
      Store(tiers, accounts, reservations, topUps)
    }

    ghost predicate Valid()
      reads this
    {
      Inv(State())
    }

    // -------------------------------------------------------------- webhook events

    method ResolveEventRow(e: Event) returns (found: Option<Key>)
      requires Valid() && RowEvent(e)
      ensures found == Resolve(accounts, e)
    {
      if e.subscriptionId.Some? {
        if k :| k in accounts && HasSubscription(accounts, k, e.subscriptionId.value) {
          FoundByItsSubscription(accounts, k, e.subscriptionId.value);
          return Some(k);
        }
      }
      if e.customerId.Some? {
        if k :| k in accounts && HasCustomer(accounts, k, e.customerId.value) {
          FoundByItsCustomer(accounts, k, e.customerId.value);
          return if FallbackAllowed(e, accounts[k]) then Some(k) else None;
        }
      }
      return None;
    }

    /** One UPDATE over the tenant's rows, so that no state in between has two primaries. */
    method PromotePrimaryAndCascadeTier(k: Key, tier: Plan)
      requires k in accounts
      modifies this`accounts, this`tiers
      ensures accounts == Crown(old(accounts), k) && tiers == old(tiers)[k.tenant := tier]
    {
      accounts := map x | x in accounts ::
        if x.tenant == k.tenant && (x == k || accounts[x].primary) then
          accounts[x].(primary := if x == k then true else if accounts[x].primary then false else accounts[x].primary)
        else accounts[x];
      tiers := tiers[k.tenant := tier];
    }

    /** The guards that finish the event without touching a row. */
    method SkipReason(e: Event, row: Account) returns (skip: Option<Outcome>)
      requires e.SubscriptionUpsert?
      ensures skip == UpsertSkip(e, row)
    {
      if e.payload.None? { return Some(NoPayload); }
      var p := e.payload.value;
      if row.subscriptionId.Some? && p.subscriptionId.Some? && row.subscriptionId != p.subscriptionId {
        return Some(SubscriptionMismatch);
      }
      if !e.terminal && e.price == UnknownPrice { return Some(UnknownPriceSkipped); }
      return None;
    }

    /** None when the arm throws. */
    method HandleSubscriptionUpsert(e: Event, k: Key, now: Time) returns (outcome: Option<Outcome>)
      requires UniquePrimary(accounts) && e.SubscriptionUpsert? && k in accounts
      modifies this`accounts, this`tiers, this`reservations
      ensures match HandleUpsert(old(State()), e, k, now)
              case Threw => outcome.None? && State() == old(State())
              case Done(after, said) => outcome == Some(said) && State() == after
    {
      outcome := SkipReason(e, accounts[k]);
      if outcome.Some? { return; }
      var p, row := e.payload.value, accounts[k];
      var newPlan := NewPlan(p, row, e.price);
      if e.schedule == ById(None) { return None; }
      var fields := UpdateFields(row, p, newPlan, e.schedule);
      SameRefusal(accounts, k, fields, UpsertedRow(row, p, e.price, e.schedule, now));
      if !UniqueIds(accounts[k := fields]) { return None; }
      StatementsAddUp(State(), e, k, now);
      outcome := WriteSubscription(e, k, now, fields, newPlan);
    }

    /** The statements of an upsert no guard skips and no index refuses. */
    method WriteSubscription(e: Event, k: Key, now: Time, fields: Account, newPlan: Plan)
      returns (outcome: Option<Outcome>)
      requires e.SubscriptionUpsert? && e.payload.Some? && k in accounts && fields.primary == accounts[k].primary
      modifies this`accounts, this`tiers, this`reservations
      ensures accounts == AccountsAfter(old(accounts), e, k, now, RawData(fields, e.schedule))
      ensures tiers == if Granting(e.payload.value.status) then old(tiers)[k.tenant := newPlan] else old(tiers)
      ensures reservations == Claimed(old(reservations), k.tenant, e.payload.value.subscriptionId)
      ensures outcome == Some(UpsertOutcome(e.payload.value.status, old(accounts)[k].primary))
    {
      var row := accounts[k];
      ghost var before := accounts;
      accounts := accounts[k := fields];
      ClaimReservation(k.tenant, e.payload.value.subscriptionId);
      accounts := accounts[k := RawData(accounts[k], e.schedule)];
      assert accounts == before[k := RawData(fields, e.schedule)];
      outcome := ResolveOutcome(e, k, row, newPlan, now);
    }

    method ClaimReservation(t: Id, sub: Option<Id>)
      modifies this`reservations
      ensures reservations == Claimed(old(reservations), t, sub)
    {
      if sub.Some? && t in reservations && reservations[t].subscription.None? {
        reservations := reservations[t := reservations[t].(subscription := sub)];
      }
    }

    method ResolveOutcome(e: Event, k: Key, row: Account, newPlan: Plan, now: Time) returns (outcome: Option<Outcome>)
      requires e.SubscriptionUpsert? && e.payload.Some? && k in accounts && accounts[k].primary == row.primary
      modifies this`accounts, this`tiers
      ensures accounts == Settled(old(accounts), e, k, now, row)
      ensures tiers == if Granting(e.payload.value.status) then old(tiers)[k.tenant := newPlan] else old(tiers)
      ensures outcome == Some(UpsertOutcome(e.payload.value.status, row.primary))
    {
      var p := e.payload.value;
      if Granting(p.status) && !row.primary {
        PromotePrimaryAndCascadeTier(k, newPlan);
        return Some(PromotedPrimary);
      }
      if row.primary && Granting(p.status) {
        tiers := tiers[k.tenant := newPlan];
        return Some(TierCascaded);
      }
      if row.primary && p.status == PastDue {
        if p.subscriptionId.Some? && row.clock.None? {
          accounts := accounts[k := accounts[k].(clock := Some(now))];
        }
        return Some(PastDueGrace);
      }
      return Some(if row.primary then PrimaryNoCascade else NonPrimaryUpdated);
    }

    method HandleSubscriptionDeleted(e: Event, k: Key) returns (outcome: Option<Outcome>)
      requires e.SubscriptionDeleted? && k in accounts
      modifies this`accounts, this`tiers
      ensures match HandleDeleted(old(State()), e, k)
              case Threw => outcome.None? && State() == old(State())
              case Done(after, said) => outcome == Some(said) && State() == after
    {
      var row := accounts[k];
      if e.deletedId.Some? && row.subscriptionId.Some?
        && row.subscriptionId != e.deletedId {
        return Some(DeletedStale);
      }
      if e.deletedId.Some? && e.refetch == ApiError { return None; }
      CancelRow(k);
      if row.primary { tiers := tiers[k.tenant := Free]; }
      return Some(TenantCancelled);
    }

    method CancelRow(k: Key)
      requires k in accounts
      modifies this`accounts
      ensures accounts == old(accounts)[k := Dropped(old(accounts)[k])]
    {
      accounts := accounts[k := accounts[k].(
        status := Cancelled, plan := Free, pendingPlan := None, pendingAt := None, trialEnd := None, periodEnd := None,
        cancelAtPeriodEnd := false, subscriptionId := None, clock := None)];
    }

    method HandleInvoiceEvent(e: Event, k: Key, now: Time) returns (outcome: Outcome)
      requires (e.InvoicePaid? || e.InvoiceFailed?) && k in accounts
      modifies this`accounts
      ensures HandleInvoice(old(State()), e, k, now) == Done(State(), outcome)
    {
      var row := accounts[k];
      ghost var before := accounts;
      assert before[k := row] == before;
      var scoped := e.subscriptionId.Some?;
      if scoped && row.subscriptionId.Some? && e.subscriptionId != row.subscriptionId { return InvoiceMismatch; }
      if e.InvoicePaid? {
        if row.status == PastDue && scoped {
          accounts := accounts[k := row.(status := Active, clock := None)];
          return PastDueRecovered;
        }
        if scoped && row.clock.Some? {
          accounts := accounts[k := row.(clock := None)];
        }
        return InvoicePaidNoChange;
      }
      if !scoped { return InvoiceFailedNoChange; }
      if Granting(row.status) {
        accounts := accounts[k := row.(status := PastDue, clock := if row.clock.None? then Some(now) else row.clock)];
        return MarkedPastDue;
      }
      return InvoiceFailedNoChange;
    }

    method HandleCheckoutSessionCompleted(e: Event) returns (outcome: Option<Outcome>)
      requires e.CheckoutCompleted? && UniqueIds(accounts)
      modifies this`accounts, this`topUps
      ensures match HandleCheckout(old(State()), e)
              case Threw => outcome.None? && State() == old(State())
              case Done(after, said) => outcome == Some(said) && State() == after
    {
      if e.session.None? { return Some(CheckoutIgnored); }
      match e.session.value {
        case FetchFailed => return None;
        case OtherMode => return Some(CheckoutIgnored);
        case TopUp(t, tokens) =>
          if t.None? { return Some(TopUpUnresolvedTenant); }
          if tokens <= 0 { return Some(TopUpInvalid); }
          topUps := topUps[t.value := tokens + if t.value in topUps then topUps[t.value] else 0];
          return Some(TopUpCredited);
        case SubscriptionMode(t, customer, sub) =>
          if t.None? { return Some(CheckoutUnresolvedTenant); }
          var k := Key(t.value, Stripe);
          if k !in accounts { return Some(CheckoutNoRow); }
          var row := accounts[k];
          ghost var before := accounts;
          var booked := row;
          if customer.Some? && row.customerId != customer { booked := booked.(customerId := customer); }
          if row.subscriptionId != Some(sub) { booked := booked.(subscriptionId := Some(sub)); }
          assert before[k := row] == before;
          if booked != row {
            if !UniqueIds(accounts[k := booked]) { return None; }
            accounts := accounts[k := booked];
          }
          return Some(CheckoutBookkept);
      }
    }

    method HandleCheckoutSessionExpired(e: Event) returns (outcome: Outcome)
      requires e.CheckoutExpired?
      modifies this`reservations
      ensures HandleExpired(old(State()), e) == Done(State(), outcome)
    {
      if e.sessionId.None? || e.tenant.None? { return ReservationKept; }
      var t := e.tenant.value;
      if t in reservations && reservations[t].session == e.sessionId && reservations[t].subscription.None? {
        reservations := map u | u in reservations && u != t :: reservations[u];
        return ReservationReleased;
      }
      return ReservationKept;
    }

    /** The handler between a savepoint and its release: None is a throw, after which the rows read as before. */
    method RunCallback(e: Event, now: Time) returns (outcome: Option<Outcome>)
      requires Valid() && Normalized(e)
      modifies this
      ensures Valid() && State() == Webhook(old(State()), e, now) && outbox == old(outbox)
        && sweepInFlight == old(sweepInFlight)
      ensures match Handle(old(State()), e, now) case Threw => outcome.None? case Done(_, said) => outcome == Some(said)
    {
      WebhookIsSound(State(), e, now);
      var savedTiers, savedAccounts, savedReservations, savedTopUps := tiers, accounts, reservations, topUps;
      outcome := HandleNormalizedEvent(e, now);
      if outcome.None? {
        tiers, accounts, reservations, topUps := savedTiers, savedAccounts, savedReservations, savedTopUps;
      }
    }

    method HandleNormalizedEvent(e: Event, now: Time) returns (outcome: Option<Outcome>)
      requires Valid()
      modifies this`tiers, this`accounts, this`reservations, this`topUps
      ensures match Handle(old(State()), e, now)
              case Threw => outcome.None?
              case Done(after, said) => outcome == Some(said) && State() == after
    {
      if e.LogOnly? { return Some(AuditOnly); }
      if e.CheckoutCompleted? {
        outcome := HandleCheckoutSessionCompleted(e);
        return;
      }
      if e.CheckoutExpired? {
        var said := HandleCheckoutSessionExpired(e);
        return Some(said);
      }
      var found := ResolveEventRow(e);
      if found.None? { return Some(NoMatchingRow); }
      outcome := HandleMatchedEvent(e, found.value, now);
    }

    method HandleMatchedEvent(e: Event, k: Key, now: Time) returns (outcome: Option<Outcome>)
      requires UniquePrimary(accounts) && RowEvent(e) && k in accounts
      modifies this`tiers, this`accounts, this`reservations
      ensures match HandleMatched(old(State()), e, k, now)
              case Threw => outcome.None?
              case Done(after, said) => outcome == Some(said) && State() == after
    {
      if e.SubscriptionUpsert? {
        outcome := HandleSubscriptionUpsert(e, k, now);
      } else if e.SubscriptionDeleted? {
        outcome := HandleSubscriptionDeleted(e, k);
      } else {
        var said := HandleInvoiceEvent(e, k, now);
        outcome := Some(said);
      }
    }

    // -------------------------------------------------------------- manual override and onboarding trial

    /** `UPDATE ... SET is_primary = false WHERE tenant_id = $1 AND is_primary = true`. */
    method DemotePrimary(t: Id)
      modifies this`accounts
      ensures accounts == Demoted(old(accounts), t)
    {
      accounts := map x | x in accounts ::
        if x.tenant == t && accounts[x].primary then accounts[x].(primary := false) else accounts[x];
    }

    method GrantOnboardingProTrial(t: Id, trialEnd: Time) returns (changed: bool)
      requires Valid()
      modifies this`tiers, this`accounts, this`reservations
      ensures Valid() && GrantTrial(old(State()), t, trialEnd) == (State(), changed)
    {
      GrantIsSound(State(), t, trialEnd);
      if t in reservations || t !in tiers { return false; }
      var k := Key(t, Manual);
      ghost var row := ManualRow(State(), t).(status := Trialing, plan := Pro, trialEnd := Some(trialEnd));
      DemotedThenInserted(accounts, k, row);
      reservations := reservations[t := Reservation(None, None)];
      DemotePrimary(t);
      var written := if k in accounts then accounts[k] else NewRow(None, Trialing, Pro, true);
      accounts := accounts[k := written.(status := Trialing, plan := Pro, primary := true, trialEnd := Some(trialEnd))];
      tiers := tiers[t := Pro];
      return true;
    }

    method ExpireOnboardingProTrial(t: Id, now: Time) returns (expired: bool)
      requires Valid()
      modifies this`tiers, this`accounts
      ensures Valid() && State() == ExpireTrial(old(State()), t, now) && expired == TrialOver(old(State()), t, now)
    {
      ExpireIsSound(State(), t, now);
      var k := Key(t, Manual);
      if k !in accounts { return false; }
      var row := accounts[k];
      if !(row.primary && row.status == Trialing && row.trialEnd.Some? && row.trialEnd.value <= now) { return false; }
      accounts := accounts[k := row.(status := NoPlan, plan := Free, trialEnd := None)];
      tiers := tiers[t := Free];
      return true;
    }

    /** False when the tenant does not exist, where the source throws. */
    method SetTierManual(t: Id, tier: Plan, opts: Options) returns (found: bool)
      requires Valid()
      modifies this`tiers, this`accounts
      ensures Valid() && State() == SetTier(old(State()), t, tier, opts) && found == (t in old(tiers))
    {
      OverrideIsSound(State(), t, tier, opts);
      if t !in tiers { return false; }
      var k := Key(t, Manual);
      var status := TargetStatus(tier);
      if tiers[t] == tier && k in accounts && accounts[k].primary && accounts[k].plan == tier
        && accounts[k].status == status {
        ApplyManualFieldUpdatesOnly(k, opts);
        return true;
      }
      InstallManualRow(t, tier, status, opts);
      return true;
    }

    /** Demote, upsert, cascade: three statements, no state between them with two primaries. */
    method InstallManualRow(t: Id, tier: Plan, status: Status, opts: Options)
      modifies this`tiers, this`accounts
      ensures tiers == old(tiers)[t := tier]
      ensures accounts
        == Crown(old(accounts)[Key(t, Manual) := OverriddenRow(old(State()), t, tier, status, opts)], Key(t, Manual))
    {
      var k := Key(t, Manual);
      DemotedThenInserted(accounts, k, OverriddenRow(State(), t, tier, status, opts));
      DemotePrimary(t);
      var written := if k in accounts then accounts[k] else NewRow(None, status, tier, true);
      accounts := accounts[k := written.(
        status := status, plan := tier, primary := true,
        periodEnd := if opts.periodEnd.Given? then Some(opts.periodEnd.value) else written.periodEnd,
        billingEmail := if opts.billingEmail.Given? then Some(opts.billingEmail.value) else written.billingEmail)];
      tiers := tiers[t := tier];
    }

    method ApplyManualFieldUpdatesOnly(k: Key, opts: Options)
      requires k in accounts
      modifies this`accounts
      ensures accounts == old(accounts)[k := old(accounts)[k].(
        periodEnd := Assigned(opts.periodEnd, old(accounts)[k].periodEnd),
        billingEmail := Assigned(opts.billingEmail, old(accounts)[k].billingEmail))]
    {
      var row := accounts[k];
      if !opts.periodEnd.Omitted? {
        row := row.(periodEnd := if opts.periodEnd.Given? then Some(opts.periodEnd.value) else None);
      }
      if !opts.billingEmail.Omitted? {
        row := row.(billingEmail := if opts.billingEmail.Given? then Some(opts.billingEmail.value) else None);
      }
      accounts := accounts[k := row];
    }

    // -------------------------------------------------------------- checkout

    /** False where the insert is refused: no such tenant, or the customer id is another row's. */
    method StartCheckoutUpsert(t: Id, customer: Id) returns (ok: bool)
      requires Valid()
      modifies this`accounts
      ensures Valid() && State() == CheckoutUpsert(old(State()), t, customer)
      ensures !ok ==> State() == old(State())
    {
      StartCheckoutIsSound(State(), t, customer);
      if t !in tiers { return false; }
      var k := Key(t, Stripe);
      var row := if k in accounts then accounts[k] else NewRow(None, NoPlan, Free, false);
      if row.customerId.None? { row := row.(customerId := Some(customer)); }
      if !UniqueIds(accounts[k := row]) { return false; }
      accounts := accounts[k := row];
      return true;
    }

    /** `INSERT ... ON CONFLICT DO NOTHING RETURNING`, then the session id is stamped on a fresh row. */
    method ReserveCheckoutTrial(t: Id, session: Id) returns (allowTrial: bool)
      modifies this`reservations
      ensures State() == ReserveTrial(old(State()), t, session)
      ensures allowTrial == (t !in old(reservations) && t in tiers)
    {
      if t in reservations || t !in tiers { return false; }
      reservations := reservations[t := Reservation(None, None)];
      if reservations[t].subscription.None? {
        reservations := reservations[t := reservations[t].(session := Some(session))];
      }
      return true;
    }

    // -------------------------------------------------------------- dunning

    method CancelPastDueSubscriptionNow(t: Id, now: Time, stripeCancels: bool) returns (dropped: bool)
      requires UniquePrimary(accounts)
      modifies this`accounts, this`tiers
      ensures State() == CancelPastDue(old(State()), t, now, stripeCancels)
      ensures dropped == (Overdue(old(State()), t, now) && stripeCancels)
    {
      var k := Key(t, Stripe);
      if k !in accounts || !accounts[k].primary { return false; }
      var row := accounts[k];
      if row.status != PastDue || row.subscriptionId.None? || row.clock.None?
        || now < row.clock.value + GRACE {
        return false;
      }
      if !stripeCancels { return false; }
      CancelRow(k);
      tiers := tiers[t := Free];
      return true;
    }

    /** Nothing is queued for a tenant with no reachable billing address; a failing queue throws. */
    method SendDunningReminder(t: Id, day: DunningDay, now: Time, addressed: bool, queueFails: bool) returns (ok: bool)
      modifies this`outbox
      ensures ok == (RemindableRow(old(State()), t, now) && addressed ==> !queueFails)
      ensures outbox == if RemindableRow(State(), t, now) && addressed && !queueFails
                        then old(outbox) + {Reminder(t, accounts[Key(t, Stripe)].clock.value, day)} else old(outbox)
    {
      var k := Key(t, Stripe);
      if k !in accounts || !accounts[k].primary { return true; }
      var row := accounts[k];
      if row.status != PastDue || row.clock.None? { return true; }
      if now >= row.clock.value + GRACE { return true; }
      if !addressed { return true; }
      if queueFails { return false; }
      outbox := outbox + {Reminder(t, row.clock.value, day)};
      return true;
    }

    /** The loop body: cancel past the grace period, remind within it, skip a row without a clock. */
    method VisitRow(k: Key, now: Time, cancels: bool, addressed: bool, queueFails: bool)
      returns (reminded: nat, dropped: nat)
      requires k in accounts && UniquePrimary(accounts) && k == Key(k.tenant, Stripe)
      requires accounts[k].primary && accounts[k].status == PastDue
      modifies this`accounts, this`tiers, this`outbox
      ensures State() == CancelPastDue(old(State()), k.tenant, now, cancels)
      ensures dropped == if Overdue(old(State()), k.tenant, now) && cancels then 1 else 0
      ensures reminded == if RemindableRow(old(State()), k.tenant, now) && !(addressed && queueFails) then 1 else 0
      ensures outbox == old(outbox) + if RemindableRow(old(State()), k.tenant, now) && addressed && !queueFails
                                      then {DueReminder(old(State()), k.tenant, now)} else {}
    {
      reminded, dropped := 0, 0;
      var row := accounts[k];
      if row.clock.None? { return; }
      var elapsed := now - row.clock.value;
      if elapsed >= GRACE {
        var gone := CancelPastDueSubscriptionNow(k.tenant, now, cancels);
        if gone { dropped := 1; }
      } else {
        var ok := SendDunningReminder(k.tenant, HighestDueDay(elapsed), now, addressed, queueFails);
        if ok { reminded := 1; }
      }
    }

    /**
     One sweep, its reads and updates taken as one step. `rows` are the due rows in the order the query
     returns them; `cancels` are the tenants whose Stripe cancellation goes through, `addressed` those with
     a billing address, `failing` those whose reminder throws.
     */
    method RunDunningSweep(rows: seq<Key>, now: Time, cancels: set<Id>, addressed: set<Id>, failing: set<Id>)
      returns (reminded: nat, dropped: nat)
      requires Valid() && Lists(rows, DueRows(State()))
      modifies this
      ensures Valid() && sweepInFlight == old(sweepInFlight)
      ensures old(sweepInFlight) ==> State() == old(State()) && outbox == old(outbox) && reminded == dropped == 0
      ensures !old(sweepInFlight) ==>
        && State() == Sweep(old(State()), now, cancels)
        && outbox == old(outbox) + Queued(old(State()), DueRows(old(State())), now, addressed, failing)
        && dropped == |DroppedBy(old(State()), DueRows(old(State())), now, cancels)|
        && reminded == |RemindedBy(old(State()), DueRows(old(State())), now, addressed, failing)|
    {
      if sweepInFlight { return 0, 0; }
      sweepInFlight := true;
      ghost var sweep := SweepArgs(State(), outbox, now, cancels, addressed, failing);
      reminded, dropped := VisitRows(rows, sweep, now, cancels, addressed, failing);
      EndOfSweep(sweep, rows);
      sweepInFlight := false;
    }

    method VisitRows(rows: seq<Key>, ghost w: SweepArgs, now: Time, cancels: set<Id>, addressed: set<Id>,
                     failing: set<Id>)
      returns (reminded: nat, dropped: nat)
      requires Inv(w.before) && Lists(rows, DueRows(w.before))
      requires w == SweepArgs(State(), outbox, now, cancels, addressed, failing)
      modifies this`accounts, this`tiers, this`outbox
      ensures Tally(State(), outbox, reminded, dropped) == VisitAll(w, rows)
    {
      reminded, dropped := 0, 0;
      for i := 0 to |rows|
        invariant Tally(State(), outbox, reminded, dropped) == VisitAll(w, rows[..i])
      {
        NextIsDue(w, rows, i);
        var k := rows[i];
        var r, d := VisitRow(k, now, k.tenant in cancels, k.tenant in addressed, k.tenant in failing);
        reminded, dropped := reminded + r, dropped + d;
        assert rows[..i + 1][..i] == rows[..i];
      }
      assert rows[..|rows|] == rows;
    }
  }

  // ---------------------------------------------------------------- the sweep, part way

  function DueRows(s: Store): set<Key> {
    set k | k in s.accounts && k.provider == Stripe && s.accounts[k].status == PastDue && s.accounts[k].primary
  }

  function DroppedBy(s: Store, done: set<Key>, now: Time, cancels: set<Id>): set<Key> {
    set k | k in done && Overdue(s, k.tenant, now) && k.tenant in cancels
  }

  /** A reminder that is not sent for want of an address still counts; one that throws does not. */
  function RemindedBy(s: Store, done: set<Key>, now: Time, addressed: set<Id>, failing: set<Id>): set<Key> {
    set k | k in done && RemindableRow(s, k.tenant, now) && !(k.tenant in addressed && k.tenant in failing)
  }

  function Queued(s: Store, done: set<Key>, now: Time, addressed: set<Id>, failing: set<Id>): set<Reminder> {
    set k | k in done && RemindableRow(s, k.tenant, now) && k.tenant in addressed && k.tenant !in failing ::
      DueReminder(s, k.tenant, now)
  }

  /**
   What a whole sweep queues: the reminders of the model's sweep, for tenants with an address whose send does
   not throw.
   */
  lemma SweepQueuesReminders(s: Store, now: Time, addressed: set<Id>, failing: set<Id>)
    ensures Queued(s, DueRows(s), now, addressed, failing)
      == set r | r in BillingDunning.QueuedBy(s, now) && r.tenant in addressed && r.tenant !in failing
  {
    var queued := Queued(s, DueRows(s), now, addressed, failing);
    forall r ensures r in queued
      <==> r in BillingDunning.QueuedBy(s, now) && r.tenant in addressed && r.tenant !in failing
    {
      BillingDunning.QueuedExactly(s, now, r);
      if RemindableRow(s, r.tenant, now) && DueReminder(s, r.tenant, now) == r && r.tenant in addressed
        && r.tenant !in failing {
        assert Key(r.tenant, Stripe) in DueRows(s);
      }
    }
  }

  /** The sweep when only the rows in `done` have been visited. */
  ghost function SweptSoFar(s: Store, done: set<Key>, now: Time, cancels: set<Id>): Store {
    s.(accounts := map k | k in s.accounts ::
         if k in done && Overdue(s, k.tenant, now) && k.tenant in cancels then Dropped(s.accounts[k])
           else s.accounts[k],
       tiers := map t | t in s.tiers ::
         if Key(t, Stripe) in done && Overdue(s, t, now) && t in cancels then Free else s.tiers[t])
  }

  lemma NothingSwept(s: Store, now: Time, cancels: set<Id>)
    ensures SweptSoFar(s, {}, now, cancels) == s
  {
    assert SweptSoFar(s, {}, now, cancels).accounts == s.accounts;
    assert SweptSoFar(s, {}, now, cancels).tiers == s.tiers;
  }

  lemma AllSwept(s: Store, now: Time, cancels: set<Id>)
    requires Inv(s)
    ensures SweptSoFar(s, DueRows(s), now, cancels) == Sweep(s, now, cancels)
  {
    assert SweptSoFar(s, DueRows(s), now, cancels).accounts == Sweep(s, now, cancels).accounts;
    assert SweptSoFar(s, DueRows(s), now, cancels).tiers == Sweep(s, now, cancels).tiers;
  }

  /** The rows visited before left a due row, and what is due to it, alone. */
  lemma StillDue(s: Store, done: set<Key>, k: Key, now: Time, cancels: set<Id>)
    requires k in DueRows(s) && k !in done
    ensures var so := SweptSoFar(s, done, now, cancels);
      && k in so.accounts && so.accounts[k] == s.accounts[k]
      && Overdue(so, k.tenant, now) == Overdue(s, k.tenant, now)
      && RemindableRow(so, k.tenant, now) == RemindableRow(s, k.tenant, now)
      && (RemindableRow(s, k.tenant, now) ==> DueReminder(so, k.tenant, now) == DueReminder(s, k.tenant, now))
      && (UniquePrimary(s.accounts) ==> UniquePrimary(so.accounts))
  {
    assert k == Key(k.tenant, Stripe);
  }

  /** Visiting one more due row is the guarded cancellation of its tenant. */
  lemma OneMoreSwept(s: Store, done: set<Key>, k: Key, now: Time, cancels: set<Id>)
    requires k in DueRows(s) && k !in done && k.tenant in s.tiers
    ensures SweptSoFar(s, done + {k}, now, cancels)
      == CancelPastDue(SweptSoFar(s, done, now, cancels), k.tenant, now, k.tenant in cancels)
  {
    var so, more := SweptSoFar(s, done, now, cancels), SweptSoFar(s, done + {k}, now, cancels);
    StillDue(s, done, k, now, cancels);
    assert k == Key(k.tenant, Stripe);
    if Overdue(s, k.tenant, now) && k.tenant in cancels {
      SweptOverdue(s, done, k, now, cancels);
    } else {
      assert more.accounts == so.accounts;
      assert more.tiers == so.tiers;
    }
  }

  lemma SweptOverdue(s: Store, done: set<Key>, k: Key, now: Time, cancels: set<Id>)
    requires k in DueRows(s) && k !in done && Overdue(s, k.tenant, now) && k.tenant in cancels
    ensures SweptSoFar(s, done, now, cancels).accounts[k] == s.accounts[k]
    ensures SweptSoFar(s, done + {k}, now, cancels).accounts
      == SweptSoFar(s, done, now, cancels).accounts[k := Dropped(s.accounts[k])]
    ensures k.tenant in s.tiers ==>
      SweptSoFar(s, done + {k}, now, cancels).tiers == SweptSoFar(s, done, now, cancels).tiers[k.tenant := Free]
  {
    assert k == Key(k.tenant, Stripe);
    assert SweptSoFar(s, done + {k}, now, cancels).accounts
      == SweptSoFar(s, done, now, cancels).accounts[k := Dropped(s.accounts[k])];
    if k.tenant in s.tiers {
      assert SweptSoFar(s, done + {k}, now, cancels).tiers == SweptSoFar(s, done, now, cancels).tiers[k.tenant := Free];
    }
  }

  lemma OneMoreDropped(s: Store, done: set<Key>, k: Key, now: Time, cancels: set<Id>)
    requires k !in done
    ensures |DroppedBy(s, done + {k}, now, cancels)|
         == |DroppedBy(s, done, now, cancels)| + if Overdue(s, k.tenant, now) && k.tenant in cancels then 1 else 0
  {
    assert DroppedBy(s, done + {k}, now, cancels)
        == DroppedBy(s, done, now, cancels) + if Overdue(s, k.tenant, now) && k.tenant in cancels then {k} else {};
  }

  lemma OneMoreReminded(s: Store, done: set<Key>, k: Key, now: Time, addressed: set<Id>, failing: set<Id>)
    requires k !in done
    ensures |RemindedBy(s, done + {k}, now, addressed, failing)|
         == |RemindedBy(s, done, now, addressed, failing)|
            + if RemindableRow(s, k.tenant, now) && !(k.tenant in addressed && k.tenant in failing) then 1 else 0
  {
    assert RemindedBy(s, done + {k}, now, addressed, failing)
        == RemindedBy(s, done, now, addressed, failing)
           + if RemindableRow(s, k.tenant, now) && !(k.tenant in addressed && k.tenant in failing) then {k} else {};
  }

  lemma OneMoreQueued(s: Store, done: set<Key>, k: Key, now: Time, addressed: set<Id>, failing: set<Id>)
    ensures Queued(s, done + {k}, now, addressed, failing)
         == Queued(s, done, now, addressed, failing)
            + if RemindableRow(s, k.tenant, now) && k.tenant in addressed && k.tenant !in failing
              then {DueReminder(s, k.tenant, now)} else {}
  {
    var more := Queued(s, done + {k}, now, addressed, failing);
    forall r | r in Queued(s, done, now, addressed, failing) ensures r in more {
      var x :| x in done && RemindableRow(s, x.tenant, now) && x.tenant in addressed && x.tenant !in failing
        && r == DueReminder(s, x.tenant, now);
      assert x in done + {k};
    }
    if RemindableRow(s, k.tenant, now) && k.tenant in addressed && k.tenant !in failing {
      assert k in done + {k} && DueReminder(s, k.tenant, now) in more;
    }
  }

  /** What a sweep started from, and how the outside world answers it. */
  datatype SweepArgs = SweepArgs(before: Store, outbox: set<Reminder>, now: Time, cancels: set<Id>, addressed: set<Id>,
                                 failing: set<Id>)

  /** The tables, the queue and the counters when the rows in `done` have been visited. */
  ghost predicate Progress(w: SweepArgs, done: set<Key>, y: Tally) {
    && Inv(w.before)
    && y.at == SweptSoFar(w.before, done, w.now, w.cancels)
    && y.outbox == w.outbox + Queued(w.before, done, w.now, w.addressed, w.failing)
    && y.dropped == |DroppedBy(w.before, done, w.now, w.cancels)|
    && y.reminded == |RemindedBy(w.before, done, w.now, w.addressed, w.failing)|
  }

  datatype Tally = Tally(at: Store, outbox: set<Reminder>, reminded: nat, dropped: nat)

  function Visit(w: SweepArgs, y: Tally, k: Key): Tally {
    Tally(CancelPastDue(y.at, k.tenant, w.now, k.tenant in w.cancels),
          y.outbox + (if RemindableRow(y.at, k.tenant, w.now) && k.tenant in w.addressed && k.tenant !in w.failing
                      then {DueReminder(y.at, k.tenant, w.now)} else {}),
          y.reminded
            + (if RemindableRow(y.at, k.tenant, w.now) && !(k.tenant in w.addressed && k.tenant in w.failing)
               then 1 else 0),
          y.dropped + (if Overdue(y.at, k.tenant, w.now) && k.tenant in w.cancels then 1 else 0))
  }

  function VisitAll(w: SweepArgs, rows: seq<Key>): Tally {
    if rows == [] then Tally(w.before, w.outbox, 0, 0)
    else Visit(w, VisitAll(w, rows[..|rows| - 1]), rows[|rows| - 1])
  }

  /** `rows` holds exactly the elements of `keys`, each once. */
  ghost predicate Lists(rows: seq<Key>, keys: set<Key>) {
    && (forall k :: k in rows <==> k in keys)
    && (forall i, j :: 0 <= i < j < |rows| ==> rows[i] != rows[j])
  }

  function Elements(rows: seq<Key>): set<Key> {
    set k | k in rows
  }

  lemma StartOfSweep(w: SweepArgs)
    requires Inv(w.before)
    ensures Progress(w, {}, VisitAll(w, []))
  {
    NothingSwept(w.before, w.now, w.cancels);
    assert DroppedBy(w.before, {}, w.now, w.cancels) == {};
    assert RemindedBy(w.before, {}, w.now, w.addressed, w.failing) == {};
    assert Queued(w.before, {}, w.now, w.addressed, w.failing) == {};
  }

  /** What a visit to a due row does, read off the state the sweep began in. */
  lemma VisitDue(w: SweepArgs, done: set<Key>, k: Key, y: Tally)
    requires k in DueRows(w.before) && k !in done && y.at == SweptSoFar(w.before, done, w.now, w.cancels)
    ensures var z, t := Visit(w, y, k), k.tenant;
      && z.at == CancelPastDue(y.at, t, w.now, t in w.cancels)
      && z.outbox == y.outbox + (if RemindableRow(w.before, t, w.now) && t in w.addressed && t !in w.failing
                                 then {DueReminder(w.before, t, w.now)} else {})
      && z.reminded
         == y.reminded + (if RemindableRow(w.before, t, w.now) && !(t in w.addressed && t in w.failing) then 1 else 0)
      && z.dropped == y.dropped + (if Overdue(w.before, t, w.now) && t in w.cancels then 1 else 0)
  {
    StillDue(w.before, done, k, w.now, w.cancels);
  }

  lemma Advance(w: SweepArgs, done: set<Key>, k: Key, y: Tally)
    requires Progress(w, done, y) && k in DueRows(w.before) && k !in done
    ensures Progress(w, done + {k}, Visit(w, y, k))
  {
    AdvanceCounts(w, done, k, y);
    AdvanceTables(w, done, k, y);
  }

  lemma AdvanceCounts(w: SweepArgs, done: set<Key>, k: Key, y: Tally)
    requires Progress(w, done, y) && k in DueRows(w.before) && k !in done
    ensures Visit(w, y, k).dropped == |DroppedBy(w.before, done + {k}, w.now, w.cancels)|
    ensures Visit(w, y, k).reminded == |RemindedBy(w.before, done + {k}, w.now, w.addressed, w.failing)|
  {
    VisitDue(w, done, k, y);
    OneMoreDropped(w.before, done, k, w.now, w.cancels);
    OneMoreReminded(w.before, done, k, w.now, w.addressed, w.failing);
  }

  lemma AdvanceTables(w: SweepArgs, done: set<Key>, k: Key, y: Tally)
    requires Progress(w, done, y) && k in DueRows(w.before) && k !in done
    ensures Visit(w, y, k).at == SweptSoFar(w.before, done + {k}, w.now, w.cancels)
    ensures Visit(w, y, k).outbox == w.outbox + Queued(w.before, done + {k}, w.now, w.addressed, w.failing)
  {
    VisitDue(w, done, k, y);
    OneMoreSwept(w.before, done, k, w.now, w.cancels);
    OneMoreQueued(w.before, done, k, w.now, w.addressed, w.failing);
  }

  lemma NextElement(w: SweepArgs, rows: seq<Key>, n: nat)
    requires Lists(rows, DueRows(w.before)) && 0 < n <= |rows|
    ensures Elements(rows[..n]) == Elements(rows[..n - 1]) + {rows[n - 1]}
    ensures rows[n - 1] !in Elements(rows[..n - 1]) && rows[n - 1] in DueRows(w.before)
    ensures VisitAll(w, rows[..n]) == Visit(w, VisitAll(w, rows[..n - 1]), rows[n - 1])
  {
    assert rows[..n][..n - 1] == rows[..n - 1];
    assert rows[n - 1] in rows;
  }

  lemma {:induction false} VisitingProgresses(w: SweepArgs, rows: seq<Key>, n: nat)
    requires Inv(w.before) && Lists(rows, DueRows(w.before)) && n <= |rows|
    ensures Progress(w, Elements(rows[..n]), VisitAll(w, rows[..n]))
  {
    if n == 0 {
      StartOfSweep(w);
      assert Elements(rows[..0]) == {};
    } else {
      VisitingProgresses(w, rows, n - 1);
      NextElement(w, rows, n);
      Advance(w, Elements(rows[..n - 1]), rows[n - 1], VisitAll(w, rows[..n - 1]));
    }
  }

  /** The next row still reads as the query returned it. */
  lemma NextIsDue(w: SweepArgs, rows: seq<Key>, i: nat)
    requires Inv(w.before) && Lists(rows, DueRows(w.before)) && i < |rows|
    ensures var k, at := rows[i], VisitAll(w, rows[..i]).at;
      && k in at.accounts && k in w.before.accounts && UniquePrimary(at.accounts) && k == Key(k.tenant, Stripe)
      && at.accounts[k] == w.before.accounts[k] && at.accounts[k].primary && at.accounts[k].status == PastDue
  {
    VisitingProgresses(w, rows, i);
    StillDue(w.before, Elements(rows[..i]), rows[i], w.now, w.cancels);
  }

  lemma EndOfSweep(w: SweepArgs, rows: seq<Key>)
    requires Inv(w.before) && Lists(rows, DueRows(w.before))
    ensures var y := VisitAll(w, rows);
      && y.at == Sweep(w.before, w.now, w.cancels) && Inv(y.at)
      && y.outbox == w.outbox + Queued(w.before, DueRows(w.before), w.now, w.addressed, w.failing)
      && y.dropped == |DroppedBy(w.before, DueRows(w.before), w.now, w.cancels)|
      && y.reminded == |RemindedBy(w.before, DueRows(w.before), w.now, w.addressed, w.failing)|
  {
    VisitingProgresses(w, rows, |rows|);
    assert rows[..|rows|] == rows && Elements(rows) == DueRows(w.before);
    AllSwept(w.before, w.now, w.cancels);
    SweepIsSound(w.before, w.now, w.cancels);
  }

  // ---------------------------------------------------------------- statements against the model

  function Demoted(accounts: Accounts, t: Id): Accounts {
    map x | x in accounts :: if x.tenant == t && accounts[x].primary then accounts[x].(primary := false)
      else accounts[x]
  }

  function OverriddenRow(s: Store, t: Id, tier: Plan, status: Status, opts: Options): Account {
    var row := ManualRow(s, t);
    row.(status := status, plan := tier, periodEnd := Coalesced(opts.periodEnd, row.periodEnd),
      billingEmail := Coalesced(opts.billingEmail, row.billingEmail))
  }

  /** Demoting first and inserting second ends where crowning the written row does. */
  lemma DemotedThenInserted(accounts: Accounts, k: Key, row: Account)
    ensures Demoted(accounts, k.tenant)[k := row.(primary := true)] == Crown(accounts[k := row], k)
  {
  }

  /** The columns the one UPDATE of an upsert writes. */
  function UpdateFields(row: Account, p: Subscription, newPlan: Plan, schedule: Schedule): Account {
    var fields := row.(subscriptionId := if p.subscriptionId.Some? then p.subscriptionId else row.subscriptionId,
                       status := p.status, periodEnd := p.periodEnd,
                       cancelAtPeriodEnd := p.cancelAtPeriodEnd, trialEnd := p.trialEnd);
    var planned := if p.status == PastDue then fields
                   else fields.(plan := newPlan, clock := if Granting(p.status) then None else fields.clock);
    match schedule
    case Cleared => planned.(pendingPlan := None, pendingAt := None)
    case ById(Some(f)) => planned.(pendingPlan := f.pendingPlan, pendingAt := f.pendingAt)
    case Expanded(_) => planned.(pendingPlan := p.pendingPlan, pendingAt := p.pendingAt)
    case _ => planned
  }

  /** The schedule id kept in the raw provider data. */
  function RawData(row: Account, schedule: Schedule): Account {
    match schedule
    case Cleared => row.(scheduleId := None)
    case ById(Some(f)) => row.(scheduleId := Some(f.id))
    case Expanded(Some(id)) => row.(scheduleId := Some(id))
    case _ => row
  }

  /** The promotion or the dunning stamp, on top of the written row; `row` is how it read before. */
  function Settled(accounts: Accounts, e: Event, k: Key, now: Time, row: Account): Accounts
    requires e.SubscriptionUpsert? && e.payload.Some? && k in accounts
  {
    var p := e.payload.value;
    if Granting(p.status) && !row.primary then Crown(accounts, k)
    else if p.status == PastDue && row.primary && p.subscriptionId.Some? && row.clock.None?
    then accounts[k := accounts[k].(clock := Some(now))]
    else accounts
  }

  function AccountsAfter(accounts: Accounts, e: Event, k: Key, now: Time, raw: Account): Accounts
    requires e.SubscriptionUpsert? && e.payload.Some? && k in accounts
  {
    Settled(accounts[k := raw], e, k, now, accounts[k])
  }

  /** The separate statements leave the row the model writes at once. */
  lemma StatementsAddUp(s: Store, e: Event, k: Key, now: Time)
    requires e.SubscriptionUpsert? && k in s.accounts && Writes(s, e, k, now) && UniquePrimary(s.accounts)
    ensures var row, p := s.accounts[k], e.payload.value;
      var raw := RawData(UpdateFields(row, p, NewPlan(p, row, e.price), e.schedule), e.schedule);
      HandleUpsert(s, e, k, now) == Done(
        s.(accounts := AccountsAfter(s.accounts, e, k, now, raw),
           tiers := if Granting(p.status) then s.tiers[k.tenant := NewPlan(p, row, e.price)] else s.tiers,
           reservations := Claimed(s.reservations, k.tenant, p.subscriptionId)),
        UpsertOutcome(p.status, row.primary))
  {
    var row, p := s.accounts[k], e.payload.value;
    var after := UpsertedRow(row, p, e.price, e.schedule, now);
    var raw := RawData(UpdateFields(row, p, NewPlan(p, row, e.price), e.schedule), e.schedule);
    StampedRow(row, p, e.price, e.schedule, now);
    assert s.accounts[k := raw][k := after] == s.accounts[k := after];
    if Granting(p.status) && row.primary {
      CrownedAlready(s.accounts, k, after);
    }
  }

  lemma CrownedAlready(accounts: Accounts, k: Key, row: Account)
    requires UniquePrimary(accounts) && k in accounts && accounts[k].primary && row.primary
    ensures Crown(accounts[k := row], k) == accounts[k := row]
  {
  }

  lemma StampedRow(row: Account, p: Subscription, price: Price, schedule: Schedule, now: Time)
    ensures var raw := RawData(UpdateFields(row, p, NewPlan(p, row, price), schedule), schedule);
      UpsertedRow(row, p, price, schedule, now)
      == if p.status == PastDue && row.primary && p.subscriptionId.Some? && row.clock.None?
        then raw.(clock := Some(now)) else raw
  {
  }

  lemma SameRefusal(accounts: Accounts, k: Key, one: Account, two: Account)
    requires one.subscriptionId == two.subscriptionId && one.customerId == two.customerId
    ensures UniqueIds(accounts[k := one]) == UniqueIds(accounts[k := two])
  {
  }
}
