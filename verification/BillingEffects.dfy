/**
 What each writer comes to, told from the rows, tiers and reservations alone: which row an event is about,
 which of its fields move, and that nothing else does. Over every state the invariants allow.
 */
module BillingEffects {
  import opened Wrappers
  import opened BillingModel
  import opened BillingInvariants
  import opened BillingDunning

  // ---------------------------------------------------------------- which row

  ghost predicate NobodyHas(accounts: Accounts, sub: Option<Id>) {
    forall x :: x in accounts && x.provider == Stripe && sub.Some? ==> accounts[x].subscriptionId != sub
  }

  /**
   The Stripe row with the event's subscription; failing that the one with its customer, if it has no
   subscription of its own, or the event creates one, or is an invoice of none.
   */
  ghost predicate About(accounts: Accounts, e: Event, k: Key)
    requires RowEvent(e)
  {
    && k in accounts && k.provider == Stripe
    && (|| (e.subscriptionId.Some? && accounts[k].subscriptionId == e.subscriptionId)
        || (&& e.customerId.Some? && accounts[k].customerId == e.customerId && NobodyHas(accounts, e.subscriptionId)
            && (|| accounts[k].subscriptionId.None?
                || (e.SubscriptionUpsert? && e.created)
                || ((e.InvoicePaid? || e.InvoiceFailed?) && e.subscriptionId.None?))))
  }

  lemma ResolvesExactly(accounts: Accounts, e: Event, k: Key)
    requires RowEvent(e) && UniqueIds(accounts)
    ensures Resolve(accounts, e) == Some(k) <==> About(accounts, e, k)
  {
    if e.subscriptionId.Some? && HasSubscription(accounts, k, e.subscriptionId.value) {
      FoundByItsSubscription(accounts, k, e.subscriptionId.value);
    }
    if e.customerId.Some? && HasCustomer(accounts, k, e.customerId.value) {
      FoundByItsCustomer(accounts, k, e.customerId.value);
    }
    if NobodyHas(accounts, e.subscriptionId) {
      assert FindSubscription(accounts, e.subscriptionId).None?;
    } else {
      var x :| x in accounts && x.provider == Stripe && e.subscriptionId.Some?
        && accounts[x].subscriptionId == e.subscriptionId;
      FoundByItsSubscription(accounts, x, e.subscriptionId.value);
    }
  }

  /** An event about no row changes nothing. */
  lemma NobodysEvent(s: Store, e: Event, now: Time)
    requires RowEvent(e) && UniqueIds(s.accounts) && forall k :: !About(s.accounts, e, k)
    ensures Webhook(s, e, now) == s
  {
    if Resolve(s.accounts, e).Some? {
      ResolvesExactly(s.accounts, e, Resolve(s.accounts, e).value);
    }
  }

  // ---------------------------------------------------------------- subscription events

  /** The rows but `k`: as they were, less the primary flag when `k` takes it. */
  predicate OthersAfter(before: Accounts, after: Accounts, k: Key, crowned: bool) {
    && after.Keys == before.Keys + {k}
    && forall x :: x in before && x != k ==>
       after[x] == if crowned && x.tenant == k.tenant then before[x].(primary := false) else before[x]
  }

  /** No guard skips the event: the row carries no other subscription, the price is known, the schedule read. */
  predicate Taken(e: Event, row: Account)
    requires e.SubscriptionUpsert? && e.payload.Some?
  {
    && (row.subscriptionId.None? || row.subscriptionId == e.payload.value.subscriptionId)
    && (e.terminal || e.price != UnknownPrice)
    && !(e.schedule.ById? && e.schedule.fetched.None?)
  }

  predicate GivesAccess(p: Subscription) {
    p.status == Trialing || p.status == Active
  }

  /** The plan a status leaves on the row. */
  predicate PlanFits(p: Subscription, price: Price, before: Plan, after: Plan) {
    && (GivesAccess(p) ==> after == p.plan)
    && (p.status == PastDue ==> after == before)
    && (p.status == Cancelled ==> after == Free)
    && (p.status == NoPlan ==> if price.Priced? then after == price.plan else after == Free)
  }

  /** Access stops the clock; `past_due` starts one on a primary row that has none; otherwise it stays. */
  predicate ClockFits(p: Subscription, before: Account, after: Option<Time>, now: Time) {
    && (GivesAccess(p) ==> after == None)
    && (p.status == PastDue && before.primary && before.clock == None ==> after == Some(now))
    && (!GivesAccess(p) && !(p.status == PastDue && before.primary && before.clock == None) ==> after == before.clock)
  }

  /** A scheduled change is stored with its schedule's id; a cleared one is forgotten. */
  predicate ScheduleFits(e: Event, before: Account, after: Account)
    requires e.SubscriptionUpsert? && e.payload.Some?
  {
    var p := e.payload.value;
    var was := (before.pendingPlan, before.pendingAt, before.scheduleId);
    var now := (after.pendingPlan, after.pendingAt, after.scheduleId);
    && (e.schedule == Cleared ==> now == (None, None, None))
    && (e.schedule.ById? && e.schedule.fetched.Some? ==>
       var f := e.schedule.fetched.value; now == (f.pendingPlan, f.pendingAt, Some(f.id)))
    && (e.schedule.Expanded? ==>
       now == (p.pendingPlan, p.pendingAt, if e.schedule.id.Some? then e.schedule.id else before.scheduleId))
    && (e.schedule == Unrecognised ==> now == was)
  }

  /** The row after the event: Stripe's word on everything Stripe speaks of, the rest as it was. */
  predicate Mirrors(e: Event, before: Account, after: Account, now: Time)
    requires e.SubscriptionUpsert? && e.payload.Some?
  {
    var p := e.payload.value;
    && after.status == p.status && after.subscriptionId == p.subscriptionId
    && after.periodEnd == p.periodEnd && after.cancelAtPeriodEnd == p.cancelAtPeriodEnd && after.trialEnd == p.trialEnd
    && PlanFits(p, e.price, before.plan, after.plan)
    && ClockFits(p, before, after.clock, now)
    && ScheduleFits(e, before, after)
    && after.primary == (before.primary || GivesAccess(p))
    && after.customerId == before.customerId && after.billingEmail == before.billingEmail
  }

  /** The tenant's reservation, if nobody claimed it, is claimed by `sub`; the others stay. */
  predicate ClaimsOnly(before: map<Id, Reservation>, after: map<Id, Reservation>, t: Id, sub: Option<Id>) {
    && after.Keys == before.Keys
    && forall u :: u in before ==>
       after[u] == if u == t && before[u].subscription == None then Reservation(before[u].session, sub) else before[u]
  }

  /** Nobody else can hold the subscription of an event about `k`, so no index refuses the write. */
  lemma WriteIsUnique(s: Store, e: Event, k: Key, now: Time)
    requires Inv(s) && Normalized(e) && e.SubscriptionUpsert? && About(s.accounts, e, k)
    ensures UniqueIds(s.accounts[k := UpsertedRow(s.accounts[k], e.payload.value, e.price, e.schedule, now)])
  {
    var row := UpsertedRow(s.accounts[k], e.payload.value, e.price, e.schedule, now);
    assert row.customerId == s.accounts[k].customerId && row.subscriptionId == e.subscriptionId;
    assert forall x :: x in s.accounts && x.provider == Stripe && x != k ==>
      s.accounts[x].subscriptionId != e.subscriptionId;
  }

  lemma RowMirrors(e: Event, row: Account, now: Time)
    requires e.SubscriptionUpsert? && Normalized(e)
    ensures var after := UpsertedRow(row, e.payload.value, e.price, e.schedule, now);
      Mirrors(e, row, after.(primary := row.primary || GivesAccess(e.payload.value)), now)
      && after.primary == row.primary && NewPlan(e.payload.value, row, e.price) == after.plan
  {
  }

  lemma Rewritten(accounts: Accounts, k: Key, row: Account, crowned: bool)
    requires k in accounts
    ensures var after := if crowned then Crown(accounts[k := row], k) else accounts[k := row];
      && OthersAfter(accounts, after, k, crowned)
      && after[k] == if crowned then row.(primary := true) else row
  {
  }

  lemma ClaimsReservation(reservations: map<Id, Reservation>, t: Id, sub: Id)
    ensures ClaimsOnly(reservations, Claimed(reservations, t, Some(sub)), t, Some(sub))
  {
  }

  /** A row event about `k` is handled on `k`. */
  lemma HandledOnRow(s: Store, e: Event, k: Key, now: Time)
    requires RowEvent(e) && UniqueIds(s.accounts) && About(s.accounts, e, k)
    ensures Handle(s, e, now) == HandleMatched(s, e, k, now)
  {
    ResolvesExactly(s.accounts, e, k);
  }

  /**
   A subscription event about a row leaves it saying what Stripe says, and with access it is the tenant's one
   primary row, at its plan, and claims the tenant's trial reservation; skipped, it changes nothing.
   */
  lemma SubscriptionIsMirrored(s: Store, e: Event, k: Key, now: Time)
    requires Inv(s) && Normalized(e) && e.SubscriptionUpsert? && About(s.accounts, e, k)
    ensures var s', p := Webhook(s, e, now), e.payload.value;
      if !Taken(e, s.accounts[k]) then s' == s
      else && OthersAfter(s.accounts, s'.accounts, k, GivesAccess(p))
           && Mirrors(e, s.accounts[k], s'.accounts[k], now)
           && s'.tiers == (if GivesAccess(p) then s.tiers[k.tenant := p.plan] else s.tiers)
           && ClaimsOnly(s.reservations, s'.reservations, k.tenant, p.subscriptionId) && s'.topUps == s.topUps
  {
    HandledOnRow(s, e, k, now);
    WriteIsUnique(s, e, k, now);
    var row, p := s.accounts[k], e.payload.value;
    RowMirrors(e, row, now);
    Rewritten(s.accounts, k, UpsertedRow(row, p, e.price, e.schedule, now), GivesAccess(p));
    ClaimsReservation(s.reservations, k.tenant, p.subscriptionId.value);
    hide Mirrors, OthersAfter, ClaimsOnly, UpsertedRow, Crown, Claimed, UniqueIds, About, Resolve;
    assert Handle(s, e, now) == HandleUpsert(s, e, k, now);
  }

  /** The row and the tenant once its subscription is gone. */
  predicate Ended(s: Store, s': Store, k: Key)
    requires k in s.accounts
  {
    && OthersAfter(s.accounts, s'.accounts, k, false)
    && s'.accounts[k] == Account(s.accounts[k].customerId, None, Cancelled, Free, s.accounts[k].primary, None, false,
                                 None, None, None, s.accounts[k].billingEmail, None, s.accounts[k].scheduleId)
    && s'.tiers == (if s.accounts[k].primary then s.tiers[k.tenant := Free] else s.tiers)
    && s'.reservations == s.reservations && s'.topUps == s.topUps
  }

  /** A deletion about a row ends its subscription, unless Stripe cannot be asked: then nothing changes. */
  lemma DeletionEnds(s: Store, e: Event, k: Key, now: Time)
    requires Inv(s) && Normalized(e) && e.SubscriptionDeleted? && About(s.accounts, e, k)
    ensures if e.refetch == ApiError then Webhook(s, e, now) == s else Ended(s, Webhook(s, e, now), k)
  {
    ResolvesExactly(s.accounts, e, k);
  }

  // ---------------------------------------------------------------- invoices

  /** The row an invoice speaks of, by the subscription it is for. */
  predicate Billed(s: Store, sub: Option<Id>, k: Key) {
    k in s.accounts && k.provider == Stripe && sub.Some? && s.accounts[k].subscriptionId == sub
  }

  lemma BilledIsAbout(s: Store, e: Event, k: Key)
    requires Inv(s) && (e.InvoicePaid? || e.InvoiceFailed?)
    ensures Billed(s, e.subscriptionId, k) ==> Resolve(s.accounts, e) == Some(k)
    ensures About(s.accounts, e, k) && !Billed(s, e.subscriptionId, k) && e.subscriptionId.Some? ==>
      s.accounts[k].subscriptionId.None?
  {
    ResolvesExactly(s.accounts, e, k);
  }

  /**
   A paid invoice recovers a past-due row exactly when it is for that row's own subscription: then the row is
   active with no clock, and nothing else in the store has moved.
   */
  lemma PaidInvoiceRecovers(s: Store, customer: Option<Id>, sub: Option<Id>, now: Time, k: Key)
    requires Inv(s) && IsPastDue(s, k)
    ensures s.accounts[k].subscriptionId == sub ==>
      Webhook(s, InvoicePaid(customer, sub), now)
        == s.(accounts := s.accounts[k := s.accounts[k].(status := Active, clock := None)])
    ensures s.accounts[k].subscriptionId != sub ==>
      && k in Webhook(s, InvoicePaid(customer, sub), now).accounts
      && Webhook(s, InvoicePaid(customer, sub), now).accounts[k] == s.accounts[k]
  {
    var e := InvoicePaid(customer, sub);
    BilledIsAbout(s, e, k);
    if Resolve(s.accounts, e).Some? {
      ResolvesExactly(s.accounts, e, Resolve(s.accounts, e).value);
    }
  }

  /** Where nothing was past due, all a paid invoice does is to stop a leftover clock on the row it is about. */
  lemma PaidInvoiceOtherwise(s: Store, customer: Option<Id>, sub: Option<Id>, now: Time, k: Key)
    requires Inv(s) && About(s.accounts, InvoicePaid(customer, sub), k) && !IsPastDue(s, k)
    ensures Webhook(s, InvoicePaid(customer, sub), now)
      == if sub.Some? then s.(accounts := s.accounts[k := s.accounts[k].(clock := None)]) else s
  {
    ResolvesExactly(s.accounts, InvoicePaid(customer, sub), k);
    assert s.accounts[k := s.accounts[k]] == s.accounts;
  }

  /**
   A failed invoice starts `past_due` exactly on the row whose own subscription it is for, if that row gave
   full access; its clock starts then, and nothing else moves.
   */
  lemma FailedInvoiceStartsGrace(s: Store, customer: Option<Id>, sub: Option<Id>, now: Time, k: Key)
    requires Inv(s) && k in s.accounts && k.provider == Stripe
    ensures var s' := Webhook(s, InvoiceFailed(customer, sub), now);
      && k in s'.accounts
      && (s'.accounts[k] != s.accounts[k]
          <==> sub.Some? && s.accounts[k].subscriptionId == sub && s.accounts[k].status in {Trialing, Active})
      && (s'.accounts[k] != s.accounts[k] ==>
          s' == s.(accounts := s.accounts[k := s.accounts[k].(status := PastDue, clock := Some(now))]))
  {
    var e := InvoiceFailed(customer, sub);
    BilledIsAbout(s, e, k);
    if Resolve(s.accounts, e).Some? {
      ResolvesExactly(s.accounts, e, Resolve(s.accounts, e).value);
    }
  }

  // ---------------------------------------------------------------- after a recovery, over runs

  /** From the recovery on, the row does not enter `past_due` again. */
  ghost predicate StaysRecovered(s: Store, paid: nat, commands: seq<Command>, k: Key)
    requires paid <= |commands|
  {
    forall i :: paid < i <= |commands| ==> !EntersNow(s, commands[..i], k)
  }

  lemma {:induction false} NotPastDueSince(s: Store, paid: nat, commands: seq<Command>, k: Key)
    requires paid <= |commands| && StaysRecovered(s, paid, commands, k) && !IsPastDue(Run(s, commands[..paid]), k)
    ensures !IsPastDue(Run(s, commands), k)
    decreases |commands|
  {
    if paid == |commands| {
      assert commands[..paid] == commands;
    } else {
      var n := |commands| - 1;
      assert commands[..n][..paid] == commands[..paid] && commands[..|commands|] == commands;
      forall i | paid < i <= n ensures !EntersNow(s, commands[..n][..i], k) {
        assert commands[..n][..i] == commands[..i];
      }
      NotPastDueSince(s, paid, commands[..n], k);
      assert !EntersNow(s, commands[..|commands|], k);
    }
  }

  /**
   Once the invoice of a past-due tenant is paid, no later sweep moves its row or its tier or owes it a
   reminder, at whatever time, until the row enters `past_due` anew.
   */
  lemma RecoveredIsLeftAlone(s: Store, before: seq<Command>, customer: Option<Id>, paidAt: Time, later: seq<Command>,
                             t: Id, at: Time, cancels: set<Id>)
    requires Initial(s) && (forall c :: c in before ==> WellFormed(c)) && IsPastDue(Run(s, before), Key(t, Stripe))
    requires var sub := Run(s, before).accounts[Key(t, Stripe)].subscriptionId;
      var run := before + [Deliver(InvoicePaid(customer, sub), paidAt)] + later;
      StaysRecovered(s, |before| + 1, run, Key(t, Stripe))
    ensures var k, sub := Key(t, Stripe), Run(s, before).accounts[Key(t, Stripe)].subscriptionId;
      var run := before + [Deliver(InvoicePaid(customer, sub), paidAt)] + later;
      var now, swept := Run(s, run), Run(s, run + [RunSweep(at, cancels)]);
      && !IsPastDue(now, k) && !RemindableRow(now, t, at)
      && (k in now.accounts ==> k in swept.accounts && swept.accounts[k] == now.accounts[k])
      && (t in now.tiers ==> t in swept.tiers && swept.tiers[t] == now.tiers[t])
  {
    var k, sub := Key(t, Stripe), Run(s, before).accounts[Key(t, Stripe)].subscriptionId;
    var paid := before + [Deliver(InvoicePaid(customer, sub), paidAt)];
    assert paid[..|before|] == before && (paid + later)[..|paid|] == paid;
    RunsKeepInv(s, before);
    PaidInvoiceRecovers(Run(s, before), customer, sub, paidAt, k);
    assert Run(s, paid) == Webhook(Run(s, before), InvoicePaid(customer, sub), paidAt);
    NotPastDueSince(s, |paid|, paid + later, k);
    OneMoreSweep(s, paid + later, at, cancels);
  }

  // ---------------------------------------------------------------- sweeps

  /** 72 hours have passed on a live clock, and there is a subscription to cancel. */
  predicate GraceIsOver(s: Store, t: Id, now: Time) {
    var k := Key(t, Stripe);
    && k in s.accounts && s.accounts[k].primary && s.accounts[k].status == PastDue
    && s.accounts[k].subscriptionId.Some? && s.accounts[k].clock.Some?
    && now - s.accounts[k].clock.value >= 72 * 3_600_000
  }

  /** What is left of a row whose subscription ended. */
  predicate IsEnded(before: Account, after: Account) {
    && after.status == Cancelled && after.plan == Free && after.subscriptionId == None && after.clock == None
    && after.periodEnd == None && !after.cancelAtPeriodEnd && after.pendingPlan == None && after.pendingAt == None
    && after.trialEnd == None && after.customerId == before.customerId && after.primary == before.primary
    && after.billingEmail == before.billingEmail && after.scheduleId == before.scheduleId
  }

  lemma OverdueExactly(s: Store, t: Id, now: Time)
    ensures Overdue(s, t, now) <==> GraceIsOver(s, t, now)
  {
  }

  /** A sweep ends exactly the subscriptions whose grace is over and which Stripe cancels, and moves nothing else. */
  lemma SweepEndsExactly(s: Store, now: Time, cancels: set<Id>)
    ensures var s' := Sweep(s, now, cancels);
      && s'.accounts.Keys == s.accounts.Keys && s'.tiers.Keys == s.tiers.Keys
      && (forall k :: k in s.accounts ==>
            if k.provider == Stripe && GraceIsOver(s, k.tenant, now) && k.tenant in cancels
            then IsEnded(s.accounts[k], s'.accounts[k]) else s'.accounts[k] == s.accounts[k])
      && (forall t :: t in s.tiers ==>
            s'.tiers[t] == if GraceIsOver(s, t, now) && t in cancels then Free else s.tiers[t])
      && s'.reservations == s.reservations && s'.topUps == s.topUps
  {
    forall t ensures Overdue(s, t, now) <==> GraceIsOver(s, t, now) {
      OverdueExactly(s, t, now);
    }
    hide GraceIsOver, Overdue;
  }

  /** Cancelling one tenant's past-due subscription ends it exactly when its grace is over and Stripe agrees. */
  lemma CancelEndsExactly(s: Store, t: Id, now: Time, stripeCancels: bool)
    ensures if GraceIsOver(s, t, now) && stripeCancels
      then Ended(s, CancelPastDue(s, t, now, stripeCancels), Key(t, Stripe))
      else CancelPastDue(s, t, now, stripeCancels) == s
  {
    OverdueExactly(s, t, now);
  }

  // ---------------------------------------------------------------- checkouts

  /** Another Stripe row holds one of these ids. */
  ghost predicate HeldElsewhere(accounts: Accounts, k: Key, customer: Option<Id>, sub: Option<Id>) {
    exists x :: x in accounts && x.provider == Stripe && x != k
      && ((customer.Some? && accounts[x].customerId == customer) || (sub.Some? && accounts[x].subscriptionId == sub))
  }

  /** A completed subscription checkout books its ids on the tenant's row, unless another row holds them. */
  lemma CheckoutBooksIds(s: Store, t: Id, customer: Option<Id>, sub: Id, now: Time)
    requires Inv(s)
    ensures var s', k :=
      Webhook(s, CheckoutCompleted(Some(SubscriptionMode(Some(t), customer, sub))), now), Key(t, Stripe);
      if k !in s.accounts || HeldElsewhere(s.accounts, k, customer, Some(sub)) then s' == s
      else s' == s.(accounts := s.accounts[k := s.accounts[k].(subscriptionId := Some(sub),
                       customerId := if customer.Some? then customer else s.accounts[k].customerId)])
  {
    var k := Key(t, Stripe);
    if k in s.accounts {
      var row := s.accounts[k].(subscriptionId := Some(sub),
                                customerId := if customer.Some? then customer else s.accounts[k].customerId);
      RefusedExactly(s.accounts, k, row, customer, Some(sub));
    }
  }

  /** The indexes refuse a write exactly when another row holds an id the row did not have. */
  lemma RefusedExactly(accounts: Accounts, k: Key, row: Account, customer: Option<Id>, sub: Option<Id>)
    requires UniqueIds(accounts) && k.provider == Stripe
    requires if k in accounts then
      row.customerId == (if customer.Some? then customer else accounts[k].customerId)
        && row.subscriptionId == (if sub.Some? then sub else accounts[k].subscriptionId)
      else row.customerId == customer && row.subscriptionId == sub
    ensures UniqueIds(accounts[k := row]) <==> !HeldElsewhere(accounts, k, customer, sub)
  {
    var written := accounts[k := row];
    if HeldElsewhere(accounts, k, customer, sub) {
      var x :| x in accounts && x.provider == Stripe && x != k
        && ((customer.Some? && accounts[x].customerId == customer) || (sub.Some? && accounts[x].subscriptionId == sub));
      assert x in written && written[x] == accounts[x] && written[k] == row;
    }
  }

  /** Starting a checkout stores the customer id on the tenant's Stripe row, unless it has one or another row does. */
  lemma CheckoutStartsOnce(s: Store, t: Id, customer: Id)
    requires Inv(s)
    ensures var s', k := CheckoutUpsert(s, t, customer), Key(t, Stripe);
      if t !in s.tiers then s' == s
      else if k in s.accounts && s.accounts[k].customerId.Some? then s' == s
      else if HeldElsewhere(s.accounts, k, Some(customer), None) then s' == s
      else s' == s.(accounts := s.accounts[k :=
             if k in s.accounts then s.accounts[k].(customerId := Some(customer))
             else Account(Some(customer), None, NoPlan, Free, false, None, false, None, None, None, None, None, None)])
  {
    var k := Key(t, Stripe);
    var row := if k in s.accounts then s.accounts[k] else NewRow(None, NoPlan, Free, false);
    if row.customerId.None? {
      RefusedExactly(s.accounts, k, row.(customerId := Some(customer)), Some(customer), None);
    } else {
      assert s.accounts[k := row] == s.accounts;
    }
  }

  // ---------------------------------------------------------------- the onboarding trial

  /** Account fields that no trial or override speaks of. */
  predicate OnlyIfStored(s: Store, k: Key, after: Account) {
    if k in s.accounts then
      && after.customerId == s.accounts[k].customerId && after.subscriptionId == s.accounts[k].subscriptionId
      && after.cancelAtPeriodEnd == s.accounts[k].cancelAtPeriodEnd && after.clock == s.accounts[k].clock
      && after.pendingPlan == s.accounts[k].pendingPlan && after.pendingAt == s.accounts[k].pendingAt
      && after.scheduleId == s.accounts[k].scheduleId
    else
      && after.customerId == None && after.subscriptionId == None && !after.cancelAtPeriodEnd && after.clock == None
      && after.pendingPlan == None && after.pendingAt == None && after.scheduleId == None
  }

  /**
   The trial is granted exactly to a tenant that exists and has no reservation: its manual row is then its one
   primary, trialing on Pro until the end given, its tier Pro, and its reservation made.
   */
  lemma TrialIsGrantedExactly(s: Store, t: Id, trialEnd: Time)
    requires Inv(s)
    ensures GrantTrial(s, t, trialEnd).1 <==> t in s.tiers && t !in s.reservations
    ensures !GrantTrial(s, t, trialEnd).1 ==> GrantTrial(s, t, trialEnd).0 == s
    ensures GrantTrial(s, t, trialEnd).1 ==>
      var s', k := GrantTrial(s, t, trialEnd).0, Key(t, Manual);
      && OthersAfter(s.accounts, s'.accounts, k, true) && OnlyIfStored(s, k, s'.accounts[k])
      && s'.accounts[k].status == Trialing && s'.accounts[k].plan == Pro && s'.accounts[k].trialEnd == Some(trialEnd)
      && s'.accounts[k].primary
      && s'.tiers == s.tiers[t := Pro] && s'.reservations == s.reservations[t := Reservation(None, None)]
      && s'.topUps == s.topUps
  {
  }

  /**
   A trial ends exactly when the tenant's manual row is its primary, is trialing, and its end has come: then
   the row keeps all but status, plan and end, the tier is Free, and nothing else moves.
   */
  lemma TrialEndsExactly(s: Store, t: Id, now: Time)
    requires Inv(s)
    ensures var s', k := ExpireTrial(s, t, now), Key(t, Manual);
      if k in s.accounts && s.accounts[k].primary && s.accounts[k].status == Trialing
        && s.accounts[k].trialEnd.Some? && s.accounts[k].trialEnd.value <= now
      then s' == s.(accounts := s.accounts[k := s.accounts[k].(status := NoPlan, plan := Free, trialEnd := None)],
                    tiers := s.tiers[t := Free])
      else s' == s
  {
  }

  /** A granted trial left alone: every expiry before its end changes nothing, the first one from then on ends it. */
  lemma {:induction false} TrialLastsToItsEnd(s: Store, t: Id, trialEnd: Time, tries: seq<Time>, now: Time)
    requires Inv(s) && GrantTrial(s, t, trialEnd).1 && forall at :: at in tries ==> at < trialEnd
    ensures var granted := GrantTrial(s, t, trialEnd).0;
      var tried := Expiries(granted, t, tries);
      && tried == granted && granted.tiers[t] == Pro
      && if now < trialEnd then ExpireTrial(tried, t, now) == granted
         else && ExpireTrial(tried, t, now).tiers == granted.tiers[t := Free]
              && ExpireTrial(tried, t, now).accounts[Key(t, Manual)].status == NoPlan
    decreases |tries|
  {
    var granted := GrantTrial(s, t, trialEnd).0;
    GrantIsSound(s, t, trialEnd);
    TrialIsGrantedExactly(s, t, trialEnd);
    TrialEndsExactly(granted, t, now);
    if tries != [] {
      assert tries[0] in tries && forall at :: at in tries[1..] ==> at in tries;
      TrialEndsExactly(granted, t, tries[0]);
      TrialLastsToItsEnd(s, t, trialEnd, tries[1..], now);
    }
  }

  function Expiries(s: Store, t: Id, tries: seq<Time>): Store
    decreases |tries|
  {
    if tries == [] then s else Expiries(ExpireTrial(s, t, tries[0]), t, tries[1..])
  }

  /** A checkout reserves the trial exactly for a tenant that exists and has none reserved. */
  lemma TrialIsReservedExactly(s: Store, t: Id, session: Id)
    ensures ReserveTrial(s, t, session) == if t in s.tiers && t !in s.reservations
      then s.(reservations := s.reservations[t := Reservation(Some(session), None)]) else s
  {
  }

  // ---------------------------------------------------------------- the override

  /** Left out, an option keeps what is stored; null clears it, on target only; a value replaces it. */
  predicate OptionFits<T(==)>(arg: Arg<T>, onTarget: bool, before: Option<T>, after: Option<T>) {
    && (arg.Omitted? ==> after == before)
    && (arg.Null? ==> after == if onTarget then None else before)
    && (arg.Given? ==> after == Some(arg.value))
  }

  predicate AlreadyThere(s: Store, t: Id, tier: Plan) {
    var k := Key(t, Manual);
    && t in s.tiers && s.tiers[t] == tier && k in s.accounts && s.accounts[k].primary && s.accounts[k].plan == tier
    && s.accounts[k].status == if tier == Free then NoPlan else Active
  }

  /**
   An override of a tenant that exists leaves its manual row the one primary, at the tier's plan and status, and
   the tier set; the options move period and e-mail as given, and no other field or tenant moves.
   */
  lemma OverrideWritesExactly(s: Store, t: Id, tier: Plan, opts: Options)
    requires Inv(s)
    ensures t !in s.tiers ==> SetTier(s, t, tier, opts) == s
    ensures t in s.tiers ==>
      var s', k := SetTier(s, t, tier, opts), Key(t, Manual);
      && OthersAfter(s.accounts, s'.accounts, k, true) && OnlyIfStored(s, k, s'.accounts[k])
      && s'.accounts[k].primary && s'.accounts[k].plan == tier
      && s'.accounts[k].status == (if tier == Free then NoPlan else Active)
      && OptionFits(opts.periodEnd, AlreadyThere(s, t, tier),
                    if k in s.accounts then s.accounts[k].periodEnd else None, s'.accounts[k].periodEnd)
      && OptionFits(opts.billingEmail, AlreadyThere(s, t, tier),
                    if k in s.accounts then s.accounts[k].billingEmail else None, s'.accounts[k].billingEmail)
      && s'.accounts[k].trialEnd == (if k in s.accounts then s.accounts[k].trialEnd else None)
      && s'.tiers == s.tiers[t := tier] && s'.reservations == s.reservations && s'.topUps == s.topUps
  {
    var k := Key(t, Manual);
    if t in s.tiers && AlreadyThere(s, t, tier) {
      AlreadyAlone(s, t);
      assert s.tiers[t := tier] == s.tiers;
    } else if t in s.tiers {
      assert !OnTarget(s, t, tier);
      assert Key(t, Stripe) != k;
    }
  }

  /** Where the manual row is the primary, no other row of the tenant is. */
  lemma AlreadyAlone(s: Store, t: Id)
    requires Inv(s) && Key(t, Manual) in s.accounts && s.accounts[Key(t, Manual)].primary
    ensures forall x :: x in s.accounts && x != Key(t, Manual) && x.tenant == t ==>
      s.accounts[x].(primary := false) == s.accounts[x]
  {
  }
}
