/** What the manual tier override promises, what a later webhook does to it, and when the tier can drift. */
module BillingOverrides {
  import opened Wrappers
  import opened BillingModel
  import opened BillingInvariants

  ghost predicate Landed(s: Store, t: Id, tier: Plan, s': Store) {
    && s'.tiers == s.tiers[t := tier] && OnTarget(s', t, tier)
    && (forall x :: x in s'.accounts && x.tenant == t && s'.accounts[x].primary ==> x == Key(t, Manual))
    && s'.accounts.Keys == s.accounts.Keys + {Key(t, Manual)}
    && (forall x :: x in s.accounts && x.tenant != t ==> s'.accounts[x] == s.accounts[x])
    && (Key(t, Stripe) in s.accounts ==> s'.accounts[Key(t, Stripe)] == s.accounts[Key(t, Stripe)].(primary := false))
  }

  lemma AlreadyOnTargetLands(s: Store, t: Id, tier: Plan, opts: Options)
    requires Inv(s) && t in s.tiers && OnTarget(s, t, tier)
    ensures Landed(s, t, tier, SetTier(s, t, tier, opts))
  {
    assert Key(t, Manual) in s.accounts && s.accounts[Key(t, Manual)].primary;
    if Key(t, Stripe) in s.accounts {
      assert !s.accounts[Key(t, Stripe)].primary;
    }
  }

  /**
   The override leaves exactly one primary, the manual row, on the asked tier, whatever came before, and
   touches no other tenant and nothing else of the Stripe row.
   */
  lemma OverrideLands(s: Store, t: Id, tier: Plan, opts: Options)
    requires Inv(s) && t in s.tiers
    ensures Landed(s, t, tier, SetTier(s, t, tier, opts))
  {
    if OnTarget(s, t, tier) {
      AlreadyOnTargetLands(s, t, tier, opts);
    }
  }

  /** A null option clears a stored value only on a call that finds the tenant already on target. */
  predicate NullsOut<T>(arg: Arg<T>, stored: Option<T>) {
    arg.Null? && stored.Some?
  }

  /**
   Calling the override twice is calling it once exactly when the first call was already on target or
   no null option meets a stored value: off target a null keeps the value, the repeat then clears it.
   */
  lemma OverrideTwice(s: Store, t: Id, tier: Plan, opts: Options)
    requires Inv(s) && t in s.tiers
    ensures SetTier(SetTier(s, t, tier, opts), t, tier, opts) == SetTier(s, t, tier, opts)
      <==> OnTarget(s, t, tier)
           || !(NullsOut(opts.periodEnd, ManualRow(s, t).periodEnd)
              || NullsOut(opts.billingEmail, ManualRow(s, t).billingEmail))
  {
    var k, once := Key(t, Manual), SetTier(s, t, tier, opts);
    var twice := SetTier(once, t, tier, opts);
    OverrideLands(s, t, tier, opts);
    assert once.accounts[k] == twice.accounts[k] <==>
      once.accounts[k].periodEnd == twice.accounts[k].periodEnd
        && once.accounts[k].billingEmail == twice.accounts[k].billingEmail;
    assert once.accounts[k] == twice.accounts[k] ==>
      once.accounts == once.accounts[k := twice.accounts[k]] == twice.accounts;
  }

  /** The event reaches the tenant's own Stripe row, is not skipped or refused there, and grants access. */
  ghost predicate TakesBack(over: Store, t: Id, e: Event, now: Time) {
    && e.SubscriptionUpsert? && Resolve(over.accounts, e) == Some(Key(t, Stripe))
    && Writes(over, e, Key(t, Stripe), now) && Granting(e.payload.value.status)
  }

  /** The manual row is the one primary, on the asked tier. */
  ghost predicate Stands(s: Store, t: Id, tier: Plan) {
    && t in s.tiers && OnTarget(s, t, tier)
    && (forall x :: x in s.accounts && x.tenant == t && s.accounts[x].primary <==> x == Key(t, Manual))
  }

  /** Whose primary row and which tier the event leaves. */
  ghost predicate Contested(over: Store, t: Id, tier: Plan, e: Event, now: Time, after: Store) {
    if TakesBack(over, t, e, now)
    then after.tiers == over.tiers[t := e.payload.value.plan]
         && forall x :: x in after.accounts && x.tenant == t && after.accounts[x].primary <==> x == Key(t, Stripe)
    else Stands(after, t, tier)
  }

  lemma UpsertContests(over: Store, t: Id, tier: Plan, e: Event, k: Key, now: Time)
    requires Stands(over, t, tier) && e.SubscriptionUpsert? && k in over.accounts && k.provider == Stripe
    ensures match HandleUpsert(over, e, k, now)
      case Threw => !(k == Key(t, Stripe) && Writes(over, e, k, now))
      case Done(after, _) =>
        if k == Key(t, Stripe) && Writes(over, e, k, now) && Granting(e.payload.value.status)
        then after.tiers == over.tiers[t := e.payload.value.plan]
             && forall x :: x in after.accounts && x.tenant == t && after.accounts[x].primary <==> x == k
        else Stands(after, t, tier)
  {
  }

  lemma DeletionStands(over: Store, t: Id, tier: Plan, e: Event, k: Key)
    requires Stands(over, t, tier) && e.SubscriptionDeleted? && k in over.accounts && k.provider == Stripe
    ensures var r := HandleDeleted(over, e, k); r.Done? ==> Stands(r.store, t, tier)
  {
  }

  lemma InvoiceStands(over: Store, t: Id, tier: Plan, e: Event, k: Key, now: Time)
    requires Stands(over, t, tier) && (e.InvoicePaid? || e.InvoiceFailed?) && k in over.accounts && k.provider == Stripe
    ensures var r := HandleInvoice(over, e, k, now); r.Done? ==> Stands(r.store, t, tier)
  {
    assert InvoiceRow(e, over.accounts[k], now).primary == over.accounts[k].primary;
  }

  lemma CheckoutStands(over: Store, t: Id, tier: Plan, e: Event)
    requires Stands(over, t, tier) && e.CheckoutCompleted?
    ensures var r := HandleCheckout(over, e); r.Done? ==> Stands(r.store, t, tier)
  {
  }

  lemma EventContests(t: Id, tier: Plan, over: Store, e: Event, now: Time)
    requires Stands(over, t, tier)
    ensures Contested(over, t, tier, e, now, Webhook(over, e, now))
  {
    if e.CheckoutCompleted? {
      CheckoutStands(over, t, tier, e);
    } else if RowEvent(e) && Resolve(over.accounts, e).Some? {
      var k := Resolve(over.accounts, e).value;
      if e.SubscriptionUpsert? {
        UpsertContests(over, t, tier, e, k, now);
      } else if e.SubscriptionDeleted? {
        DeletionStands(over, t, tier, e, k);
      } else {
        InvoiceStands(over, t, tier, e, k, now);
      }
    }
  }

  /**
   What any later event makes of an override: the Stripe row takes the primary flag and the tier back exactly
   when a subscription event resolves to it, is written, and is trialing or active, and the override stands
   otherwise. So an override does not survive an ordinary renewal, by whichever id the event finds the row.
   */
  lemma OverrideYieldsToGrantingWebhook(s: Store, t: Id, tier: Plan, opts: Options, e: Event, now: Time)
    requires Inv(s) && t in s.tiers
    ensures var over := SetTier(s, t, tier, opts);
      Contested(over, t, tier, e, now, Webhook(over, e, now))
    ensures var over := SetTier(s, t, tier, opts); var after := Webhook(over, e, now);
      t in after.tiers && (OnTarget(after, t, tier) <==> !TakesBack(over, t, e, now))
  {
    OverrideLands(s, t, tier, opts);
    assert Stands(SetTier(s, t, tier, opts), t, tier);
    EventContests(t, tier, SetTier(s, t, tier, opts), e, now);
  }

  // ---------------------------------------------------------------- the tier can drift

  function Paid(sub: Id): Subscription {
    Subscription(Some(sub), Active, Pro, None, false, None, None, None)
  }

  function Update(customer: Id, p: Subscription): Event {
    SubscriptionUpsert(true, Some(customer), p.subscriptionId, Some(p), false, Priced(p.plan), Cleared)
  }

  function Deletion(customer: Id, sub: Id): Event {
    SubscriptionDeleted(Some(customer), Some(sub), Some(sub), StillThere)
  }

  function Lone(t: Id, row: Account, tier: Plan): Store {
    Store(map[t := tier], map[Key(t, Stripe) := row], map[], map[])
  }

  lemma LoneUpsert(t: Id, row: Account, tier: Plan, p: Subscription, now: Time)
    requires row.customerId.Some? && p.subscriptionId.Some?
    requires row.subscriptionId == None || row.subscriptionId == p.subscriptionId
    ensures var after := UpsertedRow(row, p, Priced(p.plan), Cleared, now);
      Webhook(Lone(t, row, tier), Update(row.customerId.value, p), now)
      == if Granting(p.status) then Lone(t, after.(primary := true), NewPlan(p, row, Priced(p.plan)))
        else Lone(t, after, tier)
  {
    var s, k, e := Lone(t, row, tier), Key(t, Stripe), Update(row.customerId.value, p);
    assert HasCustomer(s.accounts, k, row.customerId.value);
    assert FindCustomer(s.accounts, e.customerId) == Some(k);
    if row.subscriptionId.Some? {
      FoundByItsSubscription(s.accounts, k, p.subscriptionId.value);
    }
    assert Resolve(s.accounts, e) == Some(k);
    var after := UpsertedRow(row, p, Priced(p.plan), Cleared, now);
    assert Crown(s.accounts[k := after], k) == map[k := after.(primary := true)];
    assert s.accounts[k := after] == map[k := after];
    assert s.tiers[t := p.plan] == map[t := p.plan];
  }

  lemma LoneDeletion(t: Id, row: Account, tier: Plan, customer: Id, sub: Id, now: Time)
    requires row.subscriptionId == Some(sub) && row.primary
    ensures Webhook(Lone(t, row, tier), Deletion(customer, sub), now) == Lone(t, Dropped(row), Free)
  {
    var s, k := Lone(t, row, tier), Key(t, Stripe);
    FoundByItsSubscription(s.accounts, k, sub);
    assert s.accounts[k := Dropped(row)] == map[k := Dropped(row)];
    assert s.tiers[t := Free] == map[t := Free];
  }

  lemma FirstCheckout(t: Id, customer: Id)
    ensures CheckoutUpsert(Store(map[t := Free], map[], map[], map[]), t, customer)
      == Lone(t, NewRow(Some(customer), NoPlan, Free, false), Free)
  {
    var accounts: Accounts, row := map[], NewRow(None, NoPlan, Free, false).(customerId := Some(customer));
    assert accounts[Key(t, Stripe) := row] == map[Key(t, Stripe) := row];
  }

  /** A checkout and four deliveries. */
  function Purchases(t: Id, customer: Id, events: seq<(Event, Time)>): seq<Command>
    requires |events| == 4
  {
    [StartCheckout(t, customer), Deliver(events[0].0, events[0].1), Deliver(events[1].0, events[1].1),
     Deliver(events[2].0, events[2].1), Deliver(events[3].0, events[3].1)]
  }

  function DriftingRun(t: Id, customer: Id, sub: Id): seq<Command> {
    Purchases(t, customer, [(Update(customer, Paid(sub)), 0), (Deletion(customer, sub), 1),
                            (Update(customer, Paid(sub).(status := NoPlan)), 2),
                            (Update(customer, Paid(sub).(status := PastDue)), 3)])
  }

  lemma RunPurchases(s: Store, t: Id, customer: Id, b: (Event, Time), c: (Event, Time), d: (Event, Time),
                     e: (Event, Time),
                     three: Store, four: Store, five: Store)
    requires Webhook(Webhook(CheckoutUpsert(s, t, customer), b.0, b.1), c.0, c.1) == three
    requires Webhook(three, d.0, d.1) == four && Webhook(four, e.0, e.1) == five
    ensures var all := Purchases(t, customer, [b, c, d, e]);
      Run(s, all[..4]) == four && Run(s, all) == five
  {
    var all := Purchases(t, customer, [b, c, d, e]);
    assert all[..4][..3] == all[..3] && all[..3][..2] == all[..2] && all[..2][..1] == all[..1] && all[..1][..0] == [];
    assert Run(s, all[..1]) == Apply(s, all[0]);
    assert Run(s, all[..2]) == Apply(Run(s, all[..1]), all[1]);
    assert Run(s, all[..3]) == Apply(Run(s, all[..2]), all[2]);
    assert Run(s, all[..4]) == Apply(Run(s, all[..3]), all[3]);
  }

  function CancelledRow(customer: Id, sub: Id): Account {
    Dropped(UpsertedRow(NewRow(Some(customer), NoPlan, Free, false), Paid(sub), Priced(Pro), Cleared,
      0).(primary := true))
  }

  function UnpaidRow(customer: Id, sub: Id): Account {
    UpsertedRow(CancelledRow(customer, sub), Paid(sub).(status := NoPlan), Priced(Pro), Cleared, 2)
  }

  function RevivedRow(customer: Id, sub: Id): Account {
    UpsertedRow(UnpaidRow(customer, sub), Paid(sub).(status := PastDue), Priced(Pro), Cleared, 3)
  }

  lemma UntilCancelled(t: Id, customer: Id, sub: Id)
    ensures var bought := CheckoutUpsert(Store(map[t := Free], map[], map[], map[]), t, customer);
      Webhook(Webhook(bought, Update(customer, Paid(sub)), 0), Deletion(customer, sub), 1)
        == Lone(t, CancelledRow(customer, sub), Free)
  {
    FirstCheckout(t, customer);
    var bought := NewRow(Some(customer), NoPlan, Free, false);
    LoneUpsert(t, bought, Free, Paid(sub), 0);
    LoneDeletion(t, UpsertedRow(bought, Paid(sub), Priced(Pro), Cleared, 0).(primary := true), Pro, customer, sub, 1);
  }

  lemma UntilRevived(t: Id, customer: Id, sub: Id)
    ensures var unpaid :=
      Webhook(Lone(t, CancelledRow(customer, sub), Free), Update(customer, Paid(sub).(status := NoPlan)), 2);
      && unpaid == Lone(t, UnpaidRow(customer, sub), Free)
      && Webhook(unpaid, Update(customer, Paid(sub).(status := PastDue)), 3) == Lone(t, RevivedRow(customer, sub), Free)
  {
    LoneUpsert(t, CancelledRow(customer, sub), Free, Paid(sub).(status := NoPlan), 2);
    LoneUpsert(t, UnpaidRow(customer, sub), Free, Paid(sub).(status := PastDue), 3);
  }

  lemma DriftingRunEnds(t: Id, customer: Id, sub: Id)
    ensures Run(Store(map[t := Free], map[], map[], map[]), DriftingRun(t, customer, sub))
      == Lone(t, RevivedRow(customer, sub), Free)
  {
    UntilCancelled(t, customer, sub);
    UntilRevived(t, customer, sub);
    RunPurchases(Store(map[t := Free], map[], map[], map[]), t, customer,
                 (Update(customer, Paid(sub)), 0), (Deletion(customer, sub), 1),
                 (Update(customer, Paid(sub).(status := NoPlan)), 2),
                   (Update(customer, Paid(sub).(status := PastDue)), 3),
                 Lone(t, CancelledRow(customer, sub), Free), Lone(t, UnpaidRow(customer, sub), Free),
                 Lone(t, RevivedRow(customer, sub), Free));
  }

  /**
   Reachable from nothing, for any tenant: a paid subscription is deleted, bought again but never paid
   (`incomplete`), then reported past due. The row is the live primary on Pro while the tenant is on Free.
   */
  lemma TierCanDrift(t: Id, customer: Id, sub: Id)
    ensures var s := Store(map[t := Free], map[], map[], map[]);
      && Initial(s) && (forall c :: c in DriftingRun(t, customer, sub) ==> WellFormed(c))
      && !TierAgrees(Run(s, DriftingRun(t, customer, sub)))
  {
    DriftingRunEnds(t, customer, sub);
    assert Key(t, Stripe) in Lone(t, RevivedRow(customer, sub), Free).accounts;
  }
}
