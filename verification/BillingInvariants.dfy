/**
 What holds between the billing rows and the tenant tier after every writer, in every order: one
 primary row per tenant, unique ids, and a tier that agrees with the primary plan while it is live.
 */
module BillingInvariants {
  import opened Wrappers
  import opened BillingModel

  predicate RowShape(k: Key, row: Account) {
    && (Granting(row.status) ==> row.clock.None?)
    && (row.primary && row.status == PastDue ==> row.clock.Some?)
    && (k.provider == Stripe && Live(row.status) ==> row.subscriptionId.Some?)
    && (k.provider == Manual ==> row.status != PastDue && row.status != Cancelled)
    && (k.provider == Manual ==> row.subscriptionId.None? && row.customerId.None? && row.clock.None?)
  }

  ghost predicate Inv(s: Store) {
    && UniqueIds(s.accounts)
    && UniquePrimary(s.accounts)
    && (forall k :: k in s.accounts ==> k.tenant in s.tiers && RowShape(k, s.accounts[k]))
  }

  /** While the primary row is trialing, active or past due, the tenant's tier is its plan. */
  ghost predicate TierAgrees(s: Store) {
    forall k :: k in s.accounts && s.accounts[k].primary && Live(s.accounts[k].status) ==>
      k.tenant in s.tiers && s.tiers[k.tenant] == s.accounts[k].plan
  }

  predicate HasPrimary(accounts: Accounts, t: Id) {
    exists k :: k in accounts && k.tenant == t && accounts[k].primary
  }

  predicate WellFormed(c: Command) {
    c.Deliver? ==> Normalized(c.e)
  }

  lemma FoundByItsSubscription(accounts: Accounts, k: Key, sub: Id)
    requires UniqueIds(accounts) && HasSubscription(accounts, k, sub)
    ensures FindSubscription(accounts, Some(sub)) == Some(k)
  {
    var x := FindSubscription(accounts, Some(sub));
    assert x.Some? && HasSubscription(accounts, x.value, sub);
  }

  lemma FoundByItsCustomer(accounts: Accounts, k: Key, customer: Id)
    requires UniqueIds(accounts) && HasCustomer(accounts, k, customer)
    ensures FindCustomer(accounts, Some(customer)) == Some(k)
  {
    var x := FindCustomer(accounts, Some(customer));
    assert x.Some? && HasCustomer(accounts, x.value, customer);
  }

  /** The upsert writes a row: no guard skips it and no index refuses it. */
  predicate Writes(s: Store, e: Event, k: Key, now: Time)
    requires e.SubscriptionUpsert? && k in s.accounts
  {
    && UpsertSkip(e, s.accounts[k]).None? && e.schedule != ById(None)
    && UniqueIds(s.accounts[k := UpsertedRow(s.accounts[k], e.payload.value, e.price, e.schedule, now)])
  }

  /** The upsert reports `past_due` for a primary row that gave no access and whose plan is not the tier. */
  ghost predicate RevivesAsPastDue(s: Store, c: Command) {
    && c.Deliver? && c.e.SubscriptionUpsert?
    && var found := Resolve(s.accounts, c.e);
    && found.Some?
    && var k := found.value;
    && k.tenant in s.tiers
    && Writes(s, c.e, k, c.now) && c.e.payload.value.status == PastDue
    && s.accounts[k].primary && !Live(s.accounts[k].status) && s.tiers[k.tenant] != s.accounts[k].plan
  }

  // ---------------------------------------------------------------- one writer at a time

  /** What every step keeps. */
  ghost predicate Sound(s: Store, s': Store) {
    && Inv(s')
    && (forall t :: HasPrimary(s.accounts, t) ==> HasPrimary(s'.accounts, t))
  }

  lemma SameIdsStayUnique(accounts: Accounts, k: Key, row: Account)
    requires UniqueIds(accounts)
    requires if k in accounts then row.subscriptionId == accounts[k].subscriptionId || row.subscriptionId.None?
      else row.subscriptionId.None?
    requires if k in accounts then row.customerId == accounts[k].customerId else row.customerId.None?
    ensures UniqueIds(accounts[k := row])
  {
  }

  /** One row rewritten, its primary flag kept. */
  lemma RowIsSound(s: Store, s': Store, k: Key, row: Account)
    requires Inv(s) && k in s.accounts && row.primary == s.accounts[k].primary && RowShape(k, row)
    requires s'.accounts == s.accounts[k := row] && UniqueIds(s'.accounts) && s.tiers.Keys <= s'.tiers.Keys
    ensures Sound(s, s')
  {
    forall t | HasPrimary(s.accounts, t) ensures HasPrimary(s'.accounts, t) {
      var x :| x in s.accounts && x.tenant == t && s.accounts[x].primary;
      assert x in s'.accounts && s'.accounts[x].primary;
    }
  }

  lemma CrownedIds(accounts: Accounts, k: Key)
    requires UniqueIds(accounts)
    ensures UniqueIds(Crown(accounts, k))
  {
  }

  lemma CrownedPrimaries(accounts: Accounts, k: Key, row: Account)
    requires UniquePrimary(accounts)
    ensures UniquePrimary(Crown(accounts[k := row], k))
    ensures forall t :: HasPrimary(accounts, t) ==> HasPrimary(Crown(accounts[k := row], k), t)
  {
    var crowned := Crown(accounts[k := row], k);
    assert crowned[k].primary;
    forall t | HasPrimary(accounts, t) ensures HasPrimary(crowned, t) {
      var x :| x in accounts && x.tenant == t && accounts[x].primary;
      if t != k.tenant {
        assert x in crowned && crowned[x].primary;
      }
    }
  }

  /** One row rewritten and made the primary. */
  lemma CrownIsSound(s: Store, s': Store, k: Key, row: Account)
    requires Inv(s) && UniqueIds(s.accounts[k := row]) && s'.accounts == Crown(s.accounts[k := row], k)
    requires RowShape(k, row.(primary := true))
    requires s.tiers.Keys + {k.tenant} <= s'.tiers.Keys
    ensures Sound(s, s')
  {
    CrownedIds(s.accounts[k := row], k);
    CrownedPrimaries(s.accounts, k, row);
  }

  lemma UpsertIsSound(s: Store, e: Event, k: Key, now: Time)
    requires Inv(s) && e.SubscriptionUpsert? && Normalized(e) && k in s.accounts && k.provider == Stripe
    requires HandleUpsert(s, e, k, now).Done?
    ensures Sound(s, HandleUpsert(s, e, k, now).store)
  {
    if Writes(s, e, k, now) {
      var row := UpsertedRow(s.accounts[k], e.payload.value, e.price, e.schedule, now);
      if Granting(e.payload.value.status) {
        CrownIsSound(s, HandleUpsert(s, e, k, now).store, k, row);
      } else {
        RowIsSound(s, HandleUpsert(s, e, k, now).store, k, row);
      }
    }
  }

  /** A crowned row agrees because the tier is set to its plan; no other row of the tenant stays primary. */
  lemma CrownAgrees(s: Store, s': Store, k: Key, row: Account)
    requires TierAgrees(s) && s'.accounts == Crown(s.accounts[k := row], k) && s'.tiers == s.tiers[k.tenant := row.plan]
    ensures TierAgrees(s')
  {
  }

  /** A rewritten row agrees exactly when it gives no access or its plan is the tier. */
  lemma RowAgrees(s: Store, k: Key, row: Account, s': Store)
    requires TierAgrees(s) && Inv(s) && k in s.accounts && s'.accounts == s.accounts[k := row] && s'.tiers == s.tiers
    ensures TierAgrees(s') <==> !(row.primary && Live(row.status) && s.tiers[k.tenant] != row.plan)
  {
    assert s'.accounts[k] == row;
  }

  lemma UpsertAgreesUnlessRevived(s: Store, e: Event, k: Key, now: Time)
    requires Inv(s) && TierAgrees(s) && e.SubscriptionUpsert? && k in s.accounts
    requires HandleUpsert(s, e, k, now).Done?
    ensures TierAgrees(HandleUpsert(s, e, k, now).store)
        <==> !(Writes(s, e, k, now) && e.payload.value.status == PastDue && s.accounts[k].primary
               && !Live(s.accounts[k].status) && s.tiers[k.tenant] != s.accounts[k].plan)
  {
    var s' := HandleUpsert(s, e, k, now).store;
    if Writes(s, e, k, now) {
      var row := UpsertedRow(s.accounts[k], e.payload.value, e.price, e.schedule, now);
      if Granting(e.payload.value.status) {
        CrownAgrees(s, s', k, row);
      } else {
        RowAgrees(s, k, row, s');
      }
    }
  }

  lemma DropIsSound(s: Store, k: Key)
    requires Inv(s) && k in s.accounts && k.provider == Stripe
    ensures Sound(s, Drop(s, k)) && (TierAgrees(s) ==> TierAgrees(Drop(s, k)))
  {
    SameIdsStayUnique(s.accounts, k, Dropped(s.accounts[k]));
    RowIsSound(s, Drop(s, k), k, Dropped(s.accounts[k]));
  }

  lemma InvoiceIsSound(s: Store, e: Event, k: Key, now: Time)
    requires Inv(s) && (e.InvoicePaid? || e.InvoiceFailed?) && k in s.accounts && k.provider == Stripe
    ensures HandleInvoice(s, e, k, now).Done?
    ensures var s' := HandleInvoice(s, e, k, now).store; Sound(s, s') && (TierAgrees(s) ==> TierAgrees(s'))
  {
    var s' := HandleInvoice(s, e, k, now).store;
    var row := InvoiceRow(e, s.accounts[k], now);
    SameIdsStayUnique(s.accounts, k, row);
    RowIsSound(s, s', k, row);
  }

  lemma CheckoutIsSound(s: Store, e: Event)
    requires Inv(s) && e.CheckoutCompleted? && HandleCheckout(s, e).Done?
    ensures var s' := HandleCheckout(s, e).store; Sound(s, s') && (TierAgrees(s) ==> TierAgrees(s'))
  {
    var s' := HandleCheckout(s, e).store;
    if s'.accounts != s.accounts {
      var k := Key(e.session.value.tenant.value, Stripe);
      RowIsSound(s, s', k, s'.accounts[k]);
    }
  }

  lemma WebhookIsSound(s: Store, e: Event, now: Time)
    requires Inv(s) && Normalized(e)
    ensures Sound(s, Webhook(s, e, now))
    ensures TierAgrees(s) ==> (TierAgrees(Webhook(s, e, now)) <==> !RevivesAsPastDue(s, Deliver(e, now)))
  {
    if Handle(s, e, now).Threw? {
    } else if e.CheckoutCompleted? {
      CheckoutIsSound(s, e);
    } else if RowEvent(e) && Resolve(s.accounts, e).Some? {
      var k := Resolve(s.accounts, e).value;
      if e.SubscriptionUpsert? {
        UpsertIsSound(s, e, k, now);
        if TierAgrees(s) { UpsertAgreesUnlessRevived(s, e, k, now); }
      } else if e.SubscriptionDeleted? {
        DropIsSound(s, k);
      } else {
        InvoiceIsSound(s, e, k, now);
      }
    }
  }

  /** A manual row crowned over the others, as the override and the trial grant do. */
  lemma ManualCrownIsSound(s: Store, t: Id, row: Account, tier: Plan, s': Store)
    requires Inv(s) && t in s.tiers && RowShape(Key(t, Manual), row.(primary := true)) && row.plan == tier
    requires s'.accounts == Crown(s.accounts[Key(t, Manual) := row], Key(t, Manual)) && s'.tiers == s.tiers[t := tier]
    ensures Sound(s, s') && (TierAgrees(s) ==> TierAgrees(s'))
  {
    SameIdsStayUnique(s.accounts, Key(t, Manual), row);
    CrownIsSound(s, s', Key(t, Manual), row);
    if TierAgrees(s) { CrownAgrees(s, s', Key(t, Manual), row); }
  }

  lemma GrantIsSound(s: Store, t: Id, trialEnd: Time)
    requires Inv(s)
    ensures var s' := GrantTrial(s, t, trialEnd).0; Sound(s, s') && (TierAgrees(s) ==> TierAgrees(s'))
  {
    if GrantTrial(s, t, trialEnd).1 {
      ManualCrownIsSound(s, t, ManualRow(s, t).(status := Trialing, plan := Pro, trialEnd := Some(trialEnd)), Pro,
                         GrantTrial(s, t, trialEnd).0);
    }
  }

  lemma OverrideIsSound(s: Store, t: Id, tier: Plan, opts: Options)
    requires Inv(s)
    ensures var s' := SetTier(s, t, tier, opts); Sound(s, s') && (TierAgrees(s) ==> TierAgrees(s'))
  {
    var k, row, s' := Key(t, Manual), ManualRow(s, t), SetTier(s, t, tier, opts);
    if t !in s.tiers {
    } else if OnTarget(s, t, tier) {
      SameIdsStayUnique(s.accounts, k, s'.accounts[k]);
      RowIsSound(s, s', k, s'.accounts[k]);
    } else {
      var written :=
        row.(status := TargetStatus(tier), plan := tier, periodEnd := Coalesced(opts.periodEnd, row.periodEnd),
                          billingEmail := Coalesced(opts.billingEmail, row.billingEmail));
      ManualCrownIsSound(s, t, written, tier, s');
    }
  }

  lemma ExpireIsSound(s: Store, t: Id, now: Time)
    requires Inv(s)
    ensures var s' := ExpireTrial(s, t, now); Sound(s, s') && (TierAgrees(s) ==> TierAgrees(s'))
  {
    if TrialOver(s, t, now) {
      var k := Key(t, Manual);
      var s' := ExpireTrial(s, t, now);
      SameIdsStayUnique(s.accounts, k, s'.accounts[k]);
      RowIsSound(s, s', k, s'.accounts[k]);
    }
  }

  lemma StartCheckoutIsSound(s: Store, t: Id, customer: Id)
    requires Inv(s)
    ensures var s' := CheckoutUpsert(s, t, customer); Sound(s, s') && (TierAgrees(s) ==> TierAgrees(s'))
  {
    var k, s' := Key(t, Stripe), CheckoutUpsert(s, t, customer);
    forall u | HasPrimary(s.accounts, u) ensures HasPrimary(s'.accounts, u) {
      var x :| x in s.accounts && x.tenant == u && s.accounts[x].primary;
      assert x in s'.accounts && s'.accounts[x].primary;
    }
  }

  /** A dropped row loses its subscription id; every other id stays. */
  lemma SweptRow(s: Store, now: Time, cancels: set<Id>, k: Key)
    requires Inv(s) && k in s.accounts
    ensures var before, row := s.accounts[k], Sweep(s, now, cancels).accounts[k];
      && RowShape(k, row) && row.primary == before.primary && row.customerId == before.customerId
      && (row == before
         || (row == Dropped(before) && before.primary && Overdue(s, k.tenant, now) && k.tenant in cancels))
  {
  }

  lemma SweepIsSound(s: Store, now: Time, cancels: set<Id>)
    requires Inv(s)
    ensures Sound(s, Sweep(s, now, cancels))
  {
    var s' := Sweep(s, now, cancels);
    forall k | k in s.accounts
      ensures RowShape(k, s'.accounts[k]) && s'.accounts[k].primary == s.accounts[k].primary
      ensures s'.accounts[k].customerId == s.accounts[k].customerId
      ensures s'.accounts[k].subscriptionId == s.accounts[k].subscriptionId || s'.accounts[k].subscriptionId.None?
    {
      SweptRow(s, now, cancels, k);
    }
    forall u | HasPrimary(s.accounts, u) ensures HasPrimary(s'.accounts, u) {
      SweepKeepsPrimary(s, now, cancels, u);
    }
  }

  lemma SweepKeepsPrimary(s: Store, now: Time, cancels: set<Id>, u: Id)
    requires HasPrimary(s.accounts, u)
    ensures HasPrimary(Sweep(s, now, cancels).accounts, u)
  {
    var x :| x in s.accounts && x.tenant == u && s.accounts[x].primary;
    assert x in Sweep(s, now, cancels).accounts && Sweep(s, now, cancels).accounts[x].primary;
  }

  lemma SweepKeepsTier(s: Store, now: Time, cancels: set<Id>)
    requires Inv(s) && TierAgrees(s)
    ensures TierAgrees(Sweep(s, now, cancels))
  {
    var s' := Sweep(s, now, cancels);
    forall k | k in s'.accounts && s'.accounts[k].primary && Live(s'.accounts[k].status)
      ensures k.tenant in s'.tiers && s'.tiers[k.tenant] == s'.accounts[k].plan
    {
      SweptRow(s, now, cancels, k);
      var other := Key(k.tenant, Stripe);
      assert k != other && other in s.accounts ==> !(s.accounts[k].primary && s.accounts[other].primary);
    }
  }

  // ---------------------------------------------------------------- whole runs

  /**
   Every writer keeps the rows in order, and the tier agrees afterwards exactly when the step is no past-due
   revival.
   */
  lemma StepIsSound(s: Store, c: Command)
    requires Inv(s) && WellFormed(c)
    ensures Sound(s, Apply(s, c))
    ensures TierAgrees(s) ==> (TierAgrees(Apply(s, c)) <==> !RevivesAsPastDue(s, c))
  {
    match c
    case Deliver(e, now) => WebhookIsSound(s, e, now);
    case Grant(t, trialEnd) => GrantIsSound(s, t, trialEnd);
    case Expire(t, now) => ExpireIsSound(s, t, now);
    case Override(t, tier, opts) => OverrideIsSound(s, t, tier, opts);
    case StartCheckout(t, customer) => StartCheckoutIsSound(s, t, customer);
    case Reserve(t, session) =>
    case RunSweep(now, cancels) =>
      SweepIsSound(s, now, cancels);
      if TierAgrees(s) { SweepKeepsTier(s, now, cancels); }
  }

  /** Tenants exist, and nothing was billed yet. */
  predicate Initial(s: Store) {
    s.accounts == map[] && s.reservations == map[]
  }

  lemma {:induction false} RunsKeepInv(s: Store, commands: seq<Command>)
    requires Inv(s) && forall c :: c in commands ==> WellFormed(c)
    ensures Inv(Run(s, commands))
    ensures forall t :: HasPrimary(s.accounts, t) ==> HasPrimary(Run(s, commands).accounts, t)
  {
    if commands != [] {
      var n := |commands| - 1;
      RunsKeepInv(s, commands[..n]);
      StepIsSound(Run(s, commands[..n]), commands[n]);
    }
  }

  lemma {:induction false} RunsCompose(s: Store, first: seq<Command>, second: seq<Command>)
    ensures Run(s, first + second) == Run(Run(s, first), second)
    decreases |second|
  {
    if second == [] {
      assert first + second == first;
    } else {
      var n, all := |second| - 1, first + second;
      assert all[..|all| - 1] == first + second[..n] && all[|all| - 1] == second[n];
      RunsCompose(s, first, second[..n]);
      assert Run(s, all) == Apply(Run(s, first + second[..n]), second[n]);
    }
  }

  /** In every reachable state a tenant has at most one primary row, and exactly one from the moment it had any. */
  lemma OnePrimaryForever(s: Store, earlier: seq<Command>, later: seq<Command>, t: Id)
    requires Initial(s) && forall c :: c in earlier + later ==> WellFormed(c)
    ensures UniquePrimary(Run(s, earlier).accounts) && UniqueIds(Run(s, earlier).accounts)
    ensures HasPrimary(Run(s, earlier).accounts, t) ==>
      var accounts := Run(s, earlier + later).accounts;
      exists k :: k in accounts && k.tenant == t && accounts[k].primary
        && forall x :: x in accounts && x.tenant == t && accounts[x].primary ==> x == k
  {
    assert forall c :: c in earlier ==> c in earlier + later;
    assert forall c :: c in later ==> c in earlier + later;
    RunsKeepInv(s, earlier);
    RunsKeepInv(Run(s, earlier), later);
    RunsCompose(s, earlier, later);
  }

  /** The tier agrees with the live primary plan throughout a run without past-due revivals. */
  lemma {:induction false} TierAgreesOverRuns(s: Store, commands: seq<Command>)
    requires Initial(s) && forall c :: c in commands ==> WellFormed(c)
    requires forall i :: 0 <= i < |commands| ==> !RevivesAsPastDue(Run(s, commands[..i]), commands[i])
    ensures TierAgrees(Run(s, commands))
  {
    if commands != [] {
      var n := |commands| - 1;
      forall i | 0 <= i < n ensures !RevivesAsPastDue(Run(s, commands[..n][..i]), commands[..n][i]) {
        assert commands[..n][..i] == commands[..i];
      }
      TierAgreesOverRuns(s, commands[..n]);
      RunsKeepInv(s, commands[..n]);
      StepIsSound(Run(s, commands[..n]), commands[n]);
    }
  }

  /** Stripe reports `past_due` only for a subscription whose row is trialing, active or past due. */
  ghost predicate PastDueOnlyFromLive(s: Store, c: Command) {
    (c.Deliver? && c.e.SubscriptionUpsert? && c.e.payload.Some? && c.e.payload.value.status == PastDue
     && Resolve(s.accounts, c.e).Some?) ==> Live(s.accounts[Resolve(s.accounts, c.e).value].status)
  }

  lemma TierAgreesUnderStripeOrder(s: Store, commands: seq<Command>)
    requires Initial(s) && forall c :: c in commands ==> WellFormed(c)
    requires forall i :: 0 <= i < |commands| ==> PastDueOnlyFromLive(Run(s, commands[..i]), commands[i])
    ensures TierAgrees(Run(s, commands))
  {
    forall i | 0 <= i < |commands| ensures !RevivesAsPastDue(Run(s, commands[..i]), commands[i]) {
      assert PastDueOnlyFromLive(Run(s, commands[..i]), commands[i]);
    }
    TierAgreesOverRuns(s, commands);
  }
}
