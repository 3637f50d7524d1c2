/** The dunning clock over every sequence of events and sweeps: when it is set, and when a tenant is dropped. */
module BillingDunning {
  import opened Wrappers
  import opened BillingModel
  import opened BillingInvariants
  import opened BillingOverrides
  import Sets

  // ---------------------------------------------------------------- the clock, one step at a time

  /**
   `past_due` keeps the plan, never moves a running clock, and on entry starts one unless an old one was left on
   the row.
   */
  predicate GraceStep(before: Account, after: Account, now: Time) {
    after.status == PastDue ==>
      && after.plan == before.plan
      && if before.status == PastDue || before.clock.Some? then after.clock == before.clock
         else after.clock == Some(now) || (after.clock.None? && !after.primary)
  }

  lemma UpsertClock(s: Store, e: Event, k: Key, now: Time, x: Key)
    requires Inv(s) && e.SubscriptionUpsert? && Normalized(e) && k in s.accounts && x in s.accounts
    requires HandleUpsert(s, e, k, now).Done?
    ensures var s' := HandleUpsert(s, e, k, now).store;
      && x in s'.accounts && GraceStep(s.accounts[x], s'.accounts[x], now)
      && (s.accounts[x].status != PastDue && s'.accounts[x].status == PastDue ==>
         x == k && e.payload.value.status == PastDue)
  {
    if Writes(s, e, k, now) {
      var row := UpsertedRow(s.accounts[k], e.payload.value, e.price, e.schedule, now);
      assert x != k ==>
        HandleUpsert(s, e, k, now).store.accounts[x].(primary := s.accounts[x].primary) == s.accounts[x];
      assert HandleUpsert(s, e, k, now).store.accounts[k].(primary := row.primary) == row;
    }
  }

  /** Only a failed invoice for a trialing or active row, or a `past_due` subscription event, starts `past_due`. */
  predicate Enters(s: Store, e: Event, x: Key, found: Option<Key>)
    requires x in s.accounts
  {
    && found == Some(x)
    && ((e.InvoiceFailed? && Granting(s.accounts[x].status))
        || (e.SubscriptionUpsert? && e.payload.Some? && e.payload.value.status == PastDue))
  }

  lemma InvoiceClock(s: Store, e: Event, k: Key, now: Time, x: Key)
    requires Inv(s) && (e.InvoicePaid? || e.InvoiceFailed?) && k in s.accounts && x in s.accounts
    ensures var s' := HandleInvoice(s, e, k, now).store;
      && x in s'.accounts && GraceStep(s.accounts[x], s'.accounts[x], now)
      && (s.accounts[x].status != PastDue && s'.accounts[x].status == PastDue ==>
            x == k && e.InvoiceFailed? && Granting(s.accounts[x].status))
  {
  }

  lemma CheckoutClock(s: Store, e: Event, x: Key)
    requires e.CheckoutCompleted? && x in s.accounts && HandleCheckout(s, e).Done?
    ensures var s' := HandleCheckout(s, e).store;
      x in s'.accounts && NeverEnters(s.accounts[x], s'.accounts[x])
  {
  }

  lemma WebhookClock(s: Store, e: Event, now: Time, x: Key)
    requires Inv(s) && Normalized(e) && x in s.accounts
    ensures var s' := Webhook(s, e, now);
      && x in s'.accounts && GraceStep(s.accounts[x], s'.accounts[x], now)
      && (s.accounts[x].status != PastDue && s'.accounts[x].status == PastDue ==>
            RowEvent(e) && Enters(s, e, x, Resolve(s.accounts, e)))
  {
    if Handle(s, e, now).Threw? {
    } else if e.CheckoutCompleted? {
      CheckoutClock(s, e, x);
    } else if RowEvent(e) && Resolve(s.accounts, e).Some? {
      var k := Resolve(s.accounts, e).value;
      if e.SubscriptionUpsert? {
        UpsertClock(s, e, k, now, x);
      } else if !e.SubscriptionDeleted? {
        InvoiceClock(s, e, k, now, x);
      }
    }
  }

  predicate NeverEnters(before: Account, after: Account) {
    after.status == PastDue ==> before.status == PastDue && after.clock == before.clock && after.plan == before.plan
  }

  /** No other writer puts a row into `past_due` or touches the clock of one that is. */
  lemma OthersNeverEnter(s: Store, c: Command, x: Key)
    requires !c.Deliver? && x in s.accounts
    ensures x in Apply(s, c).accounts && NeverEnters(s.accounts[x], Apply(s, c).accounts[x])
  {
  }

  lemma NewRowsAreNotPastDue(s: Store, c: Command, x: Key)
    requires x !in s.accounts && x in Apply(s, c).accounts
    ensures Apply(s, c).accounts[x].status != PastDue
  {
  }

  /** A live primary entering or staying in grace keeps its plan and its tenant's tier. */
  lemma GraceKeepsTier(s: Store, c: Command, x: Key)
    requires Inv(s) && TierAgrees(s) && WellFormed(c) && x in s.accounts
    requires s.accounts[x].primary && Live(s.accounts[x].status)
    requires x in Apply(s, c).accounts && Apply(s, c).accounts[x].primary && Apply(s, c).accounts[x].status == PastDue
    ensures x.tenant in Apply(s, c).tiers && Apply(s, c).tiers[x.tenant] == s.tiers[x.tenant]
    ensures Apply(s, c).accounts[x].plan == s.accounts[x].plan
  {
    if c.Deliver? {
      WebhookClock(s, c.e, c.now, x);
      GraceKeepsTierAfterWebhook(s, c.e, c.now, x);
    } else {
      OthersNeverEnter(s, c, x);
      StepIsSound(s, c);
    }
  }

  lemma GraceKeepsTierAfterWebhook(s: Store, e: Event, now: Time, x: Key)
    requires Inv(s) && TierAgrees(s) && Normalized(e) && x in s.accounts
    requires s.accounts[x].primary && Live(s.accounts[x].status)
    requires x in Webhook(s, e, now).accounts && Webhook(s, e, now).accounts[x].status == PastDue
    requires Webhook(s, e, now).accounts[x].primary
    ensures x.tenant in Webhook(s, e, now).tiers && Webhook(s, e, now).tiers[x.tenant] == s.tiers[x.tenant]
  {
    if RowEvent(e) && Resolve(s.accounts, e).Some? && Handle(s, e, now).Done? {
      var k := Resolve(s.accounts, e).value;
      assert k.tenant == x.tenant && k != x ==> !s.accounts[k].primary;
    }
  }

  // ---------------------------------------------------------------- whole runs

  /** The last command is what put the row into `past_due`. */
  ghost predicate EntersNow(s: Store, commands: seq<Command>, x: Key)
    requires commands != []
  {
    var before, after := Run(s, commands[..|commands| - 1]).accounts, Run(s, commands).accounts;
    x in after && after[x].status == PastDue && !(x in before && before[x].status == PastDue)
  }

  ghost predicate IsPastDue(s: Store, x: Key) {
    x in s.accounts && s.accounts[x].status == PastDue
  }

  /** The time of the event that put the row into its present stay in `past_due`. */
  ghost function Entered(s: Store, commands: seq<Command>, x: Key): Option<Time> {
    if commands == [] || !IsPastDue(Run(s, commands), x) then None
    else
      var n := |commands| - 1;
      if !EntersNow(s, commands, x) then Entered(s, commands[..n], x)
      else if commands[n].Deliver? then Some(commands[n].now) else None
  }

  /** The clock the row still carried just before that event. */
  ghost function CarriedIn(s: Store, commands: seq<Command>, x: Key): Option<Time> {
    if commands == [] || !IsPastDue(Run(s, commands), x) then None
    else
      var n := |commands| - 1;
      var before := Run(s, commands[..n]).accounts;
      if !EntersNow(s, commands, x) then CarriedIn(s, commands[..n], x)
      else if x in before then before[x].clock else None
  }

  /** Where the 72 hours are counted from: a clock carried in, else the entry. */
  ghost function GraceFrom(s: Store, commands: seq<Command>, x: Key): Option<Time> {
    if CarriedIn(s, commands, x).Some? then CarriedIn(s, commands, x) else Entered(s, commands, x)
  }

  /** What the clock of a row in `past_due` reads, after one more step. */
  lemma EntryStep(s: Store, c: Command, x: Key)
    requires Inv(s) && WellFormed(c) && IsPastDue(Apply(s, c), x)
    ensures x in s.accounts
    ensures IsPastDue(s, x) ==> Apply(s, c).accounts[x].clock == s.accounts[x].clock
    ensures !IsPastDue(s, x) ==>
      && c.Deliver? && (Granting(s.accounts[x].status) ==> s.accounts[x].clock.None?)
      && var clock := Apply(s, c).accounts[x].clock;
         if s.accounts[x].clock.Some? then clock == s.accounts[x].clock else clock == Some(c.now) || clock.None?
  {
    if x !in s.accounts {
      NewRowsAreNotPastDue(s, c, x);
    } else if c.Deliver? {
      WebhookClock(s, c.e, c.now, x);
    } else {
      OthersNeverEnter(s, c, x);
    }
  }

  /**
   In every run the clock of a past-due row is the one it carried in, if it carried one, and else the time
   it entered `past_due`, however many failures follow.
   */
  lemma {:induction false} ClockIsCarriedOrEntry(s: Store, commands: seq<Command>, x: Key)
    requires Initial(s) && (forall c :: c in commands ==> WellFormed(c)) && IsPastDue(Run(s, commands), x)
    ensures Run(s, commands).accounts[x].clock.Some? ==> Run(s, commands).accounts[x].clock == GraceFrom(s, commands, x)
    ensures CarriedIn(s, commands, x).Some? ==> Run(s, commands).accounts[x].clock.Some?
  {
    if commands != [] {
      var n := |commands| - 1;
      RunsKeepInv(s, commands[..n]);
      EntryStep(Run(s, commands[..n]), commands[n], x);
      if IsPastDue(Run(s, commands[..n]), x) {
        ClockIsCarriedOrEntry(s, commands[..n], x);
      }
    }
  }

  /** A stamped row's clock is its entry time exactly when it carried no other clock in. */
  lemma ClockIsEntryExactly(s: Store, commands: seq<Command>, x: Key)
    requires Initial(s) && (forall c :: c in commands ==> WellFormed(c)) && IsPastDue(Run(s, commands), x)
    requires Run(s, commands).accounts[x].clock.Some?
    ensures Run(s, commands).accounts[x].clock == Entered(s, commands, x)
      <==> CarriedIn(s, commands, x).None? || CarriedIn(s, commands, x) == Entered(s, commands, x)
  {
    ClockIsCarriedOrEntry(s, commands, x);
  }

  /** The tenant is on Free and its row dropped, or neither moved. */
  predicate DroppedOrKept(before: Store, after: Store, t: Id, dropped: bool) {
    var k := Key(t, Stripe);
    && k in before.accounts && k in after.accounts && t in before.tiers && t in after.tiers
    && if dropped then after.tiers[t] == Free && after.accounts[k] == Dropped(before.accounts[k])
       else after.tiers[t] == before.tiers[t] && after.accounts[k] == before.accounts[k]
  }

  /**
   In every run a sweep drops a past-due primary exactly when 72 hours have passed since then and Stripe
   takes the cancellation: then the tenant is on Free, otherwise nothing about it moves.
   */
  lemma SweepDropsExactlyAfterGrace(s: Store, commands: seq<Command>, t: Id, now: Time, cancels: set<Id>)
    requires Initial(s) && (forall c :: c in commands ==> WellFormed(c))
    requires IsPastDue(Run(s, commands), Key(t, Stripe)) && Run(s, commands).accounts[Key(t, Stripe)].primary
    ensures var graceFrom := GraceFrom(s, commands, Key(t, Stripe));
      && graceFrom.Some?
      && DroppedOrKept(Run(s, commands), Run(s, commands + [RunSweep(now, cancels)]), t,
                       now >= graceFrom.value + 3 * DAY && t in cancels)
  {
    StampedFromGrace(s, commands, t);
    RunsKeepInv(s, commands);
    SweepDropsOverdue(Run(s, commands), t, now, cancels);
    OneMoreSweep(s, commands, now, cancels);
  }

  lemma OneMoreSweep(s: Store, commands: seq<Command>, now: Time, cancels: set<Id>)
    ensures Run(s, commands + [RunSweep(now, cancels)]) == Sweep(Run(s, commands), now, cancels)
  {
    var all := commands + [RunSweep(now, cancels)];
    assert all[..|commands|] == commands && all[|commands|] == RunSweep(now, cancels);
  }

  /** A past-due primary row is stamped, with the time its grace counts from. */
  lemma StampedFromGrace(s: Store, commands: seq<Command>, t: Id)
    requires Initial(s) && (forall c :: c in commands ==> WellFormed(c))
    requires IsPastDue(Run(s, commands), Key(t, Stripe)) && Run(s, commands).accounts[Key(t, Stripe)].primary
    ensures var clock := Run(s, commands).accounts[Key(t, Stripe)].clock;
      clock.Some? && clock == GraceFrom(s, commands, Key(t, Stripe))
  {
    RunsKeepInv(s, commands);
    StampedByShape(Run(s, commands), t);
    ClockIsCarriedOrEntry(s, commands, Key(t, Stripe));
  }

  lemma StampedByShape(s: Store, t: Id)
    requires Inv(s) && IsPastDue(s, Key(t, Stripe)) && s.accounts[Key(t, Stripe)].primary
    ensures s.accounts[Key(t, Stripe)].clock.Some?
  {
  }

  /** In one sweep, by the clock the row carries. */
  lemma SweepDropsOverdue(s: Store, t: Id, now: Time, cancels: set<Id>)
    requires Inv(s) && IsPastDue(s, Key(t, Stripe)) && s.accounts[Key(t, Stripe)].primary
    requires s.accounts[Key(t, Stripe)].clock.Some?
    ensures DroppedOrKept(s, Sweep(s, now, cancels), t,
      now >= s.accounts[Key(t, Stripe)].clock.value + GRACE && t in cancels)
  {
  }

  // ---------------------------------------------------------------- when no clock is carried in

  ghost predicate StripeOrder(s: Store, commands: seq<Command>) {
    && (forall c :: c in commands ==> WellFormed(c))
    && (forall i :: 0 <= i < |commands| ==> PastDueOnlyFromLive(Run(s, commands[..i]), commands[i]))
  }

  lemma PrefixInOrder(s: Store, commands: seq<Command>)
    requires StripeOrder(s, commands) && commands != []
    ensures StripeOrder(s, commands[..|commands| - 1])
  {
    var n := |commands| - 1;
    forall i | 0 <= i < n ensures PastDueOnlyFromLive(Run(s, commands[..n][..i]), commands[..n][i]) {
      assert commands[..n][..i] == commands[..i];
    }
  }

  /** Entering from a live status, a row has no clock to carry. */
  lemma LiveEntryCarriesNothing(s: Store, c: Command, x: Key)
    requires Inv(s) && WellFormed(c) && PastDueOnlyFromLive(s, c) && IsPastDue(Apply(s, c), x) && !IsPastDue(s, x)
    ensures x in s.accounts && s.accounts[x].clock.None?
  {
    EntryStep(s, c, x);
    WebhookClock(s, c.e, c.now, x);
  }

  /** When Stripe reports `past_due` only from live statuses, the clock is the entry time. */
  lemma {:induction false} ClockIsEntryTime(s: Store, commands: seq<Command>, x: Key)
    requires Initial(s) && StripeOrder(s, commands) && IsPastDue(Run(s, commands), x)
    ensures CarriedIn(s, commands, x).None? && GraceFrom(s, commands, x) == Entered(s, commands, x)
    ensures Run(s, commands).accounts[x].clock.Some? ==> Run(s, commands).accounts[x].clock == Entered(s, commands, x)
  {
    ClockIsCarriedOrEntry(s, commands, x);
    if commands != [] {
      var n := |commands| - 1;
      PrefixInOrder(s, commands);
      RunsKeepInv(s, commands[..n]);
      if EntersNow(s, commands, x) {
        LiveEntryCarriesNothing(Run(s, commands[..n]), commands[n], x);
      } else {
        ClockIsEntryTime(s, commands[..n], x);
      }
    }
  }

  // ---------------------------------------------------------------- a clock left over

  /** A failed invoice, then a status that is neither active nor trialing, then `past_due` again. */
  function LapsingRun(t: Id, customer: Id, sub: Id, first: Time, again: Time): seq<Command> {
    Purchases(t, customer, [(Update(customer, Paid(sub)), first), (InvoiceFailed(Some(customer), Some(sub)), first),
                            (Update(customer, Paid(sub).(status := NoPlan)), again),
                            (Update(customer, Paid(sub).(status := PastDue)), again)])
  }

  function FailedRow(customer: Id, sub: Id, first: Time): Account {
    UpsertedRow(NewRow(Some(customer), NoPlan, Free, false), Paid(sub), Priced(Pro), Cleared, first).(
      primary := true, status := PastDue, clock := Some(first))
  }

  function LapsedRow(customer: Id, sub: Id, first: Time, again: Time): Account {
    UpsertedRow(FailedRow(customer, sub, first), Paid(sub).(status := NoPlan), Priced(Pro), Cleared, again)
  }

  lemma LoneFailure(t: Id, row: Account, tier: Plan, customer: Id, sub: Id, now: Time)
    requires row.subscriptionId == Some(sub) && Granting(row.status) && row.clock.None?
    ensures Webhook(Lone(t, row, tier), InvoiceFailed(Some(customer), Some(sub)), now)
      == Lone(t, row.(status := PastDue, clock := Some(now)), tier)
  {
    var s, k := Lone(t, row, tier), Key(t, Stripe);
    FoundByItsSubscription(s.accounts, k, sub);
    assert s.accounts[k := row.(status := PastDue, clock := Some(now))]
      == map[k := row.(status := PastDue, clock := Some(now))];
  }

  lemma UntilFailed(t: Id, customer: Id, sub: Id, first: Time)
    ensures var bought := CheckoutUpsert(Store(map[t := Free], map[], map[], map[]), t, customer);
      Webhook(Webhook(bought, Update(customer, Paid(sub)), first), InvoiceFailed(Some(customer), Some(sub)), first)
      == Lone(t, FailedRow(customer, sub, first), Pro)
  {
    FirstCheckout(t, customer);
    var bought := NewRow(Some(customer), NoPlan, Free, false);
    LoneUpsert(t, bought, Free, Paid(sub), first);
    LoneFailure(t, UpsertedRow(bought, Paid(sub), Priced(Pro), Cleared, first).(primary := true), Pro,
                customer, sub, first);
  }

  lemma LapsingRunEnds(t: Id, customer: Id, sub: Id, first: Time, again: Time)
    ensures var s, all := Store(map[t := Free], map[], map[], map[]), LapsingRun(t, customer, sub, first, again);
      && Run(s, all[..4]) == Lone(t, LapsedRow(customer, sub, first, again), Pro)
      && Run(s, all) == Lone(t, LapsedRow(customer, sub, first, again).(status := PastDue), Pro)
  {
    var p := Paid(sub);
    UntilFailed(t, customer, sub, first);
    var failed, lapsed := FailedRow(customer, sub, first), LapsedRow(customer, sub, first, again);
    LoneUpsert(t, failed, Pro, p.(status := NoPlan), again);
    LoneUpsert(t, lapsed, Pro, p.(status := PastDue), again);
    assert UpsertedRow(lapsed, p.(status := PastDue), Priced(Pro), Cleared, again) == lapsed.(status := PastDue);
    RunPurchases(Store(map[t := Free], map[], map[], map[]), t, customer, (Update(customer, p), first),
                 (InvoiceFailed(Some(customer), Some(sub)), first), (Update(customer, p.(status := NoPlan)), again),
                 (Update(customer, p.(status := PastDue)), again),
                 Lone(t, failed, Pro), Lone(t, lapsed, Pro), Lone(t, lapsed.(status := PastDue), Pro));
  }

  /**
   A clock does get carried in, on a run from an empty database: the row enters `past_due` at `again`, any
   time after the first failure, and is dropped 72 hours after `first`.
   */
  lemma LeftoverClockDropsEarly(t: Id, customer: Id, sub: Id, first: Time, again: Time)
    ensures var s, all, k :=
      Store(map[t := Free], map[], map[], map[]), LapsingRun(t, customer, sub, first, again), Key(t, Stripe);
      && Initial(s) && (forall c :: c in all ==> WellFormed(c)) && IsPastDue(Run(s, all), k)
      && Entered(s, all, k) == Some(again) && CarriedIn(s, all, k) == Some(first)
      && Run(s, all + [RunSweep(first + GRACE, {t})]).tiers == map[t := Free]
  {
    var s, all := Store(map[t := Free], map[], map[], map[]), LapsingRun(t, customer, sub, first, again);
    LapsingRunEnds(t, customer, sub, first, again);
    LapsingRunEnters(t, customer, sub, first, again);
    OneMoreSweep(s, all, first + GRACE, {t});
    LoneSweep(t, LapsedRow(customer, sub, first, again).(status := PastDue), first);
  }

  lemma LapsingRunEnters(t: Id, customer: Id, sub: Id, first: Time, again: Time)
    ensures var s, all, k :=
      Store(map[t := Free], map[], map[], map[]), LapsingRun(t, customer, sub, first, again), Key(t, Stripe);
      IsPastDue(Run(s, all), k) && Entered(s, all, k) == Some(again) && CarriedIn(s, all, k) == Some(first)
  {
    var s, all, k :=
      Store(map[t := Free], map[], map[], map[]), LapsingRun(t, customer, sub, first, again), Key(t, Stripe);
    LapsingRunEnds(t, customer, sub, first, again);
    assert Run(s, all).accounts[k].status == PastDue && Run(s, all[..4]).accounts[k].status == NoPlan;
    assert Run(s, all[..4]).accounts[k].clock == Some(first);
    assert all[4] == Deliver(Update(customer, Paid(sub).(status := PastDue)), again);
    assert EntersNow(s, all, k);
  }

  lemma LoneSweep(t: Id, row: Account, stamped: Time)
    requires row.status == PastDue && row.primary && row.clock == Some(stamped) && row.subscriptionId.Some?
    ensures Sweep(Lone(t, row, Pro), stamped + GRACE, {t}).tiers == map[t := Free]
  {
    assert Overdue(Lone(t, row, Pro), t, stamped + GRACE);
  }

  // ---------------------------------------------------------------- reminders

  /** The reminder a sweep queues for a tenant, if its row is due one; the key is what makes a repeat harmless. */
  function ReminderFor(s: Store, t: Id, now: Time): Option<Reminder> {
    if RemindableRow(s, t, now) then Some(DueReminder(s, t, now)) else None
  }

  ghost function QueuedBy(s: Store, now: Time): set<Reminder> {
    set k | k in s.accounts && ReminderFor(s, k.tenant, now).Some? :: ReminderFor(s, k.tenant, now).value
  }

  /** Every reminder a run's sweeps queue. */
  ghost function Reminders(s: Store, commands: seq<Command>): set<Reminder> {
    if commands == [] then {}
    else
      var n := |commands| - 1;
      var earlier := Reminders(s, commands[..n]);
      if commands[n].RunSweep? then earlier + QueuedBy(Run(s, commands[..n]), commands[n].now) else earlier
  }

  /**
   At command `i` a sweep found the tenant's primary Stripe row past due with this stamp, on this day of its
   grace period.
   */
  ghost predicate SweepFinds(s: Store, commands: seq<Command>, i: int, r: Reminder)
    requires 0 <= i < |commands|
  {
    && commands[i].RunSweep? && IsPastDue(Run(s, commands[..i]), Key(r.tenant, Stripe))
    && var row := Run(s, commands[..i]).accounts[Key(r.tenant, Stripe)];
    && row.primary && row.clock == Some(r.started)
    && commands[i].now < r.started + 3 * DAY && r.day == HighestDueDay(commands[i].now - r.started)
  }

  lemma QueuedExactly(s: Store, now: Time, r: Reminder)
    ensures r in QueuedBy(s, now) <==> ReminderFor(s, r.tenant, now) == Some(r)
  {
    if ReminderFor(s, r.tenant, now) == Some(r) {
      assert Key(r.tenant, Stripe) in s.accounts;
    }
  }

  /** A run queues a reminder exactly when some sweep of it found the row it names, on the day it names. */
  lemma {:induction false} RemindersAreWhatSweepsFind(s: Store, commands: seq<Command>, r: Reminder)
    ensures r in Reminders(s, commands) <==> exists i :: 0 <= i < |commands| && SweepFinds(s, commands, i, r)
  {
    if commands != [] {
      var n := |commands| - 1;
      RemindersAreWhatSweepsFind(s, commands[..n], r);
      forall i | 0 <= i < n ensures SweepFinds(s, commands[..n], i, r) <==> SweepFinds(s, commands, i, r) {
        assert commands[..n][..i] == commands[..i];
      }
      if commands[n].RunSweep? {
        QueuedExactly(Run(s, commands[..n]), commands[n].now, r);
        assert r in QueuedBy(Run(s, commands[..n]), commands[n].now) <==> SweepFinds(s, commands, n, r);
      }
    }
  }

  /** The day a reminder names is the number of whole days since the stamp, and none is sent at or after 72 hours. */
  lemma ReminderDayIsElapsedDays(s: Store, t: Id, now: Time)
    requires ReminderFor(s, t, now).Some? && now >= ReminderFor(s, t, now).value.started
    ensures var r := ReminderFor(s, t, now).value; var days := (now - r.started) / DAY;
      days < 3 && r.day == if days == 0 then Day0 else if days == 1 then Day1 else Day2
  {
  }

  /** So one stamp has at most three reminder keys: one for each day on which a sweep found it. */
  lemma AtMostThreeReminders(s: Store, commands: seq<Command>, t: Id, started: Time)
    ensures var queued := set r | r in Reminders(s, commands) && r.tenant == t && r.started == started;
      && |queued| <= 3
      && forall d :: Reminder(t, started, d) in queued <==>
           exists i :: 0 <= i < |commands| && SweepFinds(s, commands, i, Reminder(t, started, d))
  {
    var queued := set r | r in Reminders(s, commands) && r.tenant == t && r.started == started;
    var days := {Reminder(t, started, Day0), Reminder(t, started, Day1), Reminder(t, started, Day2)};
    forall r | r in queued ensures r in days {
      assert r.day == Day0 || r.day == Day1 || r.day == Day2;
    }
    Sets.SubsetIsNoLarger(queued, days);
    forall d ensures Reminder(t, started, d) in queued <==>
      exists i :: 0 <= i < |commands| && SweepFinds(s, commands, i, Reminder(t, started, d))
    {
      RemindersAreWhatSweepsFind(s, commands, Reminder(t, started, d));
    }
  }
}
