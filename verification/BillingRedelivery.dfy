/** Stripe repeats and reorders deliveries: what a second copy of an event does, and which pairs commute. */
module BillingRedelivery {
  import opened Wrappers
  import opened BillingModel
  import opened BillingInvariants
  import opened BillingOverrides

  // ---------------------------------------------------------------- the same event twice

  /** The handler itself does not remember deliveries: a token top-up is credited again. */
  predicate Credits(e: Event) {
    e.CheckoutCompleted? && e.session.Some? && e.session.value.TopUp? && e.session.value.tenant.Some?
      && e.session.value.tokens > 0
  }

  /** The row already reads as a cancelled one, and so does its tenant. */
  predicate AlreadyDropped(s: Store, k: Key)
    requires k in s.accounts
  {
    s.accounts[k] == Dropped(s.accounts[k])
      && (s.accounts[k].primary ==> k.tenant in s.tiers && s.tiers[k.tenant] == Free)
  }

  /**
   Once the deleted subscription's row has lost its id, the customer id leads a second copy to another tenant's
   row.
   */
  ghost predicate HitsAnother(s: Store, e: Event) {
    && e.SubscriptionDeleted? && e.refetch != ApiError
    && FindSubscription(s.accounts, e.subscriptionId).Some?
    && var other := FindCustomer(s.accounts, e.customerId);
    && other.Some? && other != FindSubscription(s.accounts, e.subscriptionId)
    && s.accounts[other.value].subscriptionId.None? && !AlreadyDropped(s, other.value)
  }

  /** The store an accepted upsert leaves: its row written, and crowned when it grants access. */
  lemma UpsertStore(s: Store, e: Event, k: Key, now: Time)
    requires e.SubscriptionUpsert? && k in s.accounts && Writes(s, e, k, now)
    ensures var p, once := e.payload.value, HandleUpsert(s, e, k, now).store;
      && k in once.accounts && UniqueIds(once.accounts)
      && once.accounts[k]
         == UpsertedRow(s.accounts[k], p, e.price, e.schedule, now)
            .(primary := Granting(p.status) || s.accounts[k].primary)
      && (Granting(p.status) ==> Crown(once.accounts, k) == once.accounts)
      && (Granting(p.status) ==> k.tenant in once.tiers && once.tiers[k.tenant] == p.plan)
      && once.reservations == Claimed(s.reservations, k.tenant, p.subscriptionId)
  {
    var written := s.accounts[k := UpsertedRow(s.accounts[k], e.payload.value, e.price, e.schedule, now)];
    if Granting(e.payload.value.status) {
      CrownedIds(written, k);
      assert Crown(Crown(written, k), k) == Crown(written, k);
    }
  }

  lemma UpsertTwice(s: Store, e: Event, k: Key, first: Time, second: Time)
    requires Inv(s) && e.SubscriptionUpsert? && Normalized(e) && k in s.accounts && Writes(s, e, k, first)
    ensures var once := HandleUpsert(s, e, k, first).store;
      k in once.accounts && Writes(once, e, k, second) && HandleUpsert(once, e, k, second).store == once
  {
    var once, p := HandleUpsert(s, e, k, first).store, e.payload.value;
    UpsertStore(s, e, k, first);
    UpsertedTwice(s.accounts[k], p, e.price, e.schedule, first, second, once.accounts[k].primary);
    RepeatedUpsert(once, e, k, second);
  }

  /** An upsert that finds everything as it would write it changes nothing. */
  lemma RepeatedUpsert(s: Store, e: Event, k: Key, now: Time)
    requires e.SubscriptionUpsert? && k in s.accounts && UniqueIds(s.accounts)
    requires UpsertSkip(e, s.accounts[k]).None? && e.schedule != ById(None)
    requires var p := e.payload.value;
      && UpsertedRow(s.accounts[k], p, e.price, e.schedule, now) == s.accounts[k]
      && (Granting(p.status) ==> Crown(s.accounts, k) == s.accounts)
      && (Granting(p.status) ==> k.tenant in s.tiers && s.tiers[k.tenant] == p.plan)
      && s.reservations == Claimed(s.reservations, k.tenant, p.subscriptionId)
    ensures Writes(s, e, k, now) && HandleUpsert(s, e, k, now).store == s
  {
    assert s.accounts[k := s.accounts[k]] == s.accounts;
    if Granting(e.payload.value.status) {
      assert s.tiers[k.tenant := e.payload.value.plan] == s.tiers;
    }
  }

  lemma UpsertedTwice(row: Account, p: Subscription, price: Price, schedule: Schedule, first: Time, second: Time,
                      primary: bool)
    requires p.subscriptionId.Some?
    requires primary == (Granting(p.status) || row.primary)
    ensures var once := UpsertedRow(row, p, price, schedule, first).(primary := primary);
      UpsertedRow(once, p, price, schedule, second) == once
  {
  }

  lemma InvoiceTwice(row: Account, e: Event, first: Time, second: Time)
    requires e.InvoicePaid? || e.InvoiceFailed?
    ensures var once := InvoiceRow(e, row, first); InvoiceRow(e, once, second) == once
  {
  }

  lemma UpsertRedelivered(s: Store, e: Event, first: Time, second: Time)
    requires Inv(s) && e.SubscriptionUpsert? && Normalized(e)
    ensures Webhook(Webhook(s, e, first), e, second) == Webhook(s, e, first)
  {
    var found := Resolve(s.accounts, e);
    if found.Some? && Writes(s, e, found.value, first) {
      var k, once := found.value, Webhook(s, e, first);
      UpsertIsSound(s, e, k, first);
      UpsertTwice(s, e, k, first, second);
      FoundByItsSubscription(once.accounts, k, e.subscriptionId.value);
    } else if found.Some? && UpsertSkip(e, s.accounts[found.value]).None? && e.schedule != ById(None) {
      assert UpsertedIds(s.accounts[found.value], e, first) == UpsertedIds(s.accounts[found.value], e, second);
      RefusedAgain(s.accounts, found.value,
        UpsertedRow(s.accounts[found.value], e.payload.value, e.price, e.schedule, first),
                   UpsertedRow(s.accounts[found.value], e.payload.value, e.price, e.schedule, second));
    }
  }

  function UpsertedIds(row: Account, e: Event, now: Time): (Option<Id>, Option<Id>)
    requires e.SubscriptionUpsert? && e.payload.Some?
  {
    var after := UpsertedRow(row, e.payload.value, e.price, e.schedule, now);
    (after.subscriptionId, after.customerId)
  }

  lemma RefusedAgain(accounts: Accounts, k: Key, one: Account, two: Account)
    requires one.subscriptionId == two.subscriptionId && one.customerId == two.customerId
    ensures UniqueIds(accounts[k := one]) == UniqueIds(accounts[k := two])
  {
  }

  lemma InvoiceRedelivered(s: Store, e: Event, first: Time, second: Time)
    requires Inv(s) && (e.InvoicePaid? || e.InvoiceFailed?)
    ensures Webhook(Webhook(s, e, first), e, second) == Webhook(s, e, first)
  {
    var found := Resolve(s.accounts, e);
    if found.Some? {
      var k, row := found.value, InvoiceRow(e, s.accounts[found.value], first);
      assert Webhook(s, e, first) == WithRow(s, k, row);
      InvoiceTwice(s.accounts[k], e, first, second);
      SameIdsFindTheSame(s.accounts, k, row, e);
      RepeatedInvoice(WithRow(s, k, row), e, k, second);
    }
  }

  lemma RepeatedInvoice(s: Store, e: Event, k: Key, now: Time)
    requires (e.InvoicePaid? || e.InvoiceFailed?) && Resolve(s.accounts, e) == Some(k)
    requires InvoiceRow(e, s.accounts[k], now) == s.accounts[k]
    ensures Webhook(s, e, now) == s
  {
    assert s.accounts[k := s.accounts[k]] == s.accounts;
  }

  /** Rewriting the found row without touching its ids finds it again. */
  lemma SameIdsFindTheSame(accounts: Accounts, k: Key, row: Account, e: Event)
    requires RowEvent(e) && Resolve(accounts, e) == Some(k) && UniqueIds(accounts)
    requires row.subscriptionId == accounts[k].subscriptionId && row.customerId == accounts[k].customerId
    ensures Resolve(accounts[k := row], e) == Some(k)
  {
    var rewritten := accounts[k := row];
    SameIdsStayUnique(accounts, k, row);
    if FindSubscription(accounts, e.subscriptionId).Some? {
      FoundByItsSubscription(rewritten, k, e.subscriptionId.value);
    } else {
      FoundByItsCustomer(rewritten, k, e.customerId.value);
      forall x | e.subscriptionId.Some? ensures !HasSubscription(rewritten, x, e.subscriptionId.value) {
        assert !HasSubscription(accounts, x, e.subscriptionId.value);
        assert !HasSubscription(accounts, k, e.subscriptionId.value);
      }
      assert FindSubscription(rewritten, e.subscriptionId).None?;
    }
  }

  lemma DeletionRedelivered(s: Store, e: Event, first: Time, second: Time)
    requires Inv(s) && e.SubscriptionDeleted? && Normalized(e)
    ensures Webhook(Webhook(s, e, first), e, second) == Webhook(s, e, first) <==> !HitsAnother(s, e)
  {
    var found := Resolve(s.accounts, e);
    if found.Some? && e.refetch != ApiError {
      var k, once := found.value, Drop(s, found.value);
      assert Webhook(s, e, first) == once;
      DropIsSound(s, k);
      DeletedIsGone(s, e, k);
      SecondDeletion(s, e, k, second);
    }
  }

  lemma DeletedIsGone(s: Store, e: Event, k: Key)
    requires Inv(s) && e.SubscriptionDeleted? && Normalized(e) && Resolve(s.accounts, e) == Some(k)
    ensures FindSubscription(Drop(s, k).accounts, e.subscriptionId).None?
    ensures FindCustomer(Drop(s, k).accounts, e.customerId) == FindCustomer(s.accounts, e.customerId)
  {
    var after := Drop(s, k).accounts;
    forall x ensures !HasSubscription(after, x, e.subscriptionId.value) {
      if x != k && HasSubscription(after, x, e.subscriptionId.value) {
        assert HasSubscription(s.accounts, x, e.subscriptionId.value);
        FoundByItsSubscription(s.accounts, x, e.subscriptionId.value);
      }
    }
    SameIdsStayUnique(s.accounts, k, Dropped(s.accounts[k]));
    var c := FindCustomer(s.accounts, e.customerId);
    if c.Some? {
      FoundByItsCustomer(after, c.value, e.customerId.value);
    } else if e.customerId.Some? {
      forall x ensures !HasCustomer(after, x, e.customerId.value) {
        assert !HasCustomer(s.accounts, x, e.customerId.value);
      }
    }
  }

  lemma SecondDeletion(s: Store, e: Event, k: Key, second: Time)
    requires Inv(s) && e.SubscriptionDeleted? && Normalized(e) && e.refetch != ApiError
      && Resolve(s.accounts, e) == Some(k)
    requires FindSubscription(Drop(s, k).accounts, e.subscriptionId).None?
    requires FindCustomer(Drop(s, k).accounts, e.customerId) == FindCustomer(s.accounts, e.customerId)
    ensures Webhook(Drop(s, k), e, second) == Drop(s, k) <==> !HitsAnother(s, e)
  {
    var once, c := Drop(s, k), FindCustomer(s.accounts, e.customerId);
    if c == Some(k) {
      assert once.accounts[k := Dropped(once.accounts[k])] == once.accounts;
    } else if c.Some? && s.accounts[c.value].subscriptionId.None? {
      SecondDeletionElsewhere(s, e, k, c.value, second);
    }
  }

  lemma SecondDeletionElsewhere(s: Store, e: Event, k: Key, x: Key, second: Time)
    requires Inv(s) && e.SubscriptionDeleted? && Normalized(e) && e.refetch != ApiError && k in s.accounts
      && k.provider == Stripe
    requires FindSubscription(Drop(s, k).accounts, e.subscriptionId).None?
    requires FindCustomer(Drop(s, k).accounts, e.customerId) == Some(x)
    requires x != k && x in s.accounts && x.provider == Stripe && s.accounts[x].subscriptionId.None?
    ensures Webhook(Drop(s, k), e, second) == Drop(s, k) <==> AlreadyDropped(s, x)
  {
    var once := Drop(s, k);
    assert once.accounts[x] == s.accounts[x] && x.tenant != k.tenant;
    assert Resolve(once.accounts, e) == Some(x);
    assert Webhook(once, e, second) == Drop(once, x);
    DropIsSound(s, k);
    DropAgain(once, x);
  }

  lemma DropAgain(s: Store, k: Key)
    requires Inv(s) && k in s.accounts
    ensures Drop(s, k) == s <==> AlreadyDropped(s, k)
  {
    if AlreadyDropped(s, k) {
      assert s.accounts[k := Dropped(s.accounts[k])] == s.accounts;
    } else if s.accounts[k] != Dropped(s.accounts[k]) {
      assert Drop(s, k).accounts[k] != s.accounts[k];
    } else {
      assert Drop(s, k).tiers[k.tenant] != s.tiers[k.tenant];
    }
  }

  lemma CheckoutRedelivered(s: Store, e: Event, first: Time, second: Time)
    requires Inv(s) && e.CheckoutCompleted?
    ensures Webhook(Webhook(s, e, first), e, second) == Webhook(s, e, first) <==> !Credits(e)
  {
    var once := Webhook(s, e, first);
    if Credits(e) {
      var t := e.session.value.tenant.value;
      assert Webhook(once, e, second).topUps[t] == once.topUps[t] + e.session.value.tokens;
    } else if HandleCheckout(s, e).Done? && HandleCheckout(s, e).outcome == CheckoutBookkept {
      var k := Key(e.session.value.tenant.value, Stripe);
      assert once.accounts[k := once.accounts[k]] == once.accounts;
    }
  }

  lemma SameAnswersRedelivered(s: Store, e: Event, first: Time, second: Time)
    requires Inv(s) && Normalized(e)
    ensures Webhook(Webhook(s, e, first), e, second) == Webhook(s, e, first) <==> !Credits(e) && !HitsAnother(s, e)
  {
    if e.SubscriptionUpsert? { UpsertRedelivered(s, e, first, second); }
    else if e.SubscriptionDeleted? { DeletionRedelivered(s, e, first, second); }
    else if e.InvoicePaid? || e.InvoiceFailed? { InvoiceRedelivered(s, e, first, second); }
    else if e.CheckoutCompleted? { CheckoutRedelivered(s, e, first, second); }
  }

  /** Stripe does not answer what the handler asks it: the schedule, the subscription again, or the session. */
  predicate StripeFails(e: Event) {
    || (e.SubscriptionUpsert? && e.schedule == ById(None))
    || (e.SubscriptionDeleted? && e.deletedId.Some? && e.refetch == ApiError)
    || (e.CheckoutCompleted? && e.session == Some(FetchFailed))
  }

  lemma FailureLeavesNothing(s: Store, e: Event, now: Time)
    requires StripeFails(e)
    ensures Webhook(s, e, now) == s
  {
  }

  /** The same event, with what Stripe answered this copy: its schedule, or whether the subscription is still there. */
  predicate SameDelivery(e: Event, again: Event) {
    || again == e
    || (e.SubscriptionUpsert? && again.SubscriptionUpsert? && e.schedule.ById? && again.schedule.ById?
        && again == e.(schedule := again.schedule))
    || (e.SubscriptionDeleted? && again.SubscriptionDeleted? && again == e.(refetch := again.refetch))
  }

  /** `b` is `a` but for what a schedule's answer writes. */
  predicate SameButSchedule(a: Account, b: Account) {
    b == a.(pendingPlan := b.pendingPlan, pendingAt := b.pendingAt, scheduleId := b.scheduleId)
  }

  lemma LaterScheduleWins(a: Account, b: Account, p: Subscription, price: Price, schedule: Schedule, now: Time)
    requires SameButSchedule(a, b) && schedule.ById? && schedule.fetched.Some?
    ensures UpsertedRow(a, p, price, schedule, now) == UpsertedRow(b, p, price, schedule, now)
  {
  }

  lemma ScheduleIsApart(row: Account, p: Subscription, price: Price, one: Schedule, two: Schedule, now: Time)
    requires one.ById? && two.ById?
    ensures SameButSchedule(UpsertedRow(row, p, price, one, now), UpsertedRow(row, p, price, two, now))
  {
  }

  /** What two answers leave differs on the row alone, and there in the schedule alone. */
  lemma AnswersDifferOnSchedule(s: Store, e: Event, again: Event, k: Key, now: Time)
    requires Inv(s) && e.SubscriptionUpsert? && Normalized(e) && k in s.accounts && Writes(s, e, k, now)
    requires SameDelivery(e, again) && !StripeFails(again)
    ensures Writes(s, again, k, now)
    ensures var one, two := Landed(s, e, k, now), Landed(s, again, k, now);
      && k in one.accounts && k in two.accounts && SameButSchedule(one.accounts[k], two.accounts[k])
      && two == one.(accounts := one.accounts[k := two.accounts[k]])
  {
    if again != e {
      var p := e.payload.value;
      var a, b := UpsertedRow(s.accounts[k], p, e.price, e.schedule, now),
                  UpsertedRow(s.accounts[k], p, e.price, again.schedule, now);
      ScheduleIsApart(s.accounts[k], p, e.price, e.schedule, again.schedule, now);
      RefusedAgain(s.accounts, k, a, b);
      assert s.accounts[k := b] == s.accounts[k := a][k := b];
      CrownCommutes(s.accounts[k := a], k, b);
    } else {
      var one := HandleUpsert(s, e, k, now).store;
      UpsertStore(s, e, k, now);
      assert one.accounts == one.accounts[k := one.accounts[k]];
    }
  }

  lemma SecondAnswerErasesFirst(one: Store, two: Store, again: Event, k: Key, now: Time)
    requires again.SubscriptionUpsert? && again.schedule.ById? && again.schedule.fetched.Some?
    requires k in one.accounts && k in two.accounts && SameButSchedule(one.accounts[k], two.accounts[k])
    requires two == one.(accounts := one.accounts[k := two.accounts[k]])
    requires UpsertSkip(again, one.accounts[k]).None?
    ensures HandleUpsert(one, again, k, now) == HandleUpsert(two, again, k, now)
  {
    var p := again.payload.value;
    LaterScheduleWins(one.accounts[k], two.accounts[k], p, again.price, again.schedule, now);
    var row := UpsertedRow(one.accounts[k], p, again.price, again.schedule, now);
    assert two.accounts[k := row] == one.accounts[k := row];
  }

  function Landed(s: Store, e: Event, k: Key, now: Time): Store
    requires e.SubscriptionUpsert? && k in s.accounts && Writes(s, e, k, now)
  {
    HandleUpsert(s, e, k, now).store
  }

  lemma LandsAs(s: Store, e: Event, k: Key, now: Time)
    requires e.SubscriptionUpsert? && Resolve(s.accounts, e) == Some(k) && Writes(s, e, k, now)
    ensures Webhook(s, e, now) == Landed(s, e, k, now)
  {
  }

  /** After an accepted upsert a copy of the event finds the same row and is written there. */
  lemma CopyFindsTheRow(s: Store, e: Event, again: Event, k: Key, first: Time, second: Time)
    requires Inv(s) && e.SubscriptionUpsert? && Normalized(e) && k in s.accounts && k.provider == Stripe
    requires Writes(s, e, k, first) && SameDelivery(e, again) && !StripeFails(again)
    ensures var once := Landed(s, e, k, first);
      k in once.accounts && Resolve(once.accounts, again) == Some(k) && Writes(once, again, k, second)
  {
    var once := Landed(s, e, k, first);
    UpsertStore(s, e, k, first);
    FoundByItsSubscription(once.accounts, k, e.subscriptionId.value);
    OwnEventIsWritten(once, again, k, second);
  }

  lemma OwnEventIsWritten(s: Store, e: Event, k: Key, now: Time)
    requires UniqueIds(s.accounts) && e.SubscriptionUpsert? && Normalized(e) && k in s.accounts
    requires s.accounts[k].subscriptionId == e.subscriptionId
    requires (e.terminal || e.price != UnknownPrice) && e.schedule != ById(None)
    ensures Writes(s, e, k, now)
  {
    SameIdsStayUnique(s.accounts, k, UpsertedRow(s.accounts[k], e.payload.value, e.price, e.schedule, now));
  }

  lemma UpsertAnsweredTwice(s: Store, e: Event, again: Event, first: Time, second: Time)
    requires Inv(s) && e.SubscriptionUpsert? && Normalized(e) && SameDelivery(e, again) && again != e
    requires !StripeFails(e) && !StripeFails(again)
    ensures Webhook(Webhook(s, e, first), again, second) == Webhook(Webhook(s, again, first), again, second)
  {
    var found := Resolve(s.accounts, e);
    if found.Some? {
      if Writes(s, e, found.value, first) {
        WrittenAnsweredTwice(s, e, again, found.value, first, second);
      } else {
        NeitherWrites(s, e, again, found.value, first);
      }
    }
  }

  lemma WrittenAnsweredTwice(s: Store, e: Event, again: Event, k: Key, first: Time, second: Time)
    requires Inv(s) && e.SubscriptionUpsert? && Normalized(e) && SameDelivery(e, again) && again != e
    requires !StripeFails(e) && !StripeFails(again) && Resolve(s.accounts, e) == Some(k) && Writes(s, e, k, first)
    ensures Webhook(Webhook(s, e, first), again, second) == Webhook(Webhook(s, again, first), again, second)
  {
    AnswersDifferOnSchedule(s, e, again, k, first);
    LandsAs(s, e, k, first);
    LandsAs(s, again, k, first);
    CopyFindsTheRow(s, e, again, k, first, second);
    CopyFindsTheRow(s, again, again, k, first, second);
    CopiesLandAlike(Landed(s, e, k, first), Landed(s, again, k, first), again, k, second);
  }

  lemma CopiesLandAlike(one: Store, two: Store, again: Event, k: Key, now: Time)
    requires again.SubscriptionUpsert? && again.schedule.ById? && again.schedule.fetched.Some?
    requires k in one.accounts && k in two.accounts && SameButSchedule(one.accounts[k], two.accounts[k])
    requires two == one.(accounts := one.accounts[k := two.accounts[k]])
    requires Resolve(one.accounts, again) == Some(k) == Resolve(two.accounts, again)
    requires Writes(one, again, k, now) && Writes(two, again, k, now)
    ensures Webhook(one, again, now) == Webhook(two, again, now)
  {
    LandsAs(one, again, k, now);
    LandsAs(two, again, k, now);
    SecondAnswerErasesFirst(one, two, again, k, now);
  }

  lemma NeitherWrites(s: Store, e: Event, again: Event, k: Key, now: Time)
    requires e.SubscriptionUpsert? && e.payload.Some? && k in s.accounts && !Writes(s, e, k, now)
    requires SameDelivery(e, again) && !StripeFails(e) && !StripeFails(again)
    ensures !Writes(s, again, k, now)
  {
    if UpsertSkip(e, s.accounts[k]).None? {
      RefusedAgain(s.accounts, k, UpsertedRow(s.accounts[k], e.payload.value, e.price, e.schedule, now),
                   UpsertedRow(s.accounts[k], e.payload.value, e.price, again.schedule, now));
    }
  }

  /**
   Delivering an event twice, at any two times and with whatever Stripe answers each copy, leaves the rows as
   delivering it once with the second answers, exactly unless it credits tokens or it is a deletion whose
   customer id leads the second copy to another tenant's row.
   */
  lemma RedeliveryIsHarmless(s: Store, e: Event, again: Event, first: Time, second: Time)
    requires Inv(s) && Normalized(e) && SameDelivery(e, again) && !StripeFails(e) && !StripeFails(again)
    ensures Webhook(Webhook(s, e, first), again, second) == Webhook(s, again, first)
      <==> !Credits(e) && !HitsAnother(s, e)
  {
    if e.SubscriptionUpsert? && again != e {
      UpsertAnsweredTwice(s, e, again, first, second);
    } else {
      assert Webhook(s, e, first) == Webhook(s, again, first);
    }
    SameAnswersRedelivered(s, again, first, second);
    assert HitsAnother(s, again) == HitsAnother(s, e);
  }

  /** Of two deliveries of which Stripe fails one, the rows show the other one only. */
  lemma RedeliveryAfterFailure(s: Store, e: Event, again: Event, first: Time, second: Time)
    requires StripeFails(e) || StripeFails(again)
    ensures Webhook(Webhook(s, e, first), again, second)
      == if StripeFails(e) then Webhook(s, again, second) else Webhook(s, e, first)
  {
    if StripeFails(e) {
      FailureLeavesNothing(s, e, first);
    } else {
      FailureLeavesNothing(Webhook(s, e, first), again, second);
    }
  }

  function Subscribed(customer: Id, sub: Id): Account {
    UpsertedRow(NewRow(Some(customer), NoPlan, Free, false), Paid(sub), Priced(Pro), Cleared, 0).(primary := true)
  }

  function Waiting(t: Id, u: Id, customer: Id, other: Id): Store {
    Store(map[t := Free, u := Free],
          map[Key(t, Stripe) := NewRow(Some(customer), NoPlan, Free, false),
            Key(u, Stripe) := NewRow(Some(other), NoPlan, Free, false)],
          map[], map[])
  }

  function OneSubscribed(t: Id, u: Id, customer: Id, other: Id, sub: Id): Store {
    Store(map[t := Pro, u := Free],
          map[Key(t, Stripe) := Subscribed(customer, sub), Key(u, Stripe) := NewRow(Some(other), NoPlan, Free, false)],
            map[], map[])
  }

  /** Two tenants open a checkout, and the first one buys. */
  function TwoCheckouts(t: Id, u: Id, customer: Id, other: Id, sub: Id): seq<Command> {
    [StartCheckout(t, customer), StartCheckout(u, other), Deliver(Update(customer, Paid(sub)), 0)]
  }

  lemma BothWait(t: Id, u: Id, customer: Id, other: Id)
    requires t != u && customer != other
    ensures CheckoutUpsert(CheckoutUpsert(Store(map[t := Free, u := Free], map[], map[], map[]), t, customer), u, other)
      == Waiting(t, u, customer, other)
  {
    var mine, theirs := NewRow(Some(customer), NoPlan, Free, false), NewRow(Some(other), NoPlan, Free, false);
    var accounts: Accounts := map[];
    assert accounts[Key(t, Stripe) := mine] == map[Key(t, Stripe) := mine];
    assert map[Key(t, Stripe) := mine][Key(u, Stripe) := theirs] == Waiting(t, u, customer, other).accounts;
  }

  lemma FirstOneFound(t: Id, u: Id, customer: Id, other: Id, sub: Id)
    requires t != u && customer != other
    ensures Resolve(Waiting(t, u, customer, other).accounts, Update(customer, Paid(sub))) == Some(Key(t, Stripe))
  {
    FoundByItsCustomer(Waiting(t, u, customer, other).accounts, Key(t, Stripe), customer);
  }

  lemma FirstOneCrowned(t: Id, u: Id, customer: Id, other: Id, sub: Id)
    requires t != u && customer != other
    ensures var k := Key(t, Stripe);
      var bought := UpsertedRow(NewRow(Some(customer), NoPlan, Free, false), Paid(sub), Priced(Pro), Cleared, 0);
      var written := Waiting(t, u, customer, other).accounts[k := bought];
      UniqueIds(written) && Crown(written, k) == OneSubscribed(t, u, customer, other, sub).accounts
  {
  }

  lemma FirstOneBuys(t: Id, u: Id, customer: Id, other: Id, sub: Id)
    requires t != u && customer != other
    ensures Webhook(Waiting(t, u, customer, other), Update(customer, Paid(sub)), 0)
      == OneSubscribed(t, u, customer, other, sub)
  {
    var s, k, e := Waiting(t, u, customer, other), Key(t, Stripe), Update(customer, Paid(sub));
    FirstOneFound(t, u, customer, other, sub);
    FirstOneCrowned(t, u, customer, other, sub);
    assert s.tiers[t := Pro] == map[t := Pro, u := Free];
    assert HandleUpsert(s, e, k, 0).store == OneSubscribed(t, u, customer, other, sub);
  }

  lemma TwoCheckoutsRun(t: Id, u: Id, customer: Id, other: Id, sub: Id)
    requires t != u && customer != other
    ensures Run(Store(map[t := Free, u := Free], map[], map[], map[]), TwoCheckouts(t, u, customer, other, sub))
      == OneSubscribed(t, u, customer, other, sub)
  {
    var s, all := Store(map[t := Free, u := Free], map[], map[], map[]), TwoCheckouts(t, u, customer, other, sub);
    assert all[..2][..1] == all[..1] && all[..1][..0] == [];
    assert Run(s, all[..1]) == Apply(s, all[0]);
    assert Run(s, all[..2]) == Apply(Run(s, all[..1]), all[1]);
    BothWait(t, u, customer, other);
    FirstOneBuys(t, u, customer, other, sub);
  }

  /**
   That happens in a run from an empty database: the second copy marks tenant `u`, who never subscribed, as
   cancelled.
   */
  lemma SecondDeletionCancelsAnother(t: Id, u: Id, customer: Id, other: Id, sub: Id, first: Time, second: Time)
    requires t != u && customer != other
    ensures var empty := Store(map[t := Free, u := Free], map[], map[], map[]);
      var s, e := Run(empty, TwoCheckouts(t, u, customer, other, sub)), Deletion(other, sub);
      && Initial(empty) && (forall c :: c in TwoCheckouts(t, u, customer, other, sub) ==> WellFormed(c))
      && Normalized(e)
      && Key(u, Stripe) in Webhook(s, e, first).accounts
      && Webhook(s, e, first).accounts[Key(u, Stripe)].status == NoPlan
      && Key(u, Stripe) in Webhook(Webhook(s, e, first), e, second).accounts
      && Webhook(Webhook(s, e, first), e, second).accounts[Key(u, Stripe)].status == Cancelled
  {
    TwoCheckoutsRun(t, u, customer, other, sub);
    SecondCopyHits(t, u, customer, other, sub, first, second);
  }

  lemma SecondCopyHits(t: Id, u: Id, customer: Id, other: Id, sub: Id, first: Time, second: Time)
    requires t != u && customer != other
    ensures var s, e := OneSubscribed(t, u, customer, other, sub), Deletion(other, sub);
      && Webhook(s, e, first) == Drop(s, Key(t, Stripe))
      && Webhook(Drop(s, Key(t, Stripe)), e, second) == Drop(Drop(s, Key(t, Stripe)), Key(u, Stripe))
  {
    var s, e := OneSubscribed(t, u, customer, other, sub), Deletion(other, sub);
    FirstCopyFinds(t, u, customer, other, sub);
    SecondCopyFinds(t, u, customer, other, sub);
  }

  lemma FirstCopyFinds(t: Id, u: Id, customer: Id, other: Id, sub: Id)
    requires t != u && customer != other
    ensures Resolve(OneSubscribed(t, u, customer, other, sub).accounts, Deletion(other, sub)) == Some(Key(t, Stripe))
  {
    FoundByItsSubscription(OneSubscribed(t, u, customer, other, sub).accounts, Key(t, Stripe), sub);
  }

  lemma SecondCopyFinds(t: Id, u: Id, customer: Id, other: Id, sub: Id)
    requires t != u && customer != other
    ensures Resolve(Drop(OneSubscribed(t, u, customer, other, sub), Key(t, Stripe)).accounts, Deletion(other, sub))
      == Some(Key(u, Stripe))
  {
    var once := Drop(OneSubscribed(t, u, customer, other, sub), Key(t, Stripe)).accounts;
    FoundByItsCustomer(once, Key(u, Stripe), other);
    assert FindSubscription(once, Some(sub)).None?;
  }

  // ---------------------------------------------------------------- checkout and creation in either order

  predicate SamePurchase(checkout: Event, created: Event, t: Id, customer: Id, sub: Id) {
    && checkout == CheckoutCompleted(Some(SubscriptionMode(Some(t), Some(customer), sub)))
    && created.SubscriptionUpsert? && created.created && Normalized(created)
    && created.customerId == Some(customer) && created.subscriptionId == Some(sub)
  }

  lemma BookedAlready(s: Store, checkout: Event, created: Event, t: Id, customer: Id, sub: Id, now: Time)
    requires UniqueIds(s.accounts) && SamePurchase(checkout, created, t, customer, sub)
    requires Key(t, Stripe) in s.accounts && s.accounts[Key(t, Stripe)].customerId == Some(customer)
    requires s.accounts[Key(t, Stripe)].subscriptionId == Some(sub)
    ensures Webhook(s, checkout, now) == s
  {
    var k := Key(t, Stripe);
    assert s.accounts[k := s.accounts[k]] == s.accounts;
  }

  lemma UpsertKeepsIds(s: Store, e: Event, k: Key, now: Time, x: Key)
    requires e.SubscriptionUpsert? && Normalized(e) && k in s.accounts && x in s.accounts
      && HandleUpsert(s, e, k, now).Done?
    ensures var s' := HandleUpsert(s, e, k, now).store;
      && x in s'.accounts && s'.accounts[x].customerId == s.accounts[x].customerId
      && (s'.accounts[x].subscriptionId == s.accounts[x].subscriptionId
         || (k == x && s'.accounts[x].subscriptionId == e.subscriptionId))
  {
    if Writes(s, e, k, now) && Granting(e.payload.value.status) {
      var written := s.accounts[k := UpsertedRow(s.accounts[k], e.payload.value, e.price, e.schedule, now)];
      assert HandleUpsert(s, e, k, now).store.accounts == Crown(written, k);
    }
  }

  /** No event about one row gives or takes another row's ids, and a creation leaves its row with the subscription. */
  lemma CreationKeepsIds(s: Store, created: Event, now: Time, x: Key)
    requires Inv(s) && created.SubscriptionUpsert? && Normalized(created) && x in s.accounts
    ensures var s' := Webhook(s, created, now);
      && x in s'.accounts && s'.accounts[x].customerId == s.accounts[x].customerId
      && (s'.accounts[x].subscriptionId == s.accounts[x].subscriptionId
          || (Resolve(s.accounts, created) == Some(x) && s'.accounts[x].subscriptionId == created.subscriptionId))
  {
    if Resolve(s.accounts, created).Some? && Handle(s, created, now).Done? {
      UpsertKeepsIds(s, created, Resolve(s.accounts, created).value, now, x);
    }
  }

  lemma CommuteWhenBooked(s: Store, checkout: Event, created: Event, t: Id, customer: Id, sub: Id, now: Time,
                          later: Time)
    requires Inv(s) && SamePurchase(checkout, created, t, customer, sub)
    requires Key(t, Stripe) in s.accounts && s.accounts[Key(t, Stripe)].customerId == Some(customer)
    requires s.accounts[Key(t, Stripe)].subscriptionId == Some(sub)
    ensures Webhook(Webhook(s, checkout, now), created, later) == Webhook(Webhook(s, created, later), checkout, now)
  {
    BookedAlready(s, checkout, created, t, customer, sub, now);
    CreationKeepsIds(s, created, later, Key(t, Stripe));
    WebhookIsSound(s, created, later);
    BookedAlready(Webhook(s, created, later), checkout, created, t, customer, sub, now);
  }

  /** Another row holds the subscription: the checkout is refused by the index before and after. */
  lemma CommuteWhenTaken(s: Store, checkout: Event, created: Event, t: Id, customer: Id, sub: Id, x: Key, now: Time,
                         later: Time)
    requires Inv(s) && SamePurchase(checkout, created, t, customer, sub)
    requires Key(t, Stripe) in s.accounts && s.accounts[Key(t, Stripe)].subscriptionId != Some(sub)
    requires HasSubscription(s.accounts, x, sub)
    ensures Webhook(Webhook(s, checkout, now), created, later) == Webhook(Webhook(s, created, later), checkout, now)
  {
    var k := Key(t, Stripe);
    Refused(s, checkout, t, customer, sub, x, now);
    FoundByItsSubscription(s.accounts, x, sub);
    CreationKeepsIds(s, created, later, k);
    CreationKeepsIds(s, created, later, x);
    Refused(Webhook(s, created, later), checkout, t, customer, sub, x, now);
  }

  lemma Refused(s: Store, checkout: Event, t: Id, customer: Id, sub: Id, x: Key, now: Time)
    requires checkout == CheckoutCompleted(Some(SubscriptionMode(Some(t), Some(customer), sub)))
    requires Key(t, Stripe) in s.accounts && x != Key(t, Stripe) && HasSubscription(s.accounts, x, sub)
    ensures Webhook(s, checkout, now) == s
  {
    var k := Key(t, Stripe);
    var booked := s.accounts[k].(customerId := Some(customer), subscriptionId := Some(sub));
    assert s.accounts[k := booked][x].subscriptionId == s.accounts[k := booked][k].subscriptionId;
    assert !UniqueIds(s.accounts[k := booked]);
  }

  function Booked(s: Store, k: Key, sub: Id): Store
    requires k in s.accounts
  {
    WithRow(s, k, s.accounts[k].(subscriptionId := Some(sub)))
  }

  lemma BookedIsUnique(accounts: Accounts, k: Key, sub: Id)
    requires UniqueIds(accounts) && k in accounts && forall x :: !HasSubscription(accounts, x, sub)
    requires k.provider == Stripe
    ensures UniqueIds(accounts[k := accounts[k].(subscriptionId := Some(sub))])
  {
    assert forall x :: x in accounts && x.provider == Stripe ==> !HasSubscription(accounts, x, sub);
  }

  /** A creation reads the same before and after its subscription id is booked on its row. */
  lemma BookingIsInvisible(s: Store, created: Event, k: Key, sub: Id, later: Time)
    requires created.SubscriptionUpsert? && Normalized(created) && created.subscriptionId == Some(sub)
    requires k in s.accounts && s.accounts[k].subscriptionId.None?
    ensures HandleUpsert(Booked(s, k, sub), created, k, later)
      == match HandleUpsert(s, created, k, later)
         case Threw => Threw
         case Done(after, outcome) => Done(if Writes(s, created, k, later) then after else Booked(s, k, sub), outcome)
  {
    var row := s.accounts[k];
    var booked := row.(subscriptionId := Some(sub));
    assert UpsertSkip(created, booked) == UpsertSkip(created, row);
    assert UpsertedRow(booked, created.payload.value, created.price, created.schedule, later)
        == UpsertedRow(row, created.payload.value, created.price, created.schedule, later);
    var after := UpsertedRow(row, created.payload.value, created.price, created.schedule, later);
    assert Booked(s, k, sub).accounts[k := after] == s.accounts[k := after];
  }

  lemma CommuteWhenFree(s: Store, checkout: Event, created: Event, t: Id, customer: Id, sub: Id, now: Time, later: Time)
    requires Inv(s) && SamePurchase(checkout, created, t, customer, sub)
    requires Key(t, Stripe) in s.accounts && s.accounts[Key(t, Stripe)].customerId == Some(customer)
    requires s.accounts[Key(t, Stripe)].subscriptionId.None? && forall x :: !HasSubscription(s.accounts, x, sub)
    ensures Webhook(Webhook(s, checkout, now), created, later) == Webhook(Webhook(s, created, later), checkout, now)
  {
    var k, booked := Key(t, Stripe), Booked(s, Key(t, Stripe), sub);
    BookedIsUnique(s.accounts, k, sub);
    assert s.accounts[k].(customerId := Some(customer), subscriptionId := Some(sub))
      == s.accounts[k].(subscriptionId := Some(sub));
    assert Webhook(s, checkout, now) == booked;
    FoundByItsSubscription(booked.accounts, k, sub);
    FoundByItsCustomer(s.accounts, k, customer);
    assert Resolve(booked.accounts, created) == Some(k) == Resolve(s.accounts, created);
    BookingIsInvisible(s, created, k, sub, later);
    if Writes(s, created, k, later) {
      CreationKeepsIds(s, created, later, k);
      WebhookIsSound(s, created, later);
      BookedAlready(Webhook(s, created, later), checkout, created, t, customer, sub, now);
    }
  }

  /**
   A row that carries the purchase's customer id and no other subscription sees the two events in either order
   alike.
   */
  lemma CheckoutAndCreationCommute(s: Store, checkout: Event, created: Event, t: Id, customer: Id, sub: Id, now: Time,
                                   later: Time)
    requires Inv(s) && SamePurchase(checkout, created, t, customer, sub)
    requires Key(t, Stripe) in s.accounts && s.accounts[Key(t, Stripe)].customerId == Some(customer)
    requires s.accounts[Key(t, Stripe)].subscriptionId.None? || s.accounts[Key(t, Stripe)].subscriptionId == Some(sub)
    ensures Webhook(Webhook(s, checkout, now), created, later) == Webhook(Webhook(s, created, later), checkout, now)
  {
    if s.accounts[Key(t, Stripe)].subscriptionId.Some? {
      CommuteWhenBooked(s, checkout, created, t, customer, sub, now, later);
    } else if x :| HasSubscription(s.accounts, x, sub) {
      CommuteWhenTaken(s, checkout, created, t, customer, sub, x, now, later);
    } else {
      CommuteWhenFree(s, checkout, created, t, customer, sub, now, later);
    }
  }

  // ---------------------------------------------------------------- exactly when the order shows

  /**
   Nobody holds the subscription, no other row the customer, and the creation, coming first, does not write the
   row.
   */
  ghost predicate MissedIfFirst(s: Store, t: Id, customer: Id, sub: Id) {
    var k := Key(t, Stripe);
    && k in s.accounts && (forall x :: !HasSubscription(s.accounts, x, sub))
    && (forall x :: HasCustomer(s.accounts, x, customer) ==> x == k)
    && !(s.accounts[k].customerId == Some(customer) && s.accounts[k].subscriptionId.None?)
  }

  /**
   The event is skipped on the row, refused, or finds the row, the tier and the reservation as it would write
   them.
   */
  predicate Idle(s: Store, e: Event, k: Key, now: Time)
    requires e.SubscriptionUpsert? && k in s.accounts
  {
    var row := s.accounts[k];
    || UpsertSkip(e, row).Some? || e.schedule == ById(None)
    || (var p := e.payload.value;
        && UpsertedRow(row, p, e.price, e.schedule, now) == row
        && Claimed(s.reservations, k.tenant, p.subscriptionId) == s.reservations
        && (Granting(p.status) ==> row.primary && k.tenant in s.tiers && s.tiers[k.tenant] == p.plan))
  }

  lemma IdleExactly(s: Store, e: Event, k: Key, now: Time)
    requires UniqueIds(s.accounts) && UniquePrimary(s.accounts) && e.SubscriptionUpsert? && Normalized(e)
      && k in s.accounts
    requires s.accounts[k].subscriptionId == e.subscriptionId
    ensures (match HandleUpsert(s, e, k, now) case Threw => true case Done(after, _) => after == s)
      <==> Idle(s, e, k, now)
  {
    var row := s.accounts[k];
    if UpsertSkip(e, row).None? && e.schedule != ById(None) {
      var p, after := e.payload.value, UpsertedRow(row, e.payload.value, e.price, e.schedule, now);
      SameIdsStayUnique(s.accounts, k, after);
      if Idle(s, e, k, now) {
        assert s.accounts[k := row] == s.accounts;
        assert Granting(p.status) ==> Crown(s.accounts, k) == s.accounts && s.tiers[k.tenant := p.plan] == s.tiers;
      } else {
        var written := s.accounts[k := after];
        assert Crown(written, k)[k] == after.(primary := true) && written[k] == after;
        assert after.primary == row.primary;
      }
    }
  }

  function Rebooked(s: Store, k: Key, customer: Id, sub: Id): Store
    requires k in s.accounts
  {
    WithRow(s, k, s.accounts[k].(customerId := Some(customer), subscriptionId := Some(sub)))
  }

  lemma CheckoutBooks(s: Store, t: Id, customer: Id, sub: Id, now: Time)
    requires UniqueIds(s.accounts) && Key(t, Stripe) in s.accounts
    requires forall x :: HasSubscription(s.accounts, x, sub) || HasCustomer(s.accounts, x, customer) ==>
      x == Key(t, Stripe)
    ensures Webhook(s, CheckoutCompleted(Some(SubscriptionMode(Some(t), Some(customer), sub))), now)
      == Rebooked(s, Key(t, Stripe), customer, sub)
    ensures UniqueIds(Rebooked(s, Key(t, Stripe), customer, sub).accounts)
  {
    var k, after := Key(t, Stripe), Rebooked(s, Key(t, Stripe), customer, sub).accounts;
    forall x | x in s.accounts && x.provider == Stripe && x != k
      ensures after[x].subscriptionId != Some(sub) && after[x].customerId != Some(customer)
    {
      assert !HasSubscription(s.accounts, x, sub) && !HasCustomer(s.accounts, x, customer);
    }
  }

  /** The customer id is another row's, so the index refuses the checkout, before the creation and after it. */
  lemma CommuteWhenCustomerTaken(s: Store, checkout: Event, created: Event, t: Id, customer: Id, sub: Id, x: Key,
                                 now: Time, later: Time)
    requires Inv(s) && SamePurchase(checkout, created, t, customer, sub)
    requires Key(t, Stripe) in s.accounts && x != Key(t, Stripe) && HasCustomer(s.accounts, x, customer)
    ensures Webhook(Webhook(s, checkout, now), created, later) == Webhook(Webhook(s, created, later), checkout, now)
  {
    CustomerRefused(s, checkout, t, customer, sub, x, now);
    CreationKeepsIds(s, created, later, Key(t, Stripe));
    CreationKeepsIds(s, created, later, x);
    CustomerRefused(Webhook(s, created, later), checkout, t, customer, sub, x, now);
  }

  lemma CustomerRefused(s: Store, checkout: Event, t: Id, customer: Id, sub: Id, x: Key, now: Time)
    requires checkout == CheckoutCompleted(Some(SubscriptionMode(Some(t), Some(customer), sub)))
    requires Key(t, Stripe) in s.accounts && x != Key(t, Stripe) && HasCustomer(s.accounts, x, customer)
    ensures Webhook(s, checkout, now) == s
  {
    var k, booked :=
      Key(t, Stripe), s.accounts[Key(t, Stripe)].(customerId := Some(customer), subscriptionId := Some(sub));
    assert s.accounts[k := booked][x].customerId == s.accounts[k := booked][k].customerId;
    assert !UniqueIds(s.accounts[k := booked]);
  }

  /** A creation for its own subscription's row neither reads nor writes the customer id there. */
  lemma CustomerIsInvisible(s: Store, created: Event, k: Key, customer: Id, sub: Id, later: Time)
    requires created.SubscriptionUpsert? && Normalized(created) && created.subscriptionId == Some(sub)
    requires k in s.accounts && s.accounts[k].subscriptionId == Some(sub)
    requires UniqueIds(s.accounts) && UniqueIds(Rebooked(s, k, customer, sub).accounts)
    ensures HandleUpsert(Rebooked(s, k, customer, sub), created, k, later)
      == match HandleUpsert(s, created, k, later)
         case Threw => Threw
         case Done(after, outcome) => Done(Rebooked(after, k, customer, sub), outcome)
  {
    var row, moved := s.accounts[k], Rebooked(s, k, customer, sub);
    var p := created.payload.value;
    if UpsertSkip(created, row).None? && created.schedule != ById(None) {
      var after := UpsertedRow(row, p, created.price, created.schedule, later);
      assert UpsertedRow(moved.accounts[k], p, created.price, created.schedule, later)
        == after.(customerId := Some(customer));
      SameIdsStayUnique(s.accounts, k, after);
      SameIdsStayUnique(moved.accounts, k, after.(customerId := Some(customer)));
      assert moved.accounts[k := after.(customerId := Some(customer))]
        == s.accounts[k := after][k := after.(customerId := Some(customer))];
      CrownCommutes(s.accounts[k := after], k, after.(customerId := Some(customer)));
    }
  }

  lemma CrownCommutes(accounts: Accounts, k: Key, row: Account)
    requires k in accounts
    ensures Crown(accounts[k := row], k) == Crown(accounts, k)[k := row.(primary := true)]
  {
  }

  /** A checkout after the creation books the row that already holds the subscription. */
  lemma BookedAfterCreation(s: Store, created: Event, t: Id, customer: Id, sub: Id, now: Time, later: Time)
    requires Inv(s) && created.SubscriptionUpsert? && Normalized(created) && created.subscriptionId == Some(sub)
    requires HasSubscription(s.accounts, Key(t, Stripe), sub)
    requires forall x :: HasCustomer(s.accounts, x, customer) ==> x == Key(t, Stripe)
    ensures var after := Webhook(s, created, later);
      && Key(t, Stripe) in after.accounts
      && Webhook(after, CheckoutCompleted(Some(SubscriptionMode(Some(t), Some(customer), sub))), now)
         == Rebooked(after, Key(t, Stripe), customer, sub)
  {
    var k, after := Key(t, Stripe), Webhook(s, created, later);
    WebhookIsSound(s, created, later);
    CreationKeepsIds(s, created, later, k);
    OnlyHolder(after.accounts, k, sub);
    forall x | HasCustomer(after.accounts, x, customer) ensures x == k {
      CreationAddsNoRows(s, created, later, x);
      CreationKeepsIds(s, created, later, x);
      assert HasCustomer(s.accounts, x, customer);
    }
    CheckoutBooks(after, t, customer, sub, now);
  }

  lemma CommuteWhenOwned(s: Store, checkout: Event, created: Event, t: Id, customer: Id, sub: Id, now: Time,
                         later: Time)
    requires Inv(s) && SamePurchase(checkout, created, t, customer, sub)
    requires Key(t, Stripe) in s.accounts && s.accounts[Key(t, Stripe)].subscriptionId == Some(sub)
    requires forall x :: HasCustomer(s.accounts, x, customer) ==> x == Key(t, Stripe)
    ensures Webhook(Webhook(s, checkout, now), created, later) == Webhook(Webhook(s, created, later), checkout, now)
  {
    var k, booked := Key(t, Stripe), Rebooked(s, Key(t, Stripe), customer, sub);
    OnlyHolder(s.accounts, k, sub);
    CheckoutBooks(s, t, customer, sub, now);
    BookedAfterCreation(s, created, t, customer, sub, now, later);
    FoundByItsSubscription(s.accounts, k, sub);
    FoundByItsSubscription(booked.accounts, k, sub);
    CustomerIsInvisible(s, created, k, customer, sub, later);
  }

  lemma OnlyHolder(accounts: Accounts, k: Key, sub: Id)
    requires UniqueIds(accounts) && HasSubscription(accounts, k, sub)
    ensures forall x :: HasSubscription(accounts, x, sub) ==> x == k
  {
  }

  lemma CreationAddsNoRows(s: Store, created: Event, now: Time, x: Key)
    requires created.SubscriptionUpsert?
    ensures x in Webhook(s, created, now).accounts <==> x in s.accounts
  {
  }

  /** The creation finds no row or a row with another subscription, and changes nothing. */
  lemma CreationMisses(s: Store, created: Event, t: Id, customer: Id, sub: Id, later: Time)
    requires MissedIfFirst(s, t, customer, sub) && created.SubscriptionUpsert? && Normalized(created)
    requires created.customerId == Some(customer) && created.subscriptionId == Some(sub)
    ensures Webhook(s, created, later) == s
  {
    assert FindSubscription(s.accounts, created.subscriptionId).None?;
    var found := FindCustomer(s.accounts, created.customerId);
    if found.Some? {
      assert found.value == Key(t, Stripe) && !HasSubscription(s.accounts, found.value, sub);
      assert UpsertSkip(created, s.accounts[found.value]) == Some(SubscriptionMismatch);
    }
  }

  lemma OrderShowsWhenMissed(s: Store, checkout: Event, created: Event, t: Id, customer: Id, sub: Id, now: Time,
                             later: Time)
    requires Inv(s) && SamePurchase(checkout, created, t, customer, sub) && MissedIfFirst(s, t, customer, sub)
    ensures var k, booked := Key(t, Stripe), Rebooked(s, Key(t, Stripe), customer, sub);
      && Webhook(s, checkout, now) == booked && k in booked.accounts
      && (Webhook(booked, created, later) == Webhook(Webhook(s, created, later), checkout, now)
         <==> Idle(booked, created, k, later))
  {
    var k, booked := Key(t, Stripe), Rebooked(s, Key(t, Stripe), customer, sub);
    CheckoutBooks(s, t, customer, sub, now);
    CreationMisses(s, created, t, customer, sub, later);
    FoundByItsSubscription(booked.accounts, k, sub);
    IdleExactly(booked, created, k, later);
  }

  /**
   Over every store, the two events of one purchase leave the same rows in either order exactly unless the
   creation, coming first, misses the row the checkout books, and would have changed something on it.
   */
  lemma OrderMattersOtherwise(s: Store, checkout: Event, created: Event, t: Id, customer: Id, sub: Id, now: Time,
                              later: Time)
    requires Inv(s) && SamePurchase(checkout, created, t, customer, sub)
    ensures Webhook(Webhook(s, checkout, now), created, later) == Webhook(Webhook(s, created, later), checkout, now)
      <==> !MissedIfFirst(s, t, customer, sub)
           || Idle(Rebooked(s, Key(t, Stripe), customer, sub), created, Key(t, Stripe), later)
  {
    var k := Key(t, Stripe);
    if MissedIfFirst(s, t, customer, sub) {
      OrderShowsWhenMissed(s, checkout, created, t, customer, sub, now, later);
    } else if k !in s.accounts {
      CreationAddsNoRows(s, created, later, k);
    } else if x :| HasCustomer(s.accounts, x, customer) && x != k {
      CommuteWhenCustomerTaken(s, checkout, created, t, customer, sub, x, now, later);
    } else if s.accounts[k].subscriptionId == Some(sub) {
      CommuteWhenOwned(s, checkout, created, t, customer, sub, now, later);
    } else if x :| HasSubscription(s.accounts, x, sub) {
      CommuteWhenTaken(s, checkout, created, t, customer, sub, x, now, later);
    } else {
      CheckoutAndCreationCommute(s, checkout, created, t, customer, sub, now, later);
    }
  }

  /** It happens to a row a checkout under an earlier customer id left behind. */
  lemma OrderCanMatter(t: Id, earlier: Id, customer: Id, sub: Id, now: Time, later: Time)
    requires earlier != customer
    ensures var s := CheckoutUpsert(Store(map[t := Free], map[], map[], map[]), t, earlier);
      var checkout := CheckoutCompleted(Some(SubscriptionMode(Some(t), Some(customer), sub)));
      var created := Update(customer, Paid(sub));
      Inv(s) && SamePurchase(checkout, created, t, customer, sub)
      && Webhook(Webhook(s, checkout, now), created, later) != Webhook(Webhook(s, created, later), checkout, now)
  {
    var s, k := Lone(t, NewRow(Some(earlier), NoPlan, Free, false), Free), Key(t, Stripe);
    FirstCheckout(t, earlier);
    assert s.accounts[k].customerId == Some(earlier);
    OrderMattersOtherwise(s, CheckoutCompleted(Some(SubscriptionMode(Some(t), Some(customer), sub))),
      Update(customer, Paid(sub)),
                          t, customer, sub, now, later);
  }
}
