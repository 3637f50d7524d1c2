/** The trial reservation table over whole runs: who may insert, claim and release a tenant's one row. */
module TrialReservations {
  import opened Wrappers
  import opened BillingModel

  /** The onboarding grant's row carries no checkout session. */
  predicate Onboarded(s: Store, t: Id) {
    t in s.reservations && s.reservations[t].session.None?
  }

  predicate ClaimedBy(s: Store, t: Id, sub: Id) {
    t in s.reservations && s.reservations[t].subscription == Some(sub)
  }

  /** Only the expiry of the very session recorded, on a row no subscription claimed, removes it. */
  predicate OwnExpiry(s: Store, c: Command, t: Id)
    requires t in s.reservations
  {
    && c.Deliver? && c.e.CheckoutExpired? && c.e.tenant == Some(t)
    && c.e.sessionId.Some? && s.reservations[t] == Reservation(c.e.sessionId, None)
  }

  /** A row is removed exactly by its own expiry, keeps its session, and once claimed never changes. */
  ghost predicate Kept(s: Store, c: Command, s': Store, t: Id) {
    t in s.reservations ==>
      && (t !in s'.reservations <==> OwnExpiry(s, c, t))
      && (t in s'.reservations ==> s'.reservations[t].session == s.reservations[t].session)
      && (s.reservations[t].subscription.Some? ==> t in s'.reservations && s'.reservations[t] == s.reservations[t])
  }

  lemma WebhookKeeps(s: Store, e: Event, now: Time, t: Id)
    ensures Kept(s, Deliver(e, now), Webhook(s, e, now), t)
  {
    if e.CheckoutExpired? {
    } else if e.CheckoutCompleted? {
    } else if RowEvent(e) && Resolve(s.accounts, e).Some? && Handle(s, e, now).Done? {
      var s' := Handle(s, e, now).store;
      assert s'.reservations == s.reservations
        || (e.SubscriptionUpsert? && e.payload.Some?
            && s'.reservations
               == Claimed(s.reservations, Resolve(s.accounts, e).value.tenant, e.payload.value.subscriptionId));
    }
  }

  lemma StepKeeps(s: Store, c: Command, t: Id)
    ensures Kept(s, c, Apply(s, c), t)
  {
    if c.Deliver? { WebhookKeeps(s, c.e, c.now, t); }
  }

  /** A claimed reservation keeps its subscription id through every later run. */
  lemma {:induction false} ClaimIsForever(s: Store, commands: seq<Command>, t: Id, sub: Id)
    requires ClaimedBy(s, t, sub)
    ensures ClaimedBy(Run(s, commands), t, sub) && Run(s, commands).reservations[t] == s.reservations[t]
  {
    if commands != [] {
      var n := |commands| - 1;
      ClaimIsForever(s, commands[..n], t, sub);
      StepKeeps(Run(s, commands[..n]), commands[n], t);
    }
  }

  lemma {:induction false} OnboardedForever(s: Store, commands: seq<Command>, t: Id)
    requires Onboarded(s, t)
    ensures Onboarded(Run(s, commands), t)
  {
    if commands != [] {
      var n := |commands| - 1;
      OnboardedForever(s, commands[..n], t);
      StepKeeps(Run(s, commands[..n]), commands[n], t);
    }
  }

  /** The step granted the onboarding trial. */
  predicate Granted(s: Store, c: Command, t: Id) {
    c.Grant? && c.t == t && GrantTrial(s, t, c.trialEnd).1
  }

  ghost function Grants(s: Store, commands: seq<Command>, t: Id): nat {
    if commands == [] then 0
    else
      var n := |commands| - 1;
      Grants(s, commands[..n], t) + if Granted(Run(s, commands[..n]), commands[n], t) then 1 else 0
  }

  /** Whatever happens between them, no two grants succeed, and none after a claim: the counter's exact value. */
  lemma {:induction false} OnboardingTrialAtMostOnce(s: Store, commands: seq<Command>, t: Id)
    ensures Grants(s, commands, t) <= 1
    ensures Grants(s, commands, t) == 1 ==> Onboarded(Run(s, commands), t)
    ensures t in s.reservations && (s.reservations[t].session.None? || s.reservations[t].subscription.Some?) ==>
      Grants(s, commands, t) == 0
  {
    if commands != [] {
      var n := |commands| - 1;
      OnboardingTrialAtMostOnce(s, commands[..n], t);
      StepKeeps(Run(s, commands[..n]), commands[n], t);
      if Onboarded(s, t) {
        OnboardedForever(s, commands[..n], t);
      }
      if t in s.reservations && s.reservations[t].subscription.Some? {
        ClaimIsForever(s, commands[..n], t, s.reservations[t].subscription.value);
      }
    }
  }

  /** An expired checkout removes its own unclaimed row and touches no other reservation, row or tier. */
  lemma ExpiryIsItsOwn(s: Store, session: Option<Id>, t: Option<Id>, now: Time)
    ensures var s' := Webhook(s, CheckoutExpired(session, t), now);
      && s'.accounts == s.accounts && s'.tiers == s.tiers && s'.topUps == s.topUps
      && (forall u :: u in s'.reservations <==>
            u in s.reservations && !(t == Some(u) && session.Some? && s.reservations[u] == Reservation(session, None)))
      && (forall u :: u in s'.reservations ==> s'.reservations[u] == s.reservations[u])
  {
    forall u ensures var s' := Webhook(s, CheckoutExpired(session, t), now);
      u in s'.reservations <==>
        u in s.reservations && !(t == Some(u) && session.Some? && s.reservations[u] == Reservation(session, None))
    {
      if u in s.reservations {
        StepKeeps(s, Deliver(CheckoutExpired(session, t), now), u);
      }
    }
  }

  /** After a trial expires and for ever after, the onboarding trial is not granted again. */
  lemma ExpiredTrialIsFinal(s: Store, t: Id, trialEnd: Time, between: seq<Command>, now: Time, later: seq<Command>)
    requires GrantTrial(s, t, trialEnd).1
    ensures var expired := ExpireTrial(Run(GrantTrial(s, t, trialEnd).0, between), t, now);
      Grants(expired, later, t) == 0 && Onboarded(Run(expired, later), t)
  {
    var granted := GrantTrial(s, t, trialEnd).0;
    OnboardedForever(granted, between, t);
    var expired := ExpireTrial(Run(granted, between), t, now);
    OnboardingTrialAtMostOnce(expired, later, t);
    OnboardedForever(expired, later, t);
  }
}
