/**
 Token top-ups through the webhook ledger: the handler of `BillingModel`, run under the ledger's
 protocol, credits each distinct paid session once, however often its event is delivered.
 */
module TopUpLedger {
  import opened Wrappers
  import Billing = BillingModel
  import opened WebhookLedger

  /** What an attempt reads: the normalised event, with what Stripe answered it, and the clock. */
  datatype Attempt = Attempt(event: Billing.Event, now: Billing.Time)

  /** The tenant and the tokens of a paid top-up session. */
  function Purchase(event: Billing.Event): Option<(TenantId, int)> {
    if event.CheckoutCompleted? && event.session.Some? && event.session.value.TopUp?
       && event.session.value.tenant.Some? && event.session.value.tokens > 0
    then Some((event.session.value.tenant.value, event.session.value.tokens))
    else None
  }

  function TokensFor(event: Billing.Event, t: TenantId): int {
    if Purchase(event).Some? && Purchase(event).value.0 == t then Purchase(event).value.1 else 0
  }

  /** A tenant without a row has bought nothing. */
  function Balance(s: Billing.Store, t: TenantId): int {
    if t in s.topUps then s.topUps[t] else 0
  }

  /** The one statement a top-up runs, on a store that holds nothing but the balance. */
  ghost function Credit(event: Billing.Event, now: Billing.Time, balance: int): Option<int> {
    if Purchase(event).None? then Some(balance)
    else
      var t := Purchase(event).value.0;
      match Billing.Handle(Billing.Store(map[], map[], map[], map[t := balance]), event, now)
      case Threw => None
      case Done(s, _) => Some(Balance(s, t))
  }

  /** The ledger whose rows are the top-up balances and whose handler is `Billing.Handle`. */
  ghost function TopUpWorld(lockKey: EventId -> int): World<int, Attempt> {
    World(lockKey,
      (_, input: Attempt, _) => if Purchase(input.event).Some? then Some(Purchase(input.event).value.0) else None,
      (_, input: Attempt, balance) => Credit(input.event, input.now, balance))
  }

  /** Every handler moves every balance of every store by exactly the tokens bought for that tenant. */
  lemma HandlerCredits(s: Billing.Store, event: Billing.Event, now: Billing.Time, t: TenantId)
    ensures Balance(Billing.Webhook(s, event, now), t) == Balance(s, t) + TokensFor(event, t)
    ensures Purchase(event).Some? && Purchase(event).value.0 == t ==>
      Credit(event, now, Balance(s, t)) == Some(Balance(Billing.Webhook(s, event, now), t))
  {
  }

  /** The tokens one tenant bought, over the applications of a run. */
  function Bought(history: seq<Entry<Attempt>>, t: TenantId): int {
    if history == [] then 0
    else Bought(history[..|history| - 1], t) + TokensFor(history[|history| - 1].input.event, t)
  }

  /** The tokens an attempt pays out, whoever bought them. */
  function Paid(id: EventId, input: Attempt): int {
    if Purchase(input.event).Some? then Purchase(input.event).value.1 else 0
  }

  lemma CreditAddsTokens(event: Billing.Event, now: Billing.Time, balance: int)
    ensures Credit(event, now, balance) == Some(balance + Paid("", Attempt(event, now)))
  {
    if Purchase(event).Some? {
      var t := Purchase(event).value.0;
      HandlerCredits(Billing.Store(map[], map[], map[], map[t := balance]), event, now, t);
    }
  }

  /** The tenant an attempt wrote is the one that bought the tokens, if the ledger knows it. */
  lemma WroteTheBuyer(lockKey: EventId -> int, init: State<int, Attempt>, steps: seq<Step<Attempt>>,
                      entry: Entry<Attempt>)
    requires Quiet(init) && EntryTargeted(TopUpWorld(lockKey), init, steps, entry)
    ensures var bought := Purchase(entry.input.event);
      entry.tenant == if bought.Some? && bought.value.0 in init.billing then Some(bought.value.0) else None
  {
    var world := TopUpWorld(lockKey);
    var n :| LookedUp(world, init, steps, n, entry.event, entry.input, entry.tenant);
    TenantsStay(world, init, steps[..n]);
    assert forall t :: t in Run(world, init, steps[..n]).billing <==> t in init.billing.Keys;
  }

  /** Whoever's rows an application wrote, the tokens went to the tenant that bought them. */
  lemma {:induction false} CreditedIsBought(lockKey: EventId -> int, init: State<int, Attempt>,
                                            steps: seq<Step<Attempt>>,
                                            history: seq<Entry<Attempt>>, t: TenantId)
    requires Quiet(init) && t in init.billing
    requires forall i :: 0 <= i < |history| ==> EntryTargeted(TopUpWorld(lockKey), init, steps, history[i])
    ensures Credited(history, Paid, t) == Bought(history, t)
    decreases |history|
  {
    if history != [] {
      var n := |history| - 1;
      CreditedIsBought(lockKey, init, steps, history[..n], t);
      assert EntryTargeted(TopUpWorld(lockKey), init, steps, history[n]);
      WroteTheBuyer(lockKey, init, steps, history[n]);
    }
  }

  /**
   Over every interleaving of deliveries, handlers that throw, crashes and redeliveries, a tenant's balance
   is what it was plus the tokens it bought in the distinct events processed since, each counted once.
   */
  lemma TopUpsAreCreditedOnce(lockKey: EventId -> int, init: State<int, Attempt>, steps: seq<Step<Attempt>>,
                              t: TenantId)
    requires Quiet(init) && t in init.billing
    ensures var s := Run(TopUpWorld(lockKey), init, steps);
      && t in s.billing && s.billing[t] == init.billing[t] + Bought(s.history, t)
      && Distinct(s.history)
      && (forall id :: Applied(s.history, id) <==> Done(s.log, id) && !Done(init.log, id))
  {
    var world := TopUpWorld(lockKey);
    forall id, input, balance
      ensures world.apply(id, input, balance) == Some(balance + Paid(id, input))
    {
      CreditAddsTokens(input.event, input.now, balance);
    }
    CreditIsCountedOnce(world, init, steps, balance => balance, Paid, t);
    WritesGoWhereLookupPoints(world, init, steps);
    CreditedIsBought(lockKey, init, steps, Run(world, init, steps).history, t);
  }
}
